/** The application object's in-memory state and the handlers that change it: the push
    callbacks that overwrite a collection cache (main.py:235-249, main.py:993-1036), the
    dashboard refresh guarded by the `_updating_dashboard` flag (main.py:198-225, with the
    re-entrant call from `show_dashboard` at main.py:1107-1109), the refresh of the
    upcoming-events list (main.py:3557-3595, 3669-3673), and the calendar list that the
    events callback redraws (main.py:1052-1104).

    Widgets are reduced to what the handlers read or write: whether the content, dashboard
    and calendar-list frames exist, the current view, the text of the cadet-count label, how
    often the dashboard, the calendar list and the upcoming list were drawn, the methods handed to `root.after`, and the
    messages shown in error boxes. */
module App {
  import opened Py
  import Caches
  import Upcoming
  import Listeners
  import PyOrder

  /** The five collections the application caches. */
  datatype Collection = Cadets | Jobs | Events | Fundraisers | Contacts

  function Name(c: Collection): string {
    match c
    case Cadets => "cadets"
    case Jobs => "jobs"
    case Events => "events"
    case Fundraisers => "fundraisers"
    case Contacts => "contacts"
  }

  /** The cached data: the five collections, the upcoming-events list (empty at start-up)
      and how often that list was assigned and redrawn. */
  datatype Store = Store(cadets: Value, jobs: Value, events: Value, fundraisers: Value, contacts: Value,
                         upcoming: seq<Value>, redraws: nat)

  function CacheOf(s: Store, c: Collection): Value {
    match c
    case Cadets => s.cadets
    case Jobs => s.jobs
    case Events => s.events
    case Fundraisers => s.fundraisers
    case Contacts => s.contacts
  }

  /** `setattr(self, collection, v)`. */
  function WithCache(s: Store, c: Collection, v: Value): (r: Store)
    ensures CacheOf(r, c) == v
    ensures forall d :: d != c ==> CacheOf(r, d) == CacheOf(s, d)
    ensures r.upcoming == s.upcoming && r.redraws == s.redraws
  {
    match c
    case Cadets => s.(cadets := v)
    case Jobs => s.(jobs := v)
    case Events => s.(events := v)
    case Fundraisers => s.(fundraisers := v)
    case Contacts => s.(contacts := v)
  }

  /** The screens' side of the state: the re-entrancy flag, the current view, the
      cadet-count label's text (absent while no such label exists), how often the dashboard
      screen was built, whether the content and dashboard frames exist, whether the
      calendar's list frame exists, and how often the calendar list was drawn. */
  datatype View = View(updating: bool, current: Option<string>, countText: Option<string>, shows: nat,
                       contentFrame: bool, dashboardFrame: bool, calendarFrame: bool, calendarDraws: nat)

  /** `len(v)`: defined on strings, lists and dicts, a TypeError on anything else. */
  function Len(v: Value): (r: Result<nat>)
    ensures r.Ok? <==> v.Str? || v.List? || v.Dict?
    ensures r.Err? ==> r.exc.kind == TypeError
    ensures v.Str? ==> r == Ok(|v.s|)
    ensures v.List? ==> r == Ok(|v.items|)
    ensures v.Dict? ==> r == Ok(|v.entries|)
  {
    match v
    case Str(s) => Ok(|s|)
    case List(items) => Ok(|items|)
    case Dict(entries) => Ok(|entries|)
    case _ => Err(Exc(TypeError, "object of type '" + TypeName(v) + "' has no len()"))
  }

  /** The cadet-count label after `_update_dashboard_stats` (main.py:215-225): the cadet
      count when there is a content frame, a label and a countable cache; otherwise the
      label keeps its text, the TypeError of `len` being caught there. */
  function CountLabel(text: Option<string>, contentFrame: bool, cadets: Value): (r: Option<string>)
    ensures r.Some? <==> text.Some?
    ensures r != text ==> contentFrame && Len(cadets).Ok? && r == Some(NatToString(Len(cadets).value))
  {
    if !contentFrame || text.None? then text
    else match Len(cadets)
      case Ok(n) => Some(NatToString(n))
      case Err(_) => text
  }

  /** Refreshing the label twice in a row shows what refreshing it once does. */
  lemma {:induction false} CountLabelIdempotent(text: Option<string>, contentFrame: bool, cadets: Value)
    ensures CountLabel(CountLabel(text, contentFrame, cadets), contentFrame, cadets) == CountLabel(text, contentFrame, cadets)
  {
  }

  /** The view after `update_dashboard` (main.py:198-213). A call made while a refresh is
      running returns at once, and its `finally` still clears the flag. Otherwise the flag
      is raised, the label refreshed, the dashboard built when it is not the current view,
      and the flag cleared on the way out. */
  function AfterUpdate(v: View, cadets: Value): (r: View)
    ensures !r.updating
    ensures v.updating ==> r == v.(updating := false)
    ensures !v.updating ==> r.current == Some("dashboard") && r.countText == CountLabel(v.countText, v.contentFrame, cadets)
    ensures r.shows == v.shows + (if !v.updating && v.current != Some("dashboard") then 1 else 0)
    ensures r.contentFrame == v.contentFrame && r.calendarDraws == v.calendarDraws
    ensures r.calendarFrame == (v.calendarFrame && (v.updating || v.current == Some("dashboard") || !v.contentFrame))
    decreases if v.updating then 0 else 1, 1
  {
    if v.updating then v.(updating := false)
    else
      var refreshed := v.(updating := true, countText := CountLabel(v.countText, v.contentFrame, cadets));
      var shown := if refreshed.current != Some("dashboard") then AfterShow(refreshed, cadets) else refreshed;
      shown.(updating := false)
  }

  /** The view after `show_dashboard` (main.py:1107-1109, 1209): clearing the content
      frame destroys the calendar's list frame; the dashboard becomes the current view, its
      frame is built, and it ends by calling `update_dashboard` itself. */
  function AfterShow(v: View, cadets: Value): (r: View)
    ensures !r.updating
    ensures r.current == Some("dashboard") && r.dashboardFrame
    ensures r.shows == v.shows + 1
    ensures r.contentFrame == v.contentFrame && r.calendarDraws == v.calendarDraws
    ensures r.calendarFrame == (v.calendarFrame && !v.contentFrame)
    decreases if v.updating then 0 else 1, 2
  {
    AfterUpdate(v.(current := Some("dashboard"), shows := v.shows + 1, dashboardFrame := true,
                   calendarFrame := v.calendarFrame && !v.contentFrame), cadets)
  }

  /** A refresh that is not re-entrant, run twice, leaves what one run leaves: the second
      finds the dashboard current and the label already showing the count. */
  lemma {:induction false} UpdateDashboardIdempotent(v: View, cadets: Value)
    requires !v.updating
    ensures AfterUpdate(AfterUpdate(v, cadets), cadets) == AfterUpdate(v, cadets)
  {
    var r := AfterUpdate(v, cadets);
    CountLabelIdempotent(v.countText, v.contentFrame, cadets);
    assert r.countText == CountLabel(v.countText, v.contentFrame, cadets);
    if v.current != Some("dashboard") {
      var refreshed := v.(updating := true, countText := CountLabel(v.countText, v.contentFrame, cadets));
      assert r == AfterShow(refreshed, cadets).(updating := false);
      assert r.dashboardFrame;
    }
  }

  /** The nested call from `show_dashboard` runs while the outer refresh holds the flag,
      so it returns at once, and its `finally` clears the flag before the outer refresh is
      over: whatever changes the view afterwards happens unguarded. */
  lemma {:induction false} NestedCallClearsFlag(v: View, cadets: Value)
    requires !v.updating && v.current != Some("dashboard")
    ensures var refreshed := v.(updating := true, countText := CountLabel(v.countText, v.contentFrame, cadets));
      && refreshed.updating
      && !AfterShow(refreshed, cadets).updating
      && AfterShow(refreshed, cadets) == refreshed.(current := Some("dashboard"), shows := v.shows + 1,
                                                     dashboardFrame := true, updating := false,
                                                     calendarFrame := v.calendarFrame && !v.contentFrame)
  {
  }

  /** The view after `update_calendar_display` (main.py:1071-1104): without the calendar's
      list frame nothing happens; otherwise the events are put in calendar order and the
      list is drawn, and an exception of the sort leaves the method before anything is
      drawn. */
  function AfterCalendar(v: View, events: Value): (r: Result<View>)
    ensures !v.calendarFrame ==> r == Ok(v)
    ensures v.calendarFrame ==> (r.Err? <==> Upcoming.CalendarList(events).Err?)
    ensures r.Err? ==> r.exc == Upcoming.CalendarList(events).exc
    ensures r.Ok? ==> r.value == v.(calendarDraws := v.calendarDraws + (if v.calendarFrame then 1 else 0))
  {
    if !v.calendarFrame then Ok(v)
    else match Upcoming.CalendarList(events)
      case Err(e) => Err(e)
      case Ok(_) => Ok(v.(calendarDraws := v.calendarDraws + 1))
  }

  /** With the calendar on screen, an events cache holding a plain string where an event
      belongs makes the redraw raise AttributeError at the sort key's `.get`, and so does a
      cache that is a list rather than a dict, at `.items()`. */
  lemma {:induction false} CalendarRejectsMalformedEvents(v: View)
    requires v.calendarFrame
    ensures var r := AfterCalendar(v, Dict([(Str("e1"), Str("x"))])); r.Err? && r.exc.kind == AttributeError
    ensures var r := AfterCalendar(v, List([Str("x")])); r.Err? && r.exc.kind == AttributeError
  {
    var items := [(Str("e1"), Str("x"))];
    assert Upcoming.FirstNonDict(items) == Some(0);
  }

  /** The store after `update_upcoming_events` (main.py:3557-3595): when the list can be
      computed, it is assigned and redrawn unless it equals the cached one and no dashboard
      refresh was asked for; when it cannot (a non-dict cache, keys that do not compare),
      the outer handler swallows the error and nothing changes. */
  function AfterUpcoming(s: Store, today: int, parseDate: string -> Option<int>, updateDashboard: bool): (r: Store)
    ensures r.(upcoming := s.upcoming, redraws := s.redraws) == s
  {
    match Upcoming.Latest(s.events, today, parseDate)
    case Err(_) => s
    case Ok(latest) =>
      if !Upcoming.Replaces(s.upcoming, latest, updateDashboard) then s
      else s.(upcoming := latest, redraws := s.redraws + 1)
  }

  /** Whether `update_upcoming_events` hands `update_dashboard` to `root.after`
      (main.py:3669-3673): only when asked to, once the list was assigned, while the
      dashboard frame exists and no refresh is running. */
  predicate SchedulesDashboard(s: Store, v: View, today: int, parseDate: string -> Option<int>, updateDashboard: bool) {
    updateDashboard && Upcoming.Latest(s.events, today, parseDate).Ok? && v.dashboardFrame && !v.updating
  }

  /** Whatever the cached list was, a successful refresh leaves the freshly computed list
      in the cache; it is redrawn exactly when it changed or a dashboard refresh was asked
      for; a failed refresh changes nothing. */
  lemma {:induction false} UpcomingRefreshMeaning(s: Store, today: int, parseDate: string -> Option<int>, updateDashboard: bool)
    ensures var spec := Upcoming.UpcomingSpec(s.events, today, parseDate);
      var r := AfterUpcoming(s, today, parseDate, updateDashboard);
      && (spec.Err? ==> r == s)
      && (spec.Ok? ==> r.upcoming == Upcoming.Records(spec.value))
      && (spec.Ok? ==> (r.redraws == s.redraws + 1 <==>
                         s.upcoming != Upcoming.Records(spec.value) || updateDashboard))
      && r.redraws in {s.redraws, s.redraws + 1}
  {
    var spec := Upcoming.UpcomingSpec(s.events, today, parseDate);
    if spec.Ok? {
      var latest := Upcoming.Records(spec.value);
      if !Upcoming.Replaces(s.upcoming, latest, updateDashboard) {
        assert s.upcoming == latest;
      }
    }
  }

  /** A second refresh from the same events, with no dashboard refresh asked for, neither
      changes the list nor redraws it. */
  lemma {:induction false} UpcomingRefreshSettles(s: Store, today: int, parseDate: string -> Option<int>)
    ensures var once := AfterUpcoming(s, today, parseDate, false);
      AfterUpcoming(once, today, parseDate, false) == once
  {
    var once := AfterUpcoming(s, today, parseDate, false);
    UpcomingRefreshMeaning(s, today, parseDate, false);
    assert once.events == s.events;
  }

  /** The application object. */
  class Application {
    var cadets: Value
    var jobs: Value
    var events: Value
    var fundraisers: Value
    var contacts: Value
    var upcomingEvents: seq<Value>
    var upcomingRedraws: nat
    var updatingDashboard: bool
    var currentView: Option<string>
    var cadetCountLabel: Option<string>
    var dashboardShows: nat
    var contentFrame: bool
    var dashboardFrame: bool
    var calendarFrame: bool
    var calendarDraws: nat
    /** The methods handed to `root.after`, by name, in order. */
    var scheduled: seq<string>
    /** The messages shown in error boxes, in order. */
    var errors: seq<string>

    function Stored(): Store
      reads this
    {
      Store(cadets, jobs, events, fundraisers, contacts, upcomingEvents, upcomingRedraws)
    }

    function ViewOf(): View
      reads this
    {
      View(updatingDashboard, currentView, cadetCountLabel, dashboardShows, contentFrame, dashboardFrame,
           calendarFrame, calendarDraws)
    }

    /** A freshly started application (main.py:133-158): empty caches, an empty upcoming
        list, and no screen built yet. */
    constructor ()
      ensures Stored() == Store(Dict([]), Dict([]), Dict([]), Dict([]), Dict([]), [], 0)
      ensures ViewOf() == View(false, None, None, 0, false, false, false, 0)
      ensures scheduled == [] && errors == []
    {
      cadets, jobs, events, fundraisers, contacts := Dict([]), Dict([]), Dict([]), Dict([]), Dict([]);
      upcomingEvents, upcomingRedraws := [], 0;
      updatingDashboard, currentView, cadetCountLabel, dashboardShows := false, None, None, 0;
      contentFrame, dashboardFrame, calendarFrame, calendarDraws := false, false, false, 0;
      scheduled, errors := [], [];
    }

    method SetCache(c: Collection, v: Value)
      modifies this
      ensures Stored() == WithCache(old(Stored()), c, v)
      ensures ViewOf() == old(ViewOf()) && scheduled == old(scheduled) && errors == old(errors)
    {
      match c
      case Cadets => cadets := v;
      case Jobs => jobs := v;
      case Events => events := v;
      case Fundraisers => fundraisers := v;
      case Contacts => contacts := v;
    }

    /** `_update_dashboard_stats` (main.py:215-225). */
    method UpdateDashboardStats()
      modifies this
      ensures ViewOf() == old(ViewOf()).(countText := CountLabel(old(cadetCountLabel), contentFrame, cadets))
      ensures Stored() == old(Stored()) && scheduled == old(scheduled) && errors == old(errors)
    {
      if !contentFrame {
        return;
      }
      var n := Len(cadets);
      if n.Ok? && cadetCountLabel.Some? {
        cadetCountLabel := Some(NatToString(n.value));
      }
    }

    /** `update_dashboard` (main.py:198-213). */
    method UpdateDashboard()
      modifies this
      ensures ViewOf() == AfterUpdate(old(ViewOf()), cadets)
      ensures Stored() == old(Stored()) && scheduled == old(scheduled) && errors == old(errors)
      decreases if updatingDashboard then 0 else 1, 1
    {
      if updatingDashboard {
        updatingDashboard := false;
        return;
      }
      updatingDashboard := true;
      UpdateDashboardStats();
      if currentView != Some("dashboard") {
        ShowDashboard();
      }
      updatingDashboard := false;
    }

    /** `show_dashboard` (main.py:1107-1109, 1209), reduced to the state it touches. */
    method ShowDashboard()
      modifies this
      ensures ViewOf() == AfterShow(old(ViewOf()), cadets)
      ensures Stored() == old(Stored()) && scheduled == old(scheduled) && errors == old(errors)
      decreases if updatingDashboard then 0 else 1, 2
    {
      BuildDashboard();
      UpdateDashboard();
    }

    /** The part of `show_dashboard` before its nested call: the content is cleared, and
        the dashboard becomes the current view with a new frame. */
    method BuildDashboard()
      modifies this
      ensures ViewOf() == old(ViewOf()).(current := Some("dashboard"), shows := old(dashboardShows) + 1,
                                         dashboardFrame := true, calendarFrame := old(calendarFrame) && !old(contentFrame))
      ensures Stored() == old(Stored()) && scheduled == old(scheduled) && errors == old(errors)
    {
      calendarFrame := calendarFrame && !contentFrame;
      currentView, dashboardShows, dashboardFrame := Some("dashboard"), dashboardShows + 1, true;
    }

    /** `update_calendar_display` (main.py:1071-1104): an exception of the sort is returned. */
    method UpdateCalendarDisplay() returns (raised: Option<Exc>)
      modifies this
      ensures var r := AfterCalendar(old(ViewOf()), events);
        && raised == (if r.Err? then Some(r.exc) else None)
        && ViewOf() == (if r.Ok? then r.value else old(ViewOf()))
      ensures Stored() == old(Stored()) && scheduled == old(scheduled) && errors == old(errors)
    {
      if !calendarFrame {
        return None;
      }
      var list := Upcoming.CalendarList(events);
      if list.Err? {
        return Some(list.exc);
      }
      calendarDraws := calendarDraws + 1;
      raised := None;
    }

    /** `show_calendar` (main.py:1052-1069), reduced to the state it touches: clearing the
        content frame destroys the dashboard's frame, the calendar becomes the current view,
        its list frame is built and the list is drawn. An exception of the drawing is
        returned. */
    method ShowCalendar() returns (raised: Option<Exc>)
      modifies this
      ensures var shown := old(ViewOf()).(current := Some("calendar"), calendarFrame := true,
                                          dashboardFrame := old(dashboardFrame) && !old(contentFrame));
        var r := AfterCalendar(shown, events);
        && raised == (if r.Err? then Some(r.exc) else None)
        && ViewOf() == (if r.Ok? then r.value else shown)
      ensures Stored() == old(Stored()) && scheduled == old(scheduled) && errors == old(errors)
    {
      dashboardFrame := dashboardFrame && !contentFrame;
      currentView, calendarFrame := Some("calendar"), true;
      raised := UpdateCalendarDisplay();
    }

    /** `update_upcoming_events` (main.py:3557-3595, 3669-3673). */
    method UpdateUpcomingEvents(today: int, parseDate: string -> Option<int>, updateDashboard: bool)
      modifies this
      ensures Stored() == AfterUpcoming(old(Stored()), today, parseDate, updateDashboard)
      ensures scheduled == old(scheduled) +
        (if SchedulesDashboard(old(Stored()), old(ViewOf()), today, parseDate, updateDashboard) then ["update_dashboard"] else [])
      ensures ViewOf() == old(ViewOf()) && errors == old(errors)
    {
      var latest := Upcoming.ComputeLatest(events, today, parseDate);
      if latest.Err? {
        return;
      }
      if !Upcoming.Replaces(upcomingEvents, latest.value, updateDashboard) {
        return;
      }
      StoreUpcoming(latest.value, updateDashboard);
    }

    /** The assignment and redraw of a new upcoming list, and the dashboard refresh handed
        to `root.after` (main.py:3591-3595, 3669-3673). */
    method StoreUpcoming(latest: seq<Value>, updateDashboard: bool)
      modifies this
      ensures Stored() == old(Stored()).(upcoming := latest, redraws := old(upcomingRedraws) + 1)
      ensures scheduled == old(scheduled) + (if updateDashboard && dashboardFrame && !updatingDashboard then ["update_dashboard"] else [])
      ensures ViewOf() == old(ViewOf()) && errors == old(errors)
    {
      upcomingEvents, upcomingRedraws := latest, upcomingRedraws + 1;
      if updateDashboard && dashboardFrame && !updatingDashboard {
        scheduled := scheduled + ["update_dashboard"];
      }
    }

    /** The generic callback made by `create_callback` for `collection` (main.py:235-253):
        a write replaces the cache and hands the collection's refresh methods to
        `root.after`; an exception is shown as "Error in <collection> callback: ...". */
    method OnGenericPush(c: Collection, message: Value)
      modifies this
      ensures var r := Caches.GenericPush(message);
        && Stored() == (if r.Ok? && r.value.Some? then WithCache(old(Stored()), c, r.value.value) else old(Stored()))
        && scheduled == old(scheduled) + (if r.Ok? && r.value.Some? then Listeners.UpdateMethods(Name(c)) else [])
        && errors == old(errors) + (if r.Err? then ["Error in " + Name(c) + " callback: " + r.exc.msg] else [])
      ensures ViewOf() == old(ViewOf())
    {
      var r := Caches.GenericPush(message);
      match r
      case Err(e) =>
        errors := errors + ["Error in " + Name(c) + " callback: " + e.msg];
      case Ok(None) =>
      case Ok(Some(v)) =>
        SetCache(c, v);
        scheduled := scheduled + Listeners.UpdateMethods(Name(c));
    }

    /** `cadets_callback` (main.py:993-1005): a write stores the normalised payload and
        refreshes the dashboard; an exception is printed and nothing changes. */
    method OnCadetsPush(message: Value)
      modifies this
      ensures var r := Caches.CadetsPush(message);
        && Stored() == (if r.Ok? && r.value.Some? then old(Stored()).(cadets := r.value.value) else old(Stored()))
        && ViewOf() == (if r.Ok? && r.value.Some? then AfterUpdate(old(ViewOf()), r.value.value) else old(ViewOf()))
      ensures scheduled == old(scheduled) && errors == old(errors)
    {
      var r := Caches.CadetsPush(message);
      if r.Ok? && r.value.Some? {
        SetCache(Cadets, r.value.value);
        UpdateDashboard();
      }
    }

    /** `events_callback`, `jobs_callback`, `fundraisers_callback` and `contacts_callback`
        (main.py:1011-1036): a write replaces the cache; the events one then redraws the
        calendar and refreshes the upcoming list, and all but the contacts one refresh the
        dashboard. These callbacks have no handler, so an exception escapes to the stream
        and is returned here: one raised by the calendar's redraw skips both refreshes. */
    method OnWholesalePush(c: Collection, message: Value, today: int, parseDate: string -> Option<int>)
      returns (raised: Option<Exc>)
      requires c != Cadets
      modifies this
      ensures var r := Caches.WholesalePush(message);
        && (r.Err? ==> raised == Some(r.exc))
        && (!(r.Ok? && r.value.Some?) ==> Stored() == old(Stored()) && ViewOf() == old(ViewOf()))
        && (r.Ok? && r.value.None? ==> raised == None)
        && (r.Ok? && r.value.Some? ==>
              var stored := WithCache(old(Stored()), c, r.value.value);
              var drawn := if c == Events then AfterCalendar(old(ViewOf()), r.value.value) else Ok(old(ViewOf()));
              && raised == (if drawn.Err? then Some(drawn.exc) else None)
              && (drawn.Err? ==> Stored() == stored && ViewOf() == old(ViewOf()))
              && (drawn.Ok? ==>
                    var refreshed := if c == Events then AfterUpcoming(stored, today, parseDate, false) else stored;
                    && Stored() == refreshed
                    && ViewOf() == (if c == Contacts then drawn.value else AfterUpdate(drawn.value, refreshed.cadets))))
      ensures scheduled == old(scheduled) && errors == old(errors)
    {
      var r := Caches.WholesalePush(message);
      if r.Err? {
        return Some(r.exc);
      }
      raised := None;
      if r.value.Some? {
        SetCache(c, r.value.value);
        if c == Events {
          raised := UpdateCalendarDisplay();
          if raised.Some? {
            return;
          }
          UpdateUpcomingEvents(today, parseDate, false);
        }
        if c != Contacts {
          UpdateDashboard();
        }
      }
    }
  }
}
