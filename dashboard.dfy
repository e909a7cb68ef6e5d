/** The dashboard's counters (main.py:3738-3806) and the placement of its stat cards in a
    grid (main.py:3808-3835). The clock and `strptime` are inputs: `now` is the current
    instant and `parseDate` reads a '%Y-%m-%d' string as a day number, or fails; `float()`
    of a string is `parseFloat`. */
module Dashboard {
  import opened Py

  /** A moment: a day number and the microseconds since that day's midnight. */
  datatype Instant = Instant(day: int, sinceMidnight: nat)

  /** Midnight of day `d` is at or after `now`. */
  predicate NotBefore(d: int, now: Instant) {
    d > now.day || (d == now.day && now.sinceMidnight == 0)
  }

  /** The bucket `str(cadet.get('grade', '')).strip()` falls in, if any. */
  function GradeOf(cadet: Value): (r: Option<nat>)
    ensures r.Some? ==> r.value < 4 && cadet.Dict?
  {
    if !cadet.Dict? then None
    else
      var g := Strip(PyStr(Field(cadet.entries, "grade", Str(""))));
      if g == "9" then Some(0) else if g == "10" then Some(1)
      else if g == "11" then Some(2) else if g == "12" then Some(3) else None
  }

  /** `float(cadet.get('communityServiceHours', 0))`, when it does not raise. */
  function HoursOf(cadet: Value, parseFloat: string -> Option<real>): (r: Option<real>)
    requires cadet.Dict?
    ensures !HasKey(cadet.entries, Str("communityServiceHours")) ==> r == Some(0.0)
    ensures r.None? ==> !IsNumber(Field(cadet.entries, "communityServiceHours", Int(0)))
  {
    var v := Field(cadet.entries, "communityServiceHours", Int(0));
    if IsNumber(v) then Some(Num(v))
    else if v.Str? then parseFloat(v.s)
    else None
  }

  /** `datetime.strptime(v, '%Y-%m-%d')` when it does not raise: a non-string raises
      TypeError and an unreadable string ValueError. */
  function DateOf(v: Value, parseDate: string -> Option<int>): Option<int> {
    if v.Str? then parseDate(v.s) else None
  }

  function CountGrade(cadets: seq<Value>, b: nat): (r: nat)
    ensures r <= |cadets|
  {
    if |cadets| == 0 then 0
    else CountGrade(cadets[..|cadets| - 1], b) + (if GradeOf(cadets[|cadets| - 1]) == Some(b) then 1 else 0)
  }

  predicate NeedsHours(cadet: Value, parseFloat: string -> Option<real>) {
    cadet.Dict? && HoursOf(cadet, parseFloat).Some? && HoursOf(cadet, parseFloat).value < 16.0
  }

  function CountNeeding(cadets: seq<Value>, parseFloat: string -> Option<real>): (r: nat)
    ensures r <= |cadets|
  {
    if |cadets| == 0 then 0
    else CountNeeding(cadets[..|cadets| - 1], parseFloat) + (if NeedsHours(cadets[|cadets| - 1], parseFloat) then 1 else 0)
  }

  function SumHours(cadets: seq<Value>, parseFloat: string -> Option<real>): real {
    if |cadets| == 0 then 0.0
    else
      var c := cadets[|cadets| - 1];
      SumHours(cadets[..|cadets| - 1], parseFloat)
        + (if c.Dict? && HoursOf(c, parseFloat).Some? then HoursOf(c, parseFloat).value else 0.0)
  }

  predicate EventAhead(event: Value, now: Instant, parseDate: string -> Option<int>)
    ensures EventAhead(event, now, parseDate) ==> event.Dict? && Field(event.entries, "date", Str("")).Str?
  {
    event.Dict?
    && DateOf(Field(event.entries, "date", Str("")), parseDate).Some?
    && NotBefore(DateOf(Field(event.entries, "date", Str("")), parseDate).value, now)
  }

  function CountEvents(events: seq<Value>, now: Instant, parseDate: string -> Option<int>): (r: nat)
    ensures r <= |events|
  {
    if |events| == 0 then 0
    else CountEvents(events[..|events| - 1], now, parseDate) + (if EventAhead(events[|events| - 1], now, parseDate) then 1 else 0)
  }

  /** Whether a job counts as pending: `j.get('status', '').lower() in ['pending', 'in
      progress']`, which raises AttributeError on a status that is not a string. */
  function JobPending(job: Value): (r: Result<bool>)
    ensures r.Err? <==> job.Dict? && !Field(job.entries, "status", Str("")).Str?
    ensures r.Err? ==> r.exc.kind == AttributeError
    ensures job.Dict? && !HasKey(job.entries, Str("status")) ==> r == Ok(false)
  {
    if !job.Dict? then Ok(false)
    else
      var status := Field(job.entries, "status", Str(""));
      if !status.Str? then Err(Exc(AttributeError, "'" + TypeName(status) + "' object has no attribute 'lower'"))
      else Ok(Lower(status.s) == "pending" || Lower(status.s) == "in progress")
  }

  function CountPending(jobs: seq<Value>): (r: Result<nat>)
    ensures r.Ok? ==> r.value <= |jobs|
  {
    if |jobs| == 0 then Ok(0)
    else
      var before :- CountPending(jobs[..|jobs| - 1]);
      var pending :- JobPending(jobs[|jobs| - 1]);
      Ok(before + if pending then 1 else 0)
  }

  /** Whether a fundraiser counts as active: its 'endDate' reads as a day not before
      now, and then its status, lowercased, is 'active'. The status is only looked at for
      such a fundraiser, and one that is not a string raises AttributeError. */
  function FundraiserActive(f: Value, now: Instant, parseDate: string -> Option<int>): (r: Result<bool>)
    ensures r.Err? ==> r.exc.kind == AttributeError
    ensures r.Err? || r == Ok(true) ==>
      f.Dict? && DateOf(Field(f.entries, "endDate", Str("")), parseDate).Some?
      && NotBefore(DateOf(Field(f.entries, "endDate", Str("")), parseDate).value, now)
  {
    if !f.Dict? then Ok(false)
    else match DateOf(Field(f.entries, "endDate", Str("")), parseDate)
      case None => Ok(false)
      case Some(d) =>
        if !NotBefore(d, now) then Ok(false)
        else
          var status := Field(f.entries, "status", Str(""));
          if !status.Str? then Err(Exc(AttributeError, "'" + TypeName(status) + "' object has no attribute 'lower'"))
          else Ok(Lower(status.s) == "active")
  }

  function CountFundraisers(fs: seq<Value>, now: Instant, parseDate: string -> Option<int>): (r: Result<nat>)
    ensures r.Ok? ==> r.value <= |fs|
  {
    if |fs| == 0 then Ok(0)
    else
      var before :- CountFundraisers(fs[..|fs| - 1], now, parseDate);
      var active :- FundraiserActive(fs[|fs| - 1], now, parseDate);
      Ok(before + if active then 1 else 0)
  }

  datatype Stats = Stats(
    totalCadets: nat,
    gradeCounts: seq<nat>,
    activeEvents: nat,
    pendingJobs: nat,
    activeFundraisers: nat,
    totalCommunityService: real,
    cadetsNeedingHours: nat)

  /** The values of a collection when it is a dict; anything else contributes nothing. */
  function DictValues(v: Value): seq<Value> {
    if v.Dict? then Values(v.entries) else []
  }

  /** The pending-jobs count of the jobs collection, zero when it is not a dict. */
  function PendingOf(jobs: Value): (r: Result<nat>)
    ensures r.Ok? ==> r.value <= |DictValues(jobs)|
  {
    if jobs.Dict? then CountPending(Values(jobs.entries)) else Ok(0)
  }

  /** The active-fundraiser count of the fundraisers collection, zero when it is not a dict. */
  function ActiveOf(fundraisers: Value, now: Instant, parseDate: string -> Option<int>): (r: Result<nat>)
    ensures r.Ok? ==> r.value <= |DictValues(fundraisers)|
  {
    if fundraisers.Dict? then CountFundraisers(Values(fundraisers.entries), now, parseDate) else Ok(0)
  }

  function Grades(cs: seq<Value>): seq<nat> {
    [CountGrade(cs, 0), CountGrade(cs, 1), CountGrade(cs, 2), CountGrade(cs, 3)]
  }

  /** One more cadet in bucket `b`, if it falls in one. */
  function Bump(grades: seq<nat>, b: Option<nat>): (r: seq<nat>)
    ensures |r| == |grades|
    ensures forall k :: 0 <= k < |r| ==> r[k] == grades[k] + (if b == Some(k) then 1 else 0)
  {
    if b.Some? && b.value < |grades| then grades[b.value := grades[b.value] + 1] else grades
  }

  /** The counters `_update_dashboard_stats` computes, or the exception that stops it. */
  function StatsSpec(cadets: Value, events: Value, jobs: Value, fundraisers: Value, now: Instant,
                     parseDate: string -> Option<int>, parseFloat: string -> Option<real>): (r: Result<Stats>)
    ensures r.Err? <==> PendingOf(jobs).Err? || ActiveOf(fundraisers, now, parseDate).Err?
    ensures r.Ok? ==> r.value.totalCadets == |DictValues(cadets)| && |r.value.gradeCounts| == 4
    ensures r.Ok? ==> r.value.cadetsNeedingHours <= r.value.totalCadets
    ensures r.Ok? ==> r.value.activeEvents <= |DictValues(events)|
    ensures r.Ok? ==> r.value.pendingJobs <= |DictValues(jobs)| && r.value.activeFundraisers <= |DictValues(fundraisers)|
  {
    var cs := DictValues(cadets);
    var pending :- PendingOf(jobs);
    var active :- ActiveOf(fundraisers, now, parseDate);
    Ok(Stats(|cs|, Grades(cs), CountEvents(DictValues(events), now, parseDate), pending, active,
             SumHours(cs, parseFloat), CountNeeding(cs, parseFloat)))
  }

  /** `_update_dashboard_stats`'s counting, one loop per collection in the source's order. */
  method ComputeStats(cadets: Value, events: Value, jobs: Value, fundraisers: Value, now: Instant,
                      parseDate: string -> Option<int>, parseFloat: string -> Option<real>)
    returns (r: Result<Stats>)
    ensures r == StatsSpec(cadets, events, jobs, fundraisers, now, parseDate, parseFloat)
  {
    var cs := DictValues(cadets);
    var grades, hours, needing := TallyCadets(cs, parseFloat);
    var ahead := TallyEvents(DictValues(events), now, parseDate);
    var pending: Result<nat> := Ok(0);
    if jobs.Dict? {
      pending := TallyPending(Values(jobs.entries));
    }
    assert pending == PendingOf(jobs);
    if pending.Err? {
      return Err(pending.exc);
    }
    var active: Result<nat> := Ok(0);
    if fundraisers.Dict? {
      active := TallyFundraisers(Values(fundraisers.entries), now, parseDate);
    }
    assert active == ActiveOf(fundraisers, now, parseDate);
    if active.Err? {
      return Err(active.exc);
    }
    var stats := Stats(|cs|, grades, ahead, pending.value, active.value, hours, needing);
    assert StatsSpec(cadets, events, jobs, fundraisers, now, parseDate, parseFloat) == Ok(stats);
    return Ok(stats);
  }

  /** The loop over the cadets: grade buckets, hours and cadets under 16 hours. */
  method TallyCadets(cs: seq<Value>, parseFloat: string -> Option<real>)
    returns (grades: seq<nat>, hours: real, needing: nat)
    ensures grades == Grades(cs)
    ensures hours == SumHours(cs, parseFloat)
    ensures needing == CountNeeding(cs, parseFloat)
  {
    grades, hours, needing := [0, 0, 0, 0], 0.0, 0;
    var i := 0;
    while i < |cs|
      invariant 0 <= i <= |cs|
      invariant grades == Grades(cs[..i])
      invariant hours == SumHours(cs[..i], parseFloat)
      invariant needing == CountNeeding(cs[..i], parseFloat)
    {
      var cadet := cs[i];
      CadetStep(cs, i, parseFloat);
      if cadet.Dict? {
        grades := Bump(grades, GradeOf(cadet));
        var h := HoursOf(cadet, parseFloat);
        if h.Some? {
          hours := hours + h.value;
          if h.value < 16.0 {
            needing := needing + 1;
          }
        }
      }
      i := i + 1;
    }
    assert cs[..i] == cs;
  }

  /** What one more cadet adds to each tally. */
  lemma {:induction false} CadetStep(cs: seq<Value>, i: nat, parseFloat: string -> Option<real>)
    requires i < |cs|
    ensures Grades(cs[..i + 1]) == Bump(Grades(cs[..i]), GradeOf(cs[i]))
    ensures SumHours(cs[..i + 1], parseFloat) == SumHours(cs[..i], parseFloat)
      + (if cs[i].Dict? && HoursOf(cs[i], parseFloat).Some? then HoursOf(cs[i], parseFloat).value else 0.0)
    ensures CountNeeding(cs[..i + 1], parseFloat) == CountNeeding(cs[..i], parseFloat) + (if NeedsHours(cs[i], parseFloat) then 1 else 0)
  {
    GradesStep(cs, i);
    TakeOneMore(cs, i);
  }

  lemma {:induction false} TakeOneMore(cs: seq<Value>, i: nat)
    requires i < |cs|
    ensures cs[..i + 1][..i] == cs[..i] && cs[..i + 1][i] == cs[i]
  {
  }

  lemma {:induction false} GradesStep(cs: seq<Value>, i: nat)
    requires i < |cs|
    ensures Grades(cs[..i + 1]) == Bump(Grades(cs[..i]), GradeOf(cs[i]))
  {
    GradeStep(cs, i, 0);
    GradeStep(cs, i, 1);
    GradeStep(cs, i, 2);
    GradeStep(cs, i, 3);
    var before, after := Grades(cs[..i]), Grades(cs[..i + 1]);
    var bumped := Bump(before, GradeOf(cs[i]));
    assert |after| == |bumped| == 4;
    assert forall k :: 0 <= k < 4 ==> after[k] == bumped[k];
  }

  lemma {:induction false} GradeStep(cs: seq<Value>, i: nat, b: nat)
    requires i < |cs|
    ensures CountGrade(cs[..i + 1], b) == CountGrade(cs[..i], b) + (if GradeOf(cs[i]) == Some(b) then 1 else 0)
  {
    TakeOneMore(cs, i);
  }

  /** The loop over the events: those on a day not before now. */
  method TallyEvents(evs: seq<Value>, now: Instant, parseDate: string -> Option<int>) returns (ahead: nat)
    ensures ahead == CountEvents(evs, now, parseDate)
  {
    ahead := 0;
    var i := 0;
    while i < |evs|
      invariant 0 <= i <= |evs|
      invariant ahead == CountEvents(evs[..i], now, parseDate)
    {
      assert evs[..i + 1][..i] == evs[..i];
      if EventAhead(evs[i], now, parseDate) {
        ahead := ahead + 1;
      }
      i := i + 1;
    }
    assert evs[..i] == evs;
  }

  /** The loop over the jobs, stopping at the first status that cannot be lowercased. */
  method TallyPending(js: seq<Value>) returns (r: Result<nat>)
    ensures r == CountPending(js)
  {
    var pending := 0;
    var i := 0;
    while i < |js|
      invariant 0 <= i <= |js|
      invariant CountPending(js[..i]) == Ok(pending)
    {
      assert js[..i + 1][..i] == js[..i];
      var p := JobPending(js[i]);
      if p.Err? {
        PendingFailsOnPrefix(js, i + 1);
        return Err(p.exc);
      }
      if p.value {
        pending := pending + 1;
      }
      i := i + 1;
    }
    assert js[..i] == js;
    return Ok(pending);
  }

  /** The loop over the fundraisers, stopping like the jobs loop. */
  method TallyFundraisers(fs: seq<Value>, now: Instant, parseDate: string -> Option<int>) returns (r: Result<nat>)
    ensures r == CountFundraisers(fs, now, parseDate)
  {
    var active := 0;
    var i := 0;
    while i < |fs|
      invariant 0 <= i <= |fs|
      invariant CountFundraisers(fs[..i], now, parseDate) == Ok(active)
    {
      assert fs[..i + 1][..i] == fs[..i];
      var a := FundraiserActive(fs[i], now, parseDate);
      if a.Err? {
        FundraisersFailOnPrefix(fs, i + 1, now, parseDate);
        return Err(a.exc);
      }
      if a.value {
        active := active + 1;
      }
      i := i + 1;
    }
    assert fs[..i] == fs;
    return Ok(active);
  }

  /** Once a prefix of the jobs fails, the whole count fails with the same exception. */
  lemma {:induction false} PendingFailsOnPrefix(jobs: seq<Value>, n: nat)
    requires n <= |jobs| && CountPending(jobs[..n]).Err?
    ensures CountPending(jobs) == CountPending(jobs[..n])
    decreases |jobs| - n
  {
    if n < |jobs| {
      PendingFailsOnPrefixStep(jobs, n);
      PendingFailsOnPrefix(jobs, n + 1);
    } else {
      assert jobs[..n] == jobs;
    }
  }

  lemma {:induction false} PendingFailsOnPrefixStep(jobs: seq<Value>, n: nat)
    requires n < |jobs| && CountPending(jobs[..n]).Err?
    ensures CountPending(jobs[..n + 1]) == CountPending(jobs[..n])
  {
    assert jobs[..n + 1][..n] == jobs[..n];
  }

  lemma {:induction false} FundraisersFailOnPrefix(fs: seq<Value>, n: nat, now: Instant, parseDate: string -> Option<int>)
    requires n <= |fs| && CountFundraisers(fs[..n], now, parseDate).Err?
    ensures CountFundraisers(fs, now, parseDate) == CountFundraisers(fs[..n], now, parseDate)
    decreases |fs| - n
  {
    if n < |fs| {
      assert fs[..n + 1][..n] == fs[..n];
      FundraisersFailOnPrefix(fs, n + 1, now, parseDate);
    } else {
      assert fs[..n] == fs;
    }
  }

  /** A cadet falls in at most one grade bucket, so the buckets never add up to more
      than the cadets. */
  lemma {:induction false} GradeBucketsBounded(cadets: seq<Value>)
    ensures CountGrade(cadets, 0) + CountGrade(cadets, 1) + CountGrade(cadets, 2) + CountGrade(cadets, 3) <= |cadets|
  {
    if |cadets| > 0 {
      GradeBucketsBounded(cadets[..|cadets| - 1]);
    }
  }

  /** The pending-jobs count fails exactly when some dict job has a status that is not a
      string. */
  lemma {:induction false} CountPendingFails(jobs: seq<Value>)
    ensures CountPending(jobs).Err? <==>
      exists i :: 0 <= i < |jobs| && jobs[i].Dict? && !Field(jobs[i].entries, "status", Str("")).Str?
  {
    if |jobs| > 0 {
      var init := jobs[..|jobs| - 1];
      CountPendingFails(init);
      assert forall i :: 0 <= i < |init| ==> init[i] == jobs[i];
      if exists i :: 0 <= i < |jobs| && jobs[i].Dict? && !Field(jobs[i].entries, "status", Str("")).Str? {
        var i :| 0 <= i < |jobs| && jobs[i].Dict? && !Field(jobs[i].entries, "status", Str("")).Str?;
        if i < |init| { assert init[i] == jobs[i]; }
      }
    }
  }

  /** The counters stay within their collections: total is the number of entries, the
      buckets and the cadets needing hours are at most that, and the job and event
      counts at most the jobs and events. */
  lemma {:induction false} StatsBounded(cadets: Value, events: Value, jobs: Value, fundraisers: Value, now: Instant,
                     parseDate: string -> Option<int>, parseFloat: string -> Option<real>)
    requires StatsSpec(cadets, events, jobs, fundraisers, now, parseDate, parseFloat).Ok?
    ensures var s := StatsSpec(cadets, events, jobs, fundraisers, now, parseDate, parseFloat).value;
      && s.totalCadets == (if cadets.Dict? then |cadets.entries| else 0)
      && s.gradeCounts[0] + s.gradeCounts[1] + s.gradeCounts[2] + s.gradeCounts[3] <= s.totalCadets
      && s.cadetsNeedingHours <= s.totalCadets
      && s.pendingJobs <= (if jobs.Dict? then |jobs.entries| else 0)
      && s.activeEvents <= (if events.Dict? then |events.entries| else 0)
      && s.activeFundraisers <= (if fundraisers.Dict? then |fundraisers.entries| else 0)
  {
    GradeBucketsBounded(DictValues(cadets));
  }

  /** Midnight of day `d` is not before `now` exactly when `d` is a later day, or today
      at the very stroke of midnight: an event dated today no longer counts a moment
      after midnight. */
  lemma {:induction false} TodayCountsOnlyAtMidnight(d: int, now: Instant)
    ensures d == now.day ==> (NotBefore(d, now) <==> now.sinceMidnight == 0)
    ensures d < now.day ==> !NotBefore(d, now)
  {
  }

  /** The number of grid columns used for `n` stat cards. */
  function GridColumns(n: nat): (cols: nat)
    ensures 2 <= cols <= 4
    ensures 4 <= n < 6 ==> cols == 2
  {
    var half := n / 2;
    var atLeast := if half < 2 then 2 else half;
    if atLeast < 4 then atLeast else 4
  }

  /** The row and column of card `i`. */
  function GridCell(i: nat, cols: nat): (cell: (nat, nat))
    requires cols > 0
    ensures cell.1 < cols
    ensures cell.0 * cols + cell.1 == i
  {
    (i / cols, i % cols)
  }

  /** Different cards never share a cell, and the ten stat cards fill three rows of four. */
  lemma {:induction false} GridCellsDistinct(i: nat, j: nat, cols: nat)
    requires cols > 0 && i != j
    ensures GridCell(i, cols) != GridCell(j, cols)
  {
  }

  const StatCards: nat := 10

  lemma {:induction false} StatGridShape()
    ensures GridColumns(StatCards) == 4
    ensures GridCell(StatCards - 1, GridColumns(StatCards)) == (2, 1)
  {
  }
}
