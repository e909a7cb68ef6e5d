/** How the list screens classify a record for display: the contact's name and type
    colour, a uniform's condition colour and availability, and a fundraiser's status. */
module Display {
  import opened Py
  import Dashboard

  // Contacts.

  /** The characters `strip(", ")` removes. */
  predicate NameEdge(c: char) {
    c == ',' || c == ' '
  }

  /** The contact's name column: "last, first" with commas and spaces stripped from both
      ends, or "N/A" when nothing is left. */
  function ContactName(contact: seq<(Value, Value)>): (r: string)
    ensures r != ""
    ensures r != "N/A" ==> !NameEdge(r[0]) && !NameEdge(r[|r| - 1])
  {
    var name := PyStr(Field(contact, "last_name", Str(""))) + ", " + PyStr(Field(contact, "first_name", Str("")));
    var t := Trim(name, NameEdge);
    if t != "" then t else "N/A"
  }

  /** A string that neither starts nor ends with a comma or a space. */
  predicate Unpadded(s: string) {
    s != "" && !NameEdge(s[0]) && !NameEdge(s[|s| - 1])
  }

  lemma {:induction false} LeadingDroppedPrefix(pad: string, rest: string, drop: char -> bool)
    requires forall i :: 0 <= i < |pad| ==> drop(pad[i])
    requires rest != "" && !drop(rest[0])
    ensures LeadingDropped(pad + rest, drop) == |pad|
  {
    if |pad| > 0 {
      assert (pad + rest)[1..] == pad[1..] + rest;
      LeadingDroppedPrefix(pad[1..], rest, drop);
    } else {
      assert pad + rest == rest;
    }
  }

  lemma {:induction false} KeptEndSuffix(rest: string, pad: string, drop: char -> bool)
    requires forall i :: 0 <= i < |pad| ==> drop(pad[i])
    requires rest != "" && !drop(rest[|rest| - 1])
    ensures KeptEnd(rest + pad, drop) == |rest|
  {
    if |pad| > 0 {
      var n := |pad| - 1;
      assert (rest + pad)[..|rest + pad| - 1] == rest + pad[..n];
      KeptEndSuffix(rest, pad[..n], drop);
    } else {
      assert rest + pad == rest;
    }
  }

  /** Stripping characters only found in the padding around a kept middle gives the
      middle. */
  lemma {:induction false} TrimPadding(before: string, mid: string, after: string, drop: char -> bool)
    requires forall i :: 0 <= i < |before| ==> drop(before[i])
    requires forall i :: 0 <= i < |after| ==> drop(after[i])
    requires mid != "" && !drop(mid[0]) && !drop(mid[|mid| - 1])
    ensures Trim(before + mid + after, drop) == mid
  {
    var s := before + mid + after;
    assert s == before + (mid + after);
    LeadingDroppedPrefix(before, mid + after, drop);
    assert s[|before|..] == mid + after;
    KeptEndSuffix(mid, after, drop);
  }

  /** With no names at all, the column shows "N/A". */
  lemma {:induction false} ContactNameBlank(contact: seq<(Value, Value)>)
    requires Field(contact, "last_name", Str("")) == Str("") && Field(contact, "first_name", Str("")) == Str("")
    ensures ContactName(contact) == "N/A"
  {
    var name := "" + ", " + "";
    assert forall i :: 0 <= i < |name| ==> NameEdge(name[i]);
  }

  /** With both names given, the column is "last, first". */
  lemma {:induction false} ContactNameBoth(contact: seq<(Value, Value)>, last: string, first: string)
    requires Field(contact, "last_name", Str("")) == Str(last) && Field(contact, "first_name", Str("")) == Str(first)
    requires Unpadded(last) && Unpadded(first)
    ensures ContactName(contact) == last + ", " + first
  {
    JoinedNamesKept(last, first);
  }

  lemma {:induction false} JoinedNamesKept(last: string, first: string)
    requires Unpadded(last) && Unpadded(first)
    ensures Trim(last + ", " + first, NameEdge) == last + ", " + first
  {
    var name := last + ", " + first;
    assert name[0] == last[0] && name[|name| - 1] == first[|first| - 1];
    TrimPadding("", name, "", NameEdge);
    assert "" + name + "" == name;
  }

  /** With only the last name given, the column is that name alone. */
  lemma {:induction false} ContactNameLastOnly(contact: seq<(Value, Value)>, last: string)
    requires Field(contact, "last_name", Str("")) == Str(last) && Field(contact, "first_name", Str("")) == Str("")
    requires Unpadded(last)
    ensures ContactName(contact) == last
  {
    LastNameKept(last);
  }

  lemma {:induction false} LastNameKept(last: string)
    requires Unpadded(last)
    ensures Trim(last + ", " + "", NameEdge) == last
  {
    TrimPadding("", last, ", ", NameEdge);
    assert "" + last + ", " == last + ", " + "";
  }

  /** With only the first name given, the column is that name alone. */
  lemma {:induction false} ContactNameFirstOnly(contact: seq<(Value, Value)>, first: string)
    requires Field(contact, "last_name", Str("")) == Str("") && Field(contact, "first_name", Str("")) == Str(first)
    requires Unpadded(first)
    ensures ContactName(contact) == first
  {
    FirstNameKept(first);
  }

  lemma {:induction false} FirstNameKept(first: string)
    requires Unpadded(first)
    ensures Trim("" + ", " + first, NameEdge) == first
  {
    TrimPadding(", ", first, "", NameEdge);
    assert ", " + first + "" == "" + ", " + first;
  }

  /** `contact.get('type', 'Other')`. */
  function ContactType(contact: seq<(Value, Value)>): Value {
    Field(contact, "type", Str("Other"))
  }

  const VendorColour := "#4CAF50"
  const SchoolColour := "#2196F3"
  const MilitaryColour := "#9C27B0"
  const OtherColour := "#607D8B"

  /** The colour for a contact type, looked up in the palette with the grey default; a
      list or dict type cannot be looked up and raises TypeError. */
  function TypeColour(t: Value): (r: Result<string>)
    ensures r.Ok? <==> Hashable(t)
    ensures r.Err? ==> r.exc.kind == TypeError
    ensures r.Ok? ==> r.value in {VendorColour, SchoolColour, MilitaryColour, OtherColour}
  {
    if !Hashable(t) then Err(UnhashableError(t))
    else if t == Str("Vendor") then Ok(VendorColour)
    else if t == Str("School") then Ok(SchoolColour)
    else if t == Str("Military") then Ok(MilitaryColour)
    else Ok(OtherColour)
  }

  /** Only the three named types get their own colour; every other hashable type, and a
      missing one, is grey. */
  lemma {:induction false} TypeColourDefault(contact: seq<(Value, Value)>)
    ensures var t := ContactType(contact);
      Hashable(t) && t !in {Str("Vendor"), Str("School"), Str("Military")} ==> TypeColour(t) == Ok(OtherColour)
    ensures (forall i :: 0 <= i < |contact| ==> !PyEq(contact[i].0, Str("type"))) ==> TypeColour(ContactType(contact)) == Ok(OtherColour)
  {
    if forall i :: 0 <= i < |contact| ==> !PyEq(contact[i].0, Str("type")) {
      FieldAbsent(contact, "type", Str("Other"));
    }
  }

  lemma {:induction false} FieldAbsent(entries: seq<(Value, Value)>, name: string, default: Value)
    requires forall i :: 0 <= i < |entries| ==> !PyEq(entries[i].0, Str(name))
    ensures Field(entries, name, default) == default
  {
  }

  /** The three named types get three different colours, none of them the default. */
  lemma {:induction false} NamedTypesDistinct()
    ensures TypeColour(Str("Vendor")) != TypeColour(Str("School"))
    ensures TypeColour(Str("Vendor")) != TypeColour(Str("Military"))
    ensures TypeColour(Str("School")) != TypeColour(Str("Military"))
    ensures forall t :: t in {Str("Vendor"), Str("School"), Str("Military")} ==> TypeColour(t) != Ok(OtherColour)
  {
  }

  // Uniforms.

  const GoodColour := "#4CAF50"
  const FairColour := "#FFC107"
  const PoorColour := "#F44336"

  /** The condition column's colour: red for poor, amber for fair, green otherwise,
      ignoring case; a condition that is not a string has no `lower` and raises. */
  function ConditionColour(item: seq<(Value, Value)>): (r: Result<string>)
    ensures r.Err? <==> !Field(item, "condition", Str("N/A")).Str?
    ensures r.Err? ==> r.exc.kind == AttributeError
    ensures r.Ok? ==> r.value in {GoodColour, FairColour, PoorColour}
  {
    var condition := Field(item, "condition", Str("N/A"));
    if !condition.Str? then Err(Exc(AttributeError, "'" + TypeName(condition) + "' object has no attribute 'lower'"))
    else if Lower(condition.s) == "poor" then Ok(PoorColour)
    else if Lower(condition.s) == "fair" then Ok(FairColour)
    else Ok(GoodColour)
  }

  lemma {:induction false} LowerIdempotent(s: string)
    ensures Lower(Lower(s)) == Lower(s)
  {
    assert forall i :: 0 <= i < |s| ==> LowerChar(LowerChar(s[i])) == LowerChar(s[i]);
  }

  /** The colour depends on the condition only up to case: a condition and its lower-case
      form get the same colour. */
  lemma {:induction false} ConditionIgnoresCase(item: seq<(Value, Value)>, other: seq<(Value, Value)>)
    requires Field(item, "condition", Str("N/A")).Str?
    requires Field(other, "condition", Str("N/A")) == Str(Lower(Field(item, "condition", Str("N/A")).s))
    ensures ConditionColour(item) == ConditionColour(other)
  {
    LowerIdempotent(Field(item, "condition", Str("N/A")).s);
  }

  /** An item with no recorded condition shows "N/A" in green. */
  lemma {:induction false} UnknownConditionIsGood(item: seq<(Value, Value)>)
    requires forall i :: 0 <= i < |item| ==> !PyEq(item[i].0, Str("condition"))
    ensures ConditionColour(item) == Ok(GoodColour)
  {
    FieldAbsent(item, "condition", Str("N/A"));
    assert Lower("N/A") == "n/a";
  }

  /** The availability column and its colour: available exactly when nobody (a falsy
      `assignedTo`) holds the item. */
  function Availability(item: seq<(Value, Value)>): (r: (string, string))
    ensures r.0 == "Yes" <==> !Truthy(Field(item, "assignedTo", Str("")))
    ensures r.0 in {"Yes", "No"}
    ensures r.1 == (if r.0 == "Yes" then GoodColour else PoorColour)
  {
    var status := if !Truthy(Field(item, "assignedTo", Str(""))) then "Yes" else "No";
    (status, if status == "Yes" then GoodColour else PoorColour)
  }

  // Fundraisers.

  const CompletedColour := "#9E9E9E"

  /** The fundraiser list's status column: "Completed" in grey once the current time is
      past midnight of the fundraiser's 'date'; "Active" in green when that date is still
      ahead, is today at midnight exactly, or does not parse. */
  function FundraiserStatus(fundraiser: seq<(Value, Value)>, now: Dashboard.Instant,
                            parseDate: string -> Option<int>): (r: (string, string))
    ensures r == ("Completed", CompletedColour) || r == ("Active", GoodColour)
  {
    match Dashboard.DateOf(Field(fundraiser, "date", Str("N/A")), parseDate)
    case None => ("Active", GoodColour)
    case Some(d) => if !Dashboard.NotBefore(d, now) then ("Completed", CompletedColour) else ("Active", GoodColour)
  }

  /** "Completed" exactly when the date parses to a day whose midnight has passed. */
  lemma {:induction false} CompletedOnceDatePassed(fundraiser: seq<(Value, Value)>, now: Dashboard.Instant,
                                                   parseDate: string -> Option<int>)
    ensures var date := Field(fundraiser, "date", Str("N/A"));
      FundraiserStatus(fundraiser, now, parseDate).0 == "Completed" <==>
        date.Str? && parseDate(date.s).Some? &&
        (parseDate(date.s).value < now.day || (parseDate(date.s).value == now.day && now.sinceMidnight > 0))
  {
  }

  /** The list and the dashboard read different dates: a fundraiser whose 'date' has passed
      is listed as completed yet still counted active on the dashboard when its 'endDate'
      is ahead and its status says so; one with only a future 'date' is listed active but
      never counted. */
  lemma {:induction false} ListAndDashboardDisagree(now: Dashboard.Instant, parseDate: string -> Option<int>, s: string)
    requires parseDate(s) == Some(now.day + 1)
    ensures var f := [(Str("date"), Str(s))];
      && FundraiserStatus(f, now, parseDate).0 == "Active"
      && Dashboard.FundraiserActive(Dict(f), now, parseDate) == Ok(false)
  {
    var f := [(Str("date"), Str(s))];
    assert FindKey(f, Str("date")) == Some(0);
    assert FindKey(f, Str("endDate")).None? by {
      assert !PyEq(f[0].0, Str("endDate"));
    }
  }
}
