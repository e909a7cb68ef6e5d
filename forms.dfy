/** The checks run on the application's forms before anything is sent to the backend:
    sign-up (main.py:857-908), change password (main.py:2131-2170), the required fields of a
    new job (main.py:1626-1736), the keys of the fundraiser form (main.py:3076-3128) and the
    initial choice of an option menu (main.py:3434-3437). */
module Forms {
  import opened Py

  // Sign-up.

  /** The first failed check of the sign-up form, if any: name and email are stripped, the
      passwords are taken as typed. */
  function SignupError(name: string, email: string, password: string, confirm: string): (r: Option<string>)
    ensures r.Some? ==>
      r.value in {"All fields are required", "Passwords do not match", "Password must be at least 8 characters long"}
  {
    if Strip(name) == "" || Strip(email) == "" || password == "" || confirm == "" then Some("All fields are required")
    else if password != confirm then Some("Passwords do not match")
    else if |password| < 8 then Some("Password must be at least 8 characters long")
    else None
  }

  /** The form passes exactly when all four fields are filled, the passwords agree and
      have at least eight characters; each message appears only when every earlier
      check passed. */
  lemma {:induction false} SignupChecksInOrder(name: string, email: string, password: string, confirm: string)
    ensures SignupError(name, email, password, confirm).None? <==>
      Strip(name) != "" && Strip(email) != "" && password != "" && password == confirm && |password| >= 8
    ensures SignupError(name, email, password, confirm) == Some("Passwords do not match") <==>
      Strip(name) != "" && Strip(email) != "" && password != "" && confirm != "" && password != confirm
    ensures SignupError(name, email, password, confirm) == Some("Password must be at least 8 characters long") <==>
      Strip(name) != "" && Strip(email) != "" && password != "" && password == confirm && |password| < 8
  {
  }

  /** A name of spaces only counts as empty. */
  lemma {:induction false} BlankNameRejected(name: string, email: string, password: string, confirm: string)
    requires forall i :: 0 <= i < |name| ==> IsSpace(name[i])
    ensures SignupError(name, email, password, confirm) == Some("All fields are required")
  {
    var drop := IsSpace;
    assert Trim(name, drop) == "";
  }

  /** The message shown when creating the account fails, chosen by the first error code
      found in the exception's text. */
  function SignupFailureMessage(error: string): (m: string)
    ensures m in {"An account with this email already exists", "Please enter a valid email address", "Password is too weak"}
      || m == "Failed to create account: " + error
  {
    if IsSubstring("EMAIL_EXISTS", error) then "An account with this email already exists"
    else if IsSubstring("INVALID_EMAIL", error) then "Please enter a valid email address"
    else if IsSubstring("WEAK_PASSWORD", error) then "Password is too weak"
    else "Failed to create account: " + error
  }

  lemma {:induction false} SignupFailureOrder(error: string)
    ensures IsSubstring("EMAIL_EXISTS", error) ==> SignupFailureMessage(error) == "An account with this email already exists"
    ensures !IsSubstring("EMAIL_EXISTS", error) && IsSubstring("INVALID_EMAIL", error) ==>
      SignupFailureMessage(error) == "Please enter a valid email address"
    ensures !IsSubstring("EMAIL_EXISTS", error) && !IsSubstring("INVALID_EMAIL", error) && IsSubstring("WEAK_PASSWORD", error) ==>
      SignupFailureMessage(error) == "Password is too weak"
    ensures !IsSubstring("EMAIL_EXISTS", error) && !IsSubstring("INVALID_EMAIL", error) && !IsSubstring("WEAK_PASSWORD", error) ==>
      SignupFailureMessage(error) == "Failed to create account: " + error
  {
  }

  /** The user document written after a successful sign-up. */
  function SignupRecord(localId: Value, email: string, name: string, createdAt: string): (r: Value)
    ensures r.Dict? && DistinctKeys(r.entries)
  {
    Dict([(Str("uid"), localId), (Str("email"), Str(Strip(email))), (Str("displayName"), Str(Strip(name))),
          (Str("createdAt"), Str(createdAt)), (Str("role"), Str("user"))])
  }

  /** The document carries the stripped name and email and the role 'user'. */
  lemma {:induction false} SignupRecordFields(localId: Value, email: string, name: string, createdAt: string)
    ensures var r := SignupRecord(localId, email, name, createdAt).entries;
      && Lookup(r, Str("uid")) == Some(localId)
      && Lookup(r, Str("email")) == Some(Str(Strip(email)))
      && Lookup(r, Str("displayName")) == Some(Str(Strip(name)))
      && Lookup(r, Str("role")) == Some(Str("user"))
  {
    var r := SignupRecord(localId, email, name, createdAt).entries;
    FindKeyFirst(r, Str("uid"), 0);
    FindKeyFirst(r, Str("email"), 1);
    FindKeyFirst(r, Str("displayName"), 2);
    FindKeyFirst(r, Str("role"), 4);
  }

  // Change password.

  /** The first failed check of the change-password dialog: all three fields are stripped
      and the new password needs six characters. */
  function ChangePasswordError(current: string, new_: string, confirm: string): (r: Option<string>)
    ensures r.Some? ==>
      r.value in {"All fields are required", "New passwords do not match", "Password must be at least 6 characters"}
  {
    var c, n, k := Strip(current), Strip(new_), Strip(confirm);
    if c == "" || n == "" || k == "" then Some("All fields are required")
    else if n != k then Some("New passwords do not match")
    else if |n| < 6 then Some("Password must be at least 6 characters")
    else None
  }

  lemma {:induction false} ChangePasswordChecksInOrder(current: string, new_: string, confirm: string)
    ensures ChangePasswordError(current, new_, confirm).None? <==>
      Strip(current) != "" && Strip(new_) != "" && Strip(new_) == Strip(confirm) && |Strip(new_)| >= 6
    ensures ChangePasswordError(current, new_, confirm) == Some("New passwords do not match") <==>
      Strip(current) != "" && Strip(new_) != "" && Strip(confirm) != "" && Strip(new_) != Strip(confirm)
  {
  }

  /** The message shown when the backend refuses the change. */
  function ChangePasswordFailureMessage(error: string): (m: string)
    ensures m == "Incorrect current password" || m == "Error: " + error
  {
    var lowered := Lower(error);
    if IsSubstring("invalid password", lowered) || IsSubstring("wrong password", lowered) then "Incorrect current password"
    else "Error: " + error
  }

  /** "Incorrect current password" is shown exactly when the lower-cased text of the error
      names an invalid or a wrong password; any other error is shown as it is, after
      "Error: ". */
  lemma {:induction false} ChangePasswordFailureCases(error: string)
    ensures ChangePasswordFailureMessage(error) == "Incorrect current password" <==>
      IsSubstring("invalid password", Lower(error)) || IsSubstring("wrong password", Lower(error))
    ensures ChangePasswordFailureMessage(error) != "Incorrect current password" ==>
      ChangePasswordFailureMessage(error) == "Error: " + error
  {
    assert ("Error: " + error)[0] != "Incorrect current password"[0];
  }

  // Required fields of a new job.

  /** A row of the job form: caption, widget, key, default value and whether it is required. */
  datatype JobField = JobField(caption: string, widget: string, key: string, default: string, required: bool)

  /** The job form's fields; the assigned date defaults to today's date. */
  function JobFields(today: string): seq<JobField> {
    [JobField("Cadet", "combobox", "cadet", "", true),
     JobField("Job Title", "entry", "title", "", true),
     JobField("Description", "text", "description", "", true),
     JobField("Status", "combobox", "status", "Pending", true),
     JobField("Priority", "combobox", "priority", "Medium", true),
     JobField("Assigned Date", "date", "assigned_date", today, true),
     JobField("Notes", "text", "notes", "", false)]
  }

  /** The keys selected as required by testing each row's fourth item, which is its
      default value rather than its required flag. */
  function RequiredByDefault(fields: seq<JobField>): (r: seq<string>)
    ensures forall k :: k in r <==> exists i :: 0 <= i < |fields| && fields[i].default != "" && fields[i].key == k
  {
    if |fields| == 0 then []
    else (if fields[0].default != "" then [fields[0].key] else []) + RequiredByDefault(fields[1..])
  }

  /** The keys whose required flag is set. */
  function RequiredByFlag(fields: seq<JobField>): (r: seq<string>)
    ensures forall k :: k in r <==> exists i :: 0 <= i < |fields| && fields[i].required && fields[i].key == k
  {
    if |fields| == 0 then []
    else (if fields[0].required then [fields[0].key] else []) + RequiredByFlag(fields[1..])
  }

  /** The required keys whose entered value is empty or absent. */
  function Missing(required: seq<string>, data: map<string, string>): (r: seq<string>)
    ensures forall k :: k in r <==> k in required && (k !in data || data[k] == "")
  {
    if |required| == 0 then []
    else
      var k := required[0];
      (if k !in data || data[k] == "" then [k] else []) + Missing(required[1..], data)
  }

  /** The message shown when some required field is missing. */
  function MissingMessage(missing: seq<string>): (m: string)
    ensures StartsWith(m, "Please fill in all required fields: ")
  {
    var prefix := "Please fill in all required fields: ";
    assert (prefix + Join(missing, ", "))[..|prefix|] == prefix;
    prefix + Join(missing, ", ")
  }

  /** One row more in front of the fields. */
  lemma {:induction false} RequiredStep(fields: seq<JobField>, k: nat)
    requires k < |fields|
    ensures RequiredByDefault(fields[k..]) == (if fields[k].default != "" then [fields[k].key] else []) + RequiredByDefault(fields[k + 1..])
    ensures RequiredByFlag(fields[k..]) == (if fields[k].required then [fields[k].key] else []) + RequiredByFlag(fields[k + 1..])
  {
    assert fields[k..][1..] == fields[k + 1..];
  }

  /** As written, only status, priority and the assigned date are ever checked, where the
      required flags name six fields. */
  lemma {:induction false} RequiredAsWritten(today: string)
    requires today != ""
    ensures RequiredByDefault(JobFields(today)) == ["status", "priority", "assigned_date"]
    ensures RequiredByFlag(JobFields(today)) == ["cadet", "title", "description", "status", "priority", "assigned_date"]
  {
    var f := JobFields(today);
    DefaultsOfSeven(f);
    FlagsOfSeven(f);
  }

  /** Seven rows whose middle three alone have defaults select those three. */
  lemma {:induction false} DefaultsOfSeven(f: seq<JobField>)
    requires |f| == 7
    requires f[0].default == "" && f[1].default == "" && f[2].default == "" && f[6].default == ""
    requires f[3].default != "" && f[4].default != "" && f[5].default != ""
    ensures RequiredByDefault(f) == [f[3].key, f[4].key, f[5].key]
  {
    SevenSteps(f);
  }

  /** Seven rows of which all but the last are flagged select the first six. */
  lemma {:induction false} FlagsOfSeven(f: seq<JobField>)
    requires |f| == 7
    requires f[0].required && f[1].required && f[2].required && f[3].required && f[4].required && f[5].required
    requires !f[6].required
    ensures RequiredByFlag(f) == [f[0].key, f[1].key, f[2].key, f[3].key, f[4].key, f[5].key]
  {
    SevenSteps(f);
  }

  lemma {:induction false} SevenSteps(f: seq<JobField>)
    requires |f| == 7
    ensures RequiredByDefault(f[7..]) == [] && RequiredByFlag(f[7..]) == []
    ensures forall k :: 0 <= k < 7 ==>
      && RequiredByDefault(f[k..]) == (if f[k].default != "" then [f[k].key] else []) + RequiredByDefault(f[k + 1..])
      && RequiredByFlag(f[k..]) == (if f[k].required then [f[k].key] else []) + RequiredByFlag(f[k + 1..])
    ensures f[0..] == f
  {
    forall k | 0 <= k < 7
      ensures && RequiredByDefault(f[k..]) == (if f[k].default != "" then [f[k].key] else []) + RequiredByDefault(f[k + 1..])
              && RequiredByFlag(f[k..]) == (if f[k].required then [f[k].key] else []) + RequiredByFlag(f[k + 1..])
    {
      RequiredStep(f, k);
    }
  }

  lemma {:induction false} MissingStep(required: seq<string>, data: map<string, string>)
    requires |required| > 0
    ensures Missing(required, data) ==
      (if required[0] !in data || data[required[0]] == "" then [required[0]] else []) + Missing(required[1..], data)
  {
  }

  /** A job form as it opens, before anything is entered: the cadet combobox shows its
      placeholder "Select a cadet...", the title and description are empty, and the other
      rows hold their defaults. */
  function BlankJob(today: string): map<string, string> {
    map["cadet" := "Select a cadet...", "title" := "", "description" := "", "status" := "Pending",
        "priority" := "Medium", "assigned_date" := today, "notes" := ""]
  }

  /** What the blank job holds under each key. */
  lemma {:induction false} BlankJobFields(today: string)
    requires today != ""
    ensures var data := BlankJob(today);
      && data.Keys == {"cadet", "title", "description", "status", "priority", "assigned_date", "notes"}
      && data["cadet"] == "Select a cadet..." && data["title"] == "" && data["description"] == ""
      && data["status"] != "" && data["priority"] != "" && data["assigned_date"] != ""
  {
  }

  /** The blank job passes the check as written ... */
  lemma {:induction false} EmptyTitleSlipsThrough(today: string)
    requires today != ""
    ensures Missing(RequiredByDefault(JobFields(today)), BlankJob(today)) == []
  {
    RequiredAsWritten(today);
    BlankJobFields(today);
    MissingNone(["status", "priority", "assigned_date"], BlankJob(today));
  }

  /** ... while the required flags report the blank title and description. The cadet's
      placeholder is not empty, so it passes this check too. */
  lemma {:induction false} FlagsReportBlankFields(today: string)
    requires today != ""
    ensures Missing(RequiredByFlag(JobFields(today)), BlankJob(today)) == ["title", "description"]
  {
    RequiredAsWritten(today);
    BlankJobFields(today);
    MissingBlankTwo(BlankJob(today));
  }

  /** Nothing is missing when every required key holds a value. */
  lemma {:induction false} MissingNone(required: seq<string>, data: map<string, string>)
    requires forall k :: k in required ==> k in data && data[k] != ""
    ensures Missing(required, data) == []
  {
    if |required| > 0 {
      assert forall k :: k in required[1..] ==> k in required;
      MissingNone(required[1..], data);
    }
  }

  lemma {:induction false} MissingBlankThree(data: map<string, string>)
    requires "cadet" in data && "title" in data && "description" in data
    requires "status" in data && "priority" in data && "assigned_date" in data
    requires data["cadet"] == "" && data["title"] == "" && data["description"] == ""
    requires data["status"] != "" && data["priority"] != "" && data["assigned_date"] != ""
    ensures Missing(["cadet", "title", "description", "status", "priority", "assigned_date"], data) == ["cadet", "title", "description"]
  {
    MissingNoneThree("status", "priority", "assigned_date", data);
    MissingBlankPrefix("cadet", "title", "description", ["status", "priority", "assigned_date"], data);
    SixKeys("cadet", "title", "description", "status", "priority", "assigned_date");
  }

  /** With the cadet filled in, only the blank title and description are missing. */
  lemma {:induction false} MissingBlankTwo(data: map<string, string>)
    requires "cadet" in data && "title" in data && "description" in data
    requires "status" in data && "priority" in data && "assigned_date" in data
    requires data["cadet"] != "" && data["title"] == "" && data["description"] == ""
    requires data["status"] != "" && data["priority"] != "" && data["assigned_date"] != ""
    ensures Missing(["cadet", "title", "description", "status", "priority", "assigned_date"], data) == ["title", "description"]
  {
    var s := ["cadet", "title", "description", "status", "priority", "assigned_date"];
    MissingNoneThree("status", "priority", "assigned_date", data);
    MissingBlankPair("title", "description", ["status", "priority", "assigned_date"], data);
    assert s[1..] == ["title", "description"] + ["status", "priority", "assigned_date"];
    MissingStep(s, data);
  }

  /** Two blank keys ahead of keys that all hold values are exactly what is missing. */
  lemma {:induction false} MissingBlankPair(a: string, b: string, rest: seq<string>, data: map<string, string>)
    requires a in data && b in data && data[a] == "" && data[b] == ""
    requires Missing(rest, data) == []
    ensures Missing([a, b] + rest, data) == [a, b]
  {
    var s := [a, b] + rest;
    assert s[1..][1..] == rest;
    MissingStep(s[1..], data);
    MissingStep(s, data);
  }

  lemma {:induction false} MissingNoneThree(a: string, b: string, c: string, data: map<string, string>)
    requires a in data && b in data && c in data && data[a] != "" && data[b] != "" && data[c] != ""
    ensures Missing([a, b, c], data) == []
  {
    MissingNone([a, b, c], data);
  }

  lemma {:induction false} SixKeys<T>(a: T, b: T, c: T, d: T, e: T, f: T)
    ensures [a, b, c] + [d, e, f] == [a, b, c, d, e, f]
  {
  }

  /** Three blank keys ahead of keys that all hold values are exactly what is missing. */
  lemma {:induction false} MissingBlankPrefix(a: string, b: string, c: string, rest: seq<string>, data: map<string, string>)
    requires a in data && b in data && c in data && data[a] == "" && data[b] == "" && data[c] == ""
    requires Missing(rest, data) == []
    ensures Missing([a, b, c] + rest, data) == [a, b, c]
  {
    var s := [a, b, c] + rest;
    assert s[1..][1..][1..] == rest;
    MissingStep(s[1..][1..], data);
    MissingStep(s[1..], data);
    MissingStep(s, data);
  }

  // Fundraiser form keys.

  /** One character of a form key: a space becomes an underscore, a capital its lower case. */
  function KeyChar(c: char): char {
    if c == ' ' then '_' else LowerChar(c)
  }

  /** The key under which a form row's value is kept, character by character. */
  function FormKey(caption: string): (k: string)
    ensures |k| == |caption|
    ensures forall i :: 0 <= i < |caption| ==> k[i] == KeyChar(caption[i])
  {
    seq(|caption|, i requires 0 <= i < |caption| => KeyChar(caption[i]))
  }

  /** FormKey is `caption.lower().replace(" ", "_")`. */
  lemma {:induction false} FormKeyMatchesSource(caption: string)
    ensures FormKey(caption) == ReplaceChar(Lower(caption), ' ', "_")
  {
    ReplaceCharByChar(Lower(caption), ' ', '_');
  }

  const FundraiserLabels: seq<string> := ["Fundraiser Name", "Description", "Start Date", "End Date",
    "Goal Amount ($)", "Item/Service", "Item Price ($)", "Contact Person", "Contact Email", "Contact Phone", "Notes"]

  /** The date rows are kept under "start_date" and "end_date". */
  lemma {:induction false} StartDateKey()
    ensures FormKey("Start Date") == "start_date"
  {
  }

  lemma {:induction false} EndDateKey()
    ensures FormKey("End Date") == "end_date"
  {
  }

  /** The amount rows are kept under "goal_amount_($)" and "item_price_($)", parentheses
      and all. */
  lemma {:induction false} AmountKeys()
    ensures FormKey("Goal Amount ($)") == "goal_amount_($)"
    ensures FormKey("Item Price ($)") == "item_price_($)"
  {
  }

  /** No row of the fundraiser form is kept under "goal_amount_$" or "item_price_$": the
      amount rows keep their parentheses. */
  lemma {:induction false} NoDollarKeys()
    ensures forall l :: l in FundraiserLabels ==> FormKey(l) != "goal_amount_$" && FormKey(l) != "item_price_$"
  {
    LabelShapes();
    NoDollarKeysAmong(FundraiserLabels);
  }

  /** The captions of 13 characters start with C, the one of 12 has a slash fifth. */
  lemma {:induction false} LabelShapes()
    ensures forall l :: l in FundraiserLabels ==> (|l| == 13 ==> l[0] == 'C') && (|l| == 12 ==> l[4] == '/')
  {
  }

  lemma {:induction false} NoDollarKeysAmong(labels: seq<string>)
    requires forall l :: l in labels ==> (|l| == 13 ==> l[0] == 'C') && (|l| == 12 ==> l[4] == '/')
    ensures forall l :: l in labels ==> FormKey(l) != "goal_amount_$" && FormKey(l) != "item_price_$"
  {
    forall l | l in labels
      ensures FormKey(l) != "goal_amount_$" && FormKey(l) != "item_price_$"
    {
      NotDollarKey(l);
    }
  }

  /** A key is "goal_amount_$" only for a 13-character caption starting with G, and
      "item_price_$" only for a 12-character caption with a space fifth. */
  lemma {:induction false} NotDollarKey(caption: string)
    ensures FormKey(caption) == "goal_amount_$" ==> |caption| == 13 && KeyChar(caption[0]) == 'g'
    ensures FormKey(caption) == "item_price_$" ==> |caption| == 12 && KeyChar(caption[4]) == '_'
  {
  }

  /** The rows of the fundraiser form: each caption with whether it is a text box. */
  function FundraiserRows(): seq<(string, bool)> {
    [("Fundraiser Name", false), ("Description", true), ("Start Date", false), ("End Date", false),
     ("Goal Amount ($)", false), ("Item/Service", false), ("Item Price ($)", false),
     ("Contact Person", false), ("Contact Email", false), ("Contact Phone", false), ("Notes", true)]
  }

  /** `fundraiser_data`: each row's entered value under its form key, text boxes stripped. */
  function FormData(rows: seq<(string, bool)>, values: seq<string>): (data: map<string, string>)
    requires |rows| == |values|
    ensures forall i :: 0 <= i < |rows| ==> FormKey(rows[i].0) in data
  {
    if |rows| == 0 then map[]
    else
      var n := |rows| - 1;
      FormData(rows[..n], values[..n])[FormKey(rows[n].0) := if rows[n].1 then Strip(values[n]) else values[n]]
  }

  /** The form data has a key exactly for each row's form key. */
  lemma {:induction false} FormDataKeys(rows: seq<(string, bool)>, values: seq<string>, k: string)
    requires |rows| == |values|
    ensures k in FormData(rows, values) <==> exists i :: 0 <= i < |rows| && FormKey(rows[i].0) == k
  {
    if |rows| > 0 {
      var n := |rows| - 1;
      FormDataKeys(rows[..n], values[..n], k);
      assert forall i :: 0 <= i < n ==> rows[..n][i] == rows[i];
      if exists i :: 0 <= i < |rows| && FormKey(rows[i].0) == k {
        var i :| 0 <= i < |rows| && FormKey(rows[i].0) == k;
        if i < n {
          assert rows[..n][i] == rows[i];
        }
      }
    }
  }

  datatype SaveOutcome = Saved(data: map<string, Value>) | InvalidDate | InvalidAmount | SaveFailed(message: string)

  /** `fundraiser_data[key]` for a key the form may lack: a KeyError reaches the outer
      handler. */
  function Entered(data: map<string, string>, key: string): Result<string> {
    if key in data then Ok(data[key]) else Err(Exc(KeyError, "'" + key + "'"))
  }

  /** `save_fundraiser`, reading the goal and price under the keys given: the two dates are
      read and normalised (a bad one is a ValueError with its own message), then the two
      amounts, with any '$' removed, are read as numbers. */
  function SaveFundraiser(goalKey: string, priceKey: string, data: map<string, string>,
                          parseDate: string -> Option<int>, formatDate: int -> string,
                          parseFloat: string -> Option<real>, now: string): (r: SaveOutcome)
    ensures r.Saved? ==> "start_date" in data && "end_date" in data && goalKey in data && priceKey in data
    ensures r.SaveFailed? ==> StartsWith(r.message, "Failed to add fundraiser: ")
  {
    match Entered(data, "start_date")
    case Err(e) => SaveFailed("Failed to add fundraiser: " + e.msg)
    case Ok(start) =>
      if parseDate(start).None? then InvalidDate
      else match Entered(data, "end_date")
      case Err(e) => SaveFailed("Failed to add fundraiser: " + e.msg)
      case Ok(end) =>
        if parseDate(end).None? then InvalidDate
        else match Entered(data, goalKey)
        case Err(e) => SaveFailed("Failed to add fundraiser: " + e.msg)
        case Ok(goal) =>
          match parseFloat(Strip(ReplaceChar(goal, '$', "")))
          case None => InvalidAmount
          case Some(g) =>
            match Entered(data, priceKey)
            case Err(e) => SaveFailed("Failed to add fundraiser: " + e.msg)
            case Ok(price) =>
              match parseFloat(Strip(ReplaceChar(price, '$', "")))
              case None => InvalidAmount
              case Some(p) =>
                Saved(SavedRecord(data, formatDate(parseDate(start).value), formatDate(parseDate(end).value), g, p, now))
  }

  /** The record written: the form's values as strings, with the normalised dates, the two
      amounts, the two timestamps and the zero totals put over them. */
  function SavedRecord(data: map<string, string>, start: string, end: string, g: real, p: real, now: string): map<string, Value> {
    var record := (map k | k in data :: Str(data[k]));
    record["start_date" := Str(start)]["end_date" := Str(end)]
          ["goal_amount" := Float(g)]["item_price" := Float(p)]
          ["created_at" := Str(now)]["updated_at" := Str(now)]
          ["total_raised" := Float(0.0)]["participants" := Int(0)]
  }

  lemma {:induction false} SavedRecordFields(data: map<string, string>, start: string, end: string, g: real, p: real, now: string)
    ensures var r := SavedRecord(data, start, end, g, p, now);
      && r["start_date"] == Str(start) && r["goal_amount"] == Float(g) && r["item_price"] == Float(p)
      && r["participants"] == Int(0) && r["total_raised"] == Float(0.0)
  {
    assert "start_date"[0] == 's' && "end_date"[0] == 'e' && "goal_amount"[0] == 'g' && "item_price"[0] == 'i';
    assert "created_at"[0] == 'c' && "updated_at"[0] == 'u' && "total_raised"[0] == 't' && "participants"[0] == 'p';
  }

  /** The save as written reads the goal under 'goal_amount_$', a key the form never has. */
  function SaveFundraiserAsWritten(values: seq<string>, parseDate: string -> Option<int>, formatDate: int -> string,
                                   parseFloat: string -> Option<real>, now: string): SaveOutcome
    requires |values| == |FundraiserRows()|
  {
    SaveFundraiser("goal_amount_$", "item_price_$", FormData(FundraiserRows(), values), parseDate, formatDate, parseFloat, now)
  }

  /** The save reading the goal and price under the keys the form gives them. */
  function SaveFundraiserCorrected(values: seq<string>, parseDate: string -> Option<int>, formatDate: int -> string,
                                   parseFloat: string -> Option<real>, now: string): SaveOutcome
    requires |values| == |FundraiserRows()|
  {
    SaveFundraiser(FormKey("Goal Amount ($)"), FormKey("Item Price ($)"), FormData(FundraiserRows(), values),
                   parseDate, formatDate, parseFloat, now)
  }

  /** With both dates present and the goal key absent, the save never succeeds. */
  lemma {:induction false} SaveFailsWithoutGoal(goalKey: string, priceKey: string, data: map<string, string>,
                                                parseDate: string -> Option<int>, formatDate: int -> string,
                                                parseFloat: string -> Option<real>, now: string)
    requires "start_date" in data && "end_date" in data && goalKey !in data
    ensures var r := SaveFundraiser(goalKey, priceKey, data, parseDate, formatDate, parseFloat, now);
      r == InvalidDate || r == SaveFailed("Failed to add fundraiser: '" + goalKey + "'")
  {
  }

  /** With every key present, the save succeeds exactly when both dates and both amounts
      read, and the saved record holds what was read. */
  lemma {:induction false} SaveSucceedsWithKeys(goalKey: string, priceKey: string, data: map<string, string>,
                                                parseDate: string -> Option<int>, formatDate: int -> string,
                                                parseFloat: string -> Option<real>, now: string)
    requires "start_date" in data && "end_date" in data && goalKey in data && priceKey in data
    ensures var r := SaveFundraiser(goalKey, priceKey, data, parseDate, formatDate, parseFloat, now);
      var goal := parseFloat(Strip(ReplaceChar(data[goalKey], '$', "")));
      var price := parseFloat(Strip(ReplaceChar(data[priceKey], '$', "")));
      && !r.SaveFailed?
      && (r.Saved? <==> parseDate(data["start_date"]).Some? && parseDate(data["end_date"]).Some? && goal.Some? && price.Some?)
      && (r.Saved? ==>
            && r.data["start_date"] == Str(formatDate(parseDate(data["start_date"]).value))
            && r.data["goal_amount"] == Float(goal.value) && r.data["item_price"] == Float(price.value)
            && r.data["participants"] == Int(0) && r.data["total_raised"] == Float(0.0))
  {
    var r := SaveFundraiser(goalKey, priceKey, data, parseDate, formatDate, parseFloat, now);
    if r.Saved? {
      var goal := parseFloat(Strip(ReplaceChar(data[goalKey], '$', "")));
      var price := parseFloat(Strip(ReplaceChar(data[priceKey], '$', "")));
      SavedRecordFields(data, formatDate(parseDate(data["start_date"]).value), formatDate(parseDate(data["end_date"]).value),
                        goal.value, price.value, now);
    }
  }

  /** The rows' captions are the form's labels, in order. */
  lemma {:induction false} RowCaptions()
    ensures |FundraiserRows()| == |FundraiserLabels|
    ensures forall i :: 0 <= i < |FundraiserLabels| ==> FundraiserRows()[i].0 == FundraiserLabels[i]
  {
  }

  /** Every row's key is in the form data. */
  lemma {:induction false} FormDataHas(rows: seq<(string, bool)>, values: seq<string>, i: nat)
    requires |rows| == |values| && i < |rows|
    ensures FormKey(rows[i].0) in FormData(rows, values)
  {
    FormDataKeys(rows, values, FormKey(rows[i].0));
  }

  /** The fundraiser form has its two date keys and its two amount keys, but not the ones
      the save reads. */
  lemma {:induction false} FundraiserFormKeys(values: seq<string>)
    requires |values| == |FundraiserRows()|
    ensures var data := FormData(FundraiserRows(), values);
      && "start_date" in data && "end_date" in data
      && FormKey("Goal Amount ($)") in data && FormKey("Item Price ($)") in data
      && "goal_amount_$" !in data
  {
    FundraiserDateKeys(values);
    FundraiserAmountKeys(values);
    FundraiserNoDollarKey(values);
  }

  lemma {:induction false} FundraiserDateKeys(values: seq<string>)
    requires |values| == |FundraiserRows()|
    ensures var data := FormData(FundraiserRows(), values);
      "start_date" in data && "end_date" in data
  {
    var rows := FundraiserRows();
    FormDataHas(rows, values, 2);
    FormDataHas(rows, values, 3);
    assert rows[2].0 == "Start Date" && rows[3].0 == "End Date";
    StartDateKey();
    EndDateKey();
  }

  lemma {:induction false} FundraiserAmountKeys(values: seq<string>)
    requires |values| == |FundraiserRows()|
    ensures var data := FormData(FundraiserRows(), values);
      FormKey("Goal Amount ($)") in data && FormKey("Item Price ($)") in data
  {
    var rows := FundraiserRows();
    FormDataHas(rows, values, 4);
    FormDataHas(rows, values, 6);
    assert rows[4].0 == "Goal Amount ($)" && rows[6].0 == "Item Price ($)";
  }

  lemma {:induction false} FundraiserNoDollarKey(values: seq<string>)
    requires |values| == |FundraiserRows()|
    ensures "goal_amount_$" !in FormData(FundraiserRows(), values)
  {
    var rows := FundraiserRows();
    RowCaptions();
    NoDollarKeys();
    FormDataKeys(rows, values, "goal_amount_$");
    assert forall i :: 0 <= i < |rows| ==> rows[i].0 in FundraiserLabels;
  }

  /** As written, no fundraiser is ever saved: with valid dates the goal lookup fails. */
  lemma {:induction false} FundraiserNeverSaved(values: seq<string>, parseDate: string -> Option<int>, formatDate: int -> string,
                                                parseFloat: string -> Option<real>, now: string)
    requires |values| == |FundraiserRows()|
    ensures var r := SaveFundraiserAsWritten(values, parseDate, formatDate, parseFloat, now);
      r == InvalidDate || r == SaveFailed("Failed to add fundraiser: '" + "goal_amount_$" + "'")
  {
    FundraiserFormKeys(values);
    SaveFailsWithoutGoal("goal_amount_$", "item_price_$", FormData(FundraiserRows(), values), parseDate, formatDate, parseFloat, now);
  }

  /** With the form's own keys, a fundraiser is saved exactly when both dates and both
      amounts read. */
  lemma {:induction false} FundraiserSavedWhenValid(values: seq<string>, parseDate: string -> Option<int>, formatDate: int -> string,
                                                    parseFloat: string -> Option<real>, now: string)
    requires |values| == |FundraiserRows()|
    ensures var data := FormData(FundraiserRows(), values);
      var r := SaveFundraiserCorrected(values, parseDate, formatDate, parseFloat, now);
      var goalKey := FormKey("Goal Amount ($)");
      var priceKey := FormKey("Item Price ($)");
      && goalKey in data && priceKey in data && "start_date" in data && "end_date" in data
      && !r.SaveFailed?
      && (r.Saved? <==>
            && parseDate(data["start_date"]).Some? && parseDate(data["end_date"]).Some?
            && parseFloat(Strip(ReplaceChar(data[goalKey], '$', ""))).Some?
            && parseFloat(Strip(ReplaceChar(data[priceKey], '$', ""))).Some?)
  {
    FundraiserFormKeys(values);
    SaveSucceedsWithKeys(FormKey("Goal Amount ($)"), FormKey("Item Price ($)"), FormData(FundraiserRows(), values), parseDate, formatDate, parseFloat, now);
  }

  /** `default if default in options else options[0]`, the option an option menu starts on;
      with no options nothing is chosen. */
  function OptionMenuChoice(default: Value, options: seq<string>): (r: Option<string>)
    ensures r.Some? ==> r.value in options
    ensures r.None? <==> |options| == 0
    ensures default.Str? && default.s in options ==> r == Some(default.s)
    ensures !(default.Str? && default.s in options) && |options| > 0 ==> r == Some(options[0])
  {
    if default.Str? && default.s in options then Some(default.s)
    else if |options| > 0 then Some(options[0])
    else None
  }
}
