# AFJROTC unit manager: the record-processing core in Dafny

The application is a desktop client for an AFJROTC unit. It keeps cadets, jobs, events,
fundraisers and contacts in a hosted realtime database and shows them in list screens and on a
dashboard. Most of the program builds widgets. Among the widget code, though, it runs a set of
small rules over plain records, and this project models those rules and proves what they do:

- how a realtime push message becomes the new contents of an in-memory collection cache
  (`Caches`), and the application object whose handlers apply those rules, refresh the upcoming
  list and guard the dashboard refresh with a flag (`App`);
- the registry of stream subscriptions and its cleanup (`Listeners`);
- how the cadet list screen shapes and orders the cache and draws its rows (`CadetsView`);
- the dashboard counters and the placement of their cards (`Dashboard`);
- the seven-day upcoming-events window and the calendar's order (`Upcoming`);
- the cadet roster report, the report dispatch and the export file name (`Roster`);
- the sign-up, change-password, job and fundraiser form rules, and how an option menu picks
  its first choice (`Forms`);
- the classifiers of the contact, uniform and fundraiser lists (`Display`);
- the backend wrapper's singleton protocol, error translation and record shaping (`Firebase`).

Python values are modelled by `Py.Value`: None, booleans, integers, floats (as reals), strings,
lists, and dicts as ordered association lists. A raised exception is an `Py.Exc` (kind and
message), carried in a `Py.Result`. `Py` also holds the dict lookup, `get`, `[]`, `in`,
truthiness, `str.lower`, `strip` and `replace` that the rules use. `Sorting` is one stable sort
proved sorted, a permutation and stable, with its strict-weak-order lemmas. `PyOrder` is Python's
`<` on the values the sort keys hold, with a TypeError for pairs Python cannot compare.

The backend SDK, the clock and date parsing are parameters. A backend call is a `Result` handed
in, today and now are day numbers and an `Instant`, and `strptime`/`float` are functions
`parseDate`/`parseFloat` supplied by the caller.

## Model

| member | source | states |
|---|---|---|
| `Caches.ListToDict` | main.py:243 | the list-to-dict comprehension gives distinct keys and at most one entry per item |
| `Caches.ListToDictFails` | main.py:243 | the comprehension succeeds exactly when every truthy item is a dict whose key (its 'id', else its index) is hashable |
| `Caches.ListToDictLast` | main.py:243 | the last item, when kept, wins its key over every earlier item; otherwise the lookup is that of the shorter list |
| `Caches.ListToDictLookup` | main.py:243 | a key is present exactly when some kept item has it, and it maps to the last such item; falsy items are dropped but still count in the indices |
| `Caches.OrEmpty` | main.py:238 | `data or {}` keeps a truthy payload and turns every falsy one into an empty dict |
| `Caches.GenericPush` | main.py:235-245 | a write yields a truthy payload or {}, never a list, and only for a dict message |
| `Caches.GenericPushOnlyWrites` | main.py:237 | the cache changes only for "put" and "patch" messages |
| `Caches.GenericPushFalsyIsEmpty` | main.py:238 | a write with a null or otherwise falsy payload stores {} |
| `Caches.GenericPushStoresPayload` | main.py:244-245 | a write with a truthy payload that is not a list stores it as it is |
| `Caches.AnyDashKey` | main.py:999 | the dash-key scan fails only with AttributeError, on a key that is not a string |
| `Caches.AnyDashKeyMeaning` | main.py:999 | the scan finds a dash key exactly when some key starts with '-' and every key before it is a string; it finds none exactly when every key is a string not starting with '-' |
| `Caches.CadetsPushNeedsEvent` | main.py:995 | a message without 'event' raises KeyError('event') |
| `Caches.CadetsPush` | main.py:993-1002 | the callback succeeds only once 'event' is read; a stored cache is always a dict, and only a write stores one |
| `Caches.CadetsPushReads` | main.py:995-996 | for a write, `message["event"]` and `message["data"]` read the message's fields |
| `Caches.CadetsPushDictPayload` | main.py:997-1002 | a non-empty dict payload is wrapped as {'direct': data} exactly when no key is a dash key, stored unchanged exactly when a dash key is found, and raises otherwise |
| `Caches.WholesalePush` | main.py:1011-1036 | a write replaces the cache by a truthy payload or by {} |
| `Caches.WholesalePushStores` | main.py:1012-1013 | a write whose message holds 'data' stores `data or {}` |
| `Listeners.UpdateMethods` | main.py:254-260 | every listed collection schedules some refresh, and all but contacts schedule `update_dashboard` |
| `Listeners.Unsubscribe` | main.py:268-272 | unsubscribing keeps the map and its order, and calls the name's handle exactly when it is registered and callable |
| `Listeners.Register` | main.py:275 | the name maps to the new handle, every other name keeps its handle, no handle is called, and a name already present keeps its place |
| `Listeners.SetupSpec` | main.py:259-280 | set-up only appends calls, and an error it reports starts "Error setting up real-time listeners: " |
| `Listeners.CallableIn` | main.py:285-288 | the handles cleanup calls are callable ones, at most one per name |
| `Listeners.CallableInMembers` | main.py:285-288 | a handle is called exactly when it is callable and registered under a listed name |
| `Listeners.SetupKeepsWellFormed` | main.py:262-270 | setting up keeps the registry's names and handle map in agreement |
| `Listeners.SetupFailsIff` | main.py:262-275 | setting up reports an error exactly when some subscription fails |
| `Listeners.SetupSucceeds` | main.py:262-270 | after a successful set-up every collection maps to its new handle and other names keep theirs |
| `Listeners.SetupCalls` | main.py:263-267 | set-up calls each collection's previous handle, when callable, before replacing it |
| `Listeners.CallableInOthers` | main.py:263-267 | replacing one name's handle does not change which handles the other names would have called |
| `Listeners.CallableInSnoc` | main.py:285-288 | cleanup calls the handles in registration order |
| `Listeners.CleanupCallsEveryCallable` | main.py:282-291 | cleanup calls exactly the callable registered handles |
| `Listeners.Registry.constructor` | main.py:229-230 | a new registry is empty |
| `Listeners.Registry.Setup` | main.py:228-275 | set-up changes the registry as the set-up specification says and keeps it well formed |
| `Listeners.Registry.Cleanup` | main.py:282-291 | cleanup calls every callable handle, in order, and empties the map |
| `CadetsView.ListableEntries` | main.py:2550 | the listed entries are exactly the cache's entries whose value is a dict or a string |
| `CadetsView.ListableItems` | main.py:2555 | a list cache lists exactly its dict and string items, each with its index |
| `CadetsView.DisplayEntries` | main.py:2546-2555 | every listed entry's record is a dict or a string, and a cache that is neither a dict nor a list lists nothing |
| `CadetsView.FlatRecordBranchIsDead` | main.py:2549-2553 | a dict with a non-string key lists nothing, so the flat-record branch never produces a row |
| `CadetsView.FirstTruthy` | main.py:2562-2563 | `x or y or ''` picks the first truthy value, else '' |
| `CadetsView.SortKey` | main.py:2558-2564 | a non-dict record's key is ('', ''), and no key holds an upper-case letter |
| `CadetsView.CadetLtIsStrictWeakOrder` | main.py:2558-2566 | the order of the sort keys is a strict weak order |
| `CadetsView.SortKeysCompare` | main.py:2558-2566 | the sort keys always compare and are ordered as Python's tuple `<` orders them |
| `CadetsView.SortedEntries` | main.py:2566 | the sorted list holds the listed entries, each as often |
| `CadetsView.SortedEntriesSpec` | main.py:2566 | the sorted list is a permutation of the listed entries, sorted by key, and stable |
| `CadetsView.EmptyPairIsLeast` | main.py:2559-2560 | the key ('', '') is below or equal to every pair of strings |
| `CadetsView.NonDictSortsFirst` | main.py:2559-2560 | everything sorted ahead of a string record also has the key ('', '') |
| `CadetsView.FieldOr` | main.py:2638-2675 | `d.get(a, d.get(b, default))` takes the first field that is present, even an empty one |
| `CadetsView.DictEntries` | main.py:2625-2627 | only dict records get a row |
| `CadetsView.RenderRow` | main.py:2629-2680 | a row keeps its id; it shows "last, first" from 'last_name'/'Last Name' and 'first_name'/'First Name', and the grade, flight and CS hours from the lower-case key, else the capitalised one, else '' ('' and 0 for CS hours); it shows the 'status' field, "Active" when neither status key is present, and is active exactly when the lower-cased status is "active" |
| `CadetsView.RenderRows` | main.py:2625-2680 | a successful drawing has one row per dict record, and a failure is AttributeError |
| `CadetsView.RenderRowsFails` | main.py:2675-2679 | drawing the rows succeeds exactly when every dict record's status is a string |
| `CadetsView.RowsOf` | main.py:2625-2679 | one row per record, row i being the rendering of record i |
| `CadetsView.RenderRowsContents` | main.py:2625-2679 | a successful drawing has one row per dict record, in order |
| `CadetsView.Display` | main.py:2542-2574 | "No cadets found." shows exactly when the cache is falsy, lists no entry, or drawing its rows raises; otherwise the screen holds the rows of the sorted entries' dict records, in order |
| `CadetsView.NameFallbacksDisagree` | main.py:2562-2638 | the sort key skips an empty 'last_name' while the row shows it |
| `Dashboard.GradeOf` | main.py:3761-3766 | a cadet falls in one of the four grade buckets or none, and only a dict cadet gets a bucket |
| `Dashboard.HoursOf` | main.py:3768-3770 | a cadet without 'communityServiceHours' has 0 hours, and only a non-number may fail to read |
| `Dashboard.EventAhead` | main.py:3778-3787 | an event counts only when it is a dict whose 'date' is a string |
| `Dashboard.JobPending` | main.py:3789-3793 | a job raises exactly when it is a dict whose 'status' is not a string, with AttributeError; a dict without 'status' is not pending |
| `Dashboard.FundraiserActive` | main.py:3797-3806 | a fundraiser counts, or raises AttributeError, only when it is a dict whose 'endDate' reads as a day not before now |
| `Dashboard.StatsSpec` | main.py:3757-3806 | the counters fail exactly when the pending or the active count fails; otherwise the total is the size of the cadets cache, there are four buckets, and the other counts are bounded by their caches |
| `Dashboard.CountGrade` | main.py:3760-3766 | a grade bucket never exceeds the number of cadets |
| `Dashboard.CountNeeding` | main.py:3768-3774 | the cadets needing hours never exceed the number of cadets |
| `Dashboard.CountEvents` | main.py:3776-3787 | the upcoming-event count never exceeds the number of events |
| `Dashboard.CountPending` | main.py:3789-3793 | the pending-jobs count never exceeds the number of jobs |
| `Dashboard.CountFundraisers` | main.py:3795-3806 | the active-fundraiser count never exceeds the number of fundraisers |
| `Dashboard.PendingOf` | main.py:3789-3793 | the pending count of the jobs cache is bounded by its size |
| `Dashboard.ActiveOf` | main.py:3795-3806 | the active count of the fundraisers cache is bounded by its size |
| `Dashboard.Bump` | main.py:3765-3766 | one cadet adds one to its own bucket and leaves the others |
| `Dashboard.ComputeStats` | main.py:3747-3806 | the counter loops compute the stats specification |
| `Dashboard.TallyCadets` | main.py:3760-3774 | the cadet loop computes the grade buckets, the total hours and the cadets needing hours |
| `Dashboard.CadetStep` | main.py:3760-3774 | one more cadet updates the buckets, the hours and the needing count by that cadet's share |
| `Dashboard.GradeStep` | main.py:3764-3766 | one more cadet adds one to its bucket's count |
| `Dashboard.TallyEvents` | main.py:3778-3787 | the event loop computes the upcoming count |
| `Dashboard.TallyPending` | main.py:3790-3793 | the pending loop computes the pending count or the AttributeError of a non-string status |
| `Dashboard.TallyFundraisers` | main.py:3797-3806 | the fundraiser loop computes the active count or its error |
| `Dashboard.PendingFailsOnPrefix` | main.py:3790-3793 | once the pending count fails on a prefix, it fails the same way on the whole |
| `Dashboard.PendingFailsOnPrefixStep` | main.py:3790-3793 | a failure on a prefix survives one more job |
| `Dashboard.FundraisersFailOnPrefix` | main.py:3797-3806 | once the fundraiser count fails on a prefix, it fails the same way on the whole |
| `Dashboard.GradeBucketsBounded` | main.py:3760-3766 | the four buckets together never exceed the number of cadets |
| `Dashboard.CountPendingFails` | main.py:3792 | the pending count fails exactly when some dict job's status is not a string |
| `Dashboard.StatsBounded` | main.py:3757-3806 | the total is every entry of the cadets cache; buckets, needing hours, pending jobs, events and fundraisers are bounded by their caches |
| `Dashboard.TodayCountsOnlyAtMidnight` | main.py:3783-3784 | an event dated today counts only at midnight exactly, and a past one never |
| `Dashboard.GridColumns` | main.py:3824-3828 | the grid has two to four columns, two for four or five cards |
| `Dashboard.GridCell` | main.py:3833-3835 | a card's cell is its row and column in reading order |
| `Dashboard.GridCellsDistinct` | main.py:3833-3835 | two cards never share a cell |
| `Dashboard.StatGridShape` | main.py:3808-3835 | the ten stat cards take four columns and the last one sits in row 2, column 1 |
| `Upcoming.Collect` | main.py:3563-3585 | collecting keeps at most one result per item |
| `Upcoming.Candidate` | main.py:3565-3578 | a listed event is a dict whose day is in the window, and its record is a dict |
| `Upcoming.CollectMembers` | main.py:3563-3585 | an event is collected exactly when it is the candidate of some item |
| `Upcoming.Window` | main.py:3563-3585 | the window has at most one entry per event |
| `Upcoming.CollectWindow` | main.py:3561-3588 | the loop collects exactly the window |
| `Upcoming.ComputeLatest` | main.py:3561-3588 | the loop and the sort give exactly the records the refresh specification gives, and fail exactly when it fails |
| `Upcoming.WindowMembers` | main.py:3563-3585 | the window holds exactly the candidates of the events |
| `Upcoming.EventRecordFields` | main.py:3572-3578 | the listed record holds the id, and title, date, time and location with their defaults |
| `Upcoming.CandidateMeaning` | main.py:3565-3578 | an event is listed exactly when it is a dict with a string 'date' that parses to a day from today to today + 7, and its record carries its fields |
| `Upcoming.SortKeyTime` | main.py:3583-3587 | the sort key is the day and the record's 'time', which is always present, so the '23:59' default never applies |
| `Upcoming.UpcomingLtIsStrictWeakOrder` | main.py:3583-3587 | the order of the sort keys is a strict weak order |
| `Upcoming.UntimedFirst` | main.py:3576-3587 | an untimed event sorts ahead of a timed one on its day |
| `Upcoming.UpcomingSpec` | main.py:3557-3587 | a non-dict events cache raises AttributeError, a dict one can only raise TypeError from the sort, and a success lists every event of the window |
| `Upcoming.UpcomingSpecSorted` | main.py:3582-3590 | a successful refresh lists a permutation of the window, sorted by (day, time), stably |
| `Upcoming.StringTimesNeverFail` | main.py:3582-3590 | when every time is a string the sort never raises |
| `Upcoming.Records` | main.py:3594 | the stored list holds each listed event's record, in order |
| `Upcoming.Latest` | main.py:3557-3595 | the stored records fail exactly when the refresh specification fails, only with AttributeError or TypeError, and never outnumber the events |
| `Upcoming.Replaces` | main.py:3589-3595 | the list is replaced whenever a dashboard refresh is asked for, and kept only when it is unchanged |
| `Upcoming.CalendarKey` | main.py:1078 | a dict event's key is its 'date', or '9999-12-31' when it has none |
| `Upcoming.CalendarOrder` | main.py:1078 | the calendar sort fails exactly on a non-dict event or on keys that do not compare |
| `Upcoming.CalendarList` | main.py:1078 | the calendar list fails exactly on a non-dict cache, with AttributeError, or when its order fails; a success is a permutation of the events sorted by key |
| `Upcoming.FirstNonDict` | main.py:1078 | the first event that has no `.get` |
| `Upcoming.CalendarLtIsStrictWeakOrder` | main.py:1078 | the calendar's order is a strict weak order |
| `Upcoming.UndatedLast` | main.py:1078 | an undated event comes after every event dated before '9999-12-31' |
| `Roster.FindGroup` | main.py:3339-3342 | the group lookup finds the group whose key equals the cadet's, or reports none |
| `Roster.GroupCadets` | main.py:3335-3344 | the filing loop computes the grouping |
| `Roster.GroupingFailsOnPrefix` | main.py:3335-3344 | once filing fails on a prefix, the report fails the same way |
| `Roster.GroupingFails` | main.py:3335-3344 | filing fails exactly when some cadet is not a dict or has an unhashable company or flight |
| `Roster.SumBagsSortBy` | main.py:3346-3356 | sorting groups keeps the cadets they hold |
| `Roster.AddToFlightMembers` | main.py:3341-3344 | filing a cadet into a flight adds exactly that cadet |
| `Roster.AddCadetMembers` | main.py:3339-3344 | filing a cadet into a company adds exactly that cadet |
| `Roster.AddToFlightWell` | main.py:3341-3344 | filing keeps the flights' keys distinct and each cadet under its own flight |
| `Roster.AddCadetWell` | main.py:3339-3344 | filing keeps the companies' keys distinct and each cadet under its own company and flight |
| `Roster.GroupingPartition` | main.py:3335-3344 | a successful filing holds every cadet as often as the cache does, each under its own company (default 'U') and flight (default '0') |
| `Roster.GroupingLast` | main.py:3335-3344 | the last cadet is filed into the grouping of the others |
| `Roster.Then` | main.py:3328-3374 | writing stops at the first exception |
| `Roster.RenderFlightsListed` | main.py:3350-3366 | the flights of a company list exactly their cadets |
| `Roster.RenderCompaniesListed` | main.py:3346-3368 | the companies list exactly their cadets |
| `Roster.RosterListsEveryCadet` | main.py:3333-3371 | a report that reaches its total lists every cadet of the cache exactly as often as it occurs, one line per entry |
| `Roster.RecordsOfDicts` | main.py:3335-3337 | every entry of an all-dict cache is a record |
| `Roster.RosterFrame` | main.py:3329-3374 | the report opens with its header and ends with "TOTAL CADETS: len(cadets)" or with the error line |
| `Roster.RosterBody` | main.py:3333-3372 | a non-dict cache writes nothing and fails with AttributeError; a body that does not fail comes from a dict cache |
| `Roster.RosterReport` | main.py:3327-3374 | the report starts with its header, and for a non-dict cache it is the header and the error line |
| `Roster.RenderFlightSorted` | main.py:3353-3356 | each flight's cadets are listed by (last name, first name), stably |
| `Roster.RosterLtIsStrictWeakOrder` | main.py:3355 | the within-flight order is a strict weak order |
| `Roster.GroupOrdersAreStrictWeak` | main.py:3346-3350 | the company and flight orders are strict weak orders |
| `Roster.CompaniesInKeyOrder` | main.py:3346 | companies are written in sorted key order |
| `Roster.FlightsInKeyOrder` | main.py:3350 | the flights of each company are written in sorted key order |
| `Roster.DispatchRoundTrip` | main.py:3280-3291 | dispatch keeps the type's name, and only the five known names have a generator |
| `Roster.KnownKindsDispatchBack` | main.py:3280-3289 | each known report's name dispatches back to it |
| `Roster.Dispatch` | main.py:3280-3291 | the chosen report carries the type's name, and a type without a generator keeps its own name |
| `Roster.ExportFilename` | main.py:3299 | the file name ends in ".txt" and has no space when the timestamp has none |
| `Roster.ExportFilenamePrefix` | main.py:3299 | the name is the report type with spaces made underscores, then '_', the timestamp and ".txt" |
| `Forms.SignupChecksInOrder` | main.py:858-874 | the sign-up passes exactly when name and email (stripped) and both passwords are filled, the passwords agree and have eight characters; each message appears only when every earlier check passed |
| `Forms.SignupError` | main.py:858-874 | a sign-up is refused only with one of its three messages |
| `Forms.BlankNameRejected` | main.py:858-866 | a name of spaces only counts as empty |
| `Forms.SignupFailureOrder` | main.py:899-908 | the failure message is chosen by the first of EMAIL_EXISTS, INVALID_EMAIL, WEAK_PASSWORD found, else the raw error |
| `Forms.SignupFailureMessage` | main.py:899-908 | the failure shown is one of the three fixed messages or "Failed to create account: " and the error |
| `Forms.SignupRecord` | main.py:884-890 | the user document has distinct keys |
| `Forms.SignupRecordFields` | main.py:884-890 | the document holds the uid, the stripped email and name, and the role 'user' |
| `Forms.ChangePasswordChecksInOrder` | main.py:2132-2146 | the change passes exactly when all three stripped fields are filled, the new ones agree and have six characters |
| `Forms.ChangePasswordError` | main.py:2132-2146 | a change is refused only with one of its three messages |
| `Forms.ChangePasswordFailureMessage` | main.py:2165-2170 | the status after a refused change is "Incorrect current password" or "Error: " and the error |
| `Forms.ChangePasswordFailureCases` | main.py:2165-2170 | the status shows "Incorrect current password" exactly when the lowered error contains "invalid password" or "wrong password", and "Error: " and the error otherwise |
| `Forms.RequiredByDefault` | main.py:1731 | the keys selected are those whose fourth item, the default, is non-empty |
| `Forms.RequiredByFlag` | main.py:1626-1634 | the keys whose required flag is set |
| `Forms.Missing` | main.py:1732 | a required key is missing exactly when absent or empty |
| `Forms.RequiredStep` | main.py:1731 | each row contributes its key or nothing, in order |
| `Forms.RequiredAsWritten` | main.py:1626-1731 | as written only status, priority and the assigned date are checked, where six fields are flagged |
| `Forms.MissingStep` | main.py:1732 | each required key contributes itself or nothing, in order |
| `Forms.MissingMessage` | main.py:1734-1736 | the message starts "Please fill in all required fields: " |
| `Forms.BlankJobFields` | main.py:1626-1729 | a job form left blank holds the cadet combobox's placeholder "Select a cadet...", empty title, description and notes, and the filled defaults |
| `Forms.EmptyTitleSlipsThrough` | main.py:1731-1736 | the blank job passes the required-field check as written |
| `Forms.FlagsReportBlankFields` | main.py:1626-1736 | checking the flagged fields on a blank job reports title and description; the cadet placeholder is not empty and passes |
| `Forms.MissingNone` | main.py:1732-1734 | nothing is missing when every required key holds a value |
| `Forms.MissingBlankThree` | main.py:1732-1734 | with cadet, title and description blank and the rest filled, checking the six flagged keys reports those three |
| `Forms.MissingBlankTwo` | main.py:1732-1734 | with title and description blank and the cadet and the rest filled, checking the six flagged keys reports those two |
| `Forms.MissingBlankPair` | main.py:1732 | two blank keys ahead of filled ones are reported, in order |
| `Forms.FormKey` | main.py:3097 | a form key has the caption's length, each character lower-cased and a space made '_' |
| `Forms.FormKeyMatchesSource` | main.py:3097 | the form key is `caption.lower().replace(" ", "_")` |
| `Forms.StartDateKey` | main.py:3079-3097 | "Start Date" is kept under "start_date" |
| `Forms.EndDateKey` | main.py:3080-3097 | "End Date" is kept under "end_date" |
| `Forms.AmountKeys` | main.py:3081-3097 | the amount rows are kept under "goal_amount_($)" and "item_price_($)" |
| `Forms.NoDollarKeys` | main.py:3076-3128 | no caption of the form gives "goal_amount_$" or "item_price_$" |
| `Forms.NotDollarKey` | main.py:3097 | only a 13-character caption whose first letter is a G gives "goal_amount_$", only a 12-character one whose fifth character becomes '_' gives "item_price_$" |
| `Forms.FormDataKeys` | main.py:3108-3113 | the form data has a key exactly for each row's form key |
| `Forms.FormData` | main.py:3108-3113 | the form data has the form key of every row |
| `Forms.SaveFundraiser` | main.py:3106-3146 | a save succeeds only with both dates and both amount keys present, and every other failure reads "Failed to add fundraiser: " and the error |
| `Forms.SaveFailsWithoutGoal` | main.py:3115-3146 | without the goal key the save ends in a date error or the KeyError message |
| `Forms.SaveSucceedsWithKeys` | main.py:3115-3138 | with every key present the save succeeds exactly when both dates and both amounts read, and the record holds what was read with totals zero |
| `Forms.FundraiserFormKeys` | main.py:3076-3113 | the fundraiser form has its date and amount keys but not "goal_amount_$" |
| `Forms.FundraiserDateKeys` | main.py:3079-3113 | the form data has "start_date" and "end_date" |
| `Forms.FundraiserAmountKeys` | main.py:3081-3113 | the form data has both amount keys |
| `Forms.FundraiserNoDollarKey` | main.py:3108-3127 | the form data never has "goal_amount_$" |
| `Forms.FundraiserNeverSaved` | main.py:3106-3146 | as written no fundraiser is ever saved |
| `Forms.FundraiserSavedWhenValid` | main.py:3106-3138 | reading the form's own keys, a fundraiser is saved exactly when its dates and amounts read |
| `Forms.OptionMenuChoice` | main.py:3434-3437 | the menu starts on the default when it is an option, else on the first option, and on nothing when there are none |
| `Display.ContactName` | main.py:2216-2219 | the name column is never empty and, unless "N/A", neither starts nor ends with ',' or ' ' |
| `Display.TrimPadding` | main.py:2219 | stripping removes padding made of ',' and ' ' around a kept middle |
| `Display.ContactNameBlank` | main.py:2216-2219 | with no names the column shows "N/A" |
| `Display.ContactNameBoth` | main.py:2216-2219 | with both names the column is "last, first" |
| `Display.ContactNameLastOnly` | main.py:2216-2219 | with only the last name the column is that name |
| `Display.ContactNameFirstOnly` | main.py:2216-2219 | with only the first name the column is that name |
| `Display.TypeColour` | main.py:2244-2250 | the type colour exists exactly for a hashable type, comes from the palette, and a list or dict type raises TypeError |
| `Display.TypeColourDefault` | main.py:2244-2250 | every type other than Vendor, School and Military, and a missing one, gets the grey default |
| `Display.NamedTypesDistinct` | main.py:2245-2249 | the three named types get three distinct colours, none of them grey |
| `Display.ConditionColour` | main.py:2470-2475 | a non-string condition raises AttributeError; otherwise the colour comes from green, amber and red |
| `Display.ConditionIgnoresCase` | main.py:2472-2475 | a condition and its lower-case form get the same colour |
| `Display.UnknownConditionIsGood` | main.py:2470-2471 | a missing condition shows green |
| `Display.Availability` | main.py:2484-2486 | an item is available exactly when nobody holds it, green when available and red when not |
| `Display.FundraiserStatus` | main.py:2316-2391 | the status is either ("Completed", grey) or ("Active", green) |
| `Display.CompletedOnceDatePassed` | main.py:2384-2389 | "Completed" exactly when the date parses to a day whose midnight has passed |
| `Display.ListAndDashboardDisagree` | main.py:2316 | a fundraiser with a future 'date' only is listed active but not counted active on the dashboard (the dashboard reads 'endDate' and 'status' at main.py:3802-3803) |
| `Firebase.SignInMessage` | firebase_config.py:73-81 | the message is the raw error or one of the four translations (which one: `Firebase.SignInMessageOrder`) |
| `Firebase.SignInMessageOrder` | firebase_config.py:74-81 | INVALID_EMAIL, then MISSING_PASSWORD, then TOO_MANY_ATTEMPTS_TRY_LATER, then INVALID_PASSWORD: the first code the text contains gives its own message, and text with none passes through |
| `Firebase.SignInMessagesUncoded` | firebase_config.py:75-81 | no translation contains an error code |
| `Firebase.SignInMessageRaw` | firebase_config.py:74-81 | the raw error passes through exactly when it contains none of the four codes |
| `Firebase.CredentialsUncoded` | firebase_config.py:50-81 | the missing-credentials message contains none of the codes, so it passes through |
| `Firebase.SignInAttempt` | firebase_config.py:49-70 | missing credentials raise ValueError("Email and password are required") before the backend is asked; a result needs both credentials and a successful sign-in and is a six-field dict |
| `Firebase.SignIn` | firebase_config.py:47-85 | every failure is an Exception starting "Authentication error: "; a success needs both credentials and a successful sign-in |
| `Firebase.SignInNeedsCredentials` | firebase_config.py:49-83 | an empty email or password fails with "Authentication error: Email and password are required" |
| `Firebase.SignInReportsBackendError` | firebase_config.py:53-83 | a backend failure is reported as the prefix plus its translation |
| `Firebase.FirstUserGetShaped` | firebase_config.py:62-64 | reading the first 'users' entry of a well-shaped response gives its field or the default |
| `Firebase.SignInRecord` | firebase_config.py:53-70 | the record takes uid and email from the sign-in, the verification flag, name and photo from the first user with defaults, and the refresh token or '' |
| `Firebase.WithStandardFields` | firebase_config.py:100-109 | the update adds at most four entries and leaves "last_login" holding the server timestamp |
| `Firebase.StandardFieldsOverwrite` | firebase_config.py:100-109 | the caller's dict gets email, created_at, email_verified and last_login, and every other key keeps its value |
| `Firebase.CreateUserError` | firebase_config.py:126-135 | a ValueError exactly when EMAIL_EXISTS, WEAK_PASSWORD or INVALID_EMAIL occurs, its message one of the three; otherwise "Error creating user: " plus the error |
| `Firebase.CreateUserErrorOrder` | firebase_config.py:127-135 | EMAIL_EXISTS, then WEAK_PASSWORD, then INVALID_EMAIL: the first code the text contains gives its own ValueError message; none gives "Error creating user: " plus the error |
| `Firebase.Registered` | firebase_config.py:89-93 | a failed sign-up is passed on as it is, and a success returns the sign-up's own user |
| `Firebase.CreatedRecord` | firebase_config.py:112-124 | a failing database write fails the creation, and a success is a six-field dict |
| `Firebase.CreateUserResult` | firebase_config.py:87-135 | creating a user fails only with ValueError or Exception |
| `Firebase.CreatedRecordFields` | firebase_config.py:115-122 | the created record has email_verified False and the caller's display_name and photo_url, defaulting to '' |
| `Firebase.OtherFieldKept` | firebase_config.py:100-109 | a key other than the four standard ones keeps its value |
| `Firebase.RecordFields` | firebase_config.py:112-122 | the record built after a successful store has the flag False and the caller's name and photo |
| `Firebase.UserData.constructor` | firebase_config.py:87 | the caller's dict holds the given entries |
| `Firebase.CreateUser` | firebase_config.py:87-135 | the result is the create-user specification, and the caller's dict is updated in place exactly when the account was created |
| `Firebase.SendPasswordReset` | firebase_config.py:137-150 | the result is True exactly when sending succeeded; otherwise ValueError or "Error sending password reset email: ..." |
| `Firebase.ResetValueErrors` | firebase_config.py:143-148 | a ValueError exactly for INVALID_EMAIL, MISSING_EMAIL or EMAIL_NOT_FOUND |
| `Firebase.ResetMessageOrder` | firebase_config.py:143-150 | INVALID_EMAIL, then MISSING_EMAIL, then EMAIL_NOT_FOUND: the first code the text contains gives its own ValueError message; none gives "Error sending password reset email: " plus the error |
| `Firebase.GetUser` | firebase_config.py:152-173 | succeeds exactly when the lookup does, with its record; a failure is the ValueError "Invalid or expired authentication token" exactly when its text contains INVALID_ID_TOKEN, and otherwise the Exception "Error getting user: " plus that text |
| `Firebase.GetUserAttempt` | firebase_config.py:154-167 | a failed lookup is passed on as it is, and a success is a seven-field dict |
| `Firebase.UserRecord` | firebase_config.py:158-167 | a user entry that is not a dict raises AttributeError, and a success is a seven-field dict |
| `Firebase.GetUserNotFound` | firebase_config.py:155-173 | missing or empty 'users' fails with "Error getting user: User not found", an Exception |
| `Firebase.GetUserEmpty` | firebase_config.py:155-173 | an empty response fails the same way |
| `Firebase.GetUserRecord` | firebase_config.py:158-167 | the record takes each field of the first user with its default |
| `Firebase.RefreshToken` | firebase_config.py:175-190 | succeeds exactly when the refresh does, with its record, and needs a dict response; a failure is the ValueError "Invalid or expired refresh token" exactly when its text contains TOKEN_EXPIRED or INVALID_REFRESH_TOKEN, and otherwise the Exception "Error refreshing token: " plus that text |
| `Firebase.RefreshAttempt` | firebase_config.py:176-184 | a failed refresh is passed on as it is, and a success needs a dict response and gives a four-field dict |
| `Firebase.RefreshDefaults` | firebase_config.py:179-184 | the record keeps the input token when no new one comes, expires_in defaults to 3600 and user_id to '' |
| `Firebase.Manager.constructor` | firebase_config.py:13-14 | a new instance is not initialized and holds no services |
| `Firebase.Manager.Init` | firebase_config.py:17-45 | initialisation runs only while not initialized; it sets the flag only after every service handle, and a failure leaves it False |
| `Firebase.ManagerClass.constructor` | firebase_config.py:9 | no instance exists yet |
| `Firebase.ManagerClass.New` | firebase_config.py:11-15 | the first construction makes an uninitialized instance, later ones return it |
| `Firebase.ManagerClass.Construct` | firebase_config.py:11-45 | construction returns the one instance, initialized when it already was or when this initialisation succeeded |
| `Firebase.ConstructTwice` | firebase_config.py:11-15 | two constructions return the same instance |
| `PyOrder.CheckedSort` | main.py:3581-3584 | the sort succeeds exactly when every pair of keys compares, gives the stable sort by key, and otherwise raises TypeError |
| `PyOrder.PyLess` | main.py:3355 | `<` on two values answers exactly when both are numbers or both strings, and otherwise raises TypeError |
| `PyOrder.PyTupleLess` | main.py:3355 | `<` on two pairs answers exactly when the first unequal position compares, and otherwise raises TypeError |
| `Sorting.SortBy` | main.py:2566 | the stable sort keeps the length and the elements, each as often |
| `Py.PyStr` | main.py:3360-3364 | `str` of a string is the string itself, and of anything else a non-empty text |
| `Py.Strip` | main.py:858 | `strip` leaves no whitespace at either end, and yields '' exactly for an all-whitespace text |
| `Py.Lower` | main.py:2679 | `lower` keeps the length, lowers each letter, and leaves no upper-case ASCII letter |
| `App.WithCache` | main.py:242-245 | assigning one collection changes that cache only |
| `App.Len` | main.py:219 | `len` gives the number of characters, items or entries of a string, list or dict, and raises TypeError on anything else |
| `App.CountLabel` | main.py:215-225 | the label changes only to the cadet count, and only with a content frame and a countable cache |
| `App.CountLabelIdempotent` | main.py:215-225 | refreshing the label twice shows what one refresh shows |
| `App.AfterUpdate` | main.py:198-213 | the flag is always False afterwards; a re-entrant call changes nothing else; otherwise the dashboard is current, the label refreshed, and the dashboard built once exactly when it was not current |
| `App.AfterShow` | main.py:1107-1209 | showing the dashboard builds it once, makes it current, leaves the flag False, and drops the calendar's frame when the content frame is cleared |
| `App.AfterCalendar` | main.py:1071-1104 | without the calendar frame nothing happens; with it, the redraw fails exactly when the calendar list fails, with its exception, and otherwise draws the calendar once more |
| `App.CalendarRejectsMalformedEvents` | main.py:1078 | with the calendar shown, an events cache holding a non-dict event, or a list cache, makes the redraw raise AttributeError |
| `App.UpdateDashboardIdempotent` | main.py:198-213 | a second refresh after a completed one changes nothing |
| `App.NestedCallClearsFlag` | main.py:198-213 | the nested call from `show_dashboard` clears the flag while the outer refresh is still running, and the cleared content frame takes the calendar's frame with it (show_dashboard calls back into it at main.py:1209) |
| `App.AfterUpcoming` | main.py:3557-3595 | refreshing the upcoming list changes no collection cache |
| `App.UpcomingRefreshMeaning` | main.py:3589-3595 | a failed refresh changes nothing; a successful one stores the new list, redrawn exactly when it changed or a dashboard refresh was asked for |
| `App.UpcomingRefreshSettles` | main.py:3589-3593 | a second refresh from the same events neither changes nor redraws the list |
| `App.Application.constructor` | main.py:133-158 | a fresh application has empty caches, an empty upcoming list and no screen |
| `App.Application.SetCache` | main.py:242-245 | the assignment changes one cache and nothing else |
| `App.Application.UpdateDashboardStats` | main.py:215-225 | the stats refresh changes the label only |
| `App.Application.UpdateDashboard` | main.py:198-213 | the refresh leaves the view the refresh specification gives and touches no data |
| `App.Application.ShowDashboard` | main.py:1107-1209 | showing the dashboard leaves the view the show specification gives, calendar frame included |
| `App.Application.BuildDashboard` | main.py:1107-1207 | building the dashboard makes it current, counts one more build, creates its frame and leaves the calendar's frame only when there was no content frame to clear |
| `App.Application.UpdateCalendarDisplay` | main.py:1071-1104 | the redraw leaves the view the calendar specification gives, or raises its exception, and touches no data |
| `App.Application.ShowCalendar` | main.py:1053-1069 | showing the calendar makes it current with its frame, drops the dashboard's frame when the content frame is cleared, then redraws it as the calendar specification says |
| `App.Application.UpdateUpcomingEvents` | main.py:3557-3673 | the refresh leaves the store its specification gives and schedules `update_dashboard` only when asked, with the dashboard frame present and no refresh running |
| `App.Application.StoreUpcoming` | main.py:3595-3673 | assigning a new list changes only the list and its redraw count, and schedules `update_dashboard` only when asked, with the dashboard frame present and no refresh running |
| `App.Application.OnGenericPush` | main.py:235-253 | a write replaces the cache and schedules the collection's refresh methods; an exception leaves the caches and shows "Error in <collection> callback: ..." |
| `App.Application.OnCadetsPush` | main.py:993-1005 | a write stores the normalised cadets and refreshes the dashboard; anything else changes nothing |
| `App.Application.OnWholesalePush` | main.py:1011-1036 | a write replaces the cache; for events the calendar is redrawn first, and when its sort raises, the exception escapes and neither the upcoming list nor the dashboard is refreshed; otherwise the upcoming list is refreshed for events and the dashboard for all but contacts |

## Left out

- Widgets, layout, styling, dialogs and message boxes: a screen is reduced to the few facts a
  handler reads or writes (whether a frame exists, the current view, the label's text, how
  often a screen was built, the messages shown).
- The backend SDK: every call (sign-in, account info, database read and write, streaming,
  storage) is a `Result` or `Option<Exc>` handed in as a parameter.
- `root.after`, the worker pool and the stream threads: a scheduled method is only appended, by
  name, to `App.Application.scheduled`, and each callback is one sequential call.
- The clock and `strptime`: dates are day numbers produced by a caller-supplied `parseDate`,
  and "now" is a day with the microseconds since midnight.
- `float()`: a caller-supplied `parseFloat` giving a real; no IEEE rounding, no currency or
  percentage formatting, and the "Total CS Hours" card's one-decimal text is not modelled.
- `print` and the console messages of every handler.
- Environment-variable configuration, report file writing, logo loading, the undefined
  `analytics.capture`, the broken trailing block of main.py and the stub dialogs and reports.
- The other four report generators: dispatch only names them.
- The binding of helpers: by indentation most helpers after the class body are nested inside
  module-level functions. The model treats them as the application's methods, as the handlers
  that call them expect.
- Firebase.SignIn: the second `except` clause cannot run, since Python matches only the first
  handler, so "Unexpected error during sign in" is never produced.
- Py.Lower: lower-cases ASCII letters only; Python's `str.lower` also folds other alphabets.
- App.Application.UpdateUpcomingEvents: `list.sort` sorts in place; the model sorts the list
  as a value and stores the result.
- App.UpcomingRefreshMeaning: compares the cached and new lists structurally, where Python's
  `==` also equates 1 with 1.0 and dicts that differ only in key order.
- PyOrder.CheckedSort: Python's sort raises TypeError at the first incomparable pair it happens
  to compare; the model raises exactly when some pair of keys cannot be compared.
- Dashboard.StatsBounded: the community-service total is a sum of reals with no bound stated.
- Py.PyStr: prints a float with a fractional part as "<float>", a list as "[...]" and a dict as
  "{...}", and an integral float in fixed notation where Python switches to exponent form
  (`str(1e16)` is "1e+16"). This text reaches the roster's cadet lines and its company and flight
  headings (`Roster.CadetLine`, `Roster.RenderFlight`, `Roster.RenderCompany`), the cadet rows
  (`CadetsView.RenderRow`) and the contact name (`Display.ContactName`).
- PyOrder.PyLess: treats two lists as incomparable (TypeError), where Python compares them
  element by element; the sort keys it is used on are numbers and strings in practice.
- Roster.RosterReport: when a sort in the report raises, the error line carries the fixed text
  "'<' not supported between instances" from `PyOrder.CheckedSort`, where Python's message goes
  on to name the two types.
- App.CountLabel: `_update_dashboard_stats` looks up `cadet_count_label` (main.py:222) but
  `show_dashboard` creates `cadets_count_label` (main.py:1148), so in the program the `hasattr`
  test fails and the label is never updated. The model's update branch states what the method
  evidently means to do and is unreachable in the program as written.
- App.Application.ShowCalendar and App.Application.UpdateCalendarDisplay: only the frames, the
  current view and the count of calendar redraws are modelled; the event widgets are not.

## Findings

| source | as written | input that shows it | evidently intended | confidence | as-written member | corrected member |
|---|---|---|---|---|---|---|
| main.py:1731 | required keys are the rows whose `field[3]` (the default value) is non-empty | a new job with the cadet left on its placeholder, no title or description, and the default status, priority and date | required keys are the rows whose `field[4]` (the required flag) is True | high, not executed | `Forms.EmptyTitleSlipsThrough` | `Forms.FlagsReportBlankFields` |
| main.py:3127-3128 | the goal and price are read under "goal_amount_$" and "item_price_$" | any fundraiser form with valid dates, such as start "2024-01-01", end "2024-02-01", goal "100" and price "5" | read them under the form's own keys "goal_amount_($)" and "item_price_($)" | high, not executed | `Forms.FundraiserNeverSaved` | `Forms.FundraiserSavedWhenValid` |

## Notes on the code

- The cadet list is meant to accept a cache holding a list, a single flat record or a keyed
  mapping. The flat-record branch can never run (`CadetsView.FlatRecordBranchIsDead`): a dict
  whose keys are all field names has only string keys, so the first branch has already taken it.
- Grades are 9 to 12, but the dashboard buckets only dict cadets whose stripped grade text is
  exactly '9', '10', '11' or '12'.
- The job form's cadet combobox starts on the text "Select a cadet..." (main.py:1656), which is not
  empty, so a new job whose cadet was never chosen passes the required-field check both as written
  and with the flags the field list sets (`Forms.BlankJobFields`, `Forms.FlagsReportBlankFields`).
- `update_dashboard` tests `hasattr(self, 'show_dashboard') and not hasattr(self, 'current_view')
  or self.current_view != 'dashboard'` (main.py:207). `App.AfterUpdate` reduces it to "the current
  view is not 'dashboard'". Under the method binding described in "## Left out", this is the same
  test, because `show_dashboard` is then a method and always exists: with no current view the
  first disjunct holds, and otherwise the second decides. As indented, `show_dashboard`
  (main.py:1107) is nested inside the module-level `logout` (main.py:912), so `hasattr` would be
  False and only the second disjunct would decide.
- A push to the events collection redraws the calendar before anything else (main.py:1014). When
  the calendar's sort raises (a non-dict event), the exception leaves the callback, so the upcoming
  list and the dashboard are not refreshed (`App.Application.OnWholesalePush`, `App.AfterCalendar`).
- The upcoming list's sort gives the time a default of '23:59'. Every stored record already has a
  'time' (default ''), so untimed events sort first on their day (`Upcoming.SortKeyTime`,
  `Upcoming.UntimedFirst`). The model follows the code.
