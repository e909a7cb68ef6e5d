/** The backend wrapper (firebase_config.py): the one shared manager object and its
    initialisation protocol, and the translation of backend responses and errors into the
    user records and messages the application shows. Every SDK call is an input: the
    response it would give, or the exception it would raise. */
module Firebase {
  import opened Py

  // Substring facts.

  /** A string cannot occur in one lacking one of its characters. */
  lemma {:induction false} NotSubstringByChar(sub: string, s: string, c: char)
    requires c in sub && c !in s
    ensures !IsSubstring(sub, s)
    decreases |s|
  {
    if |s| > 0 {
      assert c !in s[1..];
      NotSubstringByChar(sub, s[1..], c);
    }
  }

  /** The backend's error codes all contain an underscore. */
  predicate Coded(code: string) {
    '_' in code
  }

  /** No error code occurs in a message without an underscore. */
  lemma {:induction false} NoCodeIn(code: string, message: string)
    requires Coded(code) && '_' !in message
    ensures !IsSubstring(code, message)
  {
    NotSubstringByChar(code, message, '_');
  }

  // Sign-in.

  const AuthPrefix := "Authentication error: "
  const CredentialsRequired := "Email and " + "password " + "are required"

  /** The message for a failed sign-in: the first of the four codes the error text contains
      decides, tested in a fixed order; otherwise the text passes through. */
  function SignInMessage(error: string): (m: string)
    ensures m == error || m in SignInMessages
  {
    if IsSubstring("INVALID_EMAIL", error) then "Invalid email address"
    else if IsSubstring("MISSING_PASSWORD", error) then "Password is required"
    else if IsSubstring("TOO_MANY_ATTEMPTS_TRY_LATER", error) then TooManyAttempts
    else if IsSubstring("INVALID_PASSWORD", error) then "Invalid password"
    else error
  }

  const TooManyAttempts := "Too many failed " + "attempts. Please " + "try again later."
  const SignInMessages: set<string> :=
    {"Invalid email address", "Password is required", TooManyAttempts, "Invalid password"}

  /** None of the translated messages carries an underscore. */
  lemma {:induction false} SignInMessagesUncoded()
    ensures forall m :: m in SignInMessages ==> '_' !in m
  {
    assert '_' !in "Invalid email address";
    assert '_' !in "Password is required";
    assert '_' !in "Too many failed " && '_' !in "attempts. Please " && '_' !in "try again later.";
    assert '_' !in "Invalid password";
  }

  /** The text passes through exactly when it contains none of the four codes. */
  lemma {:induction false} SignInMessageRaw(error: string)
    ensures SignInMessage(error) == error <==>
      !IsSubstring("INVALID_EMAIL", error) && !IsSubstring("MISSING_PASSWORD", error) &&
      !IsSubstring("TOO_MANY_ATTEMPTS_TRY_LATER", error) && !IsSubstring("INVALID_PASSWORD", error)
  {
    var m := SignInMessage(error);
    if m == error && m in SignInMessages {
      SignInMessagesUncoded();
      NoCodeIn("INVALID_EMAIL", error);
      NoCodeIn("MISSING_PASSWORD", error);
      NoCodeIn("TOO_MANY_ATTEMPTS_TRY_LATER", error);
      NoCodeIn("INVALID_PASSWORD", error);
    }
  }

  /** Each code gives its own message, and the first of the four, in the order tested,
      wins over any later one the text also contains. */
  lemma {:induction false} SignInMessageOrder(error: string)
    ensures IsSubstring("INVALID_EMAIL", error) ==> SignInMessage(error) == "Invalid email address"
    ensures !IsSubstring("INVALID_EMAIL", error) && IsSubstring("MISSING_PASSWORD", error) ==>
      SignInMessage(error) == "Password is required"
    ensures (!IsSubstring("INVALID_EMAIL", error) && !IsSubstring("MISSING_PASSWORD", error) &&
      IsSubstring("TOO_MANY_ATTEMPTS_TRY_LATER", error)) ==>
      SignInMessage(error) == TooManyAttempts
    ensures (!IsSubstring("INVALID_EMAIL", error) && !IsSubstring("MISSING_PASSWORD", error) &&
      !IsSubstring("TOO_MANY_ATTEMPTS_TRY_LATER", error) && IsSubstring("INVALID_PASSWORD", error)) ==>
      SignInMessage(error) == "Invalid password"
    ensures (!IsSubstring("INVALID_EMAIL", error) && !IsSubstring("MISSING_PASSWORD", error) &&
      !IsSubstring("TOO_MANY_ATTEMPTS_TRY_LATER", error) && !IsSubstring("INVALID_PASSWORD", error)) ==>
      SignInMessage(error) == error
  {
  }

  /** The credentials message carries none of the codes. */
  lemma {:induction false} CredentialsUncoded()
    ensures !IsSubstring("INVALID_EMAIL", CredentialsRequired) && !IsSubstring("MISSING_PASSWORD", CredentialsRequired)
    ensures !IsSubstring("TOO_MANY_ATTEMPTS_TRY_LATER", CredentialsRequired) && !IsSubstring("INVALID_PASSWORD", CredentialsRequired)
  {
    assert '_' !in "Email and " && '_' !in "password " && '_' !in "are required";
    assert "INVALID_EMAIL"[7] == '_' && "MISSING_PASSWORD"[7] == '_';
    assert "TOO_MANY_ATTEMPTS_TRY_LATER"[3] == '_' && "INVALID_PASSWORD"[7] == '_';
    NoCodeIn("INVALID_EMAIL", CredentialsRequired);
    NoCodeIn("MISSING_PASSWORD", CredentialsRequired);
    NoCodeIn("TOO_MANY_ATTEMPTS_TRY_LATER", CredentialsRequired);
    NoCodeIn("INVALID_PASSWORD", CredentialsRequired);
  }

  /** `info['users'][0].get(key, default)`. */
  function FirstUserGet(info: Value, key: string, default: Value): Result<Value> {
    var users :- Index(info, Str("users"));
    var first :- Index(users, Int(0));
    Get(first, Str(key), default)
  }

  /** The body of `sign_in_with_email_password`, up to the exception it may raise: the
      sign-in response `signIn` and the account lookup `accountInfo` are the SDK's. */
  function SignInAttempt(email: Value, password: Value, signIn: Result<Value>,
                         accountInfo: Value -> Result<Value>): (r: Result<Value>)
    ensures !Truthy(email) || !Truthy(password) ==> r == Err(Exc(ValueError, CredentialsRequired))
    ensures r.Ok? ==> Truthy(email) && Truthy(password) && signIn.Ok?
    ensures r.Ok? ==> r.value.Dict? && |r.value.entries| == 6
  {
    if !Truthy(email) || !Truthy(password) then Err(Exc(ValueError, CredentialsRequired))
    else
      var user :- signIn;
      var idToken :- Index(user, Str("idToken"));
      var info :- accountInfo(idToken);
      var uid :- Index(user, Str("localId"));
      var mail :- Index(user, Str("email"));
      var verified :- FirstUserGet(info, "emailVerified", Bool(false));
      var name :- FirstUserGet(info, "displayName", Str(""));
      var photo :- FirstUserGet(info, "photoUrl", Str(""));
      var refresh :- Get(user, Str("refreshToken"), Str(""));
      Ok(Dict([(Str("uid"), uid), (Str("email"), mail), (Str("email_verified"), verified),
               (Str("display_name"), name), (Str("photo_url"), photo), (Str("refresh_token"), refresh)]))
  }

  /** `sign_in_with_email_password`: whatever is raised inside becomes one Exception whose
      text is the prefix and the translated message. */
  function SignIn(email: Value, password: Value, signIn: Result<Value>,
                  accountInfo: Value -> Result<Value>): (r: Result<Value>)
    ensures r.Err? ==> r.exc.kind == Exception && StartsWith(r.exc.msg, AuthPrefix)
    ensures r.Ok? ==> Truthy(email) && Truthy(password) && signIn.Ok?
  {
    match SignInAttempt(email, password, signIn, accountInfo)
    case Ok(record) => Ok(record)
    case Err(e) =>
      var msg := AuthPrefix + SignInMessage(e.msg);
      assert msg[..|AuthPrefix|] == AuthPrefix;
      Err(Exc(Exception, msg))
  }

  /** An empty email or password is refused before the backend is asked, and the refusal
      passes through the translation unchanged. */
  lemma {:induction false} SignInNeedsCredentials(email: Value, password: Value, signIn: Result<Value>,
                                                  accountInfo: Value -> Result<Value>)
    requires !Truthy(email) || !Truthy(password)
    ensures SignIn(email, password, signIn, accountInfo) == Err(Exc(Exception, AuthPrefix + CredentialsRequired))
  {
    CredentialsUncoded();
    assert SignInMessage(CredentialsRequired) == CredentialsRequired;
  }

  /** A backend error is reported with its translated message. */
  lemma {:induction false} SignInReportsBackendError(email: Value, password: Value, e: Exc,
                                                     accountInfo: Value -> Result<Value>)
    requires Truthy(email) && Truthy(password)
    ensures SignIn(email, password, Err(e), accountInfo) == Err(Exc(Exception, AuthPrefix + SignInMessage(e.msg)))
  {
  }

  /** A dict with a non-empty 'users' list whose first entry is a dict. */
  predicate AccountInfoShaped(info: Value) {
    info.Dict? && Lookup(info.entries, Str("users")).Some? &&
    var users := Lookup(info.entries, Str("users")).value;
    users.List? && |users.items| > 0 && users.items[0].Dict?
  }

  lemma {:induction false} FirstUserGetShaped(info: Value, key: string, default: Value)
    requires AccountInfoShaped(info)
    ensures FirstUserGet(info, key, default) ==
      Ok(Field(Lookup(info.entries, Str("users")).value.items[0].entries, key, default))
  {
  }

  /** A successful sign-in: uid and email from the sign-in response, the verified flag,
      name and photo from the first account entry (False, '' and '' when absent), and the
      refresh token ('' when absent). */
  lemma {:induction false} SignInRecord(email: Value, password: Value, user: seq<(Value, Value)>,
                                        accountInfo: Value -> Result<Value>)
    requires Truthy(email) && Truthy(password)
    requires Lookup(user, Str("idToken")).Some? && Lookup(user, Str("localId")).Some? && Lookup(user, Str("email")).Some?
    requires accountInfo(Lookup(user, Str("idToken")).value).Ok?
    requires AccountInfoShaped(accountInfo(Lookup(user, Str("idToken")).value).value)
    ensures var info := accountInfo(Lookup(user, Str("idToken")).value).value;
      var first := Lookup(info.entries, Str("users")).value.items[0].entries;
      SignIn(email, password, Ok(Dict(user)), accountInfo) ==
        Ok(Dict([(Str("uid"), Lookup(user, Str("localId")).value), (Str("email"), Lookup(user, Str("email")).value),
                 (Str("email_verified"), Field(first, "emailVerified", Bool(false))),
                 (Str("display_name"), Field(first, "displayName", Str(""))),
                 (Str("photo_url"), Field(first, "photoUrl", Str(""))),
                 (Str("refresh_token"), Field(user, "refreshToken", Str("")))]))
  {
    var u := Dict(user);
    var info := accountInfo(Lookup(user, Str("idToken")).value).value;
    var first := Lookup(info.entries, Str("users")).value.items[0].entries;
    assert Index(u, Str("idToken")) == Ok(Lookup(user, Str("idToken")).value);
    assert Index(u, Str("localId")) == Ok(Lookup(user, Str("localId")).value);
    assert Index(u, Str("email")) == Ok(Lookup(user, Str("email")).value);
    FirstUserGetShaped(info, "emailVerified", Bool(false));
    FirstUserGetShaped(info, "displayName", Str(""));
    FirstUserGetShaped(info, "photoUrl", Str(""));
    assert Get(u, Str("refreshToken"), Str("")) == Ok(Field(user, "refreshToken", Str("")));
    var record := Dict([(Str("uid"), Lookup(user, Str("localId")).value), (Str("email"), Lookup(user, Str("email")).value),
                        (Str("email_verified"), Field(first, "emailVerified", Bool(false))),
                        (Str("display_name"), Field(first, "displayName", Str(""))),
                        (Str("photo_url"), Field(first, "photoUrl", Str(""))),
                        (Str("refresh_token"), Field(user, "refreshToken", Str("")))]);
    assert SignInAttempt(email, password, Ok(u), accountInfo) == Ok(record);
  }

  // Account creation.

  /** `{'.sv': 'timestamp'}`, the placeholder the database replaces by its own clock. */
  const ServerTimestamp := Dict([(Str(".sv"), Str("timestamp"))])

  /** `user_data.update({...})` with the four standard fields, in their order. */
  function WithStandardFields(data: seq<(Value, Value)>, email: Value): (r: seq<(Value, Value)>)
    ensures |data| <= |r| <= |data| + 4
    ensures Lookup(r, Str("last_login")) == Some(ServerTimestamp)
  {
    DictSet(DictSet(DictSet(DictSet(data, Str("email"), email), Str("created_at"), ServerTimestamp),
                    Str("email_verified"), Bool(false)), Str("last_login"), ServerTimestamp)
  }

  predicate StandardKey(k: Value) {
    PyEq(k, Str("email")) || PyEq(k, Str("created_at")) || PyEq(k, Str("email_verified")) || PyEq(k, Str("last_login"))
  }

  /** The four standard fields overwrite whatever the caller had under those names; every
      other entry is kept. */
  lemma {:induction false} StandardFieldsOverwrite(data: seq<(Value, Value)>, email: Value)
    ensures var r := WithStandardFields(data, email);
      && Lookup(r, Str("email")) == Some(email)
      && Lookup(r, Str("created_at")) == Some(ServerTimestamp)
      && Lookup(r, Str("email_verified")) == Some(Bool(false))
      && Lookup(r, Str("last_login")) == Some(ServerTimestamp)
      && forall k :: !StandardKey(k) ==> Lookup(r, k) == Lookup(data, k)
  {
    assert |"email"| == 5 && |"created_at"| == 10 && |"email_verified"| == 14 && |"last_login"| == 10;
    assert "created_at"[0] != "last_login"[0];
    SetFour(data, Str("email"), email, Str("created_at"), ServerTimestamp,
            Str("email_verified"), Bool(false), Str("last_login"), ServerTimestamp);
  }

  /** Four assignments under pairwise unequal keys: each key holds its value and every
      other key keeps its entry. */
  lemma {:induction false} SetFour(data: seq<(Value, Value)>, k1: Value, v1: Value, k2: Value, v2: Value,
                                   k3: Value, v3: Value, k4: Value, v4: Value)
    requires !PyEq(k1, k2) && !PyEq(k1, k3) && !PyEq(k1, k4)
    requires !PyEq(k2, k3) && !PyEq(k2, k4) && !PyEq(k3, k4)
    ensures var r := DictSet(DictSet(DictSet(DictSet(data, k1, v1), k2, v2), k3, v3), k4, v4);
      && Lookup(r, k1) == Some(v1) && Lookup(r, k2) == Some(v2)
      && Lookup(r, k3) == Some(v3) && Lookup(r, k4) == Some(v4)
      && forall k :: !PyEq(k, k1) && !PyEq(k, k2) && !PyEq(k, k3) && !PyEq(k, k4) ==> Lookup(r, k) == Lookup(data, k)
  {
  }

  /** The message for a failed account creation: three codes become ValueErrors, in this
      order, anything else a generic error. */
  function CreateUserError(error: string): (e: Exc)
    ensures e.kind == ValueError ==>
      e.msg in {"An account with this email already exists", "Password should be at least 6 characters", "Invalid email address"}
    ensures e.kind != ValueError ==> e == Exc(Exception, "Error creating user: " + error)
    ensures e.kind == ValueError <==>
      IsSubstring("EMAIL_EXISTS", error) || IsSubstring("WEAK_PASSWORD", error) || IsSubstring("INVALID_EMAIL", error)
  {
    if IsSubstring("EMAIL_EXISTS", error) then Exc(ValueError, "An account with this email already exists")
    else if IsSubstring("WEAK_PASSWORD", error) then Exc(ValueError, "Password should be at least 6 characters")
    else if IsSubstring("INVALID_EMAIL", error) then Exc(ValueError, "Invalid email address")
    else Exc(Exception, "Error creating user: " + error)
  }

  /** Each code gives its own ValueError message, the first in the order tested winning. */
  lemma {:induction false} CreateUserErrorOrder(error: string)
    ensures IsSubstring("EMAIL_EXISTS", error) ==>
      CreateUserError(error) == Exc(ValueError, "An account with this email already exists")
    ensures !IsSubstring("EMAIL_EXISTS", error) && IsSubstring("WEAK_PASSWORD", error) ==>
      CreateUserError(error) == Exc(ValueError, "Password should be at least 6 characters")
    ensures (!IsSubstring("EMAIL_EXISTS", error) && !IsSubstring("WEAK_PASSWORD", error) &&
      IsSubstring("INVALID_EMAIL", error)) ==>
      CreateUserError(error) == Exc(ValueError, "Invalid email address")
    ensures (!IsSubstring("EMAIL_EXISTS", error) && !IsSubstring("WEAK_PASSWORD", error) &&
      !IsSubstring("INVALID_EMAIL", error)) ==>
      CreateUserError(error) == Exc(Exception, "Error creating user: " + error)
  {
  }

  /** The two SDK calls before the caller's data is touched: account creation and the
      account lookup by the new ID token. */
  function Registered(signUp: Result<Value>, accountInfo: Value -> Result<Value>): (r: Result<Value>)
    ensures signUp.Err? ==> r == Err(signUp.exc)
    ensures r.Ok? ==> signUp.Ok? && r.value == signUp.value
  {
    var user :- signUp;
    var idToken :- Index(user, Str("idToken"));
    var _ :- accountInfo(idToken);
    Ok(user)
  }

  /** After the data is updated: the database write under the new uid (`stored` is the
      error it raises, if any) and the returned record. */
  function CreatedRecord(user: Value, data: seq<(Value, Value)>, stored: Option<Exc>): (r: Result<Value>)
    ensures stored.Some? ==> r.Err?
    ensures r.Ok? ==> r.value.Dict? && |r.value.entries| == 6
  {
    var uid :- Index(user, Str("localId"));
    if stored.Some? then Err(stored.value)
    else
      var mail :- Index(user, Str("email"));
      var refresh :- Get(user, Str("refreshToken"), Str(""));
      Ok(Dict(RecordEntries(uid, mail, Field(data, "display_name", Str("")), Field(data, "photo_url", Str("")), refresh)))
  }

  /** The returned record's entries, in the order the code writes them. */
  function RecordEntries(uid: Value, mail: Value, name: Value, photo: Value, refresh: Value): seq<(Value, Value)> {
    [(Str("uid"), uid), (Str("email"), mail), (Str("email_verified"), Bool(false)),
     (Str("display_name"), name), (Str("photo_url"), photo), (Str("refresh_token"), refresh)]
  }

  lemma {:induction false} RecordEntriesFields(uid: Value, mail: Value, name: Value, photo: Value, refresh: Value)
    ensures var e := RecordEntries(uid, mail, name, photo, refresh);
      && Field(e, "email_verified", Null) == Bool(false)
      && Field(e, "display_name", Null) == name
      && Field(e, "photo_url", Null) == photo
  {
    var e := RecordEntries(uid, mail, name, photo, refresh);
    assert |"uid"| == 3 && |"email"| == 5 && |"email_verified"| == 14 && |"display_name"| == 12 && |"photo_url"| == 9;
    FindKeyFirst(e, Str("email_verified"), 2);
    FindKeyFirst(e, Str("display_name"), 3);
    FindKeyFirst(e, Str("photo_url"), 4);
  }

  /** `create_user_with_email_password`'s result for caller data `data` (empty when the
      caller passed none). */
  function CreateUserResult(email: Value, data: seq<(Value, Value)>, signUp: Result<Value>,
                            accountInfo: Value -> Result<Value>, stored: Option<Exc>): (r: Result<Value>)
    ensures r.Err? ==> r.exc.kind in {ValueError, Exception}
  {
    match Registered(signUp, accountInfo)
    case Err(e) => Err(CreateUserError(e.msg))
    case Ok(user) =>
      match CreatedRecord(user, WithStandardFields(data, email), stored)
      case Ok(record) => Ok(record)
      case Err(e) => Err(CreateUserError(e.msg))
  }

  /** The returned record never says the email is verified, and takes the display name and
      photo from the caller's data ('' when absent), even when the backend says otherwise. */
  lemma {:induction false} CreatedRecordFields(email: Value, data: seq<(Value, Value)>, signUp: Result<Value>,
                                               accountInfo: Value -> Result<Value>, stored: Option<Exc>)
    requires CreateUserResult(email, data, signUp, accountInfo, stored).Ok?
    ensures var r := CreateUserResult(email, data, signUp, accountInfo, stored).value;
      && r.Dict?
      && Field(r.entries, "email_verified", Null) == Bool(false)
      && Field(r.entries, "display_name", Null) == Field(data, "display_name", Str(""))
      && Field(r.entries, "photo_url", Null) == Field(data, "photo_url", Str(""))
      && stored.None? && signUp.Ok?
  {
    var user := Registered(signUp, accountInfo).value;
    var updated := WithStandardFields(data, email);
    assert CreateUserResult(email, data, signUp, accountInfo, stored) == CreatedRecord(user, updated, stored);
    RecordFields(user, updated, stored);
    NotStandardByLength(Str("display_name"));
    NotStandardByLength(Str("photo_url"));
    OtherFieldKept(data, email, Str("display_name"));
    OtherFieldKept(data, email, Str("photo_url"));
  }

  /** The standard names are 5, 10 and 14 characters long. */
  lemma {:induction false} NotStandardByLength(k: Value)
    requires k.Str? && |k.s| != 5 && |k.s| != 10 && |k.s| != 14
    ensures !StandardKey(k)
  {
  }

  /** A field other than the four standard ones is left as the caller had it. */
  lemma {:induction false} OtherFieldKept(data: seq<(Value, Value)>, email: Value, k: Value)
    requires !StandardKey(k)
    ensures Lookup(WithStandardFields(data, email), k) == Lookup(data, k)
  {
  }

  lemma {:induction false} RecordFields(user: Value, data: seq<(Value, Value)>, stored: Option<Exc>)
    requires CreatedRecord(user, data, stored).Ok?
    ensures var r := CreatedRecord(user, data, stored).value;
      && r.Dict?
      && Field(r.entries, "email_verified", Null) == Bool(false)
      && Field(r.entries, "display_name", Null) == Field(data, "display_name", Str(""))
      && Field(r.entries, "photo_url", Null) == Field(data, "photo_url", Str(""))
      && stored.None?
  {
    var uid := Index(user, Str("localId")).value;
    RecordEntriesFields(uid, Index(user, Str("email")).value, Field(data, "display_name", Str("")),
                        Field(data, "photo_url", Str("")), Get(user, Str("refreshToken"), Str("")).value);
  }

  /** The caller's dict, which account creation updates in place. */
  class UserData {
    var entries: seq<(Value, Value)>

    constructor(entries0: seq<(Value, Value)>)
      ensures entries == entries0
    {
      entries := entries0;
    }
  }

  /** `create_user_with_email_password`: the caller's dict, if there is one, gains the four
      standard fields as soon as both SDK calls have succeeded, and keeps them even when the
      database write then fails. */
  method CreateUser(email: Value, userData: UserData?, signUp: Result<Value>,
                    accountInfo: Value -> Result<Value>, stored: Option<Exc>) returns (r: Result<Value>)
    modifies if userData != null then {userData} else {}
    ensures r == CreateUserResult(email, if userData != null then old(userData.entries) else [], signUp, accountInfo, stored)
    ensures userData != null ==>
      userData.entries == (if Registered(signUp, accountInfo).Ok? then WithStandardFields(old(userData.entries), email) else old(userData.entries))
  {
    var registered := Registered(signUp, accountInfo);
    if registered.Err? {
      return Err(CreateUserError(registered.exc.msg));
    }
    var data: seq<(Value, Value)> := if userData != null then userData.entries else [];
    var updated := WithStandardFields(data, email);
    if userData != null {
      userData.entries := updated;
    }
    var record := CreatedRecord(registered.value, updated, stored);
    if record.Err? {
      return Err(CreateUserError(record.exc.msg));
    }
    return Ok(record.value);
  }

  // Password reset.

  /** `send_password_reset_email`: True once the SDK call returns; otherwise its error
      translated, three codes in order to ValueErrors. */
  function SendPasswordReset(sent: Option<Exc>): (r: Result<bool>)
    ensures r.Ok? <==> sent.None?
    ensures r.Ok? ==> r.value
    ensures r.Err? && r.exc.kind != ValueError ==> r.exc == Exc(Exception, "Error sending password reset email: " + sent.value.msg)
  {
    match sent
    case None => Ok(true)
    case Some(e) =>
      if IsSubstring("INVALID_EMAIL", e.msg) then Err(Exc(ValueError, "Invalid email address"))
      else if IsSubstring("MISSING_EMAIL", e.msg) then Err(Exc(ValueError, "Email is required"))
      else if IsSubstring("EMAIL_NOT_FOUND", e.msg) then Err(Exc(ValueError, "No user found with this email address"))
      else Err(Exc(Exception, "Error sending password reset email: " + e.msg))
  }

  /** A ValueError is raised exactly when one of the three codes occurs. */
  lemma {:induction false} ResetValueErrors(e: Exc)
    ensures var r := SendPasswordReset(Some(e));
      r.exc.kind == ValueError <==>
        IsSubstring("INVALID_EMAIL", e.msg) || IsSubstring("MISSING_EMAIL", e.msg) || IsSubstring("EMAIL_NOT_FOUND", e.msg)
  {
  }

  /** Each code gives its own ValueError message, the first in the order tested winning. */
  lemma {:induction false} ResetMessageOrder(e: Exc)
    ensures IsSubstring("INVALID_EMAIL", e.msg) ==>
      SendPasswordReset(Some(e)) == Err(Exc(ValueError, "Invalid email address"))
    ensures !IsSubstring("INVALID_EMAIL", e.msg) && IsSubstring("MISSING_EMAIL", e.msg) ==>
      SendPasswordReset(Some(e)) == Err(Exc(ValueError, "Email is required"))
    ensures (!IsSubstring("INVALID_EMAIL", e.msg) && !IsSubstring("MISSING_EMAIL", e.msg) &&
      IsSubstring("EMAIL_NOT_FOUND", e.msg)) ==>
      SendPasswordReset(Some(e)) == Err(Exc(ValueError, "No user found with this email address"))
    ensures (!IsSubstring("INVALID_EMAIL", e.msg) && !IsSubstring("MISSING_EMAIL", e.msg) &&
      !IsSubstring("EMAIL_NOT_FOUND", e.msg)) ==>
      SendPasswordReset(Some(e)) == Err(Exc(Exception, "Error sending password reset email: " + e.msg))
  {
  }

  // Account lookup.

  const UserNotFound := "User not found"

  /** The body of `get_user` for the SDK's account lookup `info`. */
  function GetUserAttempt(info: Result<Value>): (r: Result<Value>)
    ensures info.Err? ==> r == Err(info.exc)
    ensures r.Ok? ==> info.Ok? && r.value.Dict? && |r.value.entries| == 7
  {
    var userInfo :- info;
    var user :- FirstUser(userInfo);
    UserRecord(user)
  }

  /** `user_info['users'][0]`, after the checks that the lookup and its user list are
      non-empty. */
  function FirstUser(userInfo: Value): Result<Value> {
    if !Truthy(userInfo) then Err(Exc(ValueError, UserNotFound))
    else
      var hasUsers :- In(Str("users"), userInfo);
      if !hasUsers then Err(Exc(ValueError, UserNotFound))
      else
        var users :- Index(userInfo, Str("users"));
        if !Truthy(users) then Err(Exc(ValueError, UserNotFound))
        else Index(users, Int(0))
  }

  /** The record `get_user` builds from the first account entry. */
  function UserRecord(user: Value): (r: Result<Value>)
    ensures !user.Dict? ==> r.Err? && r.exc.kind == AttributeError
    ensures r.Ok? ==> r.value.Dict? && |r.value.entries| == 7
  {
    var uid :- Get(user, Str("localId"), Str(""));
    var mail :- Get(user, Str("email"), Str(""));
    var verified :- Get(user, Str("emailVerified"), Bool(false));
    var name :- Get(user, Str("displayName"), Str(""));
    var photo :- Get(user, Str("photoUrl"), Str(""));
    var lastLogin :- Get(user, Str("lastLoginAt"), Str(""));
    var created :- Get(user, Str("createdAt"), Str(""));
    Ok(Dict([(Str("uid"), uid), (Str("email"), mail), (Str("email_verified"), verified),
             (Str("display_name"), name), (Str("photo_url"), photo),
             (Str("last_login_at"), lastLogin), (Str("created_at"), created)]))
  }

  /** `get_user`: an invalid token is a ValueError, anything else a generic error. */
  function GetUser(info: Result<Value>): (r: Result<Value>)
    ensures r.Err? ==> r.exc.kind in {ValueError, Exception}
    ensures r.Err? && r.exc.kind == ValueError ==> r.exc.msg == "Invalid or expired authentication token"
    ensures r.Ok? <==> GetUserAttempt(info).Ok?
    ensures r.Ok? ==> r == GetUserAttempt(info)
    ensures r.Err? ==> (r.exc.kind == ValueError <==> IsSubstring("INVALID_ID_TOKEN", GetUserAttempt(info).exc.msg))
    ensures r.Err? && r.exc.kind == Exception ==> r.exc.msg == "Error getting user: " + GetUserAttempt(info).exc.msg
  {
    match GetUserAttempt(info)
    case Ok(record) => Ok(record)
    case Err(e) =>
      if IsSubstring("INVALID_ID_TOKEN", e.msg) then Err(Exc(ValueError, "Invalid or expired authentication token"))
      else Err(Exc(Exception, "Error getting user: " + e.msg))
  }

  /** A lookup with no users is reported as a generic error, not as a ValueError: the
      ValueError raised inside is caught and re-raised as Exception. */
  lemma {:induction false} GetUserNotFound(userInfo: Value)
    requires userInfo.Dict?
    requires Lookup(userInfo.entries, Str("users")).None? ||
             !Truthy(Lookup(userInfo.entries, Str("users")).value)
    ensures GetUser(Ok(userInfo)) == Err(Exc(Exception, "Error getting user: " + UserNotFound))
  {
    if Truthy(userInfo) {
      assert In(Str("users"), userInfo) == Ok(HasKey(userInfo.entries, Str("users")));
      if HasKey(userInfo.entries, Str("users")) {
        assert Index(userInfo, Str("users")) == Ok(Lookup(userInfo.entries, Str("users")).value);
      }
    }
    assert FirstUser(userInfo) == Err(Exc(ValueError, UserNotFound));
    assert GetUserAttempt(Ok(userInfo)) == Err(Exc(ValueError, UserNotFound));
    UserNotFoundUncoded();
  }

  lemma {:induction false} UserNotFoundUncoded()
    ensures !IsSubstring("INVALID_ID_TOKEN", UserNotFound)
  {
    assert "INVALID_ID_TOKEN"[7] == '_';
    assert '_' !in UserNotFound;
    NoCodeIn("INVALID_ID_TOKEN", UserNotFound);
  }

  /** Falsy lookups are reported the same way. */
  lemma {:induction false} GetUserEmpty(userInfo: Value)
    requires !Truthy(userInfo)
    ensures GetUser(Ok(userInfo)) == Err(Exc(Exception, "Error getting user: " + UserNotFound))
  {
    UserNotFoundUncoded();
  }

  /** A lookup whose first user is a dict gives its seven fields, with their defaults. */
  lemma {:induction false} GetUserRecord(userInfo: Value)
    requires AccountInfoShaped(userInfo)
    ensures var user := Lookup(userInfo.entries, Str("users")).value.items[0].entries;
      GetUser(Ok(userInfo)) ==
        Ok(Dict([(Str("uid"), Field(user, "localId", Str(""))), (Str("email"), Field(user, "email", Str(""))),
                 (Str("email_verified"), Field(user, "emailVerified", Bool(false))),
                 (Str("display_name"), Field(user, "displayName", Str(""))),
                 (Str("photo_url"), Field(user, "photoUrl", Str(""))),
                 (Str("last_login_at"), Field(user, "lastLoginAt", Str(""))),
                 (Str("created_at"), Field(user, "createdAt", Str("")))]))
  {
    var users := Lookup(userInfo.entries, Str("users")).value;
    assert In(Str("users"), userInfo) == Ok(true);
    assert Index(userInfo, Str("users")) == Ok(users);
    assert FirstUser(userInfo) == Ok(users.items[0]);
  }

  // Token refresh.

  /** The body of `refresh_token` for the SDK's response `refreshed`. */
  function RefreshAttempt(token: Value, refreshed: Result<Value>): (r: Result<Value>)
    ensures refreshed.Err? ==> r == Err(refreshed.exc)
    ensures r.Ok? ==> refreshed.Ok? && refreshed.value.Dict? && r.value.Dict? && |r.value.entries| == 4
  {
    var user :- refreshed;
    var idToken :- Index(user, Str("idToken"));
    var newToken :- Get(user, Str("refreshToken"), token);
    var expires :- Get(user, Str("expiresIn"), Int(3600));
    var userId :- Get(user, Str("userId"), Str(""));
    Ok(Dict([(Str("id_token"), idToken), (Str("refresh_token"), newToken),
             (Str("expires_in"), expires), (Str("user_id"), userId)]))
  }

  /** `refresh_token`: an expired or invalid token is a ValueError, anything else a generic
      error. */
  function RefreshToken(token: Value, refreshed: Result<Value>): (r: Result<Value>)
    ensures r.Err? ==> r.exc.kind in {ValueError, Exception}
    ensures r.Err? && r.exc.kind == ValueError ==> r.exc.msg == "Invalid or expired refresh token"
    ensures r.Ok? <==> RefreshAttempt(token, refreshed).Ok?
    ensures r.Ok? ==> r == RefreshAttempt(token, refreshed)
    ensures r.Err? ==> (r.exc.kind == ValueError <==>
      IsSubstring("TOKEN_EXPIRED", RefreshAttempt(token, refreshed).exc.msg) ||
      IsSubstring("INVALID_REFRESH_TOKEN", RefreshAttempt(token, refreshed).exc.msg))
    ensures r.Err? && r.exc.kind == Exception ==>
      r.exc.msg == "Error refreshing token: " + RefreshAttempt(token, refreshed).exc.msg
    ensures r.Ok? ==> refreshed.Ok? && refreshed.value.Dict?
  {
    match RefreshAttempt(token, refreshed)
    case Ok(record) => Ok(record)
    case Err(e) =>
      if IsSubstring("TOKEN_EXPIRED", e.msg) || IsSubstring("INVALID_REFRESH_TOKEN", e.msg) then
        Err(Exc(ValueError, "Invalid or expired refresh token"))
      else Err(Exc(Exception, "Error refreshing token: " + e.msg))
  }

  /** A response without a new refresh token keeps the one given; the expiry defaults to
      3600 seconds and the user id to ''. */
  lemma {:induction false} RefreshDefaults(token: Value, user: seq<(Value, Value)>)
    requires Lookup(user, Str("idToken")).Some?
    ensures RefreshToken(token, Ok(Dict(user))) ==
      Ok(Dict([(Str("id_token"), Lookup(user, Str("idToken")).value),
               (Str("refresh_token"), Field(user, "refreshToken", token)),
               (Str("expires_in"), Field(user, "expiresIn", Int(3600))),
               (Str("user_id"), Field(user, "userId", Str("")))]))
    ensures Lookup(user, Str("refreshToken")).None? ==> Field(user, "refreshToken", token) == token
  {
  }

  // The shared manager.

  /** What the SDK hands back when the manager initialises: a handle per service, or the
      exception raised at that step. */
  datatype Sdk = Sdk(app: Result<nat>, auth: Result<nat>, db: Result<nat>, storage: Result<nat>)

  /** The manager object: `initialized` and the service handles set by `__init__`. */
  class Manager {
    var initialized: bool
    var configured: bool
    var app: Option<nat>
    var auth: Option<nat>
    var db: Option<nat>
    var storage: Option<nat>

    /** Initialised only once every handle is set. */
    predicate Valid()
      reads this
    {
      initialized ==> configured && app.Some? && auth.Some? && db.Some? && storage.Some?
    }

    /** `__new__` on first use: a bare object with `initialized` False. */
    constructor()
      ensures Valid() && !initialized && !configured
      ensures app.None? && auth.None? && db.None? && storage.None?
    {
      initialized := false;
      configured := false;
      app := None;
      auth := None;
      db := None;
      storage := None;
    }

    /** `__init__`: nothing happens once initialised; otherwise the configuration and the
        handles are set step by step, and `initialized` becomes True only after the last;
        a failing step re-raises with `initialized` still False. */
    method Init(sdk: Sdk) returns (raised: Option<Exc>)
      requires Valid()
      modifies this
      ensures Valid()
      ensures old(initialized) ==> raised.None? && unchanged(this)
      ensures !old(initialized) ==> configured
      ensures !old(initialized) ==> (raised.None? <==> sdk.app.Ok? && sdk.auth.Ok? && sdk.db.Ok? && sdk.storage.Ok?)
      ensures !old(initialized) ==> (initialized <==> raised.None?)
      ensures !old(initialized) && raised.None? ==>
        app == Some(sdk.app.value) && auth == Some(sdk.auth.value) && db == Some(sdk.db.value) && storage == Some(sdk.storage.value)
    {
      if initialized {
        return None;
      }
      configured := true;
      if sdk.app.Err? {
        return Some(sdk.app.exc);
      }
      app := Some(sdk.app.value);
      if sdk.auth.Err? {
        return Some(sdk.auth.exc);
      }
      auth := Some(sdk.auth.value);
      if sdk.db.Err? {
        return Some(sdk.db.exc);
      }
      db := Some(sdk.db.value);
      if sdk.storage.Err? {
        return Some(sdk.storage.exc);
      }
      storage := Some(sdk.storage.value);
      initialized := true;
      return None;
    }
  }

  /** The class object, holding `_instance`. */
  class ManagerClass {
    var instance: Manager?

    constructor()
      ensures instance == null
    {
      instance := null;
    }

    /** `__new__`: the stored instance, created bare on first use. */
    method New() returns (m: Manager)
      requires instance != null ==> instance.Valid()
      modifies this
      ensures instance == m && m.Valid()
      ensures old(instance) != null ==> m == old(instance)
      ensures old(instance) == null ==> fresh(m) && !m.initialized
    {
      if instance == null {
        instance := new Manager();
      }
      m := instance;
    }

    /** `FirebaseManager()`: `__new__` then `__init__`. Every construction returns the same
        object; after a failed initialisation the next construction tries again. */
    method Construct(sdk: Sdk) returns (m: Manager, raised: Option<Exc>)
      requires instance != null ==> instance.Valid()
      modifies this, if instance != null then {instance} else {}
      ensures instance == m && m.Valid()
      ensures old(instance) != null ==> m == old(instance)
      ensures old(instance) == null ==> fresh(m)
      ensures old(instance) != null && old(instance.initialized) ==> raised.None? && m.initialized
      ensures m.initialized <==> (old(instance) != null && old(instance.initialized)) || raised.None?
    {
      m := New();
      raised := m.Init(sdk);
    }
  }

  /** Two constructions in a row give one object. */
  method ConstructTwice(cls: ManagerClass, first: Sdk, second: Sdk) returns (m1: Manager, m2: Manager)
    requires cls.instance != null ==> cls.instance.Valid()
    modifies cls, cls.instance
    ensures m1 == m2 == cls.instance
  {
    var r1, r2;
    m1, r1 := cls.Construct(first);
    m2, r2 := cls.Construct(second);
  }
}
