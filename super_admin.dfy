/** Managing super-admin accounts: the request guards, the action dispatch,
    the translation of thrown errors, and the updates each action makes to
    the users collection and to the Firebase Auth accounts. */
module SuperAdmins {
  import opened Js
  import opened Text

  const SuperAdminRole := "super_admin"

  /** The actions the function accepts. */
  datatype Action = Create | Edit | Disable | Delete | ResetPassword

  /** The action's name in a request. */
  function ActionName(a: Action): string
  {
    match a
    case Create => "create"
    case Edit => "edit"
    case Disable => "disable"
    case Delete => "delete"
    case ResetPassword => "reset_password"
  }

  const ValidActions: seq<string> := ["create", "edit", "disable", "delete", "reset_password"]

  /** Reading the `action` field: a string naming one of the five actions. */
  function ParseAction(v: Value): (a: Option<Action>)
    ensures a.Some? <==> v.Str? && v.s in ValidActions
    ensures a.Some? ==> ActionName(a.value) == v.s
  {
    if !v.Str? then None
    else if v.s == "create" then Some(Create)
    else if v.s == "edit" then Some(Edit)
    else if v.s == "disable" then Some(Disable)
    else if v.s == "delete" then Some(Delete)
    else if v.s == "reset_password" then Some(ResetPassword)
    else None
  }

  /** Every action is read back from its own name. */
  lemma ParseActionName(a: Action)
    ensures ParseAction(Str(ActionName(a))) == Some(a)
  {
    match a
    case Create =>
    case Edit => assert ActionName(a) != "create";
    case Disable => assert ActionName(a) != "create" && ActionName(a) != "edit";
    case Delete => assert ActionName(a) != "create" && ActionName(a) != "edit" && ActionName(a) != "disable";
    case ResetPassword =>
      assert ActionName(a) != "create" && ActionName(a) != "edit" && ActionName(a) != "disable" && ActionName(a) != "delete";
  }

  /** The request fields the function reads. */
  datatype Payload = Payload(action: Value, email: Value, name: Value, phoneNumber: Value, isDisabled: Value, isDeleted: Value)

  /** Reading the request's fields; a missing one is `undefined`. */
  function PayloadOf(data: Doc): (p: Payload)
    ensures p.action == Field(data, "action") && p.email == Field(data, "email") && p.name == Field(data, "name")
    ensures p.phoneNumber == Field(data, "phoneNumber")
    ensures p.isDisabled == Field(data, "isDisabled") && p.isDeleted == Field(data, "isDeleted")
  {
    Payload(Field(data, "action"), Field(data, "email"), Field(data, "name"), Field(data, "phoneNumber"),
            Field(data, "isDisabled"), Field(data, "isDeleted"))
  }

  /** A users document's role field. */
  function RoleOf(d: Doc): Value
  {
    Field(d, "role")
  }

  /** The checks made before any action runs, in order: a signed-in caller;
      a caller whose users document has role super_admin (a refusal raised
      inside the check's own try block and rethrown as internal); a known
      action; a string e-mail address of the right shape. On success the
      action and the address are returned. */
  function Admit(auth: Option<string>, caller: Option<Doc>, p: Payload): (r: Result<(Action, string)>)
    ensures r == Err(Unauthenticated) <==> auth.None?
    ensures r == Err(Internal) <==>
      auth.Some? && (caller.None? || RoleOf(caller.value) != Str(SuperAdminRole))
    ensures r == Err(InvalidArgument) <==>
      auth.Some? && caller.Some? && RoleOf(caller.value) == Str(SuperAdminRole) &&
      (ParseAction(p.action).None? || !IsNonEmptyString(p.email) || !IsEmailShaped(p.email.s))
    ensures r.Ok? ==>
      p.action == Str(ActionName(r.value.0)) && p.email == Str(r.value.1) && IsEmailShaped(r.value.1)
  {
    if auth.None? then Err(Unauthenticated)
    else if caller.None? || RoleOf(caller.value) != Str(SuperAdminRole) then Err(Internal)
    else
      var action := ParseAction(p.action);
      if action.None? then Err(InvalidArgument)
      else if !IsNonEmptyString(p.email) || !IsEmailShaped(p.email.s) then Err(InvalidArgument)
      else Ok((action.value, p.email.s))
  }

  /** The outer catch: four Firebase Auth codes get their own HttpsError
      code, an HttpsError passes through unchanged, and anything else is
      internal. */
  function Translate(t: Thrown): (c: Code)
    ensures t == AuthError("auth/email-already-exists") ==> c == AlreadyExists
    ensures t == AuthError("auth/invalid-email") ==> c == InvalidArgument
    ensures t == AuthError("auth/operation-not-allowed") ==> c == FailedPrecondition
    ensures t == AuthError("auth/user-not-found") ==> c == NotFound
    ensures t.Https? ==> c == t.code
    ensures t == OtherError ==> c == Internal
  {
    match t
    case AuthError(code) =>
      if code == "auth/email-already-exists" then AlreadyExists
      else if code == "auth/invalid-email" then InvalidArgument
      else if code == "auth/operation-not-allowed" then FailedPrecondition
      else if code == "auth/user-not-found" then NotFound
      else Internal
    case Https(code) => code
    case OtherError => Internal
  }

  /** Translation never yields a code that was not either thrown as an
      HttpsError or named by one of the four Auth codes: any other Auth
      code is internal. */
  lemma TranslateOtherAuthCodes(code: string)
    requires code !in ["auth/email-already-exists", "auth/invalid-email", "auth/operation-not-allowed", "auth/user-not-found"]
    ensures Translate(AuthError(code)) == Internal
  {
  }

  /** A Firebase Auth account: its uid, display name, whether sign-in is
      disabled, and the role custom claim. */
  datatype Account = Account(uid: string, displayName: Value, disabled: bool, claimRole: Option<string>)

  /** What a handler returns. */
  datatype Reply =
    | Created(uid: string, alreadyExists: bool)
    | Edited(uid: string)
    | DisabledSet(uid: string, isDisabled: bool)
    | DeletedSet(uid: string, isDeleted: bool)
    | ResetSent(uid: string, email: string)

  /** The `action` field of a reply. */
  function ReplyAction(r: Reply): (a: Action)
  {
    match r
    case Created(_, _) => Create
    case Edited(_) => Edit
    case DisabledSet(_, _) => Disable
    case DeletedSet(_, _) => Delete
    case ResetSent(_, _) => ResetPassword
  }

  /** The reply's `message`. */
  function ReplyMessage(r: Reply): string
  {
    match r
    case Created(_, existing) =>
      if existing then "User already exists. Updated to super admin and password setup email sent."
      else "Super admin account created successfully. Password setup email sent."
    case Edited(_) => "Super admin updated successfully"
    case DisabledSet(_, b) => if b then "Super admin disabled successfully" else "Super admin enabled successfully"
    case DeletedSet(_, b) => if b then "Super admin deleted successfully" else "Super admin restored successfully"
    case ResetSent(_, _) => "Password reset email sent successfully"
  }

  /** A handler either returns a reply or throws. */
  datatype Outcome = Returned(reply: Reply) | Raised(thrown: Thrown)

  /** The outer catch applied to what a handler did. */
  function Caught(o: Outcome): (r: Result<Reply>)
    ensures o.Returned? <==> r.Ok?
    ensures o.Returned? ==> r.value == o.reply
    ensures o.Raised? ==> r.code == Translate(o.thrown)
  {
    match o
    case Returned(reply) => Ok(reply)
    case Raised(t) => Err(Translate(t))
  }

  /** What the services outside the store answer during one call: the
      clock, the mail token, the uid Firebase Auth gives a new account,
      whether the reset link is generated and the e-mail accepted, and an
      Auth code when Firebase Auth refuses a write. */
  datatype Services = Services(
    now: Value, mailToken: string, newUid: string,
    linkGenerated: bool, mailSent: bool, authFault: Option<string>)

  /** The fields `handleCreate` writes (merged into any existing document). */
  function CreatedFields(uid: string, name: string, email: string, phone: Value, now: Value): Doc
  {
    map["docId" := Str(uid), "superAdminId" := Str(uid), "name" := Str(name), "email" := Str(email),
        "phoneNumber" := Or(phone, Null), "role" := Str(SuperAdminRole), "isDisabled" := Bool(false),
        "isBlocked" := Bool(false), "createdAt" := now, "modifiedAt" := now]
  }

  /** The fields `handleEdit` updates: the phone number only when the
      request carries one. */
  function EditFields(name: string, email: string, phone: Value, now: Value): Doc
  {
    var base := map["name" := Str(name), "email" := Str(email), "modifiedAt" := now];
    if phone != Undefined then base["phoneNumber" := Or(phone, Null)] else base
  }

  /** The fields `handleDisable` updates. */
  function DisableFields(isDisabled: bool, now: Value): Doc
  {
    map["isDisabled" := Bool(isDisabled), "modifiedAt" := now]
  }

  /** The fields `handleDelete` updates. */
  function DeleteFields(isDeleted: bool, now: Value): Doc
  {
    map["isDeleted" := Bool(isDeleted), "modifiedAt" := now]
  }

  /** A created document is an enabled super admin under its own uid,
      whatever the document held before. */
  lemma CreatedIsEnabledSuperAdmin(d: Doc, uid: string, name: string, email: string, phone: Value, now: Value)
    ensures RoleOf(d + CreatedFields(uid, name, email, phone, now)) == Str(SuperAdminRole)
    ensures Field(d + CreatedFields(uid, name, email, phone, now), "isDisabled") == Bool(false)
    ensures Field(d + CreatedFields(uid, name, email, phone, now), "docId") == Str(uid)
    ensures Field(d + CreatedFields(uid, name, email, phone, now), "email") == Str(email)
    ensures Field(d + CreatedFields(uid, name, email, phone, now), "name") == Str(name)
  {
  }

  /** An edit changes the phone number only when one was supplied; the
      other fields it does not name are kept. */
  lemma EditKeepsPhone(d: Doc, name: string, email: string, phone: Value, now: Value)
    ensures phone == Undefined ==> Field(d + EditFields(name, email, phone, now), "phoneNumber") == Field(d, "phoneNumber")
    ensures phone != Undefined ==> Field(d + EditFields(name, email, phone, now), "phoneNumber") == Or(phone, Null)
    ensures Field(d + EditFields(name, email, phone, now), "name") == Str(name)
    ensures forall k :: k != "name" && k != "email" && k != "modifiedAt" && k != "phoneNumber" ==>
      Field(d + EditFields(name, email, phone, now), k) == Field(d, k)
  {
  }

  /** Disabling sets `isDisabled` and `modifiedAt` and nothing else. */
  lemma DisableTouchesOnlyFlag(d: Doc, b: bool, now: Value)
    ensures Field(d + DisableFields(b, now), "isDisabled") == Bool(b)
    ensures forall k :: k != "isDisabled" && k != "modifiedAt" ==> Field(d + DisableFields(b, now), k) == Field(d, k)
  {
  }

  /** Deleting sets `isDeleted` and `modifiedAt` and nothing else. */
  lemma DeleteTouchesOnlyFlag(d: Doc, b: bool, now: Value)
    ensures Field(d + DeleteFields(b, now), "isDeleted") == Bool(b)
    ensures forall k :: k != "isDeleted" && k != "modifiedAt" ==> Field(d + DeleteFields(b, now), k) == Field(d, k)
  {
  }

  /** The users collection and the Firebase Auth accounts (keyed by
      e-mail address, the key `getUserByEmail` looks up). */
  class Directory {
    var users: map<string, Doc>
    var accounts: map<string, Account>

    constructor(users0: map<string, Doc>, accounts0: map<string, Account>)
      ensures users == users0 && accounts == accounts0
    {
      users := users0;
      accounts := accounts0;
    }

    /** The caller's users document, if any. */
    function CallerDoc(auth: Option<string>): (d: Option<Doc>)
      reads this
      ensures d.Some? <==> auth.Some? && auth.value in users
    {
      if auth.Some? && auth.value in users then Some(users[auth.value]) else None
    }

    /** The account an action targets: the Auth account must exist (else
        not-found), its users document must exist (else not-found) and
        carry role super_admin (else permission-denied). */
    function Target(email: string): (r: Result<string>)
      reads this
      ensures r == Err(NotFound) <==> email !in accounts || accounts[email].uid !in users
      ensures r == Err(PermissionDenied) <==>
        email in accounts && accounts[email].uid in users && RoleOf(users[accounts[email].uid]) != Str(SuperAdminRole)
      ensures r.Ok? <==> email in accounts && accounts[email].uid in users && RoleOf(users[accounts[email].uid]) == Str(SuperAdminRole)
      ensures r.Ok? ==> r.value == accounts[email].uid
    {
      if email !in accounts then Err(NotFound)
      else
        var uid := accounts[email].uid;
        if uid !in users then Err(NotFound)
        else if RoleOf(users[uid]) != Str(SuperAdminRole) then Err(PermissionDenied)
        else Ok(uid)
    }

    /** `handleCreate`: a new Auth account is made only when none has the
        address; an existing one gets the super_admin claim. The users
        document is written before the e-mail goes out, so a refused
        e-mail leaves it written. */
    method HandleCreate(p: Payload, email: string, env: Services) returns (o: Outcome)
      modifies this
      ensures !IsNonEmptyString(p.name) ==> o == Raised(Https(InvalidArgument)) && unchanged(this)
      ensures IsNonEmptyString(p.name) && Trim(env.mailToken) == "" ==>
        o == Raised(Https(FailedPrecondition)) && unchanged(this)
      ensures IsNonEmptyString(p.name) && Trim(env.mailToken) != "" && email !in old(accounts) && env.authFault.Some? ==>
        o == Raised(AuthError(env.authFault.value)) && unchanged(this)
      ensures IsNonEmptyString(p.name) && Trim(env.mailToken) != "" && (email in old(accounts) || env.authFault.None?) ==>
        var existing := email in old(accounts);
        var uid := if existing then old(accounts)[email].uid else env.newUid;
        accounts == old(accounts)[email := if existing then old(accounts)[email].(claimRole := Some(SuperAdminRole))
                                           else Account(env.newUid, p.name, false, Some(SuperAdminRole))] &&
        users == old(users)[uid := (if uid in old(users) then old(users)[uid] else map[]) +
                                   CreatedFields(uid, p.name.s, email, p.phoneNumber, env.now)] &&
        o == (if env.mailSent then Returned(Created(uid, existing)) else Raised(Https(Internal)))
    {
      var name := p.name;
      if !IsNonEmptyString(name) {
        return Raised(Https(InvalidArgument));
      }
      if Trim(env.mailToken) == "" {
        return Raised(Https(FailedPrecondition));
      }
      var existing := email in accounts;
      var uid: string;
      if existing {
        uid := accounts[email].uid;
        accounts := accounts[email := accounts[email].(claimRole := Some(SuperAdminRole))];
      } else {
        if env.authFault.Some? {
          return Raised(AuthError(env.authFault.value));
        }
        uid := env.newUid;
        accounts := accounts[email := Account(uid, name, false, Some(SuperAdminRole))];
      }
      var previous: Doc := if uid in users then users[uid] else map[];
      users := users[uid := previous + CreatedFields(uid, name.s, email, p.phoneNumber, env.now)];
      if !env.mailSent {
        return Raised(Https(Internal));
      }
      o := Returned(Created(uid, existing));
    }

    /** `handleEdit`: updates the name, address and (when supplied) phone
        number of a super admin's document, then the Auth display name
        when it differs. */
    method HandleEdit(p: Payload, email: string, env: Services) returns (o: Outcome)
      modifies this
      ensures !IsNonEmptyString(p.name) ==> o == Raised(Https(InvalidArgument)) && unchanged(this)
      ensures IsNonEmptyString(p.name) && old(Target(email)).Err? ==>
        o == Raised(Https(old(Target(email)).code)) && unchanged(this)
      ensures IsNonEmptyString(p.name) && old(Target(email)).Ok? ==>
        var uid := old(Target(email)).value;
        var name := p.name;
        users == old(users)[uid := old(users)[uid] + EditFields(name.s, email, p.phoneNumber, env.now)] &&
        if old(accounts)[email].displayName == name then
          accounts == old(accounts) && o == Returned(Edited(uid))
        else if env.authFault.Some? then
          accounts == old(accounts) && o == Raised(AuthError(env.authFault.value))
        else
          accounts == old(accounts)[email := old(accounts)[email].(displayName := name)] && o == Returned(Edited(uid))
    {
      var name := p.name;
      if !IsNonEmptyString(name) {
        return Raised(Https(InvalidArgument));
      }
      var target := Target(email);
      if target.Err? {
        return Raised(Https(target.code));
      }
      var uid := target.value;
      users := users[uid := users[uid] + EditFields(name.s, email, p.phoneNumber, env.now)];
      if accounts[email].displayName != name {
        if env.authFault.Some? {
          return Raised(AuthError(env.authFault.value));
        }
        accounts := accounts[email := accounts[email].(displayName := name)];
      }
      o := Returned(Edited(uid));
    }

    /** `handleDisable`: sets `isDisabled` on the document, then the Auth
        account's disabled flag. */
    method HandleDisable(p: Payload, email: string, env: Services) returns (o: Outcome)
      modifies this
      ensures !p.isDisabled.Bool? ==> o == Raised(Https(InvalidArgument)) && unchanged(this)
      ensures p.isDisabled.Bool? && old(Target(email)).Err? ==>
        o == Raised(Https(old(Target(email)).code)) && unchanged(this)
      ensures p.isDisabled.Bool? && old(Target(email)).Ok? ==>
        var uid := old(Target(email)).value;
        var b := p.isDisabled.b;
        users == old(users)[uid := old(users)[uid] + DisableFields(b, env.now)] &&
        if env.authFault.Some? then
          accounts == old(accounts) && o == Raised(AuthError(env.authFault.value))
        else
          accounts == old(accounts)[email := old(accounts)[email].(disabled := b)] && o == Returned(DisabledSet(uid, b))
    {
      var flag := p.isDisabled;
      if !flag.Bool? {
        return Raised(Https(InvalidArgument));
      }
      var target := Target(email);
      if target.Err? {
        return Raised(Https(target.code));
      }
      var uid := target.value;
      users := users[uid := users[uid] + DisableFields(flag.b, env.now)];
      if env.authFault.Some? {
        return Raised(AuthError(env.authFault.value));
      }
      accounts := accounts[email := accounts[email].(disabled := flag.b)];
      o := Returned(DisabledSet(uid, flag.b));
    }

    /** `handleDelete`: a soft delete in the document; the Auth account is
        removed only when `isDeleted` is true (a restore cannot bring it
        back). */
    method HandleDelete(p: Payload, email: string, env: Services) returns (o: Outcome)
      modifies this
      ensures !p.isDeleted.Bool? ==> o == Raised(Https(InvalidArgument)) && unchanged(this)
      ensures p.isDeleted.Bool? && old(Target(email)).Err? ==>
        o == Raised(Https(old(Target(email)).code)) && unchanged(this)
      ensures p.isDeleted.Bool? && old(Target(email)).Ok? ==>
        var uid := old(Target(email)).value;
        var b := p.isDeleted.b;
        users == old(users)[uid := old(users)[uid] + DeleteFields(b, env.now)] &&
        if !b then
          accounts == old(accounts) && o == Returned(DeletedSet(uid, b))
        else if env.authFault.Some? then
          accounts == old(accounts) && o == Raised(AuthError(env.authFault.value))
        else
          accounts == old(accounts) - {email} && o == Returned(DeletedSet(uid, b))
    {
      var flag := p.isDeleted;
      if !flag.Bool? {
        return Raised(Https(InvalidArgument));
      }
      var target := Target(email);
      if target.Err? {
        return Raised(Https(target.code));
      }
      var uid := target.value;
      users := users[uid := users[uid] + DeleteFields(flag.b, env.now)];
      if flag.b {
        if env.authFault.Some? {
          return Raised(AuthError(env.authFault.value));
        }
        accounts := accounts - {email};
      }
      o := Returned(DeletedSet(uid, flag.b));
    }

    /** `handleResetPassword`: checks the target, generates the reset
        link, then needs the mail token and an accepted e-mail. Nothing in
        the store changes. */
    function ResetPasswordOutcome(email: string, env: Services): (o: Outcome)
      reads this
      ensures Target(email).Err? ==> o == Raised(Https(Target(email).code))
      ensures Target(email).Ok? && !env.linkGenerated ==> o == Raised(Https(Internal))
      ensures Target(email).Ok? && env.linkGenerated && Trim(env.mailToken) == "" ==> o == Raised(Https(FailedPrecondition))
      ensures o.Returned? <==> Target(email).Ok? && env.linkGenerated && Trim(env.mailToken) != "" && env.mailSent
      ensures o.Returned? ==> o.reply == ResetSent(Target(email).value, email)
    {
      var target := Target(email);
      if target.Err? then Raised(Https(target.code))
      else if !env.linkGenerated then Raised(Https(Internal))
      else if Trim(env.mailToken) == "" then Raised(Https(FailedPrecondition))
      else if !env.mailSent then Raised(Https(Internal))
      else Returned(ResetSent(target.value, email))
    }

    /** `manageSuperAdmin`: the guards, then the handler for the action;
        whatever the handler throws goes through the outer catch. The
        effect of each handler is stated on the handler. */
    method ManageSuperAdmin(auth: Option<string>, p: Payload, env: Services) returns (r: Result<Reply>)
      modifies this
      ensures old(Admit(auth, CallerDoc(auth), p)).Err? ==>
        r == Err(old(Admit(auth, CallerDoc(auth), p)).code) && unchanged(this)
      ensures r.Ok? ==>
        old(Admit(auth, CallerDoc(auth), p)).Ok? &&
        ReplyAction(r.value) == old(Admit(auth, CallerDoc(auth), p)).value.0
      ensures old(Admit(auth, CallerDoc(auth), p)).Ok? && old(Admit(auth, CallerDoc(auth), p)).value.0 == ResetPassword ==>
        unchanged(this) && r == Caught(old(ResetPasswordOutcome(Admit(auth, CallerDoc(auth), p).value.1, env)))
    {
      var admitted := Admit(auth, CallerDoc(auth), p);
      if admitted.Err? {
        return Err(admitted.code);
      }
      var (action, email) := admitted.value;
      var o: Outcome;
      match action {
        case Create => o := HandleCreate(p, email, env);
        case Edit => o := HandleEdit(p, email, env);
        case Disable => o := HandleDisable(p, email, env);
        case Delete => o := HandleDelete(p, email, env);
        case ResetPassword => o := ResetPasswordOutcome(email, env);
      }
      assert o.Returned? ==> ReplyAction(o.reply) == action;
      r := Caught(o);
    }
  }
}
