/** Creating (or re-inviting) a sales person: the request guards, the gate
    on an address already registered, the Firebase Auth account lookup and
    creation, the users document written, and the outer catch, which turns
    every HttpsError raised inside it into internal. */
module SalesPeople {
  import opened Js
  import opened Text
  import SuperAdmins

  const SalesPersonRole := "sales_person"
  const UserNotFound := "auth/user-not-found"

  /** The request fields the function reads. */
  datatype Payload = Payload(
    email: Value, name: Value, salesPersonId: Value, refCode: Value,
    address: Value, city: Value, state: Value, country: Value, isResend: Value)

  /** Reading the request's fields; a missing one is `undefined`. */
  function PayloadOf(data: Doc): (p: Payload)
    ensures p.email == Field(data, "email") && p.name == Field(data, "name")
    ensures p.salesPersonId == Field(data, "salesPersonId") && p.refCode == Field(data, "refCode")
    ensures p.address == Field(data, "address") && p.city == Field(data, "city")
    ensures p.state == Field(data, "state") && p.country == Field(data, "country")
    ensures p.isResend == Field(data, "isResend")
  {
    Payload(Field(data, "email"), Field(data, "name"), Field(data, "salesPersonId"), Field(data, "refCode"),
            Field(data, "address"), Field(data, "city"), Field(data, "state"), Field(data, "country"),
            Field(data, "isResend"))
  }

  /** The checks before the try block, in order: a signed-in caller; a
      caller whose users document has role super_admin (refused as
      internal, the permission-denied being rethrown by its own catch);
      the four required fields as non-empty strings; the address shape. */
  function Admit(auth: Option<string>, caller: Option<Doc>, p: Payload): (r: Result<string>)
    ensures r == Err(Unauthenticated) <==> auth.None?
    ensures r == Err(Internal) <==>
      auth.Some? && (caller.None? || SuperAdmins.RoleOf(caller.value) != Str(SuperAdmins.SuperAdminRole))
    ensures r == Err(InvalidArgument) <==>
      auth.Some? && caller.Some? && SuperAdmins.RoleOf(caller.value) == Str(SuperAdmins.SuperAdminRole) &&
      (!IsNonEmptyString(p.email) || !IsNonEmptyString(p.name) || !IsNonEmptyString(p.salesPersonId) ||
       !IsNonEmptyString(p.refCode) || !IsEmailShaped(p.email.s))
    ensures r.Ok? ==>
      p.email == Str(r.value) && IsEmailShaped(r.value) &&
      IsNonEmptyString(p.name) && IsNonEmptyString(p.salesPersonId) && IsNonEmptyString(p.refCode)
  {
    if auth.None? then Err(Unauthenticated)
    else if caller.None? || SuperAdmins.RoleOf(caller.value) != Str(SuperAdmins.SuperAdminRole) then Err(Internal)
    else if !IsNonEmptyString(p.email) then Err(InvalidArgument)
    else if !IsNonEmptyString(p.name) then Err(InvalidArgument)
    else if !IsNonEmptyString(p.salesPersonId) then Err(InvalidArgument)
    else if !IsNonEmptyString(p.refCode) then Err(InvalidArgument)
    else if !IsEmailShaped(p.email.s) then Err(InvalidArgument)
    else Ok(p.email.s)
  }

  /** The outer catch: three Firebase Auth codes get their own code and
      everything else, an HttpsError included, becomes internal. */
  function Translate(t: Thrown): (c: Code)
    ensures t == AuthError("auth/email-already-exists") ==> c == AlreadyExists
    ensures t == AuthError("auth/invalid-email") ==> c == InvalidArgument
    ensures t == AuthError("auth/operation-not-allowed") ==> c == FailedPrecondition
    ensures t.Https? || t.OtherError? ==> c == Internal
    ensures c in {AlreadyExists, InvalidArgument, FailedPrecondition, Internal}
  {
    match t
    case AuthError(code) =>
      if code == "auth/email-already-exists" then AlreadyExists
      else if code == "auth/invalid-email" then InvalidArgument
      else if code == "auth/operation-not-allowed" then FailedPrecondition
      else Internal
    case Https(_) => Internal
    case OtherError => Internal
  }

  /** A Firebase Auth account with its custom claims. */
  datatype Account = Account(uid: string, displayName: Value, claimRole: Option<string>, claimSalesPersonId: Option<Value>)

  /** The successful reply; `wasResend` is `isResend || false`. */
  datatype Reply = Reply(uid: string, wasAlreadyInAuth: bool, wasResend: Value)

  /** The reply's message: a resend says so whatever else happened. */
  function ReplyMessage(r: Reply): string
  {
    if Truthy(r.wasResend) then "Password setup email resent successfully."
    else if r.wasAlreadyInAuth then
      "Sales person added to Firestore. User already existed in Firebase Auth. Password setup email sent."
    else "Sales person account created successfully in both Firestore and Firebase Auth. Password setup email sent."
  }

  /** What the try block returns or throws. */
  datatype Outcome = Returned(reply: Reply) | Raised(thrown: Thrown)

  /** The outer catch applied to the try block's outcome. */
  function Caught(o: Outcome): (r: Result<Reply>)
    ensures o.Returned? <==> r.Ok?
    ensures o.Returned? ==> r.value == o.reply
    ensures o.Raised? ==> r.code == Translate(o.thrown)
  {
    match o
    case Returned(reply) => Ok(reply)
    case Raised(t) => Err(Translate(t))
  }

  /** What the services outside the store answer during one call: the
      clock, the mail token, the code Firebase Auth throws when looking up
      an unknown address, a code when it refuses to create the account,
      the uid it gives a new account, whether the reset link is generated
      and whether the e-mail is accepted. */
  datatype Services = Services(
    now: Value, mailToken: string, lookupError: string, createFault: Option<string>,
    newUid: string, linkGenerated: bool, mailSent: bool)

  /** An optional field: set (to `v || null`) only when the request carries it. */
  function Optional(d: Doc, key: string, v: Value): Doc
  {
    if v != Undefined then d[key := Or(v, Null)] else d
  }

  /** The fields a resend updates: the name, the time and the address
      fields the request carries. */
  function ResendFields(p: Payload, now: Value): Doc
  {
    var base := map["name" := p.name, "modifiedAt" := now];
    Optional(Optional(Optional(Optional(base, "address", p.address), "city", p.city), "state", p.state), "country", p.country)
  }

  /** The document written for a new sales person. */
  function NewFields(p: Payload, now: Value): Doc
  {
    map["email" := p.email, "name" := p.name, "role" := Str(SalesPersonRole), "salesPersonId" := p.salesPersonId,
        "refCode" := p.refCode, "address" := Or(p.address, Null), "city" := Or(p.city, Null),
        "state" := Or(p.state, Null), "country" := Or(p.country, Null), "createdAt" := now,
        "modifiedAt" := now, "emailVerified" := Bool(false), "isDisabled" := Bool(false)]
  }

  /** A new sales person is an enabled, unverified sales_person. */
  lemma NewFieldsRole(p: Payload, now: Value)
    ensures SuperAdmins.RoleOf(NewFields(p, now)) == Str(SalesPersonRole)
    ensures Field(NewFields(p, now), "isDisabled") == Bool(false)
    ensures Field(NewFields(p, now), "emailVerified") == Bool(false)
    ensures Field(NewFields(p, now), "refCode") == p.refCode
  {
  }

  /** A resend keeps the role, the reference code and every address
      field the request leaves out. */
  lemma ResendKeeps(d: Doc, p: Payload, now: Value)
    ensures Field(d + ResendFields(p, now), "name") == p.name
    ensures SuperAdmins.RoleOf(d + ResendFields(p, now)) == SuperAdmins.RoleOf(d)
    ensures Field(d + ResendFields(p, now), "refCode") == Field(d, "refCode")
    ensures p.address == Undefined ==> Field(d + ResendFields(p, now), "address") == Field(d, "address")
    ensures p.address != Undefined ==> Field(d + ResendFields(p, now), "address") == Or(p.address, Null)
    ensures p.country == Undefined ==> Field(d + ResendFields(p, now), "country") == Field(d, "country")
  {
  }

  /** Whether some users document already carries the address (the
      query on `email`). */
  predicate Registered(users: map<string, Doc>, email: string)
  {
    exists uid :: uid in users && EmailOf(users[uid]) == Str(email)
  }

  /** A users document's e-mail field. */
  function EmailOf(d: Doc): Value
  {
    Field(d, "email")
  }

  /** The uid step 3 or 4 ends with: the existing account's, the new
      one's when the lookup says not-found and the creation succeeds, and
      none otherwise. */
  function AccountUid(accounts: map<string, Account>, email: string, env: Services): (uid: Option<string>)
    ensures email in accounts ==> uid == Some(accounts[email].uid)
    ensures email !in accounts ==> (uid.Some? <==> env.lookupError == UserNotFound && env.createFault.None?)
    ensures email !in accounts && uid.Some? ==> uid.value == env.newUid
  {
    if email in accounts then Some(accounts[email].uid)
    else if env.lookupError == UserNotFound && env.createFault.None? then Some(env.newUid)
    else None
  }

  /** The accounts after steps 3 and 4: the address's account carries the
      sales-person claims whenever the step obtained one. */
  function AccountsAfter(accounts: map<string, Account>, email: string, p: Payload, env: Services): (r: map<string, Account>)
    ensures AccountUid(accounts, email, env).None? ==> r == accounts
    ensures AccountUid(accounts, email, env).Some? ==>
      email in r && r[email].uid == AccountUid(accounts, email, env).value &&
      r[email].claimRole == Some(SalesPersonRole) && r[email].claimSalesPersonId == Some(p.salesPersonId) &&
      forall e :: e in accounts && e != email ==> e in r && r[e] == accounts[e]
  {
    if email in accounts then
      accounts[email := accounts[email].(claimRole := Some(SalesPersonRole), claimSalesPersonId := Some(p.salesPersonId))]
    else if env.lookupError == UserNotFound && env.createFault.None? then
      accounts[email := Account(env.newUid, p.name, Some(SalesPersonRole), Some(p.salesPersonId))]
    else accounts
  }

  /** The users after step 5, or none when the resend's update finds no
      document under the uid. */
  function UsersAfter(users: map<string, Doc>, uid: string, update: bool, p: Payload, now: Value): (r: Option<map<string, Doc>>)
    ensures r.None? <==> update && uid !in users
    ensures r.Some? ==> uid in r.value && r.value.Keys == users.Keys + {uid}
    ensures r.Some? ==> forall u :: u in users && u != uid ==> r.value[u] == users[u]
  {
    if update then
      if uid in users then Some(users[uid := users[uid] + ResendFields(p, now)]) else None
    else Some(users[uid := NewFields(p, now)])
  }

  /** The users collection and the Firebase Auth accounts (keyed by
      e-mail address). */
  class Directory {
    var users: map<string, Doc>
    var accounts: map<string, Account>

    constructor(users0: map<string, Doc>, accounts0: map<string, Account>)
      ensures users == users0 && accounts == accounts0
    {
      users := users0;
      accounts := accounts0;
    }

    /** The caller's users document, if any. */
    function CallerDoc(auth: Option<string>): (d: Option<Doc>)
      reads this
      ensures d.Some? <==> auth.Some? && auth.value in users
    {
      if auth.Some? && auth.value in users then Some(users[auth.value]) else None
    }

    /** The Auth account lookup and creation (steps 3 and 4): an account
        is created only when the lookup fails with user-not-found, and
        either way its claims become those of a sales person. */
    method EnsureAccount(email: string, p: Payload, env: Services) returns (uid: Option<string>, thrown: Thrown)
      modifies this
      ensures users == old(users)
      ensures email in old(accounts) ==>
        uid == Some(old(accounts)[email].uid) &&
        accounts == old(accounts)[email := old(accounts)[email].(claimRole := Some(SalesPersonRole),
                                                                 claimSalesPersonId := Some(p.salesPersonId))]
      ensures email !in old(accounts) && env.lookupError != UserNotFound ==>
        uid.None? && thrown == AuthError(env.lookupError) && accounts == old(accounts)
      ensures email !in old(accounts) && env.lookupError == UserNotFound && env.createFault.Some? ==>
        uid.None? && thrown == AuthError(env.createFault.value) && accounts == old(accounts)
      ensures email !in old(accounts) && env.lookupError == UserNotFound && env.createFault.None? ==>
        uid == Some(env.newUid) &&
        accounts == old(accounts)[email := Account(env.newUid, p.name, Some(SalesPersonRole), Some(p.salesPersonId))]
    {
      thrown := OtherError;
      if email in accounts {
        uid := Some(accounts[email].uid);
        accounts := accounts[email := accounts[email].(claimRole := Some(SalesPersonRole),
                                                       claimSalesPersonId := Some(p.salesPersonId))];
      } else if env.lookupError != UserNotFound {
        uid, thrown := None, AuthError(env.lookupError);
      } else if env.createFault.Some? {
        uid, thrown := None, AuthError(env.createFault.value);
      } else {
        uid := Some(env.newUid);
        accounts := accounts[email := Account(env.newUid, p.name, Some(SalesPersonRole), Some(p.salesPersonId))];
      }
    }

    /** Step 5: a resend of a registered address updates the document
        under the account's uid (which fails in the store when there is
        none); otherwise the whole document is written. */
    method WriteUserDoc(uid: string, update: bool, p: Payload, now: Value) returns (written: bool)
      modifies this
      ensures accounts == old(accounts)
      ensures update && uid !in old(users) ==> !written && users == old(users)
      ensures update && uid in old(users) ==> written && users == old(users)[uid := old(users)[uid] + ResendFields(p, now)]
      ensures !update ==> written && users == old(users)[uid := NewFields(p, now)]
    {
      written := true;
      if update {
        if uid !in users {
          return false;
        }
        users := users[uid := users[uid] + ResendFields(p, now)];
      } else {
        users := users[uid := NewFields(p, now)];
      }
    }

    /** The try block: the registered-address gate, the mail token, the
        account, the users document (updated only for a resend of a
        registered address, written whole otherwise), the reset link and
        the e-mail. A failure after a write leaves the write in place. */
    method Provision(email: string, p: Payload, env: Services) returns (o: Outcome)
      modifies this
      ensures Registered(old(users), email) && !Truthy(p.isResend) ==>
        o == Raised(Https(AlreadyExists)) && unchanged(this)
      ensures !(Registered(old(users), email) && !Truthy(p.isResend)) && Trim(env.mailToken) == "" ==>
        o == Raised(Https(FailedPrecondition)) && unchanged(this)
      ensures email !in old(accounts) && (env.lookupError != UserNotFound || env.createFault.Some?) ==>
        o.Raised? && users == old(users) && accounts == old(accounts)
      ensures !(Registered(old(users), email) && !Truthy(p.isResend)) && Trim(env.mailToken) != "" &&
              email !in old(accounts) && env.lookupError != UserNotFound ==>
        o == Raised(AuthError(env.lookupError))
      ensures !(Registered(old(users), email) && !Truthy(p.isResend)) && Trim(env.mailToken) != "" &&
              email !in old(accounts) && env.lookupError == UserNotFound && env.createFault.Some? ==>
        o == Raised(AuthError(env.createFault.value))
      ensures !(Registered(old(users), email) && !Truthy(p.isResend)) && Trim(env.mailToken) != "" ==>
        accounts == AccountsAfter(old(accounts), email, p, env)
      ensures !(Registered(old(users), email) && !Truthy(p.isResend)) && Trim(env.mailToken) != "" &&
              AccountUid(old(accounts), email, env).Some? ==>
        var after := UsersAfter(old(users), AccountUid(old(accounts), email, env).value,
                                Truthy(p.isResend) && Registered(old(users), email), p, env.now);
        (after.None? ==> o == Raised(OtherError) && users == old(users)) &&
        (after.Some? ==> users == after.value) &&
        (after.Some? && !env.linkGenerated ==> o == Raised(OtherError)) &&
        (after.Some? && env.linkGenerated && !env.mailSent ==> o == Raised(Https(Internal))) &&
        (after.Some? && env.linkGenerated && env.mailSent ==> o.Returned?)
      ensures o.Returned? ==>
        !(Registered(old(users), email) && !Truthy(p.isResend)) && Trim(env.mailToken) != "" &&
        env.linkGenerated && env.mailSent &&
        o.reply.wasAlreadyInAuth == (email in old(accounts)) && o.reply.wasResend == Or(p.isResend, Bool(false)) &&
        o.reply.uid in users && email in accounts && accounts[email].uid == o.reply.uid &&
        accounts[email].claimRole == Some(SalesPersonRole) &&
        if Truthy(p.isResend) && Registered(old(users), email) then
          o.reply.uid in old(users) && users == old(users)[o.reply.uid := old(users)[o.reply.uid] + ResendFields(p, env.now)]
        else
          users == old(users)[o.reply.uid := NewFields(p, env.now)]
    {
      var registered := Registered(users, email);
      if registered && !Truthy(p.isResend) {
        return Raised(Https(AlreadyExists));
      }
      if Trim(env.mailToken) == "" {
        return Raised(Https(FailedPrecondition));
      }
      var inAuth := email in accounts;
      var uid, thrown := EnsureAccount(email, p, env);
      if uid.None? {
        return Raised(thrown);
      }
      var written := WriteUserDoc(uid.value, Truthy(p.isResend) && registered, p, env.now);
      if !written {
        return Raised(OtherError);
      }
      if !env.linkGenerated || !env.mailSent {
        return Raised(if env.linkGenerated then Https(Internal) else OtherError);
      }
      o := Returned(Reply(uid.value, inAuth, Or(p.isResend, Bool(false))));
    }

    /** `createSalesPersonAccount`: the guards, then the try block under
        the outer catch. */
    method CreateSalesPersonAccount(auth: Option<string>, p: Payload, env: Services) returns (r: Result<Reply>)
      modifies this
      ensures old(Admit(auth, CallerDoc(auth), p)).Err? ==>
        r == Err(old(Admit(auth, CallerDoc(auth), p)).code) && unchanged(this)
      ensures old(Admit(auth, CallerDoc(auth), p)).Ok? && Registered(old(users), p.email.s) && !Truthy(p.isResend) ==>
        r == Err(Internal) && unchanged(this)
      ensures old(Admit(auth, CallerDoc(auth), p)).Ok? && Trim(env.mailToken) == "" ==>
        r == Err(Internal) && unchanged(this)
      ensures old(Admit(auth, CallerDoc(auth), p)).Ok? &&
              !(Registered(old(users), p.email.s) && !Truthy(p.isResend)) && Trim(env.mailToken) != "" &&
              p.email.s !in old(accounts) && env.lookupError != UserNotFound ==>
        r == Err(Translate(AuthError(env.lookupError))) && users == old(users) && accounts == old(accounts)
      ensures old(Admit(auth, CallerDoc(auth), p)).Ok? &&
              !(Registered(old(users), p.email.s) && !Truthy(p.isResend)) && Trim(env.mailToken) != "" &&
              p.email.s !in old(accounts) && env.lookupError == UserNotFound && env.createFault.Some? ==>
        r == Err(Translate(AuthError(env.createFault.value))) && users == old(users) && accounts == old(accounts)
      ensures r.Ok? ==> old(Admit(auth, CallerDoc(auth), p)).Ok? && r.value.uid in users
    {
      var admitted := Admit(auth, CallerDoc(auth), p);
      if admitted.Err? {
        return Err(admitted.code);
      }
      var o := Provision(admitted.value, p, env);
      r := Caught(o);
    }
  }
}
