/** Assigning free event credits to an organisation: the guard chain, the
    payment record written and the reply. */
module FreeCredits {
  import opened Js
  import opened Text

  /** The call's payload. */
  datatype Request = Request(organisationId: Value, events: Value, note: Value)

  /** A positive whole number of events: `!events || typeof events !==
      "number" || events <= 0 || !Number.isInteger(events)` rejects the
      rest. */
  function EventCount(v: Value): (n: Option<nat>)
    ensures n.Some? <==> v.Num? && v.x > 0.0 && IsInteger(v.x)
    ensures n.Some? ==> n.value >= 1 && n.value as real == v.x
  {
    if v.Num? && v.x > 0.0 && IsInteger(v.x) then Some(v.x.Floor as nat) else None
  }

  /** A non-blank string id, trimmed; anything else is rejected. */
  function OrganisationKey(v: Value): (k: Option<string>)
    ensures k.Some? <==> v.Str? && !IsBlank(v.s)
    ensures k.Some? ==> k.value == Trim(v.s) && k.value != ""
  {
    if v.Str? && Trim(v.s) != "" then Some(Trim(v.s)) else None
  }

  const SuperAdminRole := "super_admin"

  /** The organisation's display name: `name`, else `companyName`, else a
      fixed fallback. */
  function OrganisationName(org: Doc): (name: Value)
    ensures Truthy(Field(org, "name")) ==> name == Field(org, "name")
    ensures !Truthy(Field(org, "name")) && Truthy(Field(org, "companyName")) ==> name == Field(org, "companyName")
    ensures !Truthy(Field(org, "name")) && !Truthy(Field(org, "companyName")) ==> name == Str("Unknown Organisation")
    ensures Truthy(name)
  {
    Or(Or(Field(org, "name"), Field(org, "companyName")), Str("Unknown Organisation"))
  }

  /** "s" after a count above one. */
  function Plural(n: nat): string
  {
    if n > 1 then "s" else ""
  }

  /** The package name: "<n> Free Event(s) - Assigned by Admin". */
  function PackageName(n: nat): string
  {
    NatToString(n) + " Free Event" + Plural(n) + " - Assigned by Admin"
  }

  /** The reply's message. */
  function Message(n: nat, orgName: Value): string
  {
    "Successfully assigned " + NatToString(n) + " free event" + Plural(n) + " to " + CoalescedText(orgName)
  }

  /** For a positive count the suffix is empty exactly for one. */
  lemma PluralOnlyAboveOne(n: nat)
    requires n >= 1
    ensures Plural(n) == "" <==> n == 1
    ensures Plural(n) != "" ==> Plural(n) == "s"
  {
  }

  /** The package name is singular for one credit and plural otherwise. */
  lemma PackageNameNumber(n: nat)
    requires n >= 1
    ensures PackageName(n) == NatToString(n) + (if n == 1 then " Free Event" else " Free Events") + " - Assigned by Admin"
  {
    PluralOnlyAboveOne(n);
    var digits := NatToString(n);
    if n == 1 {
      assert PackageName(n) == digits + " Free Event" + "" + " - Assigned by Admin";
    } else {
      assert PackageName(n) == digits + " Free Event" + "s" + " - Assigned by Admin";
      assert " Free Event" + "s" == " Free Events";
    }
  }

  /** The message is singular for one credit and plural otherwise. */
  lemma MessageNumber(n: nat, orgName: Value)
    requires n >= 1
    ensures Message(n, orgName) ==
      "Successfully assigned " + NatToString(n) + (if n == 1 then " free event" else " free events") + " to " + CoalescedText(orgName)
  {
    PluralOnlyAboveOne(n);
    var digits := NatToString(n);
    var name := CoalescedText(orgName);
    if n == 1 {
      assert Message(n, orgName) == "Successfully assigned " + digits + " free event" + "" + " to " + name;
    } else {
      assert Message(n, orgName) == "Successfully assigned " + digits + " free event" + "s" + " to " + name;
      assert " free event" + "s" == " free events";
    }
  }

  /** The payment record written to `payments`. Fields that are always
      null (the card-payment ids, the receipt, the buyer) and the server
      timestamps are not represented. */
  datatype CreditRecord = CreditRecord(
    transactionId: string,
    organisationId: string,
    companyId: string,
    organisationName: Value,
    events: nat,
    amount: int,
    currency: string,
    paymentStatus: string,
    isAssignedBySuperAdmin: bool,
    isFreeCredit: bool,
    productName: string,
    packageName: string,
    assignedByUserId: string,
    assignedByEmail: Value,
    assignedByName: Value,
    note: Option<string>,
    isDisabled: bool,
    reason: Value)

  /** The successful reply. */
  datatype Reply = Reply(
    paymentId: string,
    transactionId: string,
    message: string,
    organisationId: string,
    organisationName: Value,
    events: nat,
    assignedBy: Value)

  /** `note ? note.toString().trim() : null` */
  function NoteText(note: Value): (r: Option<string>)
    ensures !Truthy(note) <==> r.None?
    ensures note.Str? && note.s != "" ==> r == Some(Trim(note.s))
  {
    if Truthy(note) then Some(Trim(CoalescedText(note))) else None
  }

  /** The record for `n` credits to organisation `key`, assigned by the
      caller. */
  function Credit(uid: string, tokenEmail: Value, user: Doc, key: string, orgName: Value, n: nat, note: Value, transactionId: string): (c: CreditRecord)
    ensures c.amount == 0 && c.currency == "usd" && c.paymentStatus == "completed"
    ensures c.isFreeCredit && c.isAssignedBySuperAdmin && !c.isDisabled
    ensures c.organisationId == key && c.companyId == key && c.events == n
    ensures c.note == NoteText(note) && c.assignedByUserId == uid
    ensures c.packageName == PackageName(n)
    ensures Truthy(c.assignedByEmail) && Truthy(c.assignedByName)
    ensures Truthy(tokenEmail) ==> c.assignedByEmail == tokenEmail
    ensures Truthy(Field(user, "name")) ==> c.assignedByName == Field(user, "name")
    ensures Truthy(note) ==> c.reason == note
  {
    var adminEmail := Or(Or(tokenEmail, Field(user, "email")), Str("unknown"));
    var adminName := Or(Or(Field(user, "name"), Field(user, "displayName")), adminEmail);
    CreditRecord(
      transactionId, key, key, orgName, n, 0, "usd", "completed", true, true,
      "Free Event Credits", PackageName(n), uid, adminEmail, adminName, NoteText(note), false,
      Or(note, Str("Assigned by super admin")))
  }

  /** `assignFreeCredits`. `uid` is the caller (`None` when signed out),
      `tokenEmail` the e-mail on the caller's token, `user` the caller's
      users document (`None` when there is none), `organisations` the
      organisations collection, and `transactionId` and `paymentId` the
      identifiers drawn for the new record. The result carries the record
      written alongside the reply. */
  function AssignFreeCredits(
    uid: Option<string>, tokenEmail: Value, req: Request, user: Option<Doc>,
    organisations: map<string, Doc>, transactionId: string, paymentId: string): (r: Result<(Reply, CreditRecord)>)
    ensures r == Err(Unauthenticated) <==> uid.None? || uid.value == ""
    ensures r == Err(InvalidArgument) <==>
      uid.Some? && uid.value != "" && (OrganisationKey(req.organisationId).None? || EventCount(req.events).None?)
    ensures r == Err(PermissionDenied) <==>
      uid.Some? && uid.value != "" && OrganisationKey(req.organisationId).Some? && EventCount(req.events).Some? &&
      (user.None? || TrimmedString(Field(user.value, "role")) != SuperAdminRole)
    ensures r == Err(NotFound) <==>
      uid.Some? && uid.value != "" && OrganisationKey(req.organisationId).Some? && EventCount(req.events).Some? &&
      user.Some? && TrimmedString(Field(user.value, "role")) == SuperAdminRole &&
      OrganisationKey(req.organisationId).value !in organisations
    ensures r.Ok? <==>
      uid.Some? && uid.value != "" && OrganisationKey(req.organisationId).Some? && EventCount(req.events).Some? &&
      user.Some? && TrimmedString(Field(user.value, "role")) == SuperAdminRole &&
      OrganisationKey(req.organisationId).value in organisations
    ensures r.Ok? ==>
      var key := Trim(req.organisationId.s);
      r.value.1 == Credit(uid.value, tokenEmail, user.value, key, OrganisationName(organisations[key]),
                          EventCount(req.events).value, req.note, transactionId)
    ensures r.Ok? ==>
      var (reply, record) := r.value;
      record.organisationId == Trim(req.organisationId.s) && record.organisationId in organisations &&
      record.events as real == req.events.x && record.events >= 1 &&
      record.organisationName == OrganisationName(organisations[record.organisationId]) &&
      reply.paymentId == paymentId && reply.transactionId == transactionId == record.transactionId &&
      reply.organisationId == record.organisationId && reply.events == record.events &&
      reply.message == Message(record.events, record.organisationName) &&
      reply.assignedBy == record.assignedByEmail
  {
    if uid.None? || uid.value == "" then Err(Unauthenticated)
    else if OrganisationKey(req.organisationId).None? then Err(InvalidArgument)
    else if EventCount(req.events).None? then Err(InvalidArgument)
    else if user.None? || TrimmedString(Field(user.value, "role")) != SuperAdminRole then Err(PermissionDenied)
    else
      var key := OrganisationKey(req.organisationId).value;
      var n := EventCount(req.events).value;
      if key !in organisations then Err(NotFound)
      else
        var orgName := OrganisationName(organisations[key]);
        var record := Credit(uid.value, tokenEmail, user.value, key, orgName, n, req.note, transactionId);
        Ok((Reply(paymentId, transactionId, Message(n, orgName), key, orgName, n, record.assignedByEmail), record))
  }
}
