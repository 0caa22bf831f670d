/** The payments lookup: who may see which organisations' payments, the
    batches of at most 30 ids the store is queried with, and the table of
    payments grouped by organisation. */
module Payments {
  import opened Js
  import opened Text

  // ---------------------------------------------------------------------
  // Permission

  const SuperAdminRole := "super_admin"
  const SalesPersonRole := "sales_person"

  /** What the lookup reads from the caller's users document: the trimmed
      role and organisation, and `isDisabled`. */
  datatype Profile = Profile(role: string, organisationId: string, isDisabled: Value)

  /** The caller's profile; a missing document reads as `{}`. */
  function ProfileOf(user: Doc): (p: Profile)
    ensures p.role == TrimmedString(Field(user, "role"))
    ensures p.organisationId == TrimmedString(Field(user, "organisationId"))
    ensures user == map[] ==> p.role == "" && p.organisationId == ""
  {
    Profile(TrimmedString(Field(user, "role")), TrimmedString(Field(user, "organisationId")), Field(user, "isDisabled"))
  }

  /** The caller may query any requested ids: a super admin, or a sales
      person whose `isDisabled` is not `true`. */
  predicate Privileged(p: Profile)
  {
    p.role == SuperAdminRole || (p.role == SalesPersonRole && p.isDisabled != Bool(true))
  }

  /** The ids whose payments the call returns. `uid` is the caller's id
      (`None` when signed out), `requested` the `organisationIds` array
      (`None` when absent or not an array). A privileged caller gets what
      was asked; any other caller exactly their own organisation, and only
      if they asked for it. */
  function PermittedIds(uid: Option<string>, requested: Option<seq<string>>, p: Profile): (r: Result<seq<string>>)
    ensures r == Err(Unauthenticated) <==> uid.None? || uid.value == ""
    ensures r == Err(InvalidArgument) <==> uid.Some? && uid.value != "" && (requested.None? || requested.value == [])
    ensures r.Ok? ==> requested.Some? && requested.value != []
    ensures r.Ok? && Privileged(p) ==> r.value == requested.value
    ensures r.Ok? && !Privileged(p) ==> r.value == [p.organisationId] && p.organisationId != "" && p.organisationId in requested.value
    ensures r == Err(PermissionDenied) <==>
      uid.Some? && uid.value != "" && requested.Some? && requested.value != [] && !Privileged(p) &&
      (p.organisationId == "" || p.organisationId !in requested.value)
    ensures r.Ok? || r == Err(Unauthenticated) || r == Err(InvalidArgument) || r == Err(PermissionDenied)
  {
    if uid.None? || uid.value == "" then Err(Unauthenticated)
    else if requested.None? || requested.value == [] then Err(InvalidArgument)
    else if Privileged(p) then Ok(requested.value)
    else if p.organisationId == "" || p.organisationId !in requested.value then Err(PermissionDenied)
    else Ok([p.organisationId])
  }

  // ---------------------------------------------------------------------
  // Batches

  /** Store `in` queries take at most 30 values. */
  const BatchSize := 30

  /** `ids.slice(i, i + 30)` for i = 0, 30, 60, ... */
  function Batches(ids: seq<string>): (bs: seq<seq<string>>)
    ensures Flatten(bs) == ids
    ensures forall k :: 0 <= k < |bs| ==> 0 < |bs[k]| <= BatchSize
    ensures forall k :: 0 <= k < |bs| - 1 ==> |bs[k]| == BatchSize
    decreases |ids|
  {
    if ids == [] then []
    else if |ids| <= BatchSize then [ids]
    else [ids[..BatchSize]] + Batches(ids[BatchSize..])
  }

  function Flatten<T>(xss: seq<seq<T>>): seq<T>
  {
    if xss == [] then [] else xss[0] + Flatten(xss[1..])
  }

  /** Batching loses nothing: the batches hold every id, in order, each
      batch but the last full. */
  lemma BatchesCover(ids: seq<string>)
    ensures Flatten(Batches(ids)) == ids
    ensures |Batches(ids)| == (|ids| + BatchSize - 1) / BatchSize
    decreases |ids|
  {
    if |ids| > BatchSize {
      BatchesCover(ids[BatchSize..]);
    }
  }

  // ---------------------------------------------------------------------
  // Grouping

  /** A payments document: its id and fields. */
  datatype PaymentDoc = PaymentDoc(id: string, data: Doc)

  /** One entry of a payments list as the function returns it. Timestamps
      are passed through as stored. */
  datatype PaymentRecord = PaymentRecord(
    id: string,
    transactionId: Value,
    organisationId: Value,
    organisationName: Value,
    events: Value,
    amount: Value,
    currency: Value,
    paymentStatus: Value,
    packageName: Value,
    productName: Value,
    userEmail: Value,
    userId: Value,
    createdAt: Value,
    modifiedAt: Value,
    isDisabled: Value,
    isAssignedBySuperAdmin: Value,
    isFreeCredit: Value,
    assignedByEmail: Value,
    assignedByName: Value,
    assignedByUserId: Value,
    note: Value,
    paymentIntentId: Value,
    stripeCustomerId: Value,
    receiptUrl: Value)

  /** The record built from a document. */
  function Record(d: PaymentDoc): PaymentRecord
  {
    var f := d.data;
    PaymentRecord(
      d.id,
      Field(f, "transactionId"),
      Field(f, "organisationId"),
      Or(Field(f, "organisationName"), Null),
      Field(f, "events"),
      Field(f, "amount"),
      Or(Field(f, "currency"), Str("usd")),
      Field(f, "paymentStatus"),
      Field(f, "packageName"),
      Field(f, "productName"),
      Field(f, "userEmail"),
      Field(f, "userId"),
      Field(f, "createdAt"),
      Field(f, "modifiedAt"),
      Or(Field(f, "isDisabled"), Bool(false)),
      Or(Field(f, "isAssignedBySuperAdmin"), Bool(false)),
      Or(Field(f, "isFreeCredit"), Bool(false)),
      Or(Field(f, "assignedByEmail"), Null),
      Or(Field(f, "assignedByName"), Null),
      Or(Field(f, "assignedByUserId"), Null),
      Or(Field(f, "note"), Null),
      Or(Field(f, "paymentIntentId"), Null),
      Or(Field(f, "stripeCustomerId"), Null),
      Or(Field(f, "receiptUrl"), Null))
  }

  /** The defaults for falsy fields: currency "usd", the three flags
      false, the optional fields null; the id and the organisation are
      copied. */
  lemma RecordDefaults(d: PaymentDoc)
    ensures Record(d).id == d.id && Record(d).organisationId == Field(d.data, "organisationId")
    ensures !Truthy(Field(d.data, "currency")) ==> Record(d).currency == Str("usd")
    ensures !Truthy(Field(d.data, "isDisabled")) ==> Record(d).isDisabled == Bool(false)
    ensures !Truthy(Field(d.data, "isAssignedBySuperAdmin")) ==> Record(d).isAssignedBySuperAdmin == Bool(false)
    ensures !Truthy(Field(d.data, "isFreeCredit")) ==> Record(d).isFreeCredit == Bool(false)
    ensures !Truthy(Field(d.data, "note")) ==> Record(d).note == Null
    ensures Truthy(Record(d).currency)
    ensures Truthy(Record(d).isDisabled) <==> Truthy(Field(d.data, "isDisabled"))
  {
  }

  /** The table key a document belongs to: its `organisationId` when that
      is a non-empty string. */
  function Owner(d: PaymentDoc): (k: Option<string>)
    ensures k.Some? <==> IsNonEmptyString(Field(d.data, "organisationId"))
    ensures k.Some? ==> Field(d.data, "organisationId") == Str(k.value)
  {
    var v := Field(d.data, "organisationId");
    if v.Str? && v.s != "" then Some(v.s) else None
  }

  /** The table before any document is read: an empty list per id. */
  function Initial<R>(ids: seq<string>): (t: map<string, seq<R>>)
    ensures t.Keys == set id | id in ids
    ensures forall id :: id in t ==> t[id] == []
  {
    map id | id in ids :: []
  }

  /** Appending each document, in order, to its owner's list when the
      owner is a key of the table. */
  function Collect<D, R>(table: map<string, seq<R>>, docs: seq<D>, owner: D -> Option<string>, build: D -> R): map<string, seq<R>>
  {
    if docs == [] then table
    else
      var t := Collect(table, docs[..|docs| - 1], owner, build);
      var d := docs[|docs| - 1];
      if owner(d).Some? && owner(d).value in t then t[owner(d).value := t[owner(d).value] + [build(d)]] else t
  }

  /** The records of the documents owned by `k`, in order. */
  function OwnedBy<D, R>(docs: seq<D>, k: string, owner: D -> Option<string>, build: D -> R): seq<R>
  {
    if docs == [] then []
    else
      var d := docs[|docs| - 1];
      OwnedBy(docs[..|docs| - 1], k, owner, build) + (if owner(d) == Some(k) then [build(d)] else [])
  }

  /** Grouping adds no key and removes none, and each list grows by exactly
      the records of the documents that belong to it, in document order. */
  lemma {:induction false} CollectGroups<D, R>(table: map<string, seq<R>>, docs: seq<D>, owner: D -> Option<string>, build: D -> R)
    ensures Collect(table, docs, owner, build).Keys == table.Keys
    ensures forall k :: k in table ==> Collect(table, docs, owner, build)[k] == table[k] + OwnedBy(docs, k, owner, build)
  {
    if docs != [] {
      CollectGroups(table, docs[..|docs| - 1], owner, build);
    }
  }

  lemma {:induction false} CollectAppend<D, R>(table: map<string, seq<R>>, a: seq<D>, b: seq<D>, owner: D -> Option<string>, build: D -> R)
    ensures Collect(Collect(table, a, owner, build), b, owner, build) == Collect(table, a + b, owner, build)
  {
    if b == [] {
      assert a + b == a;
    } else {
      CollectAppend(table, a, b[..|b| - 1], owner, build);
      assert (a + b)[..|a + b| - 1] == a + b[..|b| - 1];
    }
  }

  // ---------------------------------------------------------------------
  // The lookup, specified

  /** The documents the queries return, batch after batch. */
  function Fetched(batches: seq<seq<string>>, query: seq<string> -> seq<PaymentDoc>): seq<PaymentDoc>
  {
    if batches == [] then [] else query(batches[0]) + Fetched(batches[1..], query)
  }

  /** The `payments` table for the permitted ids. `query` is the store's
      answer to one batch's `in` query. */
  function Table(ids: seq<string>, query: seq<string> -> seq<PaymentDoc>): map<string, seq<PaymentRecord>>
  {
    Collect(Initial(ids), Fetched(Batches(ids), query), Owner, Record)
  }

  /** `getOrganisationPayments` */
  function Lookup(uid: Option<string>, requested: Option<seq<string>>, user: Doc, query: seq<string> -> seq<PaymentDoc>): Result<map<string, seq<PaymentRecord>>>
  {
    match PermittedIds(uid, requested, ProfileOf(user))
    case Err(c) => Err(c)
    case Ok(ids) => Ok(Table(ids, query))
  }

  /** Every permitted id has a list, even with no payments, and no other
      key exists; each list holds exactly the fetched payments of that
      organisation, in the order the queries return them. */
  lemma TableGroups(ids: seq<string>, query: seq<string> -> seq<PaymentDoc>)
    ensures Table(ids, query).Keys == set id | id in ids
    ensures forall id :: id in ids ==> Table(ids, query)[id] == OwnedBy(Fetched(Batches(ids), query), id, Owner, Record)
  {
    CollectGroups(Initial(ids), Fetched(Batches(ids), query), Owner, Record);
  }

  // ---------------------------------------------------------------------
  // The lookup, step by step

  /** The ids from position `i` on (none once `i` is past the end). */
  function From(ids: seq<string>, i: nat): seq<string>
  {
    if i < |ids| then ids[i..] else []
  }

  /** The table with an empty list for each id. */
  method EmptyLists(ids: seq<string>) returns (payments: map<string, seq<PaymentRecord>>)
    ensures payments == Initial(ids)
  {
    payments := map[];
    for k := 0 to |ids|
      invariant payments == Initial(ids[..k])
    {
      assert forall id :: id in ids[..k + 1] <==> id in ids[..k] || id == ids[k] by {
        assert ids[..k + 1] == ids[..k] + [ids[k]];
      }
      payments := payments[ids[k] := []];
    }
    assert ids[..|ids|] == ids;
  }

  /** One query's documents, each appended to its organisation's list
      when that organisation is a key. */
  method AddBatch(payments: map<string, seq<PaymentRecord>>, docs: seq<PaymentDoc>) returns (next: map<string, seq<PaymentRecord>>)
    ensures next == Collect(payments, docs, Owner, Record)
  {
    next := payments;
    for j := 0 to |docs|
      invariant next == Collect(payments, docs[..j], Owner, Record)
    {
      assert docs[..j + 1][..j] == docs[..j];
      var d := docs[j];
      var orgId := Owner(d);
      if orgId.Some? && orgId.value in next {
        next := next[orgId.value := next[orgId.value] + [Record(d)]];
      }
    }
    assert docs[..|docs|] == docs;
  }

  /** The table for the permitted ids, one batch of 30 at a time. */
  method FillTable(ids: seq<string>, query: seq<string> -> seq<PaymentDoc>) returns (payments: map<string, seq<PaymentRecord>>)
    ensures payments == Table(ids, query)
  {
    payments := EmptyLists(ids);
    var i := 0;
    while i < |ids|
      invariant Collect(payments, Fetched(Batches(From(ids, i)), query), Owner, Record) == Table(ids, query)
      decreases |ids| - i
    {
      var end := if i + BatchSize < |ids| then i + BatchSize else |ids|;
      var batch := ids[i..end];
      BatchStep(ids, i);
      var docs := query(batch);
      ghost var before := payments;
      payments := AddBatch(payments, docs);
      CollectAppend(before, docs, Fetched(Batches(From(ids, i + BatchSize)), query), Owner, Record);
      i := i + BatchSize;
    }
  }

  /** `getOrganisationPayments`: the guards, the narrowing of the id list
      for ordinary callers, then the table. */
  method GetOrganisationPayments(uid: Option<string>, requested: Option<seq<string>>, user: Doc, query: seq<string> -> seq<PaymentDoc>)
    returns (r: Result<map<string, seq<PaymentRecord>>>)
    ensures r == Lookup(uid, requested, user, query)
  {
    if uid.None? || uid.value == "" {
      return Err(Unauthenticated);
    }
    if requested.None? || requested.value == [] {
      return Err(InvalidArgument);
    }
    var profile := ProfileOf(user);
    var ids := requested.value;
    if !Privileged(profile) {
      var own := profile.organisationId;
      if own == "" || own !in ids {
        return Err(PermissionDenied);
      }
      ids := [own];
    }
    var payments := FillTable(ids, query);
    return Ok(payments);
  }

  /** The batch at position `i` is the next one, and the rest follow it. */
  lemma BatchStep(ids: seq<string>, i: nat)
    requires i < |ids|
    ensures var end := if i + BatchSize < |ids| then i + BatchSize else |ids|;
      Batches(From(ids, i)) == [ids[i..end]] + Batches(From(ids, i + BatchSize))
  {
    var rest := ids[i..];
    assert From(ids, i) == rest;
    if |rest| > BatchSize {
      assert rest[..BatchSize] == ids[i..i + BatchSize];
      assert From(ids, i + BatchSize) == rest[BatchSize..];
    } else {
      assert From(ids, i + BatchSize) == [];
      assert ids[i..|ids|] == rest;
      assert Batches(rest) == [rest];
      assert Batches([]) == [];
    }
  }
}
