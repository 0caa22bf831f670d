/** Recording a guest's menu selection: the store transaction that checks the
    token, the person and the demographics step, short-circuits when the
    selection was already recorded, normalises the selected ids and writes
    one response document under a key derived from the invitation and the
    person. One call is one atomic step over the store. */
module MenuSubmission {
  import opened Js
  import opened Text
  import opened Guest

  /** Whose selection is recorded: the invitee, or the companion at an index. */
  datatype Person = MainGuest | CompanionAt(index: nat)

  /** The `companionIndex` argument: null/undefined, or the result of
      `parseInt(companionIndex, 10)` (None standing for NaN). */
  datatype CompanionArg = NoIndex | IndexArg(parsed: Option<int>)

  /** The call's payload. "" stands for a missing or empty id or token;
      `selectedMenuItemIds` is None when it is not an array, and otherwise
      holds each entry's text `(x || "").toString()`. */
  datatype Request = Request(
    invitationId: string,
    token: string,
    selectedMenuItemIds: Option<seq<string>>,
    companionIndex: CompanionArg)

  /** A document of the `menuSelectedItemsResponses` collection. */
  datatype MenuResponse = MenuResponse(
    eventId: string,
    organisationId: string,
    invitationId: string,
    guestId: Option<string>,
    guestEmail: string,
    guestName: string,
    isCompanion: bool,
    companionIndex: Option<nat>,
    selectedMenuItemIds: seq<string>,
    createdAt: int)

  /** The two collections the transaction touches. */
  datatype Db = Db(invitations: map<string, Invitation>, responses: map<string, MenuResponse>)

  datatype Reply = Reply(alreadySubmitted: bool, companionIndex: Option<nat>)

  /** What one call returns, and the store after it. */
  datatype Step = Step(reply: Result<Reply>, db: Db)

  function PersonIndex(p: Person): (r: Option<nat>)
    ensures r.None? <==> p.MainGuest?
  {
    match p
    case MainGuest => None
    case CompanionAt(i) => Some(i)
  }

  // ---------------------------------------------------------------------
  // Response key

  /** The response document id: the invitation id for the invitee,
      `<invitationId>_companion_<i>` for companion i. */
  function ResponseKey(invitationId: string, p: Person): string
  {
    match p
    case MainGuest => invitationId
    case CompanionAt(i) => invitationId + "_companion_" + NatToString(i)
  }

  /** The shape of a key: the invitee's key is the invitation id itself; a
      companion's key starts with the invitation id followed by '_'. */
  lemma ResponseKeyShape(id: string, p: Person)
    ensures |ResponseKey(id, p)| >= |id| && ResponseKey(id, p)[..|id|] == id
    ensures p.MainGuest? ==> ResponseKey(id, p) == id
    ensures p.CompanionAt? ==> |ResponseKey(id, p)| > |id| + 11 && ResponseKey(id, p)[|id|] == '_'
  {
  }

  /** Within one invitation, distinct persons get distinct response keys. */
  lemma ResponseKeyDistinct(id: string, p: Person, q: Person)
    requires ResponseKey(id, p) == ResponseKey(id, q)
    ensures p == q
  {
    ResponseKeyShape(id, p);
    ResponseKeyShape(id, q);
    if p.CompanionAt? && q.CompanionAt? {
      var pre := id + "_companion_";
      assert ResponseKey(id, p) == pre + NatToString(p.index);
      assert ResponseKey(id, q) == pre + NatToString(q.index);
      assert NatToString(p.index) == ResponseKey(id, p)[|pre|..];
      assert NatToString(q.index) == ResponseKey(id, q)[|pre|..];
      NatToStringInjective(p.index, q.index);
    }
  }

  /** When invitation ids contain no '_' (store-generated ids are
      alphanumeric), a response key determines both the invitation and the
      person. */
  lemma ResponseKeyInjective(id1: string, p: Person, id2: string, q: Person)
    requires '_' !in id1 && '_' !in id2
    requires ResponseKey(id1, p) == ResponseKey(id2, q)
    ensures id1 == id2 && p == q
  {
    var k := ResponseKey(id1, p);
    ResponseKeyShape(id1, p);
    ResponseKeyShape(id2, q);
    assert forall j :: 0 <= j < |id1| ==> k[j] == id1[j] && k[j] != '_';
    assert forall j :: 0 <= j < |id2| ==> k[j] == id2[j] && k[j] != '_';
    assert p.CompanionAt? ==> '_' in k;
    assert q.CompanionAt? ==> '_' in k;
    assert |id1| == |id2|;
    assert id1 == k[..|id1|] == id2;
    ResponseKeyDistinct(id1, p, q);
  }

  /** Without that proviso, keys of different invitations can collide: the
      invitee of invitation "x_companion_0" and companion 0 of invitation
      "x" share one response key. */
  lemma ResponseKeyCollision()
    ensures ResponseKey("x_companion_0", MainGuest) == ResponseKey("x", CompanionAt(0))
  {
    assert NatToString(0) == "0";
  }

  // ---------------------------------------------------------------------
  // Normalising the selection

  /** Each entry trimmed, in order. */
  function TrimAll(ids: seq<string>): (t: seq<string>)
    ensures |t| == |ids|
    ensures forall j :: 0 <= j < |ids| ==> t[j] == Trim(ids[j])
  {
    if ids == [] then [] else TrimAll(ids[..|ids| - 1]) + [Trim(ids[|ids| - 1])]
  }

  /** The stored selection: entries trimmed, empty ones dropped, later
      duplicates dropped. */
  function Normalized(ids: seq<string>): seq<string>
  {
    if ids == [] then []
    else
      var prev := Normalized(ids[..|ids| - 1]);
      var id := Trim(ids[|ids| - 1]);
      if id == "" || id in prev then prev else prev + [id]
  }

  /** Index of the first occurrence of `x` in `s`; `|s|` when there is none. */
  function FirstIndex(s: seq<string>, x: string): (k: nat)
    ensures k <= |s|
    ensures k < |s| <==> x in s
    ensures k < |s| ==> s[k] == x
    ensures forall j :: 0 <= j < k ==> s[j] != x
  {
    if s == [] then 0 else if s[0] == x then 0 else 1 + FirstIndex(s[1..], x)
  }

  predicate NoDuplicates(s: seq<string>)
  {
    forall i, j :: 0 <= i < j < |s| ==> s[i] != s[j]
  }

  lemma TrimAllSnoc(ids: seq<string>)
    requires ids != []
    ensures TrimAll(ids) == TrimAll(ids[..|ids| - 1]) + [Trim(ids[|ids| - 1])]
  {
  }

  /** The normalised list holds exactly the non-empty trimmed entries. */
  lemma {:induction false} NormalizedMembers(ids: seq<string>)
    ensures forall x :: x in Normalized(ids) <==> x in TrimAll(ids) && x != ""
  {
    if ids != [] {
      NormalizedMembers(ids[..|ids| - 1]);
      TrimAllSnoc(ids);
    }
  }

  /** The normalised list holds each entry once. */
  lemma {:induction false} NormalizedNoDuplicates(ids: seq<string>)
    ensures NoDuplicates(Normalized(ids))
  {
    if ids != [] {
      NormalizedNoDuplicates(ids[..|ids| - 1]);
    }
  }

  /** First occurrences in a list are kept when the list is extended. */
  lemma FirstIndexSnoc(s: seq<string>, y: string, x: string)
    requires x in s
    ensures FirstIndex(s + [y], x) == FirstIndex(s, x)
  {
    var k, k' := FirstIndex(s, x), FirstIndex(s + [y], x);
    assert (s + [y])[k] == x;
    assert k' <= k;
    assert s[k'] == x;
  }

  /** Extending a list with an entry it lacks puts that entry's first
      occurrence after every earlier entry's. */
  lemma FirstIndexFresh(s: seq<string>, y: string)
    requires y !in s
    ensures FirstIndex(s + [y], y) == |s|
  {
    assert forall j :: 0 <= j < |s| ==> (s + [y])[j] == s[j];
    assert (s + [y])[|s|] == y;
  }

  /** The normalised list is ordered by where each entry first occurs in
      the (trimmed) input. */
  lemma {:induction false} NormalizedFirstSeenOrder(ids: seq<string>)
    ensures forall i, j :: 0 <= i < j < |Normalized(ids)| ==>
      FirstIndex(TrimAll(ids), Normalized(ids)[i]) < FirstIndex(TrimAll(ids), Normalized(ids)[j])
  {
    if ids != [] {
      var pre := ids[..|ids| - 1];
      NormalizedFirstSeenOrder(pre);
      NormalizedMembers(pre);
      TrimAllSnoc(ids);
      var prev, id := Normalized(pre), Trim(ids[|ids| - 1]);
      assert Normalized(ids) == if id == "" || id in prev then prev else prev + [id];
      NormalizedStep(prev, TrimAll(pre), id);
    }
  }

  /** The inductive step of `NormalizedFirstSeenOrder`, on the previous
      normalised list `prev` of the trimmed entries `t` and the next entry. */
  lemma NormalizedStep(prev: seq<string>, t: seq<string>, id: string)
    requires forall x :: x in prev ==> x in t
    requires forall i, j :: 0 <= i < j < |prev| ==> FirstIndex(t, prev[i]) < FirstIndex(t, prev[j])
    requires id in prev <==> id in t && id != ""
    ensures var r := if id == "" || id in prev then prev else prev + [id];
      forall i, j :: 0 <= i < j < |r| ==> FirstIndex(t + [id], r[i]) < FirstIndex(t + [id], r[j])
  {
    forall x | x in prev
      ensures FirstIndex(t + [id], x) == FirstIndex(t, x) < |t|
    {
      FirstIndexSnoc(t, id, x);
    }
    if id != "" && id !in prev {
      FirstIndexFresh(t, id);
      var r := prev + [id];
      forall i, j | 0 <= i < j < |r|
        ensures FirstIndex(t + [id], r[i]) < FirstIndex(t + [id], r[j])
      {
        assert r[i] == prev[i] && r[i] in prev;
        if j < |prev| {
          assert r[j] == prev[j] && r[j] in prev;
        }
      }
    } else {
      forall i, j | 0 <= i < j < |prev|
        ensures FirstIndex(t + [id], prev[i]) < FirstIndex(t + [id], prev[j])
      {
        assert prev[i] in prev && prev[j] in prev;
      }
    }
  }

  /** One more entry: it is kept, trimmed, unless it is blank or already kept. */
  lemma NormalizedSnoc(ids: seq<string>, x: string)
    ensures Normalized(ids + [x]) ==
      if Trim(x) == "" || Trim(x) in Normalized(ids) then Normalized(ids) else Normalized(ids) + [Trim(x)]
  {
    assert (ids + [x])[..|ids|] == ids;
  }

  /** The normalisation loop of the transaction: it keeps a `seen` set and
      appends each trimmed, non-empty, unseen entry. */
  method NormalizeSelection(ids: seq<string>) returns (cleaned: seq<string>)
    ensures cleaned == Normalized(ids)
  {
    cleaned := [];
    var seen: set<string> := {};
    var i := 0;
    while i < |ids|
      invariant 0 <= i <= |ids|
      invariant cleaned == Normalized(ids[..i])
      invariant forall x :: x in seen <==> x in cleaned
    {
      var id := Trim(ids[i]);
      assert ids[..i + 1][..i] == ids[..i];
      if id != "" && id !in seen {
        seen := seen + {id};
        cleaned := cleaned + [id];
      }
      i := i + 1;
    }
    assert ids[..|ids|] == ids;
  }

  // ---------------------------------------------------------------------
  // The guard chain

  /** Argument checks made before anything is read. */
  function CheckArguments(req: Request): (r: Result<Person>)
    ensures r.Err? ==> r.code == InvalidArgument
    ensures r.Ok? <==>
      req.invitationId != "" && req.token != "" && req.selectedMenuItemIds.Some? &&
      (req.companionIndex.IndexArg? ==> req.companionIndex.parsed.Some? && req.companionIndex.parsed.value >= 0)
    ensures r.Ok? ==> (r.value == MainGuest <==> req.companionIndex == NoIndex)
    ensures r.Ok? && r.value.CompanionAt? ==> req.companionIndex == IndexArg(Some(r.value.index))
  {
    if req.invitationId == "" || req.token == "" then Err(InvalidArgument)
    else if req.selectedMenuItemIds.None? then Err(InvalidArgument)
    else
      match req.companionIndex
      case NoIndex => Ok(MainGuest)
      case IndexArg(parsed) =>
        if parsed.None? || parsed.value < 0 then Err(InvalidArgument)
        else Ok(CompanionAt(parsed.value))
  }

  /** The person exists on the invitation. */
  predicate HasPerson(inv: Invitation, p: Person)
  {
    p.CompanionAt? ==> p.index < |inv.companions|
  }

  /** The demographics step for that person is done. */
  predicate DemographicsDone(inv: Invitation, p: Person)
    requires HasPerson(inv, p)
  {
    match p
    case MainGuest => inv.used
    case CompanionAt(i) => inv.companions[i].demographicSubmitted
  }

  /** The person's menu-submitted flag. */
  predicate MenuSubmitted(inv: Invitation, p: Person)
    requires HasPerson(inv, p)
  {
    match p
    case MainGuest => inv.menuSelectionSubmitted
    case CompanionAt(i) => inv.companions[i].menuSubmitted
  }

  /** Outcome of the checks inside the transaction: either the selection was
      already recorded, or it is to be recorded for `person`. */
  datatype Admission = AlreadyDone(reply: Reply) | Fresh(person: Person, inv: Invitation)

  function Admit(db: Db, req: Request, now: int): (r: Result<Admission>)
    ensures r.Ok? ==> CheckArguments(req).Ok? && req.invitationId in db.invitations
    ensures r.Ok? ==> CheckAccess(db.invitations, req.invitationId, req.token, now).Ok?
    ensures r.Ok? ==>
      HasPerson(db.invitations[req.invitationId], CheckArguments(req).value) &&
      DemographicsDone(db.invitations[req.invitationId], CheckArguments(req).value)
    ensures r.Ok? && r.value.AlreadyDone? ==>
      r.value.reply == Reply(true, PersonIndex(CheckArguments(req).value)) &&
      HasPerson(db.invitations[req.invitationId], CheckArguments(req).value) &&
      (MenuSubmitted(db.invitations[req.invitationId], CheckArguments(req).value) ||
       ResponseKey(req.invitationId, CheckArguments(req).value) in db.responses)
    ensures r.Ok? && r.value.Fresh? ==>
      HasPerson(r.value.inv, r.value.person) &&
      DemographicsDone(r.value.inv, r.value.person) && !MenuSubmitted(r.value.inv, r.value.person)
    ensures r.Ok? && r.value.Fresh? ==>
      r.value.person == CheckArguments(req).value &&
      r.value.inv == db.invitations[req.invitationId] &&
      HasPerson(r.value.inv, r.value.person) &&
      ResponseKey(req.invitationId, r.value.person) !in db.responses
  {
    match CheckArguments(req)
    case Err(c) => Err(c)
    case Ok(p) =>
      match CheckAccess(db.invitations, req.invitationId, req.token, now)
      case Err(c) => Err(c)
      case Ok(inv) =>
        if !HasPerson(inv, p) then Err(InvalidArgument)
        else if !DemographicsDone(inv, p) then Err(FailedPrecondition)
        else if MenuSubmitted(inv, p) then Ok(AlreadyDone(Reply(true, PersonIndex(p))))
        else if ResponseKey(req.invitationId, p) in db.responses then Ok(AlreadyDone(Reply(true, PersonIndex(p))))
        else Ok(Fresh(p, inv))
  }

  // ---------------------------------------------------------------------
  // The writes

  /** The response document written for a fresh submission. */
  function NewResponse(req: Request, inv: Invitation, p: Person, cleaned: seq<string>, now: int): MenuResponse
    requires HasPerson(inv, p)
  {
    var (guestId, email, name) := match p
      case MainGuest => (inv.guestId, inv.guestEmail, inv.guestName)
      case CompanionAt(i) => (inv.companions[i].guestId, inv.companions[i].email, inv.companions[i].name);
    MenuResponse(inv.eventId, inv.organisationId, req.invitationId,
                 if guestId == "" then None else Some(guestId), email, name,
                 p.CompanionAt?, PersonIndex(p), cleaned, now)
  }

  /** The invitation after the person's flag is set. */
  function MarkSubmitted(inv: Invitation, p: Person, key: string, now: int): Invitation
    requires HasPerson(inv, p)
  {
    match p
    case MainGuest => inv.(menuSelectionSubmitted := true, menuSelectionSubmittedAt := Some(now))
    case CompanionAt(i) =>
      inv.(companions := inv.companions[i := inv.companions[i].(
        menuSubmitted := true, menuResponseId := key, menuSubmittedAt := Some(now))])
  }

  /** One run of the transaction, as an atomic step. */
  function Transition(db: Db, req: Request, now: int): Step
  {
    match Admit(db, req, now)
    case Err(c) => Step(Err(c), db)
    case Ok(AlreadyDone(reply)) => Step(Ok(reply), db)
    case Ok(Fresh(p, inv)) =>
      var key := ResponseKey(req.invitationId, p);
      var cleaned := Normalized(req.selectedMenuItemIds.value);
      Step(Ok(Reply(false, PersonIndex(p))),
           Db(db.invitations[req.invitationId := MarkSubmitted(inv, p, key, now)],
              db.responses[key := NewResponse(req, inv, p, cleaned, now)]))
  }

  // ---------------------------------------------------------------------
  // Properties of one step

  /** Malformed arguments fail with invalid-argument whatever the store
      holds, and nothing is written. */
  lemma ArgumentErrorsComeFirst(db: Db, req: Request, now: int)
    requires CheckArguments(req).Err?
    ensures Transition(db, req, now) == Step(Err(InvalidArgument), db)
  {
  }

  /** With well-formed arguments, the token-and-expiry guard decides next:
      unknown invitation, then wrong token, then expiry. */
  lemma AccessErrorsComeNext(db: Db, req: Request, now: int)
    requires CheckArguments(req).Ok?
    requires CheckAccess(db.invitations, req.invitationId, req.token, now).Err?
    ensures Transition(db, req, now) == Step(Err(CheckAccess(db.invitations, req.invitationId, req.token, now).code), db)
  {
  }

  /** A companion index at or past the end of the companion list is an
      invalid argument. */
  lemma CompanionOutOfRange(db: Db, req: Request, now: int)
    requires CheckArguments(req).Ok? && CheckArguments(req).value.CompanionAt?
    requires CheckAccess(db.invitations, req.invitationId, req.token, now).Ok?
    requires CheckArguments(req).value.index >= |db.invitations[req.invitationId].companions|
    ensures Transition(db, req, now) == Step(Err(InvalidArgument), db)
  {
  }

  /** The demographics step is checked before the already-submitted
      short-circuit: without it the call fails even if a selection exists. */
  lemma DemographicsBeforeMenu(db: Db, req: Request, now: int)
    requires CheckArguments(req).Ok?
    requires CheckAccess(db.invitations, req.invitationId, req.token, now).Ok?
    requires HasPerson(db.invitations[req.invitationId], CheckArguments(req).value)
    requires !DemographicsDone(db.invitations[req.invitationId], CheckArguments(req).value)
    ensures Transition(db, req, now) == Step(Err(FailedPrecondition), db)
  {
  }

  /** Idempotency: once the flag is set or the response document exists,
      the call reports `alreadySubmitted` and writes nothing. */
  lemma AlreadySubmittedIsNoop(db: Db, req: Request, now: int)
    requires CheckArguments(req).Ok?
    requires CheckAccess(db.invitations, req.invitationId, req.token, now).Ok?
    requires HasPerson(db.invitations[req.invitationId], CheckArguments(req).value)
    requires DemographicsDone(db.invitations[req.invitationId], CheckArguments(req).value)
    requires MenuSubmitted(db.invitations[req.invitationId], CheckArguments(req).value) ||
             ResponseKey(req.invitationId, CheckArguments(req).value) in db.responses
    ensures Transition(db, req, now) ==
      Step(Ok(Reply(true, PersonIndex(CheckArguments(req).value))), db)
  {
  }

  /** A fresh submission writes the response under the person's key, with
      the normalised selection, and sets exactly that person's flag: for a
      companion only `companions[i]` changes (flag and response id), for the
      invitee only the invitation's flag, and the companion list is kept. */
  lemma FreshSubmissionEffects(db: Db, req: Request, now: int)
    requires Transition(db, req, now).reply.Ok?
    requires !Transition(db, req, now).reply.value.alreadySubmitted
    ensures var p := CheckArguments(req).value;
      var id := req.invitationId;
      var key := ResponseKey(id, p);
      var db' := Transition(db, req, now).db;
      var inv1 := db.invitations[id];
      var inv2 := db'.invitations[id];
      && key !in db.responses && key in db'.responses
      && db'.responses[key].selectedMenuItemIds == Normalized(req.selectedMenuItemIds.value)
      && db'.responses[key].invitationId == id
      && db'.responses[key].isCompanion == p.CompanionAt?
      && db'.responses[key].companionIndex == PersonIndex(p)
      && Transition(db, req, now).reply.value.companionIndex == PersonIndex(p)
      && |inv2.companions| == |inv1.companions|
      && HasPerson(inv1, p) && DemographicsDone(inv1, p) && !MenuSubmitted(inv1, p)
      && (p.MainGuest? ==>
            inv2 == inv1.(menuSelectionSubmitted := true, menuSelectionSubmittedAt := Some(now)))
      && (p.CompanionAt? ==>
            && inv2.(companions := inv1.companions) == inv1
            && inv2.companions[p.index] == inv1.companions[p.index].(
                 menuSubmitted := true, menuResponseId := key, menuSubmittedAt := Some(now))
            && forall j :: 0 <= j < |inv1.companions| && j != p.index ==>
                 inv2.companions[j] == inv1.companions[j])
  {
  }

  /** Nothing else changes: the set of invitations is the same, other
      invitations are untouched, no response is overwritten, at most one
      response is added (under the caller's key), no companion list changes
      length and no flag is ever cleared. */
  lemma TransitionFrame(db: Db, req: Request, now: int)
    ensures var db' := Transition(db, req, now).db;
      && db'.invitations.Keys == db.invitations.Keys
      && (forall id :: id in db.invitations && id != req.invitationId ==> db'.invitations[id] == db.invitations[id])
      && (forall k :: k in db.responses ==> k in db'.responses && db'.responses[k] == db.responses[k])
      && (forall k :: k in db'.responses && k !in db.responses ==>
            CheckArguments(req).Ok? && k == ResponseKey(req.invitationId, CheckArguments(req).value))
      && (forall id :: id in db.invitations ==> |db'.invitations[id].companions| == |db.invitations[id].companions|)
      && (forall id, p :: id in db.invitations && HasPerson(db.invitations[id], p) && MenuSubmitted(db.invitations[id], p) ==>
            HasPerson(db'.invitations[id], p) && MenuSubmitted(db'.invitations[id], p))
  {
    var db' := Transition(db, req, now).db;
    var a := Admit(db, req, now);
    if a.Ok? && a.value.Fresh? {
      var p0 := a.value.person;
      var id0 := req.invitationId;
      forall id, p | id in db.invitations && HasPerson(db.invitations[id], p) && MenuSubmitted(db.invitations[id], p)
        ensures HasPerson(db'.invitations[id], p) && MenuSubmitted(db'.invitations[id], p)
      {
        if id == id0 && p != p0 && p.CompanionAt? && p0.CompanionAt? {
          assert db'.invitations[id].companions[p.index] == db.invitations[id].companions[p.index];
        }
      }
    }
  }

  // ---------------------------------------------------------------------
  // The store invariant

  /** Invitation ids carry no '_', and for every person of every invitation
      the menu flag is set exactly when the response document exists. */
  ghost predicate Consistent(db: Db)
  {
    && (forall id :: id in db.invitations ==> '_' !in id)
    && (forall id, p :: id in db.invitations && HasPerson(db.invitations[id], p) ==>
          (MenuSubmitted(db.invitations[id], p) <==> ResponseKey(id, p) in db.responses))
  }

  /** Every step keeps the store consistent. */
  lemma TransitionPreservesConsistency(db: Db, req: Request, now: int)
    requires Consistent(db)
    ensures Consistent(Transition(db, req, now).db)
  {
    var db' := Transition(db, req, now).db;
    var a := Admit(db, req, now);
    if a.Ok? && a.value.Fresh? {
      var p0, id0 := a.value.person, req.invitationId;
      var key0 := ResponseKey(id0, p0);
      TransitionFrame(db, req, now);
      forall id, p | id in db'.invitations && HasPerson(db'.invitations[id], p)
        ensures MenuSubmitted(db'.invitations[id], p) <==> ResponseKey(id, p) in db'.responses
      {
        if id == id0 && p == p0 {
        } else {
          if ResponseKey(id, p) == key0 {
            ResponseKeyInjective(id, p, id0, p0);
          }
          assert HasPerson(db.invitations[id], p);
          if id == id0 && p.CompanionAt? && p0.CompanionAt? {
            assert db'.invitations[id].companions[p.index] == db.invitations[id].companions[p.index];
          }
          assert MenuSubmitted(db'.invitations[id], p) == MenuSubmitted(db.invitations[id], p);
        }
      }
    }
  }

  /** In a consistent store a successful call always leaves the person's
      flag set and their response stored. */
  lemma SuccessLeavesSubmitted(db: Db, req: Request, now: int)
    requires Consistent(db)
    requires Transition(db, req, now).reply.Ok?
    ensures var db' := Transition(db, req, now).db;
      var p := CheckArguments(req).value;
      && req.invitationId in db'.invitations
      && HasPerson(db'.invitations[req.invitationId], p)
      && MenuSubmitted(db'.invitations[req.invitationId], p)
      && ResponseKey(req.invitationId, p) in db'.responses
  {
    TransitionPreservesConsistency(db, req, now);
  }

  /** A repeated call for the same person, with any selection, after a
      successful one reports `alreadySubmitted` and writes nothing, as long
      as the invitation has not expired in between. */
  lemma RepeatIsAlreadySubmitted(db: Db, req: Request, now: int, req2: Request, now2: int)
    requires Transition(db, req, now).reply.Ok?
    requires req2.invitationId == req.invitationId && req2.token == req.token
    requires req2.companionIndex == req.companionIndex && req2.selectedMenuItemIds.Some?
    requires !Expired(Transition(db, req, now).db.invitations[req.invitationId], now2)
    ensures var db1 := Transition(db, req, now).db;
      Transition(db1, req2, now2) == Step(Ok(Reply(true, PersonIndex(CheckArguments(req).value))), db1)
  {
    var db1 := Transition(db, req, now).db;
    var p := CheckArguments(req).value;
    assert CheckArguments(req2) == Ok(p);
    var a := Admit(db, req, now);
    if a.value.Fresh? {
      FreshSubmissionEffects(db, req, now);
      assert MenuSubmitted(db1.invitations[req.invitationId], p);
    } else {
      assert db1 == db;
    }
    AlreadySubmittedIsNoop(db1, req2, now2);
  }

  /** Two submissions for different companions of one invitation, run one
      after the other (as the store's conflict retry serialises them), both
      end recorded: neither companion's update is lost. */
  lemma SerialCompanionSubmissions(db: Db, r1: Request, r2: Request, now1: int, now2: int)
    requires Consistent(db)
    requires r1.invitationId == r2.invitationId
    requires Transition(db, r1, now1).reply.Ok?
    requires Transition(Transition(db, r1, now1).db, r2, now2).reply.Ok?
    requires CheckArguments(r1).value != CheckArguments(r2).value
    ensures var db2 := Transition(Transition(db, r1, now1).db, r2, now2).db;
      var inv := db2.invitations[r1.invitationId];
      && HasPerson(inv, CheckArguments(r1).value) && MenuSubmitted(inv, CheckArguments(r1).value)
      && HasPerson(inv, CheckArguments(r2).value) && MenuSubmitted(inv, CheckArguments(r2).value)
      && ResponseKey(r1.invitationId, CheckArguments(r1).value) in db2.responses
      && ResponseKey(r2.invitationId, CheckArguments(r2).value) in db2.responses
  {
    var db1 := Transition(db, r1, now1).db;
    SuccessLeavesSubmitted(db, r1, now1);
    TransitionPreservesConsistency(db, r1, now1);
    SuccessLeavesSubmitted(db1, r2, now2);
    TransitionFrame(db1, r2, now2);
  }

  // ---------------------------------------------------------------------
  // The store and the transaction as a method

  /** The two collections, updated in place by the transaction. */
  class Store {
    var invitations: map<string, Invitation>
    var responses: map<string, MenuResponse>

    function State(): Db
      reads this
    {
      Db(invitations, responses)
    }

    constructor (db: Db)
      ensures State() == db
    {
      invitations := db.invitations;
      responses := db.responses;
    }

    /** Copy of the companion list (`[...inv.companions]`). */
    static method CopyCompanions(cs: seq<Companion>) returns (a: array<Companion>)
      ensures fresh(a) && a[..] == cs
    {
      a := new Companion[|cs|](k requires 0 <= k < |cs| => cs[k]);
    }

    /** The `submitMenuSelection` transaction. */
    method SubmitMenuSelection(req: Request, now: int) returns (reply: Result<Reply>)
      modifies this
      ensures Step(reply, State()) == Transition(old(State()), req, now)
    {
      var admission := Admit(State(), req, now);
      if admission.Err? {
        return Err(admission.code);
      }
      if admission.value.AlreadyDone? {
        return Ok(admission.value.reply);
      }
      var p, inv := admission.value.person, admission.value.inv;
      var cleaned := NormalizeSelection(req.selectedMenuItemIds.value);
      var key := ResponseKey(req.invitationId, p);
      responses := responses[key := NewResponse(req, inv, p, cleaned, now)];
      match p {
        case MainGuest =>
          invitations := invitations[req.invitationId :=
            inv.(menuSelectionSubmitted := true, menuSelectionSubmittedAt := Some(now))];
        case CompanionAt(i) =>
          var companions := CopyCompanions(inv.companions);
          companions[i] := companions[i].(menuSubmitted := true, menuResponseId := key, menuSubmittedAt := Some(now));
          invitations := invitations[req.invitationId := inv.(companions := companions[..])];
      }
      reply := Ok(Reply(false, PersonIndex(p)));
    }
  }
}
