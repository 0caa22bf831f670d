/** Creating the invitations of an event and mailing each guest a link:
    the expiry setting, HTML escaping, the link, the invitation document
    and the per-guest loop, with the mail service as an oracle. */
module Invitations {
  import opened Js
  import opened Text

  // ---------------------------------------------------------------------
  // Expiry setting

  /** The longest prefix of decimal digits. */
  function DigitPrefix(s: string): (r: string)
    ensures |r| <= |s| && r == s[..|r|]
    ensures forall i :: 0 <= i < |r| ==> '0' <= r[i] <= '9'
    ensures |r| < |s| ==> !('0' <= s[|r|] <= '9')
  {
    if s != [] && '0' <= s[0] <= '9' then [s[0]] + DigitPrefix(s[1..]) else []
  }

  /** The value of a string of decimal digits. */
  function DigitsValue(ds: string): nat
    requires forall i :: 0 <= i < |ds| ==> '0' <= ds[i] <= '9'
  {
    if ds == [] then 0 else DigitsValue(ds[..|ds| - 1]) * 10 + (ds[|ds| - 1] as int - '0' as int)
  }

  /** `Number.parseInt(s, 10)`: leading white space is skipped, one sign
      is read, then the longest run of decimal digits; with no digit the
      result is NaN (`None`). */
  function ParseInt(s: string): Option<int>
  {
    var t := TrimStart(s);
    var signed := t != [] && (t[0] == '-' || t[0] == '+');
    var digits := DigitPrefix(if signed then t[1..] else t);
    var magnitude: int := if digits == [] then 0 else DigitsValue(digits);
    if digits == [] then None
    else if signed && t[0] == '-' then Some(-magnitude)
    else Some(magnitude)
  }

  /** Reading back a rendered natural number. */
  lemma {:induction false} DigitsValueOfRendering(n: nat)
    ensures DigitsValue(NatToString(n)) == n
  {
    var s := NatToString(n);
    if n >= 10 {
      DigitsValueOfRendering(n / 10);
      assert s[..|s| - 1] == NatToString(n / 10);
    }
  }

  /** `parseInt` reads back what `String(n)` renders. */
  lemma ParseRendering(n: nat)
    ensures ParseInt(NatToString(n)) == Some(n)
  {
    var s := NatToString(n);
    assert !IsSpace(s[0]);
    assert TrimStart(s) == s;
    assert DigitPrefix(s) == s;
    DigitsValueOfRendering(n);
  }

  const DefaultExpiryDays := 14

  /** `INV_EXPIRY_DAYS`: the configured setting (absent: the rendering of
      14) parsed as a decimal integer, kept when it is at least one day,
      else 14. */
  function ExpiryDays(setting: Option<string>): (days: int)
    ensures days >= 1
    ensures setting.None? ==> days == DefaultExpiryDays
    ensures setting.Some? && ParseInt(setting.value).Some? && ParseInt(setting.value).value >= 1 ==>
      days == ParseInt(setting.value).value
    ensures setting.Some? && (ParseInt(setting.value).None? || ParseInt(setting.value).value < 1) ==>
      days == DefaultExpiryDays
  {
    ParseRendering(DefaultExpiryDays);
    var n := ParseInt(if setting.Some? then setting.value else NatToString(DefaultExpiryDays));
    if n.Some? && n.value >= 1 then n.value else DefaultExpiryDays
  }

  /** Any setting that renders a positive number of days is taken as is. */
  lemma ExpiryDaysOfRendering(n: nat)
    requires n >= 1
    ensures ExpiryDays(Some(NatToString(n))) == n
  {
    ParseRendering(n);
  }

  /** Milliseconds in a day. */
  const DayMillis := 24 * 60 * 60 * 1000

  // ---------------------------------------------------------------------
  // HTML escaping

  /** `s.replaceAll(c, entity)` for a one-character pattern. */
  function ReplaceChar(s: string, c: char, entity: string): (r: string)
    ensures c !in entity ==> c !in r
  {
    if s == [] then [] else (if s[0] == c then entity else [s[0]]) + ReplaceChar(s[1..], c, entity)
  }

  /** `c` does not occur in `s`. */
  predicate Free(s: string, c: char)
  {
    forall i :: 0 <= i < |s| ==> s[i] != c
  }

  /** Replacing a character that does not occur changes nothing. */
  lemma {:induction false} ReplaceAbsent(s: string, c: char, entity: string)
    requires Free(s, c)
    ensures ReplaceChar(s, c, entity) == s
  {
    if s != [] {
      ReplaceAbsent(s[1..], c, entity);
      assert s == [s[0]] + s[1..];
    }
  }

  lemma {:induction false} ReplaceCharAppend(a: string, b: string, c: char, entity: string)
    ensures ReplaceChar(a + b, c, entity) == ReplaceChar(a, c, entity) + ReplaceChar(b, c, entity)
  {
    if a == [] {
      assert a + b == b;
    } else {
      assert (a + b)[1..] == a[1..] + b;
      ReplaceCharAppend(a[1..], b, c, entity);
    }
  }

  /** The chain of `replaceAll` calls of `escapeHtml`: '&' first, then
      '<', '>', '"' and '\''. */
  function EscapeText(s: string): string
  {
    ReplaceChar(ReplaceChar(ReplaceChar(ReplaceChar(ReplaceChar(
      s, '&', "&amp;"), '<', "&lt;"), '>', "&gt;"), '"', "&quot;"), '\'', "&#039;")
  }

  /** A character `escapeHtml` rewrites. */
  predicate Special(c: char)
  {
    c == '&' || c == '<' || c == '>' || c == '"' || c == '\''
  }

  /** The entity of one character, as a single-pass reference. */
  function EscapeChar(c: char): (e: string)
    ensures |e| >= 1
    ensures !Special(c) ==> e == [c]
    ensures Special(c) ==> e[0] == '&' && e[|e| - 1] == ';'
    ensures forall i :: 0 <= i < |e| ==> !Special(e[i]) || e[i] == '&'
  {
    if c == '&' then "&amp;"
    else if c == '<' then "&lt;"
    else if c == '>' then "&gt;"
    else if c == '"' then "&quot;"
    else if c == '\'' then "&#039;"
    else [c]
  }

  /** Each character replaced by its entity, in one pass. */
  function EscapeEach(s: string): (r: string)
    ensures forall i :: 0 <= i < |r| ==> !Special(r[i]) || r[i] == '&'
  {
    if s == [] then [] else EscapeChar(s[0]) + EscapeEach(s[1..])
  }

  lemma EscapeTextAppend(a: string, b: string)
    ensures EscapeText(a + b) == EscapeText(a) + EscapeText(b)
  {
    ReplaceCharAppend(a, b, '&', "&amp;");
    var a1, b1 := ReplaceChar(a, '&', "&amp;"), ReplaceChar(b, '&', "&amp;");
    ReplaceCharAppend(a1, b1, '<', "&lt;");
    var a2, b2 := ReplaceChar(a1, '<', "&lt;"), ReplaceChar(b1, '<', "&lt;");
    ReplaceCharAppend(a2, b2, '>', "&gt;");
    var a3, b3 := ReplaceChar(a2, '>', "&gt;"), ReplaceChar(b2, '>', "&gt;");
    ReplaceCharAppend(a3, b3, '"', "&quot;");
    var a4, b4 := ReplaceChar(a3, '"', "&quot;"), ReplaceChar(b3, '"', "&quot;");
    ReplaceCharAppend(a4, b4, '\'', "&#039;");
  }

  lemma EscapeAmpersand()
    ensures EscapeText("&") == "&amp;"
  {
    var e := "&amp;";
    var s1 := ReplaceChar("&", '&', e);
    assert s1 == e by {
      assert ReplaceChar([], '&', e) == [];
    }
    assert Free(e, '<') && Free(e, '>') && Free(e, '"') && Free(e, '\'');
    var s2 := ReplaceChar(s1, '<', "&lt;");
    ReplaceAbsent(s1, '<', "&lt;");
    var s3 := ReplaceChar(s2, '>', "&gt;");
    ReplaceAbsent(s2, '>', "&gt;");
    var s4 := ReplaceChar(s3, '"', "&quot;");
    ReplaceAbsent(s3, '"', "&quot;");
    var s5 := ReplaceChar(s4, '\'', "&#039;");
    ReplaceAbsent(s4, '\'', "&#039;");
  }

  lemma EscapeLess()
    ensures EscapeText("<") == "&lt;"
  {
    var e := "&lt;";
    var s1 := ReplaceChar("<", '&', "&amp;");
    ReplaceAbsent("<", '&', "&amp;");
    var s2 := ReplaceChar(s1, '<', e);
    assert s2 == e by {
      assert ReplaceChar([], '<', e) == [];
    }
    assert Free(e, '>') && Free(e, '"') && Free(e, '\'');
    var s3 := ReplaceChar(s2, '>', "&gt;");
    ReplaceAbsent(s2, '>', "&gt;");
    var s4 := ReplaceChar(s3, '"', "&quot;");
    ReplaceAbsent(s3, '"', "&quot;");
    var s5 := ReplaceChar(s4, '\'', "&#039;");
    ReplaceAbsent(s4, '\'', "&#039;");
  }

  lemma EscapeGreater()
    ensures EscapeText(">") == "&gt;"
  {
    var e := "&gt;";
    var s1 := ReplaceChar(">", '&', "&amp;");
    ReplaceAbsent(">", '&', "&amp;");
    var s2 := ReplaceChar(s1, '<', "&lt;");
    ReplaceAbsent(s1, '<', "&lt;");
    var s3 := ReplaceChar(s2, '>', e);
    assert s3 == e by {
      assert ReplaceChar([], '>', e) == [];
    }
    assert Free(e, '"') && Free(e, '\'');
    var s4 := ReplaceChar(s3, '"', "&quot;");
    ReplaceAbsent(s3, '"', "&quot;");
    var s5 := ReplaceChar(s4, '\'', "&#039;");
    ReplaceAbsent(s4, '\'', "&#039;");
  }

  lemma EscapeQuote()
    ensures EscapeText("\"") == "&quot;"
  {
    var e := "&quot;";
    var s1 := ReplaceChar("\"", '&', "&amp;");
    ReplaceAbsent("\"", '&', "&amp;");
    var s2 := ReplaceChar(s1, '<', "&lt;");
    ReplaceAbsent(s1, '<', "&lt;");
    var s3 := ReplaceChar(s2, '>', "&gt;");
    ReplaceAbsent(s2, '>', "&gt;");
    var s4 := ReplaceChar(s3, '"', e);
    assert s4 == e by {
      assert ReplaceChar([], '"', e) == [];
    }
    assert Free(e, '\'');
    var s5 := ReplaceChar(s4, '\'', "&#039;");
    ReplaceAbsent(s4, '\'', "&#039;");
  }

  lemma EscapeApostrophe()
    ensures EscapeText("'") == "&#039;"
  {
    var e := "&#039;";
    var s1 := ReplaceChar("'", '&', "&amp;");
    ReplaceAbsent("'", '&', "&amp;");
    var s2 := ReplaceChar(s1, '<', "&lt;");
    ReplaceAbsent(s1, '<', "&lt;");
    var s3 := ReplaceChar(s2, '>', "&gt;");
    ReplaceAbsent(s2, '>', "&gt;");
    var s4 := ReplaceChar(s3, '"', "&quot;");
    ReplaceAbsent(s3, '"', "&quot;");
    var s5 := ReplaceChar(s4, '\'', e);
    assert s5 == e by {
      assert ReplaceChar([], '\'', e) == [];
    }
  }

  lemma EscapeOrdinary(c: char)
    requires !Special(c)
    ensures EscapeText([c]) == [c]
  {
    ReplaceAbsent([c], '&', "&amp;");
    ReplaceAbsent([c], '<', "&lt;");
    ReplaceAbsent([c], '>', "&gt;");
    ReplaceAbsent([c], '"', "&quot;");
    ReplaceAbsent([c], '\'', "&#039;");
  }

  lemma EscapeOne(c: char)
    ensures EscapeText([c]) == EscapeChar(c)
  {
    if c == '&' {
      EscapeAmpersand();
    } else if c == '<' {
      EscapeLess();
    } else if c == '>' {
      EscapeGreater();
    } else if c == '"' {
      EscapeQuote();
    } else if c == '\'' {
      EscapeApostrophe();
    } else {
      EscapeOrdinary(c);
    }
  }

  /** The chain of `replaceAll` calls is the single-pass escaping: because
      '&' goes first, no entity is escaped twice. */
  lemma {:induction false} EscapeTextIsEscapeEach(s: string)
    ensures EscapeText(s) == EscapeEach(s)
  {
    if s != [] {
      assert s == [s[0]] + s[1..];
      EscapeTextAppend([s[0]], s[1..]);
      EscapeOne(s[0]);
      EscapeTextIsEscapeEach(s[1..]);
    }
  }

  /** `escapeHtml(v)`: `(v ?? "").toString()`, then escaped. No markup
      character survives, and null or undefined give the empty string. */
  function EscapeHtml(v: Value): (r: string)
    ensures '<' !in r && '>' !in r && '"' !in r && '\'' !in r
    ensures v == Undefined || v == Null ==> r == ""
  {
    var t := CoalescedText(v);
    EscapeTextIsEscapeEach(t);
    EscapeText(t)
  }

  /** Decoding the five entities `escapeHtml` produces. */
  function Unescape(t: string): string
    decreases |t|
  {
    if t == [] then []
    else if t[0] != '&' then [t[0]] + Unescape(t[1..])
    else if |t| >= 5 && t[..5] == "&amp;" then "&" + Unescape(t[5..])
    else if |t| >= 4 && t[..4] == "&lt;" then "<" + Unescape(t[4..])
    else if |t| >= 4 && t[..4] == "&gt;" then ">" + Unescape(t[4..])
    else if |t| >= 6 && t[..6] == "&quot;" then "\"" + Unescape(t[6..])
    else if |t| >= 6 && t[..6] == "&#039;" then "'" + Unescape(t[6..])
    else "&" + Unescape(t[1..])
  }

  lemma UnescapeAmpersand(rest: string)
    ensures Unescape("&amp;" + rest) == "&" + Unescape(rest)
  {
    var t := "&amp;" + rest;
    assert t[..5] == "&amp;" && t[5..] == rest;
  }

  lemma UnescapeLess(rest: string)
    ensures Unescape("&lt;" + rest) == "<" + Unescape(rest)
  {
    var t := "&lt;" + rest;
    assert t[1] == 'l';
    assert t[..4] == "&lt;" && t[4..] == rest;
  }

  lemma UnescapeGreater(rest: string)
    ensures Unescape("&gt;" + rest) == ">" + Unescape(rest)
  {
    var t := "&gt;" + rest;
    assert t[1] == 'g';
    assert t[..4] == "&gt;" && t[4..] == rest;
  }

  lemma UnescapeQuote(rest: string)
    ensures Unescape("&quot;" + rest) == "\"" + Unescape(rest)
  {
    var t := "&quot;" + rest;
    assert t[1] == 'q';
    assert t[..6] == "&quot;" && t[6..] == rest;
  }

  lemma UnescapeApostrophe(rest: string)
    ensures Unescape("&#039;" + rest) == "'" + Unescape(rest)
  {
    var t := "&#039;" + rest;
    assert t[1] == '#';
    assert t[..6] == "&#039;" && t[6..] == rest;
  }

  lemma UnescapeOrdinary(c: char, rest: string)
    requires c != '&'
    ensures Unescape([c] + rest) == [c] + Unescape(rest)
  {
    var t := [c] + rest;
    assert t[0] == c && t[1..] == rest;
  }

  lemma UnescapeOne(c: char, rest: string)
    ensures Unescape(EscapeChar(c) + rest) == [c] + Unescape(rest)
  {
    if c == '&' {
      UnescapeAmpersand(rest);
    } else if c == '<' {
      UnescapeLess(rest);
    } else if c == '>' {
      UnescapeGreater(rest);
    } else if c == '"' {
      UnescapeQuote(rest);
    } else if c == '\'' {
      UnescapeApostrophe(rest);
    } else {
      UnescapeOrdinary(c, rest);
    }
  }

  lemma {:induction false} UnescapeEach(s: string)
    ensures Unescape(EscapeEach(s)) == s
  {
    if s != [] {
      UnescapeOne(s[0], EscapeEach(s[1..]));
      UnescapeEach(s[1..]);
      assert s == [s[0]] + s[1..];
    }
  }

  /** Escaping loses nothing: decoding the entities gives back the text. */
  lemma UnescapeEscapeHtml(v: Value)
    ensures Unescape(EscapeHtml(v)) == CoalescedText(v)
  {
    var t := CoalescedText(v);
    EscapeTextIsEscapeEach(t);
    UnescapeEach(t);
  }

  // ---------------------------------------------------------------------
  // The link

  const AppBaseUrl := "https://trax-event.app"
  const LinkPrefix := AppBaseUrl + "/guest-response?invitationId="
  const TokenKey := "&token="

  /** The guest link, from the URI-encoded invitation id and token. */
  function Link(encodedId: string, encodedToken: string): string
  {
    LinkPrefix + encodedId + TokenKey + encodedToken
  }

  /** The index of the first `c` in `s`, or |s|. */
  function IndexOf(s: string, c: char): (k: nat)
    ensures k <= |s|
    ensures k < |s| ==> s[k] == c
    ensures forall i :: 0 <= i < k ==> s[i] != c
  {
    if s == [] then 0 else if s[0] == c then 0 else 1 + IndexOf(s[1..], c)
  }

  /** Reading the two query values back out of a guest link. */
  function QueryValues(link: string): Option<(string, string)>
  {
    if |link| < |LinkPrefix| || link[..|LinkPrefix|] != LinkPrefix then None
    else
      var query := link[|LinkPrefix|..];
      var k := IndexOf(query, '&');
      var after := query[k..];
      if |after| >= |TokenKey| && after[..|TokenKey|] == TokenKey then Some((query[..k], after[|TokenKey|..]))
      else None
  }

  /** The link carries both values: URI encoding leaves no '&' in the id,
      so the values are read back unchanged. */
  lemma LinkRoundTrip(encodedId: string, encodedToken: string)
    requires '&' !in encodedId
    ensures QueryValues(Link(encodedId, encodedToken)) == Some((encodedId, encodedToken))
  {
    var link := Link(encodedId, encodedToken);
    assert link == LinkPrefix + (encodedId + TokenKey + encodedToken);
    var query := link[|LinkPrefix|..];
    assert query == encodedId + (TokenKey + encodedToken);
    assert TokenKey[0] == '&';
    var k := IndexOf(query, '&');
    assert query[|encodedId|] == '&';
    assert forall i :: 0 <= i < |encodedId| ==> query[i] == encodedId[i];
    assert k == |encodedId|;
    assert query[..k] == encodedId;
    assert query[k..] == TokenKey + encodedToken;
  }

  // ---------------------------------------------------------------------
  // Request, documents, results

  /** The call's payload. `invitations` is `None` when it is not an array;
      each entry is an object's fields (other values have none). */
  datatype Request = Request(
    eventId: Value,
    organisationId: Value,
    invitations: Option<seq<Doc>>,
    demographicQuestionSetId: Value,
    invitationCode: Value)

  /** What the mail service reports for one message: accepted with its
      message id, or rejected with the message, status and body the
      `catch` block derives from the error. */
  datatype Dispatch = Accepted(messageId: string) | Rejected(message: string, status: Value, body: Value)

  /** An `invitations` document as this function writes it. */
  datatype InvitationDoc = InvitationDoc(
    invitationId: string,
    eventId: Value,
    organisationId: Value,
    guestId: Value,
    guestEmail: string,
    guestName: string,
    maxGuestInvite: real,
    demographicQuestionSetId: Value,
    token: string,
    used: bool,
    createdAt: int,
    expiresAt: int,
    sent: bool,
    invitationCode: Option<Value>,
    batchId: Option<Value>,
    sentAt: Option<int>,
    dispatch: Option<Dispatch>)

  /** One entry of `results`. */
  datatype SendResult =
    | Sent(guestEmail: string, invitationId: string)
    | Failed(guestEmail: string, invitationId: string, error: string, statusCode: Value)

  /** One `invitationLogs` document. */
  datatype LogEntry = LogEntry(eventId: Value, organisationId: Value, createdAt: int, results: seq<SendResult>)

  /** The successful reply. */
  datatype Output = Output(invited: nat, results: seq<SendResult>)

  /** The values the call does not choose: the document id and token drawn
      for each entry (by position), what the mail service reports for it,
      and the clock. */
  datatype Environment = Environment(docIds: seq<string>, tokens: seq<string>, mail: seq<Dispatch>, now: int)

  /** `(v || "").trim()`: a falsy value reads as "", a string is trimmed,
      and any other value has no `trim` method, so the call throws and the
      outer handler reports internal. */
  function TrimmedText(v: Value): (r: Result<string>)
    ensures !Truthy(v) ==> r == Ok("")
    ensures v.Str? ==> r == Ok(Trim(v.s))
    ensures r.Err? <==> Truthy(v) && !v.Str?
    ensures r.Err? ==> r.code == Internal
  {
    if !Truthy(v) then Ok("") else if v.Str? then Ok(Trim(v.s)) else Err(Internal)
  }

  /** The fields read from one entry. */
  datatype Guest = Guest(email: string, name: string, guestId: Value, maxGuestInvite: real, batchId: Value)

  /** Reading one entry: the e-mail, then the name (either throws when it
      is a truthy non-string), the id and batch (`|| null`) and the guest
      allowance (0 unless a number). */
  function ReadGuest(g: Doc): (r: Result<Guest>)
  {
    match TrimmedText(Field(g, "guestEmail"))
    case Err(c) => Err(c)
    case Ok(email) =>
      match TrimmedText(Field(g, "guestName"))
      case Err(c) => Err(c)
      case Ok(name) =>
        var max := Field(g, "maxGuestInvite");
        Ok(Guest(email, name, Or(Field(g, "guestId"), Null), if max.Num? then max.x else 0.0,
                 Or(Field(g, "batchId"), Null)))
  }

  /** Which fields a read throws on, and what it keeps of the e-mail and
      the name. */
  lemma ReadGuestFields(g: Doc)
    ensures ReadGuest(g).Err? <==> TrimmedText(Field(g, "guestEmail")).Err? || TrimmedText(Field(g, "guestName")).Err?
    ensures ReadGuest(g).Ok? ==> ReadGuest(g).value.email == TrimmedText(Field(g, "guestEmail")).value
    ensures ReadGuest(g).Ok? ==> ReadGuest(g).value.name == TrimmedText(Field(g, "guestName")).value
    ensures ReadGuest(g).Ok? ==>
      ReadGuest(g).value.maxGuestInvite == (if Field(g, "maxGuestInvite").Num? then Field(g, "maxGuestInvite").x else 0.0)
    ensures ReadGuest(g).Ok? ==>
      ReadGuest(g).value.guestId == (if Truthy(Field(g, "guestId")) then Field(g, "guestId") else Null)
    ensures ReadGuest(g).Ok? ==>
      ReadGuest(g).value.batchId == (if Truthy(Field(g, "batchId")) then Field(g, "batchId") else Null)
  {
  }

  /** The document written for a guest, before the mail is sent. */
  function NewDoc(req: Request, guest: Guest, id: string, token: string, now: int, days: int): (d: InvitationDoc)
    ensures d.invitationId == id && d.token == token && !d.used && !d.sent
    ensures d.guestEmail == guest.email && d.guestName == guest.name
    ensures d.createdAt == now && d.expiresAt == now + days * DayMillis
    ensures d.eventId == req.eventId && d.guestId == guest.guestId
    ensures d.maxGuestInvite == guest.maxGuestInvite
    ensures d.invitationCode.Some? <==> Truthy(req.invitationCode)
    ensures d.invitationCode.Some? ==> d.invitationCode.value == req.invitationCode
    ensures d.batchId.Some? <==> Truthy(guest.batchId)
    ensures d.batchId.Some? ==> d.batchId.value == guest.batchId
    ensures d.organisationId == (if Truthy(req.organisationId) then req.organisationId else Null)
    ensures d.demographicQuestionSetId ==
      (if Truthy(req.demographicQuestionSetId) then req.demographicQuestionSetId else Null)
    ensures d.organisationId != Undefined && d.demographicQuestionSetId != Undefined
  {
    InvitationDoc(
      id, req.eventId, Or(req.organisationId, Null), guest.guestId, guest.email, guest.name,
      guest.maxGuestInvite, Or(req.demographicQuestionSetId, Null), token, false, now,
      now + days * DayMillis, false,
      if Truthy(req.invitationCode) then Some(req.invitationCode) else None,
      if Truthy(guest.batchId) then Some(guest.batchId) else None,
      None, None)
  }

  /** The document after the mail service has answered: marked sent only
      when the message was accepted, with the time and the answer. */
  function Delivered(d: InvitationDoc, m: Dispatch, now: int): (e: InvitationDoc)
    ensures e.sent <==> m.Accepted?
    ensures e.sentAt == Some(now) && e.dispatch == Some(m)
    ensures e.(sent := d.sent, sentAt := d.sentAt, dispatch := d.dispatch) == d
  {
    d.(sent := m.Accepted?, sentAt := Some(now), dispatch := Some(m))
  }

  /** The result entry for one guest: "sent" exactly when accepted. */
  function ResultOf(email: string, id: string, m: Dispatch): (r: SendResult)
    ensures r.Sent? <==> m.Accepted?
    ensures r.guestEmail == email && r.invitationId == id
    ensures r.Failed? ==> r.error == m.message && r.statusCode == m.status
  {
    match m
    case Accepted(_) => Sent(email, id)
    case Rejected(msg, status, _) => Failed(email, id, msg, status)
  }

  /** The number of "sent" results. */
  function CountSent(results: seq<SendResult>): (n: nat)
    ensures n <= |results|
  {
    if results == [] then 0
    else CountSent(results[..|results| - 1]) + (if results[|results| - 1].Sent? then 1 else 0)
  }

  /** Every guest was mailed exactly when the count is the length, and none
      was exactly when it is zero. */
  lemma {:induction false} CountSentBounds(results: seq<SendResult>)
    ensures CountSent(results) == |results| <==> forall k :: 0 <= k < |results| ==> results[k].Sent?
    ensures CountSent(results) == 0 <==> forall k :: 0 <= k < |results| ==> results[k].Failed?
  {
    if results != [] {
      var n := |results| - 1;
      CountSentBounds(results[..n]);
      assert forall k :: 0 <= k < n ==> results[..n][k] == results[k];
    }
  }

  // ---------------------------------------------------------------------
  // The loop, specified

  /** Reading every entry, in order. */
  function ReadAll(entries: seq<Doc>): (r: seq<Result<Guest>>)
    ensures |r| == |entries|
    ensures forall i :: 0 <= i < |entries| ==> r[i] == ReadGuest(entries[i])
  {
    seq(|entries|, i requires 0 <= i < |entries| => ReadGuest(entries[i]))
  }

  /** What the loop has done after some entries: the documents, the
      results, and whether an entry threw. */
  datatype Progress = Progress(docs: map<string, InvitationDoc>, results: seq<SendResult>, threw: bool)

  /** Whether the environment covers the first `n` entries. */
  predicate Covers(env: Environment, n: nat)
  {
    |env.docIds| >= n && |env.tokens| >= n && |env.mail| >= n
  }

  /** One iteration, for the entry at `i` as read: a throwing read stops
      the loop, a blank e-mail skips the entry, and otherwise the document
      is written, the mail is sent, the document is updated with the
      answer and a result is appended. */
  function Step(p: Progress, req: Request, read: Result<Guest>, i: nat, env: Environment, days: int): Progress
    requires Covers(env, i + 1)
  {
    if p.threw then p
    else
      match read
      case Err(_) => p.(threw := true)
      case Ok(guest) =>
        if guest.email == "" then p
        else
          var id := env.docIds[i];
          var doc := Delivered(NewDoc(req, guest, id, env.tokens[i], env.now, days), env.mail[i], env.now);
          Progress(p.docs[id := doc], p.results + [ResultOf(guest.email, id, env.mail[i])], false)
  }

  /** The loop over the entries as read, from the given documents. */
  function Loop(docs: map<string, InvitationDoc>, req: Request, guests: seq<Result<Guest>>, env: Environment, days: int): Progress
    requires Covers(env, |guests|)
  {
    if guests == [] then Progress(docs, [], false)
    else
      var n := |guests| - 1;
      Step(Loop(docs, req, guests[..n], env, days), req, guests[n], n, env, days)
  }

  /** The store the function writes: invitations and logs. */
  datatype Store = Store(docs: map<string, InvitationDoc>, logs: seq<LogEntry>)

  /** `sendInvitations`: the argument and configuration guards, the loop,
      the log entry and the reply. `mailToken` is the mail service secret
      and `setting` the expiry setting. The guards reject before anything
      is written; an entry that throws ends the call as internal with the
      documents written so far and no log entry. */
  function Send(s: Store, req: Request, mailToken: string, setting: Option<string>, env: Environment): (out: (Result<Output>, Store))
    requires req.invitations.Some? ==> Covers(env, |req.invitations.value|)
    ensures out.0 == Err(InvalidArgument) <==>
      !Truthy(req.eventId) || req.invitations.None? || req.invitations.value == []
    ensures out.0 == Err(FailedPrecondition) <==>
      Truthy(req.eventId) && req.invitations.Some? && req.invitations.value != [] && IsBlank(mailToken)
    ensures out.0 == Err(InvalidArgument) || out.0 == Err(FailedPrecondition) ==> out.1 == s
    ensures out.0.Err? ==> out.1.logs == s.logs
    ensures out.0.Ok? ==> out.0.value.invited <= |out.0.value.results|
    ensures out.0.Ok? ==>
      out.1.logs == s.logs + [LogEntry(req.eventId, Or(req.organisationId, Null), env.now, out.0.value.results)]
  {
    if !Truthy(req.eventId) then (Err(InvalidArgument), s)
    else if req.invitations.None? || req.invitations.value == [] then (Err(InvalidArgument), s)
    else if Trim(mailToken) == "" then (Err(FailedPrecondition), s)
    else
      var p := Loop(s.docs, req, ReadAll(req.invitations.value), env, ExpiryDays(setting));
      if p.threw then (Err(Internal), Store(p.docs, s.logs))
      else
        var log := LogEntry(req.eventId, Or(req.organisationId, Null), env.now, p.results);
        (Ok(Output(CountSent(p.results), p.results)), Store(p.docs, s.logs + [log]))
  }

  // ---------------------------------------------------------------------
  // Properties of the loop

  /** An entry read without throwing and with a non-blank e-mail. */
  predicate Invited(read: Result<Guest>)
  {
    read.Ok? && read.value.email != ""
  }

  /** No entry throws when read. */
  predicate Readable(guests: seq<Result<Guest>>)
  {
    forall i :: 0 <= i < |guests| ==> guests[i].Ok?
  }

  /** The positions of the invited entries, in increasing order. */
  function Kept(guests: seq<Result<Guest>>): (r: seq<nat>)
    ensures forall k :: 0 <= k < |r| ==> r[k] < |guests| && Invited(guests[r[k]])
    ensures forall k, l :: 0 <= k < l < |r| ==> r[k] < r[l]
    ensures forall i :: 0 <= i < |guests| && Invited(guests[i]) ==> i in r
  {
    if guests == [] then []
    else
      var n := |guests| - 1;
      var pre := Kept(guests[..n]);
      assert forall i :: 0 <= i < n ==> guests[..n][i] == guests[i];
      if Invited(guests[n]) then pre + [n] else pre
  }

  /** The loop throws exactly when some entry's e-mail or name is a truthy
      non-string. */
  lemma {:induction false} LoopThrows(docs: map<string, InvitationDoc>, req: Request, guests: seq<Result<Guest>>, env: Environment, days: int)
    requires Covers(env, |guests|)
    ensures Loop(docs, req, guests, env, days).threw <==> !Readable(guests)
  {
    if guests != [] {
      var n := |guests| - 1;
      var pre := guests[..n];
      LoopThrows(docs, req, pre, env, days);
      assert forall i :: 0 <= i < n ==> pre[i] == guests[i];
      if !Readable(pre) {
        var i :| 0 <= i < n && pre[i].Err?;
        assert guests[i].Err?;
      }
    }
  }

  /** The result written for the entry at `i`. */
  function ResultAt(guests: seq<Result<Guest>>, i: nat, env: Environment): SendResult
    requires i < |guests| && Covers(env, |guests|)
    requires guests[i].Ok?
  {
    ResultOf(guests[i].value.email, env.docIds[i], env.mail[i])
  }

  /** What one readable entry adds to the results. */
  lemma StepResults(p: Progress, req: Request, read: Result<Guest>, i: nat, env: Environment, days: int)
    requires Covers(env, i + 1)
    requires !p.threw && read.Ok?
    ensures !Step(p, req, read, i, env, days).threw
    ensures Step(p, req, read, i, env, days).results ==
      if Invited(read) then p.results + [ResultOf(read.value.email, env.docIds[i], env.mail[i])] else p.results
  {
  }

  /** Without a throwing entry, the loop yields one result per invited
      entry, in entry order: the guest's trimmed e-mail, the drawn document
      id, and "sent" or "failed" as the mail service answered. A rejected
      message does not stop the loop. */
  lemma {:induction false} LoopResults(docs: map<string, InvitationDoc>, req: Request, guests: seq<Result<Guest>>, env: Environment, days: int)
    requires Covers(env, |guests|)
    requires Readable(guests)
    ensures |Loop(docs, req, guests, env, days).results| == |Kept(guests)|
    ensures forall k :: 0 <= k < |Kept(guests)| ==>
      Loop(docs, req, guests, env, days).results[k] == ResultAt(guests, Kept(guests)[k], env)
  {
    if guests != [] {
      var n := |guests| - 1;
      var pre := guests[..n];
      assert forall i :: 0 <= i < n ==> pre[i] == guests[i];
      LoopResults(docs, req, pre, env, days);
      LoopThrows(docs, req, pre, env, days);
      var p := Loop(docs, req, pre, env, days);
      var kept := Kept(pre);
      StepResults(p, req, guests[n], n, env, days);
      var q := Loop(docs, req, guests, env, days);
      assert q == Step(p, req, guests[n], n, env, days);
      var all := Kept(guests);
      assert all == if Invited(guests[n]) then kept + [n] else kept;
      forall k | 0 <= k < |all|
        ensures q.results[k] == ResultAt(guests, all[k], env)
      {
        if k < |kept| {
          assert all[k] == kept[k] && q.results[k] == p.results[k];
          assert ResultAt(guests, kept[k], env) == ResultAt(pre, kept[k], env);
        }
      }
    }
  }

  /** The ids the loop may write: those drawn for invited entries. */
  function WrittenIds(guests: seq<Result<Guest>>, env: Environment): set<string>
    requires Covers(env, |guests|)
  {
    set i | 0 <= i < |guests| && Invited(guests[i]) :: env.docIds[i]
  }

  /** Nothing but the drawn ids of invited entries is written. */
  lemma {:induction false} LoopFrame(docs: map<string, InvitationDoc>, req: Request, guests: seq<Result<Guest>>, env: Environment, days: int)
    requires Covers(env, |guests|)
    ensures forall id :: id !in WrittenIds(guests, env) ==>
      (id in Loop(docs, req, guests, env, days).docs <==> id in docs) &&
      (id in docs ==> Loop(docs, req, guests, env, days).docs[id] == docs[id])
  {
    if guests != [] {
      var n := |guests| - 1;
      var pre := guests[..n];
      assert forall i :: 0 <= i < n ==> pre[i] == guests[i];
      LoopFrame(docs, req, pre, env, days);
      assert WrittenIds(pre, env) <= WrittenIds(guests, env);
      if Invited(guests[n]) {
        assert env.docIds[n] in WrittenIds(guests, env);
      }
    }
  }

  /** The document written for the entry at `i`. */
  function DocAt(req: Request, guests: seq<Result<Guest>>, i: nat, env: Environment, days: int): InvitationDoc
    requires i < |guests| && Covers(env, |guests|)
    requires guests[i].Ok?
  {
    Delivered(NewDoc(req, guests[i].value, env.docIds[i], env.tokens[i], env.now, days), env.mail[i], env.now)
  }

  /** Drawn document ids are distinct. */
  predicate DistinctIds(env: Environment, n: nat)
    requires Covers(env, n)
  {
    forall i, j :: 0 <= i < j < n ==> env.docIds[i] != env.docIds[j]
  }

  /** With distinct drawn ids and no throwing entry, each invited entry has
      its own document: the guest's fields, the token drawn for it, unused,
      and marked sent exactly when the mail service accepted its message. */
  lemma {:induction false} LoopDocs(docs: map<string, InvitationDoc>, req: Request, guests: seq<Result<Guest>>, env: Environment, days: int)
    requires Covers(env, |guests|)
    requires Readable(guests)
    requires DistinctIds(env, |guests|)
    ensures forall i :: 0 <= i < |guests| && Invited(guests[i]) ==>
      env.docIds[i] in Loop(docs, req, guests, env, days).docs &&
      Loop(docs, req, guests, env, days).docs[env.docIds[i]] == DocAt(req, guests, i, env, days)
  {
    if guests != [] {
      var n := |guests| - 1;
      var pre := guests[..n];
      assert forall i :: 0 <= i < n ==> pre[i] == guests[i];
      LoopDocs(docs, req, pre, env, days);
      LoopThrows(docs, req, pre, env, days);
      var p := Loop(docs, req, pre, env, days);
      var q := Loop(docs, req, guests, env, days);
      assert q == Step(p, req, guests[n], n, env, days);
      forall i | 0 <= i < |guests| && Invited(guests[i])
        ensures env.docIds[i] in q.docs && q.docs[env.docIds[i]] == DocAt(req, guests, i, env, days)
      {
        if i < n {
          assert DocAt(req, guests, i, env, days) == DocAt(req, pre, i, env, days);
          assert env.docIds[i] != env.docIds[n];
        }
      }
    }
  }

  /** Whether a call gets past the guards. */
  predicate PassesGuards(req: Request, mailToken: string)
  {
    Truthy(req.eventId) && req.invitations.Some? && req.invitations.value != [] && !IsBlank(mailToken)
  }

  /** Past the guards, the call fails exactly when an entry throws; then it
      reports internal with the documents written before that entry. */
  lemma SendThrows(s: Store, req: Request, mailToken: string, setting: Option<string>, env: Environment)
    requires req.invitations.Some? && Covers(env, |req.invitations.value|)
    requires PassesGuards(req, mailToken)
    ensures Send(s, req, mailToken, setting, env).0.Err? <==> !Readable(ReadAll(req.invitations.value))
    ensures Send(s, req, mailToken, setting, env).0.Err? ==> Send(s, req, mailToken, setting, env).0 == Err(Internal)
  {
    LoopThrows(s.docs, req, ReadAll(req.invitations.value), env, ExpiryDays(setting));
  }

  /** The reply of a call that passes the guards and guests every entry:
      one result per invited entry in order, and `invited` counting the
      accepted messages. */
  lemma SendReport(s: Store, req: Request, mailToken: string, setting: Option<string>, env: Environment)
    requires req.invitations.Some? && Covers(env, |req.invitations.value|)
    requires PassesGuards(req, mailToken)
    requires Readable(ReadAll(req.invitations.value))
    ensures var r := Send(s, req, mailToken, setting, env).0;
      var guests := ReadAll(req.invitations.value);
      r.Ok? && |r.value.results| == |Kept(guests)| &&
      (forall k :: 0 <= k < |Kept(guests)| ==> r.value.results[k] == ResultAt(guests, Kept(guests)[k], env)) &&
      r.value.invited == CountSent(r.value.results)
  {
    var guests := ReadAll(req.invitations.value);
    var days := ExpiryDays(setting);
    LoopThrows(s.docs, req, guests, env, days);
    LoopResults(s.docs, req, guests, env, days);
  }

  // ---------------------------------------------------------------------
  // The store, updated in place

  /** A second write to a key replaces the first. */
  lemma Overwrite<K, V>(m: map<K, V>, k: K, first: V, second: V)
    ensures m[k := first][k := second] == m[k := second]
  {
  }

  /** A loop that has thrown stays thrown with its state. */
  lemma {:induction false} ThrownStays(docs: map<string, InvitationDoc>, req: Request, guests: seq<Result<Guest>>, j: nat, env: Environment, days: int)
    requires Covers(env, |guests|) && j <= |guests|
    requires Loop(docs, req, guests[..j], env, days).threw
    ensures Loop(docs, req, guests, env, days) == Loop(docs, req, guests[..j], env, days)
    decreases |guests|
  {
    if j < |guests| {
      var n := |guests| - 1;
      assert guests[..n][..j] == guests[..j];
      ThrownStays(docs, req, guests[..n], j, env, days);
    } else {
      assert guests[..j] == guests;
    }
  }

  /** What one entry does to the loop's state. */
  lemma StepInvites(p: Progress, req: Request, read: Result<Guest>, i: nat, env: Environment, days: int)
    requires Covers(env, i + 1) && !p.threw
    ensures read.Err? ==> Step(p, req, read, i, env, days) == p.(threw := true)
    ensures read.Ok? && read.value.email == "" ==> Step(p, req, read, i, env, days) == p
    ensures Invited(read) ==>
      var doc := Delivered(NewDoc(req, read.value, env.docIds[i], env.tokens[i], env.now, days), env.mail[i], env.now);
      Step(p, req, read, i, env, days) ==
        Progress(p.docs[env.docIds[i] := doc], p.results + [ResultOf(read.value.email, env.docIds[i], env.mail[i])], false)
  {
  }

  /** The `invitations` and `invitationLogs` collections. */
  class InvitationStore {
    var invitations: map<string, InvitationDoc>
    var logs: seq<LogEntry>

    constructor (invitations: map<string, InvitationDoc>, logs: seq<LogEntry>)
      ensures this.invitations == invitations && this.logs == logs
    {
      this.invitations := invitations;
      this.logs := logs;
    }

    /** One guest: the document is created unsent, the mail is sent, and
        the document is updated with the answer. */
    method InviteOne(req: Request, guest: Guest, i: nat, env: Environment, days: int) returns (result: SendResult)
      requires Covers(env, i + 1)
      modifies this
      ensures invitations == old(invitations)[env.docIds[i] :=
        Delivered(NewDoc(req, guest, env.docIds[i], env.tokens[i], env.now, days), env.mail[i], env.now)]
      ensures result == ResultOf(guest.email, env.docIds[i], env.mail[i])
      ensures logs == old(logs)
    {
      var id := env.docIds[i];
      var created := NewDoc(req, guest, id, env.tokens[i], env.now, days);
      invitations := invitations[id := created];
      var answer := env.mail[i];
      invitations := invitations[id := Delivered(invitations[id], answer, env.now)];
      Overwrite(old(invitations), id, created, Delivered(created, answer, env.now));
      result := ResultOf(guest.email, id, answer);
    }

    /** The loop of `sendInvitations`: each entry read in turn, and each
        with a non-blank e-mail invited; an entry that throws stops the
        loop with what has been written so far. */
    method InviteAll(req: Request, entries: seq<Doc>, env: Environment, days: int) returns (results: seq<SendResult>, threw: bool)
      requires Covers(env, |entries|)
      modifies this
      ensures Loop(old(invitations), req, ReadAll(entries), env, days) == Progress(invitations, results, threw)
      ensures logs == old(logs)
    {
      ghost var guests := ReadAll(entries);
      results := [];
      for i := 0 to |entries|
        invariant logs == old(logs)
        invariant Loop(old(invitations), req, guests[..i], env, days) == Progress(invitations, results, false)
      {
        ghost var before := Progress(invitations, results, false);
        assert guests[..i + 1][..i] == guests[..i];
        assert Loop(old(invitations), req, guests[..i + 1], env, days) == Step(before, req, guests[i], i, env, days);
        var read := ReadGuest(entries[i]);
        assert read == guests[i];
        StepInvites(before, req, read, i, env, days);
        if read.Err? {
          ThrownStays(old(invitations), req, guests, i + 1, env, days);
          return results, true;
        }
        if read.value.email != "" {
          var result := InviteOne(req, read.value, i, env, days);
          results := results + [result];
        }
      }
      assert guests[..|entries|] == guests;
      threw := false;
    }

    /** `sendInvitations` on this store. */
    method SendInvitations(req: Request, mailToken: string, setting: Option<string>, env: Environment) returns (r: Result<Output>)
      requires req.invitations.Some? ==> Covers(env, |req.invitations.value|)
      modifies this
      ensures (r, Store(invitations, logs)) == Send(Store(old(invitations), old(logs)), req, mailToken, setting, env)
    {
      if !Truthy(req.eventId) {
        return Err(InvalidArgument);
      }
      if req.invitations.None? || req.invitations.value == [] {
        return Err(InvalidArgument);
      }
      if Trim(mailToken) == "" {
        return Err(FailedPrecondition);
      }
      var days := ExpiryDays(setting);
      var results, threw := InviteAll(req, req.invitations.value, env, days);
      if threw {
        return Err(Internal);
      }
      logs := logs + [LogEntry(req.eventId, Or(req.organisationId, Null), env.now, results)];
      r := Ok(Output(CountSent(results), results));
    }
  }
}
