/** Resolving the menu an event offers to an invited guest: the same
    token-and-expiry guard as the submission, the event lookup with its
    fallback query, the category taxonomy (normalised key, display label),
    the vegetarian classifier, and the item list built in the event's
    selection order from menu items fetched in batches of ten. */
module MenuCatalog {
  import opened Js
  import opened Text
  import opened Guest

  // ---------------------------------------------------------------------
  // Chunking

  /** The concatenation of a list of lists. */
  function Concat<T>(ss: seq<seq<T>>): seq<T>
  {
    if ss == [] then [] else Concat(ss[..|ss| - 1]) + ss[|ss| - 1]
  }

  lemma ConcatSnoc<T>(ss: seq<seq<T>>, c: seq<T>)
    ensures Concat(ss + [c]) == Concat(ss) + c
  {
    assert (ss + [c])[..|ss|] == ss;
  }

  /** `chunk(arr, size)`: consecutive slices of `arr`, each of `size`
      entries except possibly the last, which together spell `arr`. */
  method Chunk<T>(arr: seq<T>, size: nat) returns (out: seq<seq<T>>)
    requires size > 0
    ensures Concat(out) == arr
    ensures forall k :: 0 <= k < |out| ==> 0 < |out[k]| <= size
    ensures forall k :: 0 <= k < |out| - 1 ==> |out[k]| == size
  {
    out := [];
    var i := 0;
    while i < |arr|
      invariant 0 <= i
      invariant i <= |arr| ==> Concat(out) == arr[..i]
      invariant i > |arr| ==> Concat(out) == arr
      invariant forall k :: 0 <= k < |out| ==> 0 < |out[k]| <= size
      invariant i <= |arr| ==> forall k :: 0 <= k < |out| ==> |out[k]| == size
      invariant forall k :: 0 <= k < |out| - 1 ==> |out[k]| == size
    {
      var j := if i + size <= |arr| then i + size else |arr|;
      ConcatSnoc(out, arr[i..j]);
      assert arr[..i] + arr[i..j] == arr[..j];
      out := out + [arr[i..j]];
      i := i + size;
    }
    assert arr[..|arr|] == arr;
  }

  // ---------------------------------------------------------------------
  // Event lookup

  /** An event document: its id and its fields. */
  datatype EventRef = EventRef(id: string, data: Doc)

  /** The document `id` exists and its `eventId` field is the string `eventId`. */
  predicate HasEventId(events: map<string, Doc>, id: string, eventId: string)
  {
    id in events && Field(events[id], "eventId") == Str(eventId)
  }

  /** The fallback query `where("eventId", "==", eventId).limit(1)`: the first
      document, in the order the store scans `order`, whose `eventId` field
      matches. */
  function QueryByEventId(events: map<string, Doc>, order: seq<string>, eventId: string): (r: Option<string>)
    ensures r.Some? ==> r.value in order && HasEventId(events, r.value, eventId)
    ensures r.None? <==> forall k :: 0 <= k < |order| ==> !HasEventId(events, order[k], eventId)
    ensures r.Some? && order != [] && HasEventId(events, order[0], eventId) ==> r.value == order[0]
  {
    if order == [] then None
    else if HasEventId(events, order[0], eventId) then Some(order[0])
    else
      var rest := QueryByEventId(events, order[1..], eventId);
      assert forall k :: 1 <= k < |order| ==> order[k] == order[1..][k - 1];
      rest
  }

  /** `getEventDataByEventId`: the document whose id is `eventId`, else the
      first document whose `eventId` field is `eventId`, else none. */
  function GetEventData(events: map<string, Doc>, order: seq<string>, eventId: string): (r: Option<EventRef>)
    ensures eventId in events ==> r == Some(EventRef(eventId, events[eventId]))
    ensures r.Some? ==> r.value.id in events && r.value.data == events[r.value.id]
    ensures r.Some? && r.value.id != eventId ==> HasEventId(events, r.value.id, eventId)
    ensures r.None? <==>
      eventId !in events && forall k :: 0 <= k < |order| ==> !HasEventId(events, order[k], eventId)
  {
    if eventId in events then Some(EventRef(eventId, events[eventId]))
    else
      match QueryByEventId(events, order, eventId)
      case None => None
      case Some(id) => Some(EventRef(id, events[id]))
  }

  // ---------------------------------------------------------------------
  // Category keys

  /** The keys whose display label is spelt out. */
  const FixedLabelKeys: set<string> :=
    {"foodStations", "lateNightSnacks", "kidsMenu", "culturalRegional", "dietSpecific", "bbq"}

  /** The other keys, all lower-case words. */
  const PlainKeys: set<string> := {
    "appetizers", "salads", "soups", "entrees", "pasta", "sides", "breads",
    "desserts", "beverages", "buffet", "brunch", "other"}

  /** The closed set of category keys the guest interface understands. */
  const CategoryKeys: set<string> := PlainKeys + FixedLabelKeys

  /** Older singular and synonym spellings, keyed by their lower-cased form. */
  const LegacyKeys: map<string, string> := map[
    "appetizer" := "appetizers", "salad" := "salads", "soup" := "soups",
    "entree" := "entrees", "dessert" := "desserts", "drink" := "beverages",
    "drinks" := "beverages", "beverage" := "beverages",
    "appetizers" := "appetizers", "salads" := "salads", "soups" := "soups",
    "entrees" := "entrees", "desserts" := "desserts", "beverages" := "beverages",
    "buffet" := "buffet", "brunch" := "brunch", "bbq" := "bbq", "other" := "other"]

  lemma LegacyKeysAreKeys(lower: string)
    requires lower in LegacyKeys
    ensures LegacyKeys[lower] in CategoryKeys
  {
  }

  lemma PlainKeysAreLowerCase(k: string)
    requires k in PlainKeys
    ensures forall i :: 0 <= i < |k| ==> 'a' <= k[i] <= 'z'
  {
  }

  lemma KeysAreWords(k: string)
    requires k in CategoryKeys
    ensures Letters(k)
  {
    if k in PlainKeys {
      PlainKeysAreLowerCase(k);
    }
  }

  /** A character of the regex class `[\s_-]`. */
  predicate IsSeparator(c: char)
  {
    IsSpace(c) || c == '_' || c == '-'
  }

  /** `s.replace(/[\s_-]/g, "")` */
  function Compact(s: string): (r: string)
    ensures |r| <= |s|
    ensures forall i :: 0 <= i < |r| ==> !IsSeparator(r[i])
    ensures (forall i :: 0 <= i < |s| ==> !IsSeparator(s[i])) ==> r == s
  {
    if s == [] then []
    else if IsSeparator(s[0]) then Compact(s[1..])
    else [s[0]] + Compact(s[1..])
  }

  /** `s.replace(/\s/g, "")` */
  function RemoveSpaces(s: string): (r: string)
    ensures |r| <= |s|
    ensures NoSpace(r)
    ensures NoSpace(s) ==> r == s
  {
    if s == [] then []
    else if IsSpace(s[0]) then RemoveSpaces(s[1..])
    else [s[0]] + RemoveSpaces(s[1..])
  }

  /** `s.replace(/&/g, "and")` */
  function ReplaceAmpersands(s: string): (r: string)
    ensures forall i :: 0 <= i < |r| ==> r[i] != '&'
    ensures (forall i :: 0 <= i < |s| ==> s[i] != '&') ==> r == s
  {
    if s == [] then []
    else (if s[0] == '&' then "and" else [s[0]]) + ReplaceAmpersands(s[1..])
  }

  /** `s.replace(/[/]/g, " ").replace(/[_-]/g, " ")` */
  function SeparatorsToSpaces(s: string): (r: string)
    ensures |r| == |s|
    ensures forall i :: 0 <= i < |r| ==> r[i] != '/' && r[i] != '_' && r[i] != '-'
    ensures (forall i :: 0 <= i < |s| ==> s[i] != '/' && s[i] != '_' && s[i] != '-') ==> r == s
  {
    if s == [] then []
    else [if s[0] == '/' || s[0] == '_' || s[0] == '-' then ' ' else s[0]] + SeparatorsToSpaces(s[1..])
  }

  /** `s.replace(/\s+/g, " ")`: every run of white space becomes one space. */
  function CollapseSpaces(s: string): (r: string)
    ensures |r| <= |s|
    ensures NoSpace(s) ==> r == s
    decreases |s|
  {
    if s == [] then []
    else if IsSpace(s[0]) then
      var rest := TrimStart(s);
      assert rest == s[|s| - |rest|..];
      " " + CollapseSpaces(rest)
    else [s[0]] + CollapseSpaces(s[1..])
  }

  /** The lower-cased, trimmed category text the table lookups use. */
  function Lowered(raw: string): string
  {
    Trim(ToLower(Trim(raw)))
  }

  /** The camel-case keys matched after dropping case and separators. */
  function CamelKey(compact: string): (r: Option<string>)
    ensures r.Some? ==> r.value in FixedLabelKeys
  {
    if compact == "foodstations" then Some("foodStations")
    else if compact == "latenightsnacks" then Some("lateNightSnacks")
    else if compact == "kidsmenu" then Some("kidsMenu")
    else if compact == "culturalregional" then Some("culturalRegional")
    else if compact == "dietspecific" then Some("dietSpecific")
    else None
  }

  /** The best-effort label clean-up: '&' read as "and", '/', '_' and '-'
      read as spaces, runs of white space collapsed, then all white space
      dropped. */
  function CleanedCompact(lower: string): string
  {
    RemoveSpaces(Trim(CollapseSpaces(SeparatorsToSpaces(ReplaceAmpersands(lower)))))
  }

  /** The keys recognised from the cleaned label, "other" for the rest. */
  function LabelKey(cleanedCompact: string): (r: string)
    ensures r in CategoryKeys
  {
    if cleanedCompact == "foodstations" then "foodStations"
    else if cleanedCompact == "latenightsnacks" then "lateNightSnacks"
    else if cleanedCompact == "kidsmenu" then "kidsMenu"
    else if cleanedCompact == "culturalregional" || cleanedCompact == "culturalandregional" then "culturalRegional"
    else if cleanedCompact == "dietspecific" || cleanedCompact == "dietandspecific" then "dietSpecific"
    else "other"
  }

  /** The table's own entry for a lower-cased text. */
  function TableLookup(lower: string): (r: Option<string>)
    ensures r.Some? <==> lower in LegacyKeys
    ensures r.Some? ==> r.value == LegacyKeys[lower] && r.value in CategoryKeys
  {
    if lower in LegacyKeys then (LegacyKeysAreKeys(lower); Some(LegacyKeys[lower])) else None
  }

  /** The key of a lower-cased text that is not itself a key: camel-case
      match first, then the table, then the cleaned label. */
  function KeyFromLowered(lower: string): (r: string)
    ensures r in CategoryKeys
  {
    match CamelKey(Compact(lower))
    case Some(k) => k
    case None =>
      match TableLookup(lower)
      case Some(k) => k
      case None => LabelKey(CleanedCompact(lower))
  }

  /** `normalizeCategoryKey` with the table consulted for its own entries
      only: the category key of a raw category text. */
  function NormalizeCategoryKey(raw: string): (r: string)
    ensures r in CategoryKeys
    ensures IsBlank(raw) ==> r == "other"
  {
    var rawStr := Trim(raw);
    if rawStr == "" then OtherIsKey(); "other"
    else if rawStr in CategoryKeys then rawStr
    else KeyFromLowered(Lowered(raw))
  }

  lemma OtherIsKey()
    ensures "other" in CategoryKeys
  {
  }

  lemma EmptyIsNoKey()
    ensures "" !in CategoryKeys
  {
  }

  /** What the table lookup `map[lower]` yields on a plain object: one of
      its own entries, a member every object inherits, or nothing. */
  datatype Lookup = Entry(key: string) | InheritedConstructor | InheritedPrototype | Missing

  /** The lookup as written: a lower-cased name that is not an own entry
      but names a member inherited from `Object.prototype` still yields a
      (truthy) value. Of those members only `constructor` and `__proto__`
      are spelt in lower case. */
  function TableLookupAsWritten(lower: string): (r: Lookup)
    ensures TableLookup(lower).Some? ==> r == Entry(TableLookup(lower).value)
    ensures r.Missing? <==> TableLookup(lower).None? && lower != "constructor" && lower != "__proto__"
  {
    match TableLookup(lower)
    case Some(k) => Entry(k)
    case None =>
      if lower == "constructor" then InheritedConstructor
      else if lower == "__proto__" then InheritedPrototype
      else Missing
  }

  /** `KeyFromLowered` with the lookup as written. */
  function KeyFromLoweredAsWritten(lower: string): Lookup
  {
    match CamelKey(Compact(lower))
    case Some(k) => Entry(k)
    case None =>
      var hit := TableLookupAsWritten(lower);
      if hit.Missing? then Entry(LabelKey(CleanedCompact(lower))) else hit
  }

  /** `normalizeCategoryKey` as written, with the inherited-member lookup. */
  function NormalizeCategoryKeyAsWritten(raw: string): Lookup
  {
    var rawStr := Trim(raw);
    if rawStr == "" then Entry("other")
    else if rawStr in CategoryKeys then Entry(rawStr)
    else KeyFromLoweredAsWritten(Lowered(raw))
  }

  lemma KeyFromLoweredAgrees(lower: string)
    requires lower != "constructor" && lower != "__proto__"
    ensures KeyFromLoweredAsWritten(lower) == Entry(KeyFromLowered(lower))
  {
  }

  /** The as-written function agrees with the corrected one on every input
      whose lower-cased text is not an inherited member's name. */
  lemma AsWrittenAgreesElsewhere(raw: string)
    requires Lowered(raw) != "constructor" && Lowered(raw) != "__proto__"
    ensures NormalizeCategoryKeyAsWritten(raw) == Entry(NormalizeCategoryKey(raw))
  {
    KeyFromLoweredAgrees(Lowered(raw));
  }

  /** A name made of lower-case ASCII letters and '_'. */
  predicate LowerName(s: string)
  {
    forall i :: 0 <= i < |s| ==> 'a' <= s[i] <= 'z' || s[i] == '_'
  }

  /** A word made of lower-case ASCII letters only. */
  predicate LowerWord(s: string)
  {
    forall i :: 0 <= i < |s| ==> 'a' <= s[i] <= 'z'
  }

  /** A lower-case name is its own trimmed, lowered form. */
  lemma LowerNameFolds(s: string)
    requires LowerName(s)
    ensures NoSpace(s) && Trim(s) == s && ToLower(s) == s && Lowered(s) == s
  {
    LowerNameIsPlain(s);
    LoweredFixed(s);
  }

  lemma LowerNameIsPlain(s: string)
    requires LowerName(s)
    ensures NoSpace(s) && ToLower(s) == s
  {
    GraphicNoSpace(s);
    ToLowerNoCapitals(s);
  }

  /** A text without white space or capitals is its own lowered form. */
  lemma LoweredFixed(s: string)
    requires NoSpace(s) && ToLower(s) == s
    ensures Trim(s) == s && Lowered(s) == s
  {
    TrimNoSpace(s);
  }

  /** A lower-case word has no separator to drop. */
  lemma LowerWordCompacts(w: string)
    requires LowerWord(w)
    ensures LowerName(w) && Compact(w) == w
  {
    GraphicNoSpace(w);
    NoSeparators(w);
  }

  lemma ProtoCompacts()
    ensures Compact("__proto__") == "proto"
  {
    assert "__proto__"[1..] == "_proto__";
    assert "_proto__"[1..] == "proto__";
    assert "__"[1..] == "_";
    assert "_"[1..] == "";
    assert Compact("__") == "";
    assert "proto__" == "proto" + "__";
    ProtoTail("proto", "__");
  }

  /** Dropping separators from a word followed by separators. */
  lemma {:induction false} ProtoTail(w: string, t: string)
    requires forall i :: 0 <= i < |w| ==> !IsSeparator(w[i])
    requires Compact(t) == ""
    ensures Compact(w + t) == w
  {
    if w != [] {
      assert (w + t)[1..] == w[1..] + t;
      ProtoTail(w[1..], t);
    } else {
      assert w + t == t;
    }
  }

  /** As written, the category text "constructor" yields the inherited
      `Object` constructor and "__proto__" the prototype object, neither of
      them a category key; the corrected function gives "other" for
      "constructor". */
  lemma InheritedNamesEscapeTheKeySet()
    ensures NormalizeCategoryKeyAsWritten("constructor") == InheritedConstructor
    ensures NormalizeCategoryKeyAsWritten("__proto__") == InheritedPrototype
    ensures NormalizeCategoryKey("constructor") == "other"
  {
    ConstructorFinding();
    ConstructorCorrected();
    ProtoFinding();
  }

  /** A text that is already lowered, and is not blank and not a key, is
      normalised through the lowered-text steps. */
  lemma NormalizeLoweredText(w: string)
    requires NoSpace(w) && ToLower(w) == w && w != [] && w !in CategoryKeys
    ensures NormalizeCategoryKey(w) == KeyFromLowered(w)
    ensures NormalizeCategoryKeyAsWritten(w) == KeyFromLoweredAsWritten(w)
  {
    LoweredFixed(w);
  }

  /** A word of lower-case letters passes the label clean-up unchanged. */
  lemma {:induction false} WordCleans(w: string)
    requires LowerWord(w)
    ensures CleanedCompact(w) == w
  {
    GraphicNoSpace(w);
    TrimNoSpace(w);
    calc {
      CleanedCompact(w);
      RemoveSpaces(Trim(CollapseSpaces(SeparatorsToSpaces(ReplaceAmpersands(w)))));
      { assert ReplaceAmpersands(w) == w; }
      RemoveSpaces(Trim(CollapseSpaces(SeparatorsToSpaces(w))));
      { assert SeparatorsToSpaces(w) == w; }
      RemoveSpaces(Trim(CollapseSpaces(w)));
      { assert CollapseSpaces(w) == w; }
      RemoveSpaces(Trim(w));
      RemoveSpaces(w);
      w;
    }
  }

  lemma ConstructorIsLowerWord()
    ensures LowerWord("constructor")
  {
  }

  lemma ConstructorIsPlainWord()
    ensures NoSpace("constructor") && ToLower("constructor") == "constructor"
    ensures Compact("constructor") == "constructor" && CleanedCompact("constructor") == "constructor"
  {
    ConstructorIsLowerWord();
    LowerWordCompacts("constructor");
    LowerNameIsPlain("constructor");
    WordCleans("constructor");
  }

  lemma ConstructorIsNoKey()
    ensures "constructor" !in CategoryKeys && "constructor" !in LegacyKeys
  {
  }

  lemma ConstructorFinding()
    ensures NormalizeCategoryKeyAsWritten("constructor") == InheritedConstructor
  {
    ConstructorIsPlainWord();
    ConstructorIsNoKey();
    NormalizeLoweredText("constructor");
    assert TableLookupAsWritten("constructor") == InheritedConstructor;
  }

  lemma ConstructorLabel()
    ensures CamelKey("constructor") == None && LabelKey("constructor") == "other"
  {
  }

  lemma ConstructorCorrected()
    ensures NormalizeCategoryKey("constructor") == "other"
  {
    ConstructorIsPlainWord();
    ConstructorIsNoKey();
    ConstructorLabel();
    NormalizeLoweredText("constructor");
  }

  lemma ProtoIsLowerName()
    ensures LowerName("__proto__")
  {
  }

  lemma ProtoIsPlainName()
    ensures NoSpace("__proto__") && ToLower("__proto__") == "__proto__"
    ensures Compact("__proto__") == "proto"
  {
    ProtoIsLowerName();
    LowerNameIsPlain("__proto__");
    ProtoCompacts();
  }

  lemma ProtoIsNoKey()
    ensures "__proto__" !in CategoryKeys && "__proto__" !in LegacyKeys
    ensures CamelKey("proto") == None
  {
  }

  lemma ProtoFinding()
    ensures NormalizeCategoryKeyAsWritten("__proto__") == InheritedPrototype
  {
    ProtoIsPlainName();
    ProtoIsNoKey();
    NormalizeLoweredText("__proto__");
    assert TableLookupAsWritten("__proto__") == InheritedPrototype;
  }

  /** Every key is its own normal form. */
  lemma KeyIsFixed(k: string)
    requires k in CategoryKeys
    ensures NormalizeCategoryKey(k) == k
  {
    KeysAreWords(k);
    LettersFold(k);
    EmptyIsNoKey();
  }

  /** Normalising twice is normalising once. */
  lemma NormalizeCategoryKeyIdempotent(raw: string)
    ensures NormalizeCategoryKey(NormalizeCategoryKey(raw)) == NormalizeCategoryKey(raw)
  {
    KeyIsFixed(NormalizeCategoryKey(raw));
  }

  /** The keys spelt in camel case: the fixed-label keys other than "bbq". */
  const CamelKeys: set<string> :=
    {"foodStations", "lateNightSnacks", "kidsMenu", "culturalRegional", "dietSpecific"}

  /** Dropping separators distributes over concatenation. */
  lemma {:induction false} CompactAppend(a: string, b: string)
    ensures Compact(a + b) == Compact(a) + Compact(b)
  {
    if a == [] {
      assert a + b == b;
    } else {
      assert (a + b)[1..] == a[1..] + b;
      CompactAppend(a[1..], b);
    }
  }

  lemma FoodStationsLowers()
    ensures ToLower("foodStations") == "foodstations"
  {
  }

  lemma LateNightSnacksLowers()
    ensures ToLower("lateNightSnacks") == "latenightsnacks"
  {
  }

  lemma KidsMenuLowers()
    ensures ToLower("kidsMenu") == "kidsmenu"
  {
  }

  lemma CulturalRegionalLowers()
    ensures ToLower("culturalRegional") == "culturalregional"
  {
  }

  lemma DietSpecificLowers()
    ensures ToLower("dietSpecific") == "dietspecific"
  {
  }

  /** A camel-case key, lower-cased, is recognised as itself. */
  lemma CamelKeyOfLowered(k: string)
    requires k in CamelKeys
    ensures CamelKey(ToLower(k)) == Some(k)
  {
    if k == "foodStations" {
      FoodStationsLowers();
    } else if k == "lateNightSnacks" {
      LateNightSnacksLowers();
    } else if k == "kidsMenu" {
      KidsMenuLowers();
    } else if k == "culturalRegional" {
      CulturalRegionalLowers();
    } else {
      DietSpecificLowers();
    }
  }

  /** The other keys are lower-case already and are no camel-case spelling. */
  lemma CamelKeyOfOtherKeys(k: string)
    requires k in CategoryKeys && k !in CamelKeys
    ensures CamelKey(ToLower(k)) == None
  {
    assert k in PlainKeys || k == "bbq";
    if k in PlainKeys {
      PlainKeysAreLowerCase(k);
    }
    ToLowerNoCapitals(k);
  }

  /** Two keys with the same lower-case form are the same key, when one of
      them is a camel-case key. */
  lemma LowerDistinguishesKeys(k: string, other: string)
    requires k in CamelKeys && other in CategoryKeys
    requires ToLower(other) == ToLower(k)
    ensures other == k
  {
    CamelKeyOfLowered(k);
    if other in CamelKeys {
      CamelKeyOfLowered(other);
    } else {
      CamelKeyOfOtherKeys(other);
    }
  }

  /** A key, trimmed and lowered, is its lower-case form, which has no
      separator to drop. */
  lemma KeyLowers(k: string)
    requires k in CategoryKeys
    ensures Lowered(k) == ToLower(k) && Compact(ToLower(k)) == ToLower(k)
  {
    KeysAreWords(k);
    LettersFold(k);
    LowerWordCompacts(ToLower(k));
    LowerNameFolds(ToLower(k));
  }

  /** Matching ignores case and the separators space, '_' and '-': any text
      that folds to the lower-case form of a camel-case key gives that key. */
  lemma CaseAndSeparatorsIgnored(raw: string, k: string)
    requires k in CamelKeys
    requires Compact(Lowered(raw)) == ToLower(k)
    ensures NormalizeCategoryKey(raw) == k
  {
    CamelKeyOfLowered(k);
    var rawStr := Trim(raw);
    if rawStr == "" {
      assert false;
    } else if rawStr in CategoryKeys {
      KeyLowers(rawStr);
      LowerDistinguishesKeys(k, rawStr);
    }
  }

  /** A separator between two lower-case words is dropped. */
  lemma {:induction false} JoinedWords(a: string, sep: char, b: string, joined: string)
    requires LowerWord(a) && LowerWord(b) && IsSeparator(sep)
    requires joined == a + [sep] + b
    ensures Compact(joined) == a + b
  {
    CompactAppend(a + [sep], b);
    CompactAppend(a, [sep]);
    LowerWordCompacts(a);
    LowerWordCompacts(b);
    assert Compact([sep]) == [];
  }

  /** Two lower-case words around one character, as a trimmed text. */
  lemma TrimJoined(a: string, sep: char, b: string)
    requires LowerWord(a) && LowerWord(b) && a != [] && b != []
    ensures Trim(a + [sep] + b) == a + [sep] + b
  {
    var s := a + [sep] + b;
    assert s[0] == a[0] && s[|s| - 1] == b[|b| - 1];
    AsciiGraphicNotSpace(a[0]);
    AsciiGraphicNotSpace(b[|b| - 1]);
  }

  /** "Food Stations" has no surrounding whitespace. */
  lemma FoodStationsSpacedTrims()
    ensures Trim("Food Stations") == "Food Stations"
  {
    var s := "Food Stations";
    assert !IsSpace(s[0]) && !IsSpace(s[|s| - 1]);
  }

  /** "Food Stations" lowers to "food stations". */
  lemma FoodStationsSpacedLowers()
    ensures ToLower("Food Stations") == "food" + [' '] + "stations"
  {
  }

  /** "Food Stations", trimmed and lowered, is "food stations". */
  lemma FoodStationsSpacedFolds(raw: string)
    requires raw == "Food Stations"
    ensures Lowered(raw) == "food" + [' '] + "stations"
  {
    FoodStationsSpacedTrims();
    FoodStationsSpacedLowers();
    assert LowerWord("food") && LowerWord("stations");
    TrimJoined("food", ' ', "stations");
  }

  /** The spaced spelling compacts to "foodstations". */
  lemma FoodStationsSpaceDrops(l: string)
    requires l == "food" + [' '] + "stations"
    ensures Compact(l) == "foodstations"
  {
    assert LowerWord("food") && LowerWord("stations");
    JoinedWords("food", ' ', "stations", l);
  }

  /** The snake-case spelling compacts to "foodstations". */
  lemma FoodStationsUnderscoreDrops(l: string)
    requires l == "food" + ['_'] + "stations"
    ensures Compact(l) == "foodstations"
  {
    assert LowerWord("food") && LowerWord("stations");
    JoinedWords("food", '_', "stations", l);
  }

  /** "Food Stations" folds to "foodstations". */
  lemma FoodStationsSpaced(raw: string)
    requires raw == "Food Stations"
    ensures Compact(Lowered(raw)) == "foodstations"
  {
    FoodStationsSpacedFolds(raw);
    FoodStationsSpaceDrops(Lowered(raw));
  }

  /** "food_stations" has no surrounding whitespace. */
  lemma FoodStationsSnakeTrims()
    ensures Trim("food_stations") == "food_stations"
  {
    var s := "food_stations";
    assert !IsSpace(s[0]) && !IsSpace(s[|s| - 1]);
  }

  /** "food_stations" is already lower case. */
  lemma FoodStationsSnakeLowers()
    ensures ToLower("food_stations") == "food" + ['_'] + "stations"
  {
  }

  /** "food_stations", trimmed and lowered, is itself. */
  lemma FoodStationsSnakeFolds(raw: string)
    requires raw == "food_stations"
    ensures Lowered(raw) == "food" + ['_'] + "stations"
  {
    FoodStationsSnakeTrims();
    FoodStationsSnakeLowers();
    assert LowerWord("food") && LowerWord("stations");
    TrimJoined("food", '_', "stations");
  }

  /** "food_stations" folds to "foodstations". */
  lemma FoodStationsSnake(raw: string)
    requires raw == "food_stations"
    ensures Compact(Lowered(raw)) == "foodstations"
  {
    FoodStationsSnakeFolds(raw);
    FoodStationsUnderscoreDrops(Lowered(raw));
  }

  /** "foodstations" folds to itself. */
  lemma FoodStationsRun()
    ensures Compact(Lowered("foodstations")) == "foodstations"
  {
    assert LowerWord("foodstations");
    LowerWordCompacts("foodstations");
    LowerNameFolds("foodstations");
  }

  /** The three spellings of the food-station category all give its key,
      shown as "Food Stations". */
  lemma FoodStationsSpellings()
    ensures NormalizeCategoryKey("Food Stations") == "foodStations"
    ensures NormalizeCategoryKey("food_stations") == "foodStations"
    ensures NormalizeCategoryKey("foodstations") == "foodStations"
    ensures CategoryLabel("foodStations") == "Food Stations"
  {
    FoodStationsLowers();
    FoodStationsSpaced("Food Stations");
    CaseAndSeparatorsIgnored("Food Stations", "foodStations");
    FoodStationsSnake("food_stations");
    CaseAndSeparatorsIgnored("food_stations", "foodStations");
    FoodStationsRun();
    CaseAndSeparatorsIgnored("foodstations", "foodStations");
  }

  /** Blank text lowers and compacts to nothing. */
  lemma BlankLowersToEmpty(raw: string)
    ensures Trim(raw) == "" ==> Lowered(raw) == "" && Compact(Lowered(raw)) == ""
  {
  }

  /** The table's spellings are lower-case words and no camel-case spelling. */
  lemma LegacyNamesAreWords(w: string)
    requires w in LegacyKeys
    ensures LowerWord(w) && CamelKey(w) == None
  {
  }

  /** Synonyms and older singular spellings map through the table. */
  lemma LegacySpellings(raw: string)
    requires Trim(raw) !in CategoryKeys
    requires Lowered(raw) in LegacyKeys
    ensures NormalizeCategoryKey(raw) == LegacyKeys[Lowered(raw)]
  {
    BlankLowersToEmpty(raw);
    EmptyIsNoLegacyKey();
    LegacyNamesAreWords(Lowered(raw));
    LowerWordCompacts(Lowered(raw));
  }

  /** The empty text is no spelling of the table. */
  lemma EmptyIsNoLegacyKey()
    ensures "" !in LegacyKeys
  {
  }

  /** "drink" is a lower-case word. */
  lemma DrinkIsLowerWord()
    ensures LowerWord("drink")
  {
  }

  /** "drink" folds to itself. */
  lemma DrinkFolds()
    ensures Trim("drink") == "drink" && Lowered("drink") == "drink"
    ensures Compact("drink") == "drink"
  {
    DrinkIsLowerWord();
    LowerWordCompacts("drink");
    LowerNameFolds("drink");
  }

  /** "drink" is neither a key nor a camel-case spelling. */
  lemma DrinkIsNoKey()
    ensures "drink" !in CategoryKeys && CamelKey("drink") == None
    ensures "drink" in LegacyKeys && LegacyKeys["drink"] == "beverages"
  {
  }

  /** The synonym "drink" is read as the key "beverages". */
  lemma DrinkSpelling()
    ensures NormalizeCategoryKey("drink") == "beverages"
  {
    DrinkFolds();
    DrinkIsNoKey();
    LegacySpellings("drink");
  }

  lemma NoSeparators(w: string)
    requires NoSpace(w)
    requires forall i :: 0 <= i < |w| ==> w[i] != '_' && w[i] != '-'
    ensures forall i :: 0 <= i < |w| ==> !IsSeparator(w[i])
  {
  }

  // ---------------------------------------------------------------------
  // Category labels

  /** `s.replace(/([A-Z])/g, " $1")`: a space before every capital. */
  function SpaceBeforeCapitals(s: string): (r: string)
    ensures NoCapitals(s) ==> r == s
  {
    if s == [] then []
    else (if 'A' <= s[0] <= 'Z' then [' ', s[0]] else [s[0]]) + SpaceBeforeCapitals(s[1..])
  }

  /** The characters the regex `.` does not match. */
  predicate IsLineTerminator(c: char)
  {
    c == '\n' || c == '\r' || c == '\U{2028}' || c == '\U{2029}'
  }

  /** `s.replace(/^./, c => c.toUpperCase())` */
  function UpperFirst(s: string): (r: string)
    ensures |r| == |s|
    ensures s != [] && !IsLineTerminator(s[0]) ==> r == [UpperChar(s[0])] + s[1..]
    ensures s == [] || IsLineTerminator(s[0]) ==> r == s
  {
    if s != [] && !IsLineTerminator(s[0]) then [UpperChar(s[0])] + s[1..] else s
  }

  /** `categoryLabelFromKey`: six keys have fixed labels; any other key is
      split before its capitals and its first letter upper-cased. */
  function CategoryLabel(key: string): (r: string)
    ensures key == "foodStations" ==> r == "Food Stations"
    ensures key == "lateNightSnacks" ==> r == "Late-Night Snacks"
    ensures key == "kidsMenu" ==> r == "Kids Menu"
    ensures key == "culturalRegional" ==> r == "Cultural / Regional"
    ensures key == "dietSpecific" ==> r == "Diet-Specific"
    ensures key == "bbq" ==> r == "BBQ"
  {
    if key == "foodStations" then "Food Stations"
    else if key == "lateNightSnacks" then "Late-Night Snacks"
    else if key == "kidsMenu" then "Kids Menu"
    else if key == "culturalRegional" then "Cultural / Regional"
    else if key == "dietSpecific" then "Diet-Specific"
    else if key == "bbq" then "BBQ"
    else UpperFirst(SpaceBeforeCapitals(if key == "" then "Other" else key))
  }

  /** Any other key without capitals is shown with its first letter
      upper-cased and otherwise unchanged. */
  lemma LabelCapitalisesFirstLetter(key: string)
    requires key !in FixedLabelKeys && key != [] && !IsLineTerminator(key[0])
    requires NoCapitals(key)
    ensures CategoryLabel(key) == [UpperChar(key[0])] + key[1..]
  {
  }

  /** Every category key gets a label that starts with a capital letter. */
  lemma KeyLabelsStartWithCapital(k: string)
    requires k in CategoryKeys
    ensures CategoryLabel(k) != [] && 'A' <= CategoryLabel(k)[0] <= 'Z'
  {
    if k in PlainKeys {
      PlainKeysAreLowerCase(k);
      assert k !in FixedLabelKeys;
      LabelCapitalisesFirstLetter(k);
    }
  }

  // ---------------------------------------------------------------------
  // Vegetarian flag

  /** The folded food type `foodType.toString().trim().toLowerCase()`. */
  function FoldedFoodType(foodType: string): string
  {
    ToLower(Trim(foodType))
  }

  /** The vegetarian words do not contain "non"; the non-vegetarian ones do. */
  lemma VegWordsLackNon()
    ensures !Contains("veg", "non") && !Contains("vegetarian", "non")
    ensures Contains("non-veg", "non") && Contains("nonveg", "non") && Contains("non vegetarian", "non")
  {
    forall k | 0 <= k <= 7
      ensures !InfixAt("vegetarian", "non", k)
    {
      assert "vegetarian"[k..k + 3][0] == "vegetarian"[k] != 'n';
    }
    assert "veg"[0] != 'n';
    assert InfixAt("non-veg", "non", 0) && InfixAt("nonveg", "non", 0) && InfixAt("non vegetarian", "non", 0);
  }

  /** `deriveIsVeg`: a boolean `isVeg` wins; otherwise the food type decides
      (Some(true) vegetarian, Some(false) not, None unknown). */
  function DeriveIsVeg(isVeg: Value, foodType: string): (r: Option<bool>)
    ensures isVeg.Bool? ==> r == Some(isVeg.b)
    ensures !isVeg.Bool? ==>
      (r == Some(true) <==> FoldedFoodType(foodType) == "veg" || FoldedFoodType(foodType) == "vegetarian")
    ensures !isVeg.Bool? ==> (r == Some(false) <==> Contains(FoldedFoodType(foodType), "non"))
    ensures !isVeg.Bool? && FoldedFoodType(foodType) == "" ==> r == None
  {
    if isVeg.Bool? then Some(isVeg.b)
    else
      var ft := FoldedFoodType(foodType);
      VegWordsLackNon();
      if ft == "" then None
      else if ft == "veg" || ft == "vegetarian" then Some(true)
      else if ft == "non-veg" || ft == "nonveg" || ft == "non vegetarian" then Some(false)
      else if Contains(ft, "non") then Some(false)
      else None
  }

  // ---------------------------------------------------------------------
  // The handler

  /** `v ?? null` */
  function OrNull(v: Value): (r: Value)
    ensures r != Undefined
    ensures v != Undefined && v != Null ==> r == v
  {
    if v == Undefined then Null else v
  }

  /** One item of the result. */
  datatype MenuItem = MenuItem(
    id: string,
    name: Value,
    description: string,
    price: Value,
    categoryKey: string,
    categoryLabel: string,
    isVeg: Option<bool>,
    foodType: Value)

  /** The item built from menu document `id` with fields `d`. */
  function ItemOf(id: string, d: Doc): (item: MenuItem)
    ensures item.id == id
  {
    var key := NormalizeCategoryKey(CoalescedText(Field(d, "category")));
    MenuItem(id,
             Or(Or(Field(d, "name"), Field(d, "title")), Str("Menu item")),
             CoalescedText(Field(d, "description")),
             OrNull(Field(d, "price")),
             key,
             CategoryLabel(key),
             DeriveIsVeg(Field(d, "isVeg"), CoalescedText(Field(d, "foodType"))),
             OrNull(Field(d, "foodType")))
  }

  /** The menu document exists and is not disabled. */
  predicate Offered(menuItems: map<string, Doc>, id: string)
  {
    id in menuItems && Field(menuItems[id], "isDisabled") != Bool(true)
  }

  /** An entry the selection keeps: a string that is not blank. */
  predicate KeptEntry(v: Value)
  {
    v.Str? && !IsBlank(v.s)
  }

  /** The event's selection: the string entries of `selectedMenuItemIds`
      that are not blank, in order (none when the field is not an array). */
  function SelectedIds(data: Doc): (ids: seq<string>)
    ensures forall k :: 0 <= k < |ids| ==> !IsBlank(ids[k])
    ensures !Field(data, "selectedMenuItemIds").Arr? ==> ids == []
    ensures Field(data, "selectedMenuItemIds").Arr? ==> ids == NonBlankStrings(Field(data, "selectedMenuItemIds").items)
  {
    match Field(data, "selectedMenuItemIds")
    case Arr(xs) => NonBlankStrings(xs)
    case _ => []
  }

  /** `xs.filter(x => typeof x === "string" && x.trim().length > 0)`: the
      ids are non-blank and no more than the entries;
      `NonBlankStringsPosition`, `NonBlankStringsOrder` and
      `NonBlankStringsOrigin` say which they are. */
  function NonBlankStrings(xs: seq<Value>): (ids: seq<string>)
    ensures |ids| <= |xs|
    ensures forall k :: 0 <= k < |ids| ==> !IsBlank(ids[k])
  {
    if xs == [] then []
    else
      var rest := NonBlankStrings(xs[1..]);
      if KeptEntry(xs[0]) then [xs[0].s] + rest else rest
  }

  /** Filtering distributes over concatenation. */
  lemma {:induction false} NonBlankStringsAppend(xs: seq<Value>, ys: seq<Value>)
    ensures NonBlankStrings(xs + ys) == NonBlankStrings(xs) + NonBlankStrings(ys)
  {
    if xs == [] {
      assert xs + ys == ys;
    } else {
      assert (xs + ys)[0] == xs[0];
      assert (xs + ys)[1..] == xs[1..] + ys;
      NonBlankStringsAppend(xs[1..], ys);
    }
  }

  /** The number of entries kept before position `j`. */
  function Rank(xs: seq<Value>, j: nat): nat
    requires j <= |xs|
  {
    |NonBlankStrings(xs[..j])|
  }

  /** A kept entry sits in the selection at its rank: the k-th non-blank
      string of `xs` is the k-th id. */
  lemma NonBlankStringsPosition(xs: seq<Value>, j: nat)
    requires j < |xs| && KeptEntry(xs[j])
    ensures Rank(xs, j) < |NonBlankStrings(xs)|
    ensures NonBlankStrings(xs)[Rank(xs, j)] == xs[j].s
  {
    assert xs == xs[..j] + xs[j..];
    NonBlankStringsAppend(xs[..j], xs[j..]);
    assert xs[j..][0] == xs[j];
  }

  /** Kept entries keep their relative order. */
  lemma NonBlankStringsOrder(xs: seq<Value>, i: nat, j: nat)
    requires i < j < |xs| && KeptEntry(xs[i])
    ensures Rank(xs, i) < Rank(xs, j)
  {
    assert xs[..j] == xs[..i] + xs[i..j];
    NonBlankStringsAppend(xs[..i], xs[i..j]);
    assert xs[i..j][0] == xs[i];
  }

  /** The entry at position `j` is kept, as the k-th id. */
  predicate KeptAt(xs: seq<Value>, j: int, k: int)
  {
    0 <= j < |xs| && KeptEntry(xs[j]) && Rank(xs, j) == k &&
    k < |NonBlankStrings(xs)| && NonBlankStrings(xs)[k] == xs[j].s
  }

  /** Appending one entry keeps it exactly when it is a non-blank string. */
  lemma NonBlankStringsSnoc(pre: seq<Value>, x: Value)
    ensures NonBlankStrings(pre + [x]) == NonBlankStrings(pre) + (if KeptEntry(x) then [x.s] else [])
  {
    NonBlankStringsAppend(pre, [x]);
    assert [x][1..] == [];
  }

  /** An entry kept in a prefix is kept at the same rank in the whole. */
  lemma KeptAtExtends(pre: seq<Value>, x: Value, j: int, k: int)
    requires KeptAt(pre, j, k)
    ensures KeptAt(pre + [x], j, k)
  {
    var xs := pre + [x];
    assert xs[..j] == pre[..j];
    NonBlankStringsSnoc(pre, x);
  }

  lemma SomeKeptAtExtends(pre: seq<Value>, x: Value, k: int)
    requires exists j :: KeptAt(pre, j, k)
    ensures exists j :: KeptAt(pre + [x], j, k)
  {
    var j :| KeptAt(pre, j, k);
    KeptAtExtends(pre, x, j, k);
  }

  /** The ids past those of a prefix come from the entry appended. */
  lemma LastKeptAt(pre: seq<Value>, x: Value, k: int)
    requires |NonBlankStrings(pre)| <= k < |NonBlankStrings(pre + [x])|
    ensures KeptAt(pre + [x], |pre|, k)
  {
    NonBlankStringsSnoc(pre, x);
    assert (pre + [x])[..|pre|] == pre;
  }

  /** Every id of the selection is the entry kept at its rank. */
  lemma {:induction false} NonBlankStringsOrigin(xs: seq<Value>, k: nat)
    requires k < |NonBlankStrings(xs)|
    ensures exists j :: KeptAt(xs, j, k)
  {
    var n := |xs| - 1;
    var pre := xs[..n];
    assert xs == pre + [xs[n]];
    NonBlankStringsSnoc(pre, xs[n]);
    if k < |NonBlankStrings(pre)| {
      NonBlankStringsOrigin(pre, k);
      SomeKeptAtExtends(pre, xs[n], k);
    } else {
      LastKeptAt(pre, xs[n], k);
    }
  }

  /** The items the menu collection offers: every document that exists
      and is not disabled, built into its item by `build`. */
  function OfferingsBy<T>(menuItems: map<string, Doc>, build: (string, Doc) -> T): map<string, T>
  {
    map id | id in menuItems && Offered(menuItems, id) :: build(id, menuItems[id])
  }

  /** The offered items, as the handler builds them. */
  function Offerings(menuItems: map<string, Doc>): map<string, MenuItem>
  {
    OfferingsBy(menuItems, ItemOf)
  }

  lemma OfferingsContents(menuItems: map<string, Doc>)
    ensures forall id :: id in Offerings(menuItems) <==> Offered(menuItems, id)
    ensures forall id :: id in Offerings(menuItems) ==>
      id in menuItems && Offerings(menuItems)[id] == ItemOf(id, menuItems[id]) && Offerings(menuItems)[id].id == id
  {
  }

  /** The lookup table the handler fills: each selected id that `table`
      holds, mapped to its entry. */
  function Catalog<T>(ids: seq<string>, table: map<string, T>): map<string, T>
  {
    if ids == [] then map[]
    else
      var id := ids[|ids| - 1];
      var prev := Catalog(ids[..|ids| - 1], table);
      if id in table then prev[id := table[id]] else prev
  }

  /** The table holds exactly the selected ids `table` holds, each with its
      entry there. */
  lemma {:induction false} CatalogContents<T>(ids: seq<string>, table: map<string, T>)
    ensures forall id :: id in Catalog(ids, table) <==> id in ids && id in table
    ensures forall id :: id in Catalog(ids, table) ==> id in table && Catalog(ids, table)[id] == table[id]
  {
    if ids != [] {
      var pre := ids[..|ids| - 1];
      CatalogContents(pre, table);
      assert ids == pre + [ids[|ids| - 1]];
    }
  }

  lemma CatalogSnoc<T>(ids: seq<string>, id: string, table: map<string, T>)
    ensures Catalog(ids + [id], table) ==
      if id in table then Catalog(ids, table)[id := table[id]] else Catalog(ids, table)
  {
    assert (ids + [id])[..|ids|] == ids;
  }

  /** The entries of `ids`, in order, that the table holds. */
  function InOrder<T>(ids: seq<string>, byId: map<string, T>): seq<T>
  {
    if ids == [] then []
    else InOrder(ids[..|ids| - 1], byId) + (if ids[|ids| - 1] in byId then [byId[ids[|ids| - 1]]] else [])
  }

  /** The ids of `ids` that `table` holds, in order, repeats kept. */
  function Kept<T>(ids: seq<string>, table: map<string, T>): seq<string>
  {
    if ids == [] then []
    else Kept(ids[..|ids| - 1], table) + (if ids[|ids| - 1] in table then [ids[|ids| - 1]] else [])
  }

  function IdsOf(items: seq<MenuItem>): (r: seq<string>)
    ensures |r| == |items|
    ensures forall k :: 0 <= k < |items| ==> r[k] == items[k].id
  {
    if items == [] then [] else IdsOf(items[..|items| - 1]) + [items[|items| - 1].id]
  }

  /** Walking the selection over a table that holds exactly the selected
      ids `table` holds keeps those ids, in order and with repeats, each
      with its entry. */
  lemma {:induction false} InOrderFollowsSelection(ids: seq<string>, byId: map<string, MenuItem>, table: map<string, MenuItem>)
    requires forall k :: 0 <= k < |ids| ==> (ids[k] in byId <==> ids[k] in table)
    requires forall id :: id in byId ==> id in table && byId[id] == table[id]
    requires forall id :: id in table ==> table[id].id == id
    ensures IdsOf(InOrder(ids, byId)) == Kept(ids, table)
    ensures forall k :: 0 <= k < |InOrder(ids, byId)| ==>
      InOrder(ids, byId)[k].id in table && InOrder(ids, byId)[k] == table[InOrder(ids, byId)[k].id]
  {
    if ids != [] {
      var pre := ids[..|ids| - 1];
      InOrderFollowsSelection(pre, byId, table);
      var a := InOrder(pre, byId);
      var last := ids[|ids| - 1];
      var tail := if last in byId then [byId[last]] else [];
      assert InOrder(ids, byId) == a + tail;
      assert IdsOf(a + tail) == IdsOf(a) + IdsOf(tail) by {
        if tail != [] {
          assert (a + tail)[..|a|] == a;
        }
      }
    }
  }

  /** An offered document's built item is its entry among the offerings. */
  lemma OfferedEntry<T>(menuItems: map<string, Doc>, build: (string, Doc) -> T, id: string)
    ensures Offered(menuItems, id) <==> id in OfferingsBy(menuItems, build)
    ensures Offered(menuItems, id) ==> OfferingsBy(menuItems, build)[id] == build(id, menuItems[id])
  {
  }

  /** The `mapById` loop: menu documents are fetched in batches of ten
      selected ids; every offered one is built into its item by `build` and
      entered in the table. */
  method BuildCatalog<T>(ids: seq<string>, menuItems: map<string, Doc>, build: (string, Doc) -> T)
    returns (byId: map<string, T>)
    ensures byId == Catalog(ids, OfferingsBy(menuItems, build))
  {
    var batches := Chunk(ids, 10);
    byId := map[];
    var n := 0;
    while n < |batches|
      invariant 0 <= n <= |batches|
      invariant byId == Catalog(Concat(batches[..n]), OfferingsBy(menuItems, build))
    {
      byId := AddBatch(byId, batches[n], menuItems, build, Concat(batches[..n]));
      assert batches[..n + 1] == batches[..n] + [batches[n]];
      ConcatSnoc(batches[..n], batches[n]);
      n := n + 1;
    }
    assert batches[..|batches|] == batches;
  }

  /** One batch of the `mapById` loop: the batch's offered documents are
      entered in the table, which then covers the ids seen so far. */
  method AddBatch<T>(byId: map<string, T>, batch: seq<string>, menuItems: map<string, Doc>,
                     build: (string, Doc) -> T, ghost seen: seq<string>)
    returns (next: map<string, T>)
    requires byId == Catalog(seen, OfferingsBy(menuItems, build))
    ensures next == Catalog(seen + batch, OfferingsBy(menuItems, build))
  {
    next := byId;
    var m := 0;
    assert seen + batch[..0] == seen;
    while m < |batch|
      invariant 0 <= m <= |batch|
      invariant next == Catalog(seen + batch[..m], OfferingsBy(menuItems, build))
    {
      var id := batch[m];
      CatalogSnoc(seen + batch[..m], id, OfferingsBy(menuItems, build));
      OfferedEntry(menuItems, build, id);
      assert seen + batch[..m + 1] == (seen + batch[..m]) + [id];
      if Offered(menuItems, id) {
        next := next[id := build(id, menuItems[id])];
      }
      m := m + 1;
    }
    assert batch[..|batch|] == batch;
  }

  /** The `items` loop: walk the selection and keep the ids the table holds. */
  method OrderItems<T>(ids: seq<string>, byId: map<string, T>) returns (items: seq<T>)
    ensures items == InOrder(ids, byId)
  {
    items := [];
    for i := 0 to |ids|
      invariant items == InOrder(ids[..i], byId)
    {
      assert ids[..i + 1][..i] == ids[..i];
      if ids[i] in byId {
        items := items + [byId[ids[i]]];
      }
    }
    assert ids[..|ids|] == ids;
  }

  /** The members every plain object inherits from `Object.prototype`
      under a name a document id can take. */
  const InheritedNames: set<string> := {
    "constructor", "hasOwnProperty", "isPrototypeOf", "propertyIsEnumerable",
    "toLocaleString", "toString", "valueOf"}

  /** What `items.push(mapById[id])` pushes when `mapById` is a plain
      object: the table's own entry, or an inherited member (truthy). */
  datatype Pushed<T> = OwnEntry(entry: T) | InheritedMember(name: string)

  /** The `items` walk as written: an id the table does not hold but that
      names an inherited member still passes `if (mapById[id])`. */
  function InOrderAsWritten<T>(ids: seq<string>, byId: map<string, T>): seq<Pushed<T>>
  {
    if ids == [] then []
    else
      var id := ids[|ids| - 1];
      InOrderAsWritten(ids[..|ids| - 1], byId) +
        (if id in byId then [OwnEntry(byId[id])] else if id in InheritedNames then [InheritedMember(id)] else [])
  }

  /** The entries, each as the table's own. */
  function Owned<T>(items: seq<T>): (r: seq<Pushed<T>>)
    ensures |r| == |items|
    ensures forall k :: 0 <= k < |items| ==> r[k] == OwnEntry(items[k])
  {
    seq(|items|, k requires 0 <= k < |items| => OwnEntry(items[k]))
  }

  /** Both walks agree on a selection whose every inherited name is a
      real entry of the table. */
  lemma {:induction false} InOrderAsWrittenAgrees<T>(ids: seq<string>, byId: map<string, T>)
    requires forall k :: 0 <= k < |ids| ==> ids[k] in byId || ids[k] !in InheritedNames
    ensures InOrderAsWritten(ids, byId) == Owned(InOrder(ids, byId))
  {
    if ids != [] {
      var pre := ids[..|ids| - 1];
      InOrderAsWrittenAgrees(pre, byId);
      var id := ids[|ids| - 1];
      var a := InOrder(pre, byId);
      var tail := if id in byId then [byId[id]] else [];
      assert InOrder(ids, byId) == a + tail;
      assert Owned(a + tail) == Owned(a) + Owned(tail);
    }
  }

  /** `toString` is one of the inherited names. */
  lemma ToStringIsInherited()
    ensures "toString" in InheritedNames
  {
  }

  /** As written, an event that selects "toString" with no menu item of
      that id gets the inherited function pushed as an item; the corrected
      walk leaves it out. */
  lemma InheritedIdsReachTheItems(byId: map<string, MenuItem>)
    requires "toString" !in byId
    ensures InOrderAsWritten(["toString"], byId) == [InheritedMember("toString")]
    ensures InOrder(["toString"], byId) == []
  {
    ToStringIsInherited();
    assert ["toString"][..0] == [];
  }

  /** The handler's successful result. */
  datatype Output = Output(eventId: string, eventName: Value, items: seq<MenuItem>)

  /** `getSelectedMenuItemsForInvitation`, with the invitations, the events
      (and the order the fallback query scans them) and the menu items as
      maps. "" stands for a missing invitation id or token. */
  function SelectedMenuItems(
    invitations: map<string, Invitation>, events: map<string, Doc>, order: seq<string>,
    menuItems: map<string, Doc>, invitationId: string, token: string, now: int): Result<Output>
  {
    if invitationId == "" || token == "" then Err(InvalidArgument)
    else
      match CheckAccess(invitations, invitationId, token, now)
      case Err(c) => Err(c)
      case Ok(inv) =>
        if inv.eventId == "" then Err(FailedPrecondition)
        else
          match GetEventData(events, order, inv.eventId)
          case None => Err(NotFound)
          case Some(ev) =>
            var ids := SelectedIds(ev.data);
            var name := Or(Field(ev.data, "name"), Str("Event"));
            if ids == [] then Ok(Output(inv.eventId, name, []))
            else Ok(Output(inv.eventId, name, InOrder(ids, Catalog(ids, Offerings(menuItems)))))
  }

  /** The guard chain, as error codes: each error arises exactly in its
      case, checked in order. */
  lemma SelectedMenuItemsErrors(
    invitations: map<string, Invitation>, events: map<string, Doc>, order: seq<string>,
    menuItems: map<string, Doc>, invitationId: string, token: string, now: int)
    ensures var r := SelectedMenuItems(invitations, events, order, menuItems, invitationId, token, now);
      var argsOk := invitationId != "" && token != "";
      var access := CheckAccess(invitations, invitationId, token, now);
      && (r == Err(InvalidArgument) <==> !argsOk)
      && (r == Err(PermissionDenied) <==> argsOk && invitationId in invitations && invitations[invitationId].token != token)
      && (r == Err(FailedPrecondition) <==>
            (argsOk && access != Err(PermissionDenied) && invitationId in invitations &&
             (Expired(invitations[invitationId], now) || invitations[invitationId].eventId == "")))
      && (r == Err(NotFound) <==>
            (argsOk &&
             (invitationId !in invitations ||
              (access.Ok? && access.value.eventId != "" && GetEventData(events, order, access.value.eventId).None?))))
      && (r.Ok? <==>
            (argsOk && access.Ok? && access.value.eventId != "" &&
             GetEventData(events, order, access.value.eventId).Some?))
  {
  }

  /** A successful result lists exactly the offered selected items of the
      event, in the event's order, each built from its own document. */
  lemma SelectedMenuItemsInEventOrder(
    invitations: map<string, Invitation>, events: map<string, Doc>, order: seq<string>,
    menuItems: map<string, Doc>, invitationId: string, token: string, now: int)
    requires SelectedMenuItems(invitations, events, order, menuItems, invitationId, token, now).Ok?
    ensures var out := SelectedMenuItems(invitations, events, order, menuItems, invitationId, token, now).value;
      var inv := invitations[invitationId];
      var ev := GetEventData(events, order, inv.eventId).value;
      && out.eventId == inv.eventId
      && IdsOf(out.items) == Kept(SelectedIds(ev.data), Offerings(menuItems))
      && (forall k :: 0 <= k < |out.items| ==>
            Offered(menuItems, out.items[k].id) && out.items[k] == ItemOf(out.items[k].id, menuItems[out.items[k].id]))
  {
    var inv := invitations[invitationId];
    var ev := GetEventData(events, order, inv.eventId).value;
    var ids := SelectedIds(ev.data);
    var table := Offerings(menuItems);
    var byId := Catalog(ids, table);
    OfferingsContents(menuItems);
    CatalogContents(ids, table);
    InOrderFollowsSelection(ids, byId, table);
  }

  /** The handler, with its two loops. */
  method GetSelectedMenuItemsForInvitation(
    invitations: map<string, Invitation>, events: map<string, Doc>, order: seq<string>,
    menuItems: map<string, Doc>, invitationId: string, token: string, now: int) returns (r: Result<Output>)
    ensures r == SelectedMenuItems(invitations, events, order, menuItems, invitationId, token, now)
  {
    if invitationId == "" || token == "" {
      return Err(InvalidArgument);
    }
    var access := CheckAccess(invitations, invitationId, token, now);
    if access.Err? {
      return Err(access.code);
    }
    var eventId := access.value.eventId;
    if eventId == "" {
      return Err(FailedPrecondition);
    }
    var ev := GetEventData(events, order, eventId);
    if ev.None? {
      return Err(NotFound);
    }
    var data := ev.value.data;
    var ids := SelectedIds(data);
    var name := Or(Field(data, "name"), Str("Event"));
    if ids == [] {
      return Ok(Output(eventId, name, []));
    }
    var byId := BuildCatalog(ids, menuItems, ItemOf);
    var items := OrderItems(ids, byId);
    r := Ok(Output(eventId, name, items));
  }
}
