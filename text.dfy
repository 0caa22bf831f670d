/** String helpers with the JavaScript semantics the functions rely on:
    `trim`, the regex class `\s`, `toLowerCase` on ASCII letters, decimal
    rendering of integers, `String.prototype.length` (UTF-16 code units) and
    the e-mail pattern `^[^\s@]+@[^\s@]+\.[^\s@]+$`. */
module Text {
  import opened Js

  /** The characters `trim()` removes and the regex class `\s` matches:
      ECMAScript WhiteSpace and LineTerminator. */
  predicate IsSpace(c: char)
  {
    c == '\t' || c == '\n' || c == '\U{000B}' || c == '\U{000C}' || c == '\r' ||
    c == ' ' || c == '\U{00A0}' || c == '\U{1680}' ||
    ('\U{2000}' <= c <= '\U{200A}') ||
    c == '\U{2028}' || c == '\U{2029}' || c == '\U{202F}' || c == '\U{205F}' ||
    c == '\U{3000}' || c == '\U{FEFF}'
  }

  /** Visible ASCII characters are not white space. */
  lemma AsciiGraphicNotSpace(c: char)
    requires '!' <= c <= '~'
    ensures !IsSpace(c)
  {
  }

  predicate NoSpace(s: string)
  {
    forall i :: 0 <= i < |s| ==> !IsSpace(s[i])
  }

  function TrimStart(s: string): (r: string)
    ensures |r| <= |s| && r == s[|s| - |r|..]
    ensures r == [] || !IsSpace(r[0])
    ensures forall i :: 0 <= i < |s| - |r| ==> IsSpace(s[i])
  {
    if s != [] && IsSpace(s[0]) then TrimStart(s[1..]) else s
  }

  function TrimEnd(s: string): (r: string)
    ensures |r| <= |s| && r == s[..|r|]
    ensures r == [] || !IsSpace(r[|r| - 1])
    ensures forall i :: |r| <= i < |s| ==> IsSpace(s[i])
  {
    if s != [] && IsSpace(s[|s| - 1]) then TrimEnd(s[..|s| - 1]) else s
  }

  /** `s.trim()`: the longest infix of `s` that neither starts nor ends with
      white space, obtained by dropping white space at both ends. */
  function Trim(s: string): (r: string)
    ensures |r| <= |s|
    ensures r == [] || (!IsSpace(r[0]) && !IsSpace(r[|r| - 1]))
  {
    TrimEnd(TrimStart(s))
  }

  /** What trimming leaves is the infix of the original that starts where
      the leading white space ends; only white space lies around it. */
  lemma TrimIsInfix(s: string)
    ensures InfixAt(s, Trim(s), |s| - |TrimStart(s)|)
    ensures SpaceOutside(s, |s| - |TrimStart(s)|, |s| - |TrimStart(s)| + |Trim(s)|)
  {
    var t := TrimStart(s);
    var r := TrimEnd(t);
    var k := |s| - |t|;
    assert t == s[k..];
    forall i | k + |r| <= i < |s|
      ensures IsSpace(s[i])
    {
      assert s[i] == t[i - k];
    }
  }

  /** Every character of `s` outside the index range [lo, hi) is white space. */
  predicate SpaceOutside(s: string, lo: int, hi: int)
  {
    forall i :: 0 <= i < |s| && (i < lo || hi <= i) ==> IsSpace(s[i])
  }

  /** A string is blank when trimming it leaves nothing. */
  predicate IsBlank(s: string)
  {
    Trim(s) == ""
  }

  lemma {:induction false} TrimIdempotent(s: string)
    ensures Trim(Trim(s)) == Trim(s)
  {
    var r := Trim(s);
    assert TrimStart(r) == r;
    assert TrimEnd(r) == r;
  }

  /** A string of visible ASCII characters has no white space. */
  lemma GraphicNoSpace(s: string)
    requires forall i :: 0 <= i < |s| ==> '!' <= s[i] <= '~'
    ensures NoSpace(s)
  {
    forall i | 0 <= i < |s|
      ensures !IsSpace(s[i])
    {
      AsciiGraphicNotSpace(s[i]);
    }
  }

  /** A string without white space is its own trim. */
  lemma TrimNoSpace(s: string)
    requires NoSpace(s)
    ensures Trim(s) == s
  {
    if s != [] {
      assert !IsSpace(s[0]) && !IsSpace(s[|s| - 1]);
    }
  }

  /** Blank strings are exactly the strings made only of white space. */
  lemma {:induction false} BlankIffAllSpace(s: string)
    ensures IsBlank(s) <==> forall i :: 0 <= i < |s| ==> IsSpace(s[i])
  {
    var t := TrimStart(s);
    if !forall i :: 0 <= i < |s| ==> IsSpace(s[i]) {
      var i :| 0 <= i < |s| && !IsSpace(s[i]);
      assert |t| > 0;
      assert t[0] == s[|s| - |t|];
      assert !IsSpace(t[0]);
    }
  }

  /** The decimal rendering of an integer, with a leading '-' when negative. */
  function IntToString(n: int): (s: string)
    ensures 1 <= |s|
  {
    if n < 0 then "-" + NatToString(-n) else NatToString(n)
  }

  /** `toLowerCase()` on one character; only ASCII letters are mapped. */
  function LowerChar(c: char): char
  {
    if 'A' <= c <= 'Z' then (c as int + 32) as char else c
  }

  /** `toUpperCase()` on one character; only ASCII letters are mapped. */
  function UpperChar(c: char): char
  {
    if 'a' <= c <= 'z' then (c as int - 32) as char else c
  }

  function ToLower(s: string): (r: string)
    ensures |r| == |s|
    ensures forall i :: 0 <= i < |s| ==> r[i] == LowerChar(s[i])
  {
    seq(|s|, i requires 0 <= i < |s| => LowerChar(s[i]))
  }

  /** No ASCII capital letter occurs in `s`. */
  predicate NoCapitals(s: string)
  {
    forall i :: 0 <= i < |s| ==> !('A' <= s[i] <= 'Z')
  }

  lemma ToLowerNoCapitals(s: string)
    requires NoCapitals(s)
    ensures ToLower(s) == s
  {
    var r := ToLower(s);
    assert forall i :: 0 <= i < |r| ==> r[i] == s[i];
  }

  /** `s` consists of ASCII letters only. */
  predicate Letters(s: string)
  {
    forall i :: 0 <= i < |s| ==> 'a' <= s[i] <= 'z' || 'A' <= s[i] <= 'Z'
  }

  /** A word of letters is its own trim, and folds to a word of lower-case
      letters. */
  lemma LettersFold(s: string)
    requires Letters(s)
    ensures NoSpace(s) && Trim(s) == s
    ensures forall i :: 0 <= i < |ToLower(s)| ==> 'a' <= ToLower(s)[i] <= 'z'
  {
    forall i | 0 <= i < |s|
      ensures !IsSpace(s[i])
    {
    }
    TrimNoSpace(s);
    LettersLower(s);
  }

  lemma LettersLower(s: string)
    requires Letters(s)
    ensures forall i :: 0 <= i < |ToLower(s)| ==> 'a' <= ToLower(s)[i] <= 'z'
  {
    var r := ToLower(s);
    forall i | 0 <= i < |r|
      ensures 'a' <= r[i] <= 'z'
    {
      LetterLowers(s[i]);
    }
  }

  lemma LetterLowers(c: char)
    requires 'a' <= c <= 'z' || 'A' <= c <= 'Z'
    ensures 'a' <= LowerChar(c) <= 'z'
  {
  }

  /** `sub` occurs in `s` starting at index `k`. */
  predicate InfixAt(s: string, sub: string, k: int)
  {
    0 <= k <= |s| - |sub| && s[k..k + |sub|] == sub
  }

  /** `s.includes(sub)` */
  predicate Contains(s: string, sub: string)
  {
    exists k | 0 <= k <= |s| - |sub| :: InfixAt(s, sub, k)
  }

  function DigitChar(d: nat): (c: char)
    requires d < 10
    ensures '0' <= c <= '9'
    ensures c as int - '0' as int == d
  {
    (d + '0' as int) as char
  }

  /** The decimal rendering of a natural number, as template literals and
      `String(n)` produce it. */
  function NatToString(n: nat): (s: string)
    ensures 1 <= |s|
    ensures n < 10 <==> |s| == 1
    ensures forall i :: 0 <= i < |s| ==> '0' <= s[i] <= '9'
  {
    if n < 10 then [DigitChar(n)] else NatToString(n / 10) + [DigitChar(n % 10)]
  }

  /** Distinct numbers have distinct decimal renderings. */
  lemma {:induction false} NatToStringInjective(m: nat, n: nat)
    requires NatToString(m) == NatToString(n)
    ensures m == n
  {
    var sm, sn := NatToString(m), NatToString(n);
    if m < 10 || n < 10 {
      assert m < 10 && n < 10;
      assert sm[0] == sn[0];
    } else {
      assert sm[|sm| - 1] == sn[|sn| - 1];
      assert m % 10 == n % 10;
      assert sm[..|sm| - 1] == NatToString(m / 10);
      assert sn[..|sn| - 1] == NatToString(n / 10);
      NatToStringInjective(m / 10, n / 10);
    }
  }

  /** A string with neither white space nor '@' (the regex class `[^\s@]`). */
  predicate Plain(s: string)
  {
    forall i :: 0 <= i < |s| ==> !IsSpace(s[i]) && s[i] != '@'
  }

  /** `/^[^\s@]+@[^\s@]+\.[^\s@]+$/.test(s)`: a non-empty local part, one
      '@', a non-empty label, a '.', and a non-empty rest, none containing
      white space or another '@'. */
  predicate IsEmailShaped(s: string)
  {
    exists at, dot :: 0 < at && at + 1 < dot && dot + 1 < |s| && s[at] == '@' && s[dot] == '.' &&
      Plain(s[..at]) && Plain(s[at + 1..dot]) && Plain(s[dot + 1..])
  }

  /** An e-mail-shaped string holds exactly one '@' and no white space. */
  lemma EmailShapeHasOneAt(s: string)
    requires IsEmailShaped(s)
    ensures NoSpace(s)
    ensures exists at :: 0 < at < |s| && s[at] == '@' && (forall j :: 0 <= j < |s| && j != at ==> s[j] != '@')
  {
    var at, dot :| 0 < at && at + 1 < dot && dot + 1 < |s| && s[at] == '@' && s[dot] == '.' &&
      Plain(s[..at]) && Plain(s[at + 1..dot]) && Plain(s[dot + 1..]);
    forall j | 0 <= j < |s| && j != at
      ensures s[j] != '@' && !IsSpace(s[j])
    {
      if j < at {
        assert s[j] == s[..at][j];
      } else if j < dot {
        assert s[j] == s[at + 1..dot][j - at - 1];
      } else if j > dot {
        assert s[j] == s[dot + 1..][j - dot - 1];
      }
    }
  }

  /** `String.prototype.length`: the number of UTF-16 code units; characters
      outside the Basic Multilingual Plane take two. */
  function Utf16Length(s: string): (n: nat)
    ensures |s| <= n <= 2 * |s|
  {
    if s == [] then 0 else (if s[0] as int > 0xFFFF then 2 else 1) + Utf16Length(s[1..])
  }

  /** `(v ?? "").toString()` for the values whose rendering is modelled:
      null and undefined give "", strings themselves, booleans and integers
      their usual rendering; other numbers, arrays and objects read as "". */
  function CoalescedText(v: Value): (s: string)
    ensures v.Str? ==> s == v.s
    ensures v == Undefined || v == Null ==> s == ""
  {
    match v
    case Str(s) => s
    case Bool(b) => if b then "true" else "false"
    case Num(x) => if IsInteger(x) then IntToString(x.Floor) else ""
    case _ => ""
  }

  /** `(v || "").toString().trim()`: a falsy value reads as "". */
  function TrimmedString(v: Value): (s: string)
    ensures !Truthy(v) ==> s == ""
    ensures v.Str? ==> s == Trim(v.s)
  {
    Trim(CoalescedText(Or(v, Str(""))))
  }
}
