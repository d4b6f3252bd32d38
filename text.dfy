/**
 * String helpers shared by the frontend (JavaScript) and the gateway (Python).
 * Whitespace is each runtime's own set; case folding is its ASCII part.
 */
module Text {

  /**
   * The ASCII part of `toLowerCase` / `str.lower` on one character: A-Z
   * become a-z and every other character is kept, letters outside ASCII included.
   */
  function LowerChar(c: char): char {
    if 'A' <= c <= 'Z' then (c as int + 32) as char else c
  }

  function Lower(s: string): (r: string)
    ensures |r| == |s|
    ensures forall i :: 0 <= i < |s| ==> r[i] == LowerChar(s[i])
  {
    if s == [] then [] else [LowerChar(s[0])] + Lower(s[1..])
  }

  /**
   * `s.length` in JavaScript: UTF-16 code units, one per character up to
   * U+FFFF and a surrogate pair for each character above it.
   */
  function JsLength(s: string): (n: nat)
    ensures |s| <= n <= 2 * |s|
    ensures n == |s| <==> forall i :: 0 <= i < |s| ==> s[i] <= '\U{FFFF}'
  {
    if s == [] then 0 else (if s[0] <= '\U{FFFF}' then 1 else 2) + JsLength(s[1..])
  }

  /** Which runtime's whitespace a trim removes: the two sets differ. */
  datatype Runtime = JavaScript | Python

  /** What `String.prototype.trim` removes: ECMAScript's WhiteSpace (every Zs space, tab, VT, FF, BOM) and LineTerminator. */
  predicate IsJsSpace(c: char) {
    || c == '\t' || c == '\n' || c == '\U{B}' || c == '\U{C}' || c == '\r' || c == ' '
    || c == '\U{A0}' || c == '\U{1680}' || ('\U{2000}' <= c <= '\U{200A}') || c == '\U{2028}' || c == '\U{2029}'
    || c == '\U{202F}' || c == '\U{205F}' || c == '\U{3000}' || c == '\U{FEFF}'
  }

  /** What `str.strip()` removes: the characters for which `str.isspace()` holds. */
  predicate IsPySpace(c: char) {
    || ('\t' <= c <= '\r') || ('\U{1C}' <= c <= ' ') || c == '\U{85}'
    || c == '\U{A0}' || c == '\U{1680}' || ('\U{2000}' <= c <= '\U{200A}') || c == '\U{2028}' || c == '\U{2029}'
    || c == '\U{202F}' || c == '\U{205F}' || c == '\U{3000}'
  }

  predicate IsSpace(c: char, rt: Runtime) {
    match rt
    case JavaScript => IsJsSpace(c)
    case Python => IsPySpace(c)
  }

  function TrimStart(s: string, rt: Runtime): (r: string)
    ensures |r| <= |s| && r == s[|s| - |r|..]
    ensures r == [] || !IsSpace(r[0], rt)
    ensures forall i :: 0 <= i < |s| - |r| ==> IsSpace(s[i], rt)
  {
    if s != [] && IsSpace(s[0], rt) then TrimStart(s[1..], rt) else s
  }

  function TrimEnd(s: string, rt: Runtime): (r: string)
    ensures |r| <= |s| && r == s[..|r|]
    ensures r == [] || !IsSpace(r[|r| - 1], rt)
    ensures forall i :: |r| <= i < |s| ==> IsSpace(s[i], rt)
  {
    if s != [] && IsSpace(s[|s| - 1], rt) then TrimEnd(s[..|s| - 1], rt) else s
  }

  /** `s.trim()` in JavaScript, `s.strip()` in Python. */
  function Trim(s: string, rt: Runtime): string {
    TrimStart(TrimEnd(s, rt), rt)
  }

  /** `!s.trim()`: the blank-text guard of the studio's pages and hooks. */
  predicate IsBlank(s: string) {
    Trim(s, JavaScript) == []
  }

  lemma BlankIffAllSpace(s: string)
    ensures IsBlank(s) <==> forall i :: 0 <= i < |s| ==> IsJsSpace(s[i])
  {
    var e := TrimEnd(s, JavaScript);
    if IsBlank(s) {
      assert TrimStart(e, JavaScript) == [];
      forall i | 0 <= i < |s| ensures IsJsSpace(s[i]) {
        if i < |e| { assert s[i] == e[i]; }
      }
    } else {
      assert TrimStart(e, JavaScript) != [];
      var t := TrimStart(e, JavaScript);
      assert t[0] == e[|e| - |t|] == s[|e| - |t|];
    }
  }

  predicate EndsWith(s: string, suffix: string) {
    |suffix| <= |s| && s[|s| - |suffix|..] == suffix
  }

  /** `s.includes(sub)` / `sub in s`. */
  predicate Contains(s: string, sub: string) {
    exists i :: 0 <= i <= |s| - |sub| && MatchAt(s, sub, i)
  }

  predicate MatchAt(s: string, sub: string, i: int)
    requires 0 <= i <= |s| - |sub|
  {
    s[i..i + |sub|] == sub
  }

  /** `name.toLowerCase().endsWith('.wav')` / `name.lower().endswith(".wav")`. */
  predicate IsWavName(name: string) {
    EndsWith(Lower(name), ".wav")
  }

  /** The part of `s` before the first `sep` (`s.split(sep)[0]` in Python). */
  function BeforeFirst(s: string, sep: char): (r: string)
    ensures r <= s
    ensures sep !in r
    ensures |r| < |s| ==> s[|r|] == sep
  {
    if s == [] then [] else if s[0] == sep then [] else [s[0]] + BeforeFirst(s[1..], sep)
  }

  /** The number a string of decimal digits denotes, most significant digit first. */
  function DigitsValue(s: string): int {
    if s == [] then 0 else DigitsValue(s[..|s| - 1]) * 10 + (s[|s| - 1] as int - '0' as int)
  }

  /** The decimal digits of `n`, as Python's `f"{n}"` and JavaScript's `String(n)` write them. */
  function NatToString(n: nat): (r: string)
    ensures r != []
    ensures forall c :: c in r ==> '0' <= c <= '9'
    decreases n
  {
    var d := ['0' + (n % 10) as char];
    if n < 10 then d else NatToString(n / 10) + d
  }

  /** The digits of `n` have no leading zero and read back as `n`. */
  lemma {:induction false} NatToStringReadsBack(n: nat)
    ensures NatToString(n)[0] != '0' || NatToString(n) == "0"
    ensures DigitsValue(NatToString(n)) == n
    decreases n
  {
    if 10 <= n {
      NatToStringReadsBack(n / 10);
      var r := NatToString(n);
      assert r[..|r| - 1] == NatToString(n / 10);
    }
  }
}
