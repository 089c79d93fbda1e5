/**
  JavaScript strings as sequences of UTF-16 code units (what `length` counts),
  and the emptiness test `!s.trim()` that the chat widget applies to its input.
  White space and line terminators are those of ECMAScript (ECMA-262,
  sections 12.2 "White Space" and 12.3 "Line Terminators"); every one of them
  is a single code unit, so `trim` can be stated unit by unit.
*/
module JsString {

  /** One UTF-16 code unit. */
  newtype CodeUnit = x: int | 0 <= x < 0x1_0000

  /** A JavaScript string value. */
  type JsStr = seq<CodeUnit>

  /** Every character of `s` lies in the Basic Multilingual Plane. */
  predicate IsBmp(s: string) {
    forall i :: 0 <= i < |s| ==> s[i] as int < 0x1_0000
  }

  /** The JavaScript string written in source as the literal `s`. A long literal is written
      as the concatenation of two shorter ones, so that proving `IsBmp` for each stays cheap. */
  function Lit(s: string): (u: JsStr)
    requires IsBmp(s)
    ensures |u| == |s|
    ensures forall i :: 0 <= i < |s| ==> u[i] as int == s[i] as int
  {
    seq(|s|, i requires 0 <= i < |s| => s[i] as int as CodeUnit)
  }

  /** `c` is removed by `String.prototype.trim`: a WhiteSpace or LineTerminator code point. */
  predicate IsTrimUnit(c: CodeUnit) {
    || c == 0x09 || c == 0x0B || c == 0x0C || c == 0x20 || c == 0xA0 || c == 0xFEFF  // TAB VT FF SP NBSP ZWNBSP
    || c == 0x1680 || (0x2000 <= c <= 0x200A) || c == 0x202F || c == 0x205F || c == 0x3000  // the rest of Zs
    || c == 0x0A || c == 0x0D || c == 0x2028 || c == 0x2029  // LF CR LS PS
  }

  /** `s` holds nothing but white space and line terminators. */
  predicate IsBlank(s: JsStr) {
    forall i :: 0 <= i < |s| ==> IsTrimUnit(s[i])
  }

  /** `s` without its leading white space. */
  function TrimStart(s: JsStr): (r: JsStr)
    ensures |r| <= |s| && r == s[|s| - |r|..]
    ensures forall i :: 0 <= i < |s| - |r| ==> IsTrimUnit(s[i])
    ensures r != [] ==> !IsTrimUnit(r[0])
  {
    if s != [] && IsTrimUnit(s[0]) then TrimStart(s[1..]) else s
  }

  /** `s` without its trailing white space. */
  function TrimEnd(s: JsStr): (r: JsStr)
    ensures |r| <= |s| && r == s[..|r|]
    ensures forall i :: |r| <= i < |s| ==> IsTrimUnit(s[i])
    ensures r != [] ==> !IsTrimUnit(r[|r| - 1])
  {
    if s != [] && IsTrimUnit(s[|s| - 1]) then TrimEnd(s[..|s| - 1]) else s
  }

  /** `s.trim()`: the middle part of `s` left once the white space on either side is dropped;
      it is empty exactly when `s` is blank, and otherwise neither starts nor ends with white space. */
  function Trim(s: JsStr): (r: JsStr)
    ensures |r| <= |s|
    ensures r == [] <==> IsBlank(s)
    ensures r != [] ==> !IsTrimUnit(r[0]) && !IsTrimUnit(r[|r| - 1])
    ensures exists k :: 0 <= k <= |s| - |r| && r == s[k..][..|r|]
                        && (forall i :: 0 <= i < k ==> IsTrimUnit(s[i]))
                        && (forall i :: k + |r| <= i < |s| ==> IsTrimUnit(s[i]))
  {
    var t := TrimStart(s);
    var r := TrimEnd(t);
    var k := |s| - |t|;
    assert r == s[k..][..|r|];
    assert forall i :: k + |r| <= i < |s| ==> s[i] == t[i - k];
    r
  }
}
