/** JavaScript strings are sequences of UTF-16 code units, so `s.length` counts a
    character outside the Basic Multilingual Plane twice. Dafny strings are
    sequences of Unicode scalar values; this module gives the JavaScript length. */
module JsString {

  /** Number of UTF-16 code units needed for the character `c`. */
  function CodeUnits(c: char): (n: nat)
    ensures n == 1 || n == 2
    ensures n == 2 <==> c as int >= 0x1_0000
  {
    if c as int >= 0x1_0000 then 2 else 1
  }

  /** `s.length` as JavaScript computes it. */
  function JsLength(s: string): (n: nat)
    ensures |s| <= n <= 2 * |s|
    ensures n == |s| <==> forall i :: 0 <= i < |s| ==> s[i] as int < 0x1_0000
  {
    if s == [] then 0
    else
      var rest := JsLength(s[1..]);
      assert forall i :: 1 <= i < |s| ==> s[i] == s[1..][i - 1];
      CodeUnits(s[0]) + rest
  }
}
