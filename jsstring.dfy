/** JavaScript string length. A Dafny string is a sequence of Unicode scalar values, while
    JavaScript's `length` counts UTF-16 code units: a character outside the Basic Multilingual
    Plane is stored as a surrogate pair and counts twice. */
module JsString {

  /** Number of UTF-16 code units that encode `c`. */
  function CodeUnits(c: char): nat
  {
    if c as int < 0x1_0000 then 1 else 2
  }

  /** True when `c` is one UTF-16 code unit (lies in the Basic Multilingual Plane). */
  predicate InBmp(c: char)
  {
    c as int < 0x1_0000
  }

  /** The value of `s.length` in JavaScript: at least one and at most two units per character. */
  function Length(s: string): (n: nat)
    ensures |s| <= n <= 2 * |s|
    ensures s != [] ==> n > 0
  {
    if s == [] then 0 else CodeUnits(s[0]) + Length(s[1..])
  }

  /** `length` equals the number of characters exactly when every character is in the
      Basic Multilingual Plane (in particular for plain ASCII text). */
  lemma {:induction false} LengthIsCharCountIffBmp(s: string)
    ensures Length(s) == |s| <==> forall i :: 0 <= i < |s| ==> InBmp(s[i])
  {
    if s != [] {
      LengthIsCharCountIffBmp(s[1..]);
      assert forall i :: 1 <= i < |s| ==> s[i] == s[1..][i - 1];
    }
  }

  /** True when `c` is an ASCII character. */
  predicate IsAscii(c: char)
  {
    c as int < 0x80
  }

  /** Number of bytes of the UTF-8 encoding of `c`. */
  function Utf8Bytes(c: char): nat
  {
    if c as int < 0x80 then 1
    else if c as int < 0x800 then 2
    else if c as int < 0x1_0000 then 3
    else 4
  }

  /** Number of bytes of the UTF-8 encoding of `s`, the encoding Node.js uses when a string is
      written to a response: never fewer than its UTF-16 code units. */
  function Utf8Length(s: string): (n: nat)
    ensures Length(s) <= n
  {
    if s == [] then 0 else Utf8Bytes(s[0]) + Utf8Length(s[1..])
  }

  /** The UTF-8 byte count equals `length` exactly when every character is ASCII. */
  lemma {:induction false} Utf8LengthIsLengthIffAscii(s: string)
    ensures Utf8Length(s) == Length(s) <==> forall i :: 0 <= i < |s| ==> IsAscii(s[i])
  {
    if s != [] {
      Utf8LengthIsLengthIffAscii(s[1..]);
      assert forall i :: 1 <= i < |s| ==> s[i] == s[1..][i - 1];
    }
  }
}
