/** Characters and strings as the frame parser sees them: ASCII character
    classes, the upper-casing applied to every received frame, and the
    Option type used for absent values. */
module Text {

  datatype Option<+T> = None | Some(value: T)

  /** `[A-Z]` */
  predicate IsLetter(c: char) { 'A' <= c <= 'Z' }

  /** `[0-9]`, which is also what `\d` means here (ASCII digits only) */
  predicate IsDigit(c: char) { '0' <= c <= '9' }

  /** `[A-Z0-9]` */
  predicate IsAlnum(c: char) { IsLetter(c) || IsDigit(c) }

  /** `\s` as MicroPython and CircuitPython read it: space, tab, line feed,
      carriage return, vertical tab and form feed (CPython also accepts the
      separators 0x1C to 0x1F) */
  predicate IsSpace(c: char) {
    c == ' ' || c == '\t' || c == '\n' || c == '\r' || c == '\U{0B}' || c == '\U{0C}'
  }

  predicate NoSpace(s: string) {
    forall i :: 0 <= i < |s| ==> !IsSpace(s[i])
  }

  /** `str.upper()` on one ASCII character */
  function UpperChar(c: char): (r: char)
    ensures 'a' <= c <= 'z' ==> IsLetter(r) && r as int == c as int - 32
    ensures !('a' <= c <= 'z') ==> r == c
  {
    if 'a' <= c <= 'z' then (c as int - 32) as char else c
  }

  /** `str.upper()` on an ASCII string: every lower-case letter is replaced by
      its capital and nothing else changes. */
  function Upper(s: string): (r: string)
    ensures |r| == |s|
    ensures forall i :: 0 <= i < |s| ==> r[i] == UpperChar(s[i])
  {
    seq(|s|, i requires 0 <= i < |s| => UpperChar(s[i]))
  }

  /** No lower-case ASCII letter occurs in `s`. */
  predicate NoLower(s: string) {
    forall i :: 0 <= i < |s| ==> !('a' <= s[i] <= 'z')
  }

  /** A frame without lower-case letters is left alone by upper-casing. */
  lemma UpperNoLower(s: string)
    requires NoLower(s)
    ensures Upper(s) == s
  {
  }

  /** Upper-casing twice is upper-casing once: a frame that is already in
      capitals is left alone. */
  lemma UpperIdempotent(s: string)
    ensures Upper(Upper(s)) == Upper(s)
  {
  }

  /** Upper-casing works character by character, so it distributes over
      concatenation. */
  lemma UpperConcat(a: string, b: string)
    ensures Upper(a + b) == Upper(a) + Upper(b)
  {
  }

  /** A prefix one longer is the shorter prefix and one more element. */
  lemma TakeSnoc<T>(f: seq<T>, n: nat)
    requires 0 < n <= |f|
    ensures f[..n] == f[..n - 1] + [f[n - 1]]
  {
  }
}
