/**
 * NUL-terminated character buffers, as the C code keeps every string of the
 * QuarkLink context and every output buffer.  A Dafny `string` here is the
 * text before the terminator; a `seq<char>` or `array<char>` is the buffer.
 */
module CStrings {

  const NUL: char := '\0'

  /** A text that can be stored as a C string: it holds no terminator. */
  predicate NoNul(s: string) {
    NUL !in s
  }

  /** A text that fits, with its terminator, in an array of `capacity` bytes. */
  predicate Fits(s: string, capacity: int) {
    NoNul(s) && |s| < capacity
  }

  /** The string a C reader (strlen, strcmp, printf "%s") sees in a buffer:
      everything before the first NUL, or the whole buffer if it has none. */
  function CString(b: seq<char>): (s: string)
    ensures NoNul(s) && s <= b
    ensures |s| < |b| ==> b[|s|] == NUL
  {
    if b == [] || b[0] == NUL then [] else [b[0]] + CString(b[1..])
  }

  /** Reading back a buffer that holds `s` followed by a terminator gives `s`. */
  lemma {:induction false} CStringOfTerminated(b: seq<char>, s: string)
    requires NoNul(s) && |s| < |b|
    requires b[..|s|] == s && b[|s|] == NUL
    ensures CString(b) == s
  {
    if s != [] {
      assert b[0] == s[0];
      assert b[1..][..|s| - 1] == s[1..];
      CStringOfTerminated(b[1..], s[1..]);
    }
  }

  /** strcpy / sprintf into a fixed-size buffer: the characters of `s`, then
      a terminator; the bytes after the terminator are left as they were. */
  method WriteCString(buf: array<char>, s: string)
    requires |s| < buf.Length
    modifies buf
    ensures buf[..|s|] == s && buf[|s|] == NUL
    ensures buf[|s| + 1..] == old(buf[|s| + 1..])
    ensures NoNul(s) ==> CString(buf[..]) == s
  {
    var i := 0;
    while i < |s|
      invariant 0 <= i <= |s|
      invariant buf[..i] == s[..i]
      invariant buf[i..] == old(buf[i..])
    {
      buf[i] := s[i];
      i := i + 1;
    }
    buf[|s|] := NUL;
    if NoNul(s) {
      CStringOfTerminated(buf[..], s);
    }
  }
}
