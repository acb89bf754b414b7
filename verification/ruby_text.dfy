/**
 * Ruby strings as the binding sees them.
 *
 * A Ruby `String` is a sequence of characters in some encoding; each
 * character occupies one or more bytes. `String#empty?` and `String#length`
 * count characters, `String#bytesize` counts bytes. The model keeps both
 * views by storing every character as its encoded bytes.
 */
module RubyText {

  newtype byte = x: int | 0 <= x < 256

  /** One encoded character: never zero bytes long. */
  type RubyChar = s: seq<byte> | |s| >= 1 witness [0]

  datatype RubyString = RubyString(chars: seq<RubyChar>)

  /** `String#empty?` */
  predicate IsEmpty(s: RubyString) {
    |s.chars| == 0
  }

  /** The encoded bytes of a string, character after character. */
  function Bytes(cs: seq<RubyChar>): seq<byte>
  {
    if cs == [] then [] else cs[0] + Bytes(cs[1..])
  }

  /** `String#bytesize` */
  function ByteSize(s: RubyString): nat
  {
    |Bytes(s.chars)|
  }

  /** Each character holds at least one byte, so the byte size is never below the character count. */
  lemma {:induction false} ByteSizeAtLeastLength(cs: seq<RubyChar>)
    ensures |Bytes(cs)| >= |cs|
    ensures |Bytes(cs)| == 0 <==> cs == []
  {
    if cs != [] {
      ByteSizeAtLeastLength(cs[1..]);
    }
  }

  /** A string is empty exactly when its byte size is zero. */
  lemma EmptyIffNoBytes(s: RubyString)
    ensures IsEmpty(s) <==> ByteSize(s) == 0
  {
    ByteSizeAtLeastLength(s.chars);
  }

  /** `c * n`: the character `c` repeated `n` times. */
  function Repeat(c: RubyChar, n: nat): (s: RubyString)
    ensures |s.chars| == n
  {
    if n == 0 then RubyString([]) else RubyString([c] + Repeat(c, n - 1).chars)
  }

  lemma {:induction false} RepeatByteSize(c: RubyChar, n: nat)
    ensures ByteSize(Repeat(c, n)) == n * |c|
  {
    if n > 0 {
      RepeatByteSize(c, n - 1);
      var s := Repeat(c, n).chars;
      assert s[1..] == Repeat(c, n - 1).chars;
    }
  }

  // ---------------------------------------------------------------------
  // Integer#to_s, as used by string interpolation.

  function DigitChar(d: nat): (c: char)
    requires d < 10
    ensures '0' <= c <= '9'
  {
    "0123456789"[d]
  }

  function DigitValue(c: char): nat
  {
    if '0' <= c <= '9' then (c as int - '0' as int) as nat else 0
  }

  predicate IsDecimal(s: string)
  {
    |s| >= 1 && (forall i :: 0 <= i < |s| ==> '0' <= s[i] <= '9') && (|s| > 1 ==> s[0] != '0')
  }

  /** The value a string of decimal digits denotes. */
  function DecimalValue(s: string): nat
  {
    if s == [] then 0 else DecimalValue(s[..|s| - 1]) * 10 + DigitValue(s[|s| - 1])
  }

  /** `Integer#to_s` on a non-negative integer: digits, no leading zero. */
  function NatToDecimal(n: nat): (s: string)
    ensures IsDecimal(s)
    ensures DecimalValue(s) == n
  {
    if n < 10 then [DigitChar(n)]
    else
      var prefix := NatToDecimal(n / 10);
      var s := prefix + [DigitChar(n % 10)];
      assert s[..|s| - 1] == prefix;
      s
  }

  /** `Integer#to_s` on any integer: a minus sign before a negative one. */
  function IntToDecimal(i: int): (s: string)
    ensures |s| >= 1
    ensures i >= 0 ==> s == NatToDecimal(i)
    ensures i < 0 ==> s[0] == '-' && s[1..] == NatToDecimal(-i)
  {
    if i >= 0 then NatToDecimal(i) else "-" + NatToDecimal(-i)
  }
}
