/**
 * Result codes of the native library and the check that turns a negative
 * code into a `ResultError` (lib/asherah/error.rb).
 *
 * `check_result!(scope, result)` raises nothing for a non-negative code and
 * `ResultError("#{scope} failed: #{text}")` for a negative one, where `text`
 * comes from the `CODES` table or is "unrecognized". The table is kept as
 * written, including the spelling "eecrypt failed" for -104.
 */
module Error {
  import opened Wrappers
  import opened RubyText

  /** `CODES` */
  const Codes: map<int, string> := map[
    -100 := "not initialized",
    -101 := "already initialized",
    -102 := "get session failed",
    -103 := "encrypt failed",
    -104 := "eecrypt failed"
  ]

  const Unrecognized: string := "unrecognized"

  /** The description of a code: its table entry, or "unrecognized". */
  function Describe(result: int): (text: string)
    ensures result in Codes ==> text == Codes[result]
    ensures result !in Codes ==> text == Unrecognized
  {
    if result in Codes then Codes[result] else "unrecognized"
  }

  /**
   * `check_result!(scope, result)` with the argument types the declaration
   * expects: `None` when nothing is raised, `Some(message)` for the
   * `ResultError` raised.
   */
  function CheckResult(scope: string, result: int): (r: Option<string>)
    ensures r.None? <==> result >= 0
    ensures r.Some? ==> r.value == scope + " failed: " + Describe(result)
  {
    if result < 0 then Some(scope + " failed: " + Describe(result)) else None
  }

  /** The table's domain is exactly the five codes -100 to -104, all negative. */
  lemma CodesDomain()
    ensures Codes.Keys == {-100, -101, -102, -103, -104}
    ensures forall code :: code in Codes ==> code < 0
  {
  }

  /** The table keeps the source's spelling for -104. */
  lemma DecryptFailureSpelling()
    ensures Codes[-104] == "eecrypt failed"
    ensures CheckResult("decrypt", -104) == Some("decrypt failed: eecrypt failed")
  {
    assert Describe(-104) == "eecrypt failed";
    assert "decrypt" + " failed: " + "eecrypt failed" == "decrypt failed: eecrypt failed";
  }

  /** No two codes share a description, and none reads "unrecognized". */
  lemma DescriptionsDistinct(a: int, b: int)
    requires a in Codes && b in Codes && a != b
    ensures Codes[a] != Codes[b]
    ensures Codes[a] != Unrecognized
  {
  }

  /**
   * For a fixed scope the message tells a listed code apart from every other
   * negative code: two negative codes give the same message only when they
   * are the same listed code or both unlisted.
   */
  lemma {:induction false} MessageIdentifiesCode(scope: string, a: int, b: int)
    requires a < 0 && b < 0
    requires CheckResult(scope, a) == CheckResult(scope, b)
    ensures a in Codes ==> a == b
    ensures a !in Codes ==> b !in Codes
  {
    var prefix := scope + " failed: ";
    assert scope + " failed: " + Describe(a) == prefix + Describe(a);
    assert scope + " failed: " + Describe(b) == prefix + Describe(b);
    assert (prefix + Describe(a))[|prefix|..] == Describe(a);
    assert (prefix + Describe(b))[|prefix|..] == Describe(b);
    if a in Codes && b in Codes && a != b {
      DescriptionsDistinct(a, b);
    } else if a in Codes && b !in Codes {
      DescriptionsDistinct(a, if a == -100 then -101 else -100);
    } else if a !in Codes && b in Codes {
      DescriptionsDistinct(b, if b == -100 then -101 else -100);
    }
  }

  // ---------------------------------------------------------------------
  // Ruby is dynamically typed: the declaration takes `(scope, result)` but
  // nothing stops a caller from passing the arguments the other way round.

  /** The Ruby values that reach `check_result!` in this code base. */
  datatype RubyValue = RInt(i: int) | RStr(s: string)

  /** What calling `check_result!` can end in. */
  datatype Raised = NoRaise | ResultError(message: string) | NoMethodError(methodName: string)

  /** `"#{v}"`: string interpolation calls `to_s`. */
  function Interpolate(v: RubyValue): string
  {
    match v
    case RInt(i) => IntToDecimal(i)
    case RStr(s) => s
  }

  /**
   * `check_result!(scope, result)` on arbitrary Ruby values. `result.negative?`
   * is evaluated first; a String has no `negative?`, so such a call raises
   * `NoMethodError` before any message is built.
   */
  function CheckResultDynamic(scope: RubyValue, result: RubyValue): (r: Raised)
    ensures result.RStr? ==> r == NoMethodError("negative?")
    ensures result.RInt? && result.i >= 0 ==> r == NoRaise
    ensures result.RInt? && result.i < 0 ==> r.ResultError?
    ensures result.RInt? && result.i < 0 && scope.RStr? ==>
              r == ResultError(scope.s + " failed: " + Describe(result.i))
  {
    match result
    case RStr(_) => NoMethodError("negative?")
    case RInt(code) =>
      if code < 0 then ResultError(Interpolate(scope) + " failed: " + Describe(code)) else NoRaise
  }

  /** With a String scope and an Integer result the dynamic call is exactly `CheckResult`. */
  lemma DynamicAgreesWithTyped(scope: string, result: int)
    ensures CheckResultDynamic(RStr(scope), RInt(result)) ==
              match CheckResult(scope, result)
              case None => NoRaise
              case Some(m) => ResultError(m)
  {
  }
}
