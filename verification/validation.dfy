/**
 * The argument guards that run before `encrypt` and `decrypt`
 * (lib/asherah/validation.rb).
 *
 * Each guard either passes or raises `ArgumentError` with a message; the
 * model returns `Pass` or `Fail(message)`. The first guard that fails decides
 * the message, so the guards are a chain of `if … then Fail(…) else …`.
 */
module Validation {
  import opened RubyText

  /** A Ruby argument as far as the guards can tell: nil, a String, or any other object. */
  datatype Arg = Nil | Str(s: RubyString) | NonString

  /** Either the guards all passed, or `ArgumentError` was raised with `message`. */
  datatype Outcome = Pass | Fail(message: string)

  /**
   * What `JSON.parse` followed by `is_a?(Hash)` can tell about a text: it is
   * not JSON (`JSON::ParserError`), it is a JSON object, or it is some other
   * JSON value (an array, a number, a string, ...).
   */
  datatype JsonClass = ParseError | Hash | OtherValue

  const KiB: nat := 1024
  const MiB: nat := 1024 * 1024

  const PartitionIdMax: nat := 1024
  const DataMax: nat := 100 * 1024 * 1024
  const JsonMax: nat := 10 * 1024 * 1024

  const InvalidJsonMessage: string := "json must be valid JSON format"

  /** The names for which `validate_string_param` refuses an empty string. */
  predicate EmptinessChecked(name: string) {
    name == "partition_id" || name == "json"
  }

  /** The size unit `check_size_limit` prints: whole MiB from 1 MiB up, whole KiB below. */
  function SizeUnit(maxSize: nat): (u: string)
    ensures maxSize >= MiB ==> u == NatToDecimal(maxSize / MiB) + "MB"
    ensures maxSize < MiB ==> u == NatToDecimal(maxSize / KiB) + "KB"
  {
    if maxSize >= 1024 * 1024 then NatToDecimal(maxSize / (1024 * 1024)) + "MB"
    else NatToDecimal(maxSize / 1024) + "KB"
  }

  /** The message `check_size_limit` raises when `name` is over its limit. */
  function SizeMessage(name: string, maxSize: nat): (m: string)
    ensures |m| > |name|
    ensures name == "partition_id" ==> m == "partition_id too long (max 1KB)"
  {
    if name == "partition_id" then name + " too long (max 1KB)"
    else name + " too large (max " + SizeUnit(maxSize) + ")"
  }

  /** `check_size_limit`: an inclusive limit on the byte size. */
  function CheckSizeLimit(value: RubyString, name: string, maxSize: nat): (r: Outcome)
    ensures r.Pass? <==> ByteSize(value) <= maxSize
    ensures r.Fail? ==> r.message == SizeMessage(name, maxSize)
  {
    if ByteSize(value) <= maxSize then Pass
    else Fail(SizeMessage(name, maxSize))
  }

  /**
   * `validate_string_param`: nil, then type, then emptiness (only for
   * `partition_id` and `json`), then the byte-size limit.
   */
  function ValidateStringParam(value: Arg, name: string, maxSize: nat): (r: Outcome)
    ensures r.Pass? <==>
              value.Str? && !(IsEmpty(value.s) && EmptinessChecked(name)) && ByteSize(value.s) <= maxSize
    ensures value.Nil? ==> r == Fail(name + " cannot be nil")
    ensures value.NonString? ==> r == Fail(name + " must be a String")
    ensures value.Str? && IsEmpty(value.s) && EmptinessChecked(name) ==> r == Fail(name + " cannot be empty")
    ensures value.Str? && !(IsEmpty(value.s) && EmptinessChecked(name)) && ByteSize(value.s) > maxSize ==>
              r == Fail(SizeMessage(name, maxSize))
  {
    if value.Nil? then Fail(name + " cannot be nil")
    else if !value.Str? then Fail(name + " must be a String")
    else if IsEmpty(value.s) && EmptinessChecked(name) then Fail(name + " cannot be empty")
    else CheckSizeLimit(value.s, name, maxSize)
  }

  /** A `partition_id` both entry points accept: a non-empty String of at most 1024 bytes. */
  predicate GoodPartitionId(p: Arg) {
    p.Str? && !IsEmpty(p.s) && ByteSize(p.s) <= 1024
  }

  /** `validate_encrypt_params`: `partition_id` first, then `data`; empty data is allowed. */
  function ValidateEncryptParams(partitionId: Arg, data: Arg): (r: Outcome)
    ensures r.Pass? <==> GoodPartitionId(partitionId) && data.Str? && ByteSize(data.s) <= 100 * 1024 * 1024
    ensures !GoodPartitionId(partitionId) ==> r == ValidateStringParam(partitionId, "partition_id", PartitionIdMax)
    ensures GoodPartitionId(partitionId) ==> r == ValidateStringParam(data, "data", DataMax)
  {
    var p := ValidateStringParam(partitionId, "partition_id", PartitionIdMax);
    if p.Fail? then p else ValidateStringParam(data, "data", DataMax)
  }

  /** `validate_json_format`: empty text passes; otherwise it must parse to a JSON object. */
  function ValidateJsonFormat(json: RubyString, parse: RubyString -> JsonClass): (r: Outcome)
    ensures r.Pass? <==> IsEmpty(json) || parse(json) == Hash
    ensures r.Fail? ==> r.message == InvalidJsonMessage
  {
    if IsEmpty(json) then Pass
    else if parse(json) == Hash then Pass
    else Fail("json must be valid JSON format")
  }

  /** `validate_decrypt_params`: `partition_id`, then `json` as a string, then `json` as JSON. */
  function ValidateDecryptParams(partitionId: Arg, json: Arg, parse: RubyString -> JsonClass): (r: Outcome)
    ensures r.Pass? <==>
              GoodPartitionId(partitionId) && json.Str? && !IsEmpty(json.s) &&
              ByteSize(json.s) <= 10 * 1024 * 1024 && parse(json.s) == Hash
    ensures !GoodPartitionId(partitionId) ==> r == ValidateStringParam(partitionId, "partition_id", PartitionIdMax)
    ensures GoodPartitionId(partitionId) && ValidateStringParam(json, "json", JsonMax).Fail? ==>
              r == ValidateStringParam(json, "json", JsonMax)
  {
    var p := ValidateStringParam(partitionId, "partition_id", PartitionIdMax);
    if p.Fail? then p
    else
      var j := ValidateStringParam(json, "json", JsonMax);
      if j.Fail? then j else ValidateJsonFormat(json.s, parse)
  }

  // ---------------------------------------------------------------------
  // Properties of the guard chain.

  lemma DecimalOneTenHundred()
    ensures NatToDecimal(1) == "1" && NatToDecimal(10) == "10" && NatToDecimal(100) == "100"
  {
    assert NatToDecimal(10) == NatToDecimal(1) + "0";
    assert NatToDecimal(100) == NatToDecimal(10) + "0";
  }

  /** The three messages a limit can produce, spelled out. */
  lemma SizeMessages()
    ensures SizeMessage("partition_id", PartitionIdMax) == "partition_id too long (max 1KB)"
    ensures SizeMessage("data", DataMax) == "data too large (max 100MB)"
    ensures SizeMessage("json", JsonMax) == "json too large (max 10MB)"
  {
    DecimalOneTenHundred();
    assert DataMax / MiB == 100;
    assert JsonMax / MiB == 10;
    assert SizeUnit(DataMax) == "100MB";
    assert SizeUnit(JsonMax) == "10MB";
  }

  /**
   * Every size message opens with the parameter's name; for any name but
   * `partition_id` the rest is ` too large (max <unit>)`.
   */
  lemma SizeMessageNamesParameter(name: string, maxSize: nat)
    ensures SizeMessage(name, maxSize)[..|name|] == name
    ensures name != "partition_id" ==>
              SizeMessage(name, maxSize)[|name|..] == " too large (max " + SizeUnit(maxSize) + ")"
  {
    var suffix := if name == "partition_id" then " too long (max 1KB)"
                  else " too large (max " + SizeUnit(maxSize) + ")";
    assert SizeMessage(name, maxSize) == name + suffix;
    assert (name + suffix)[..|name|] == name;
    assert (name + suffix)[|name|..] == suffix;
  }

  /**
   * With a good `partition_id`, a bad `data` is reported by its own name:
   * nil, then not a String, then too large for its 100 MiB limit.
   */
  lemma EncryptDataMessages(partitionId: Arg, big: RubyString)
    requires GoodPartitionId(partitionId)
    ensures ValidateEncryptParams(partitionId, Nil) == Fail("data cannot be nil")
    ensures ValidateEncryptParams(partitionId, NonString) == Fail("data must be a String")
    ensures ByteSize(big) > DataMax ==>
              ValidateEncryptParams(partitionId, Str(big)) == Fail("data too large (max 100MB)")
  {
    assert "data" + " cannot be nil" == "data cannot be nil";
    assert "data" + " must be a String" == "data must be a String";
    if ByteSize(big) > DataMax {
      SizeMessages();
      assert ValidateStringParam(Str(big), "data", DataMax) == Fail(SizeMessage("data", DataMax));
    }
  }

  /**
   * With a good `partition_id`, a bad `json` is reported by its own name:
   * nil, then not a String, then too large for its 10 MiB limit.
   */
  lemma DecryptJsonMessages(partitionId: Arg, big: RubyString, parse: RubyString -> JsonClass)
    requires GoodPartitionId(partitionId)
    ensures ValidateDecryptParams(partitionId, Nil, parse) == Fail("json cannot be nil")
    ensures ValidateDecryptParams(partitionId, NonString, parse) == Fail("json must be a String")
    ensures ByteSize(big) > JsonMax ==>
              ValidateDecryptParams(partitionId, Str(big), parse) == Fail("json too large (max 10MB)")
  {
    assert ValidateStringParam(Nil, "json", JsonMax) == Fail("json cannot be nil") by {
      assert "json" + " cannot be nil" == "json cannot be nil";
    }
    assert ValidateStringParam(NonString, "json", JsonMax) == Fail("json must be a String") by {
      assert "json" + " must be a String" == "json must be a String";
    }
    if ByteSize(big) > JsonMax {
      assert ValidateStringParam(Str(big), "json", JsonMax) == Fail("json too large (max 10MB)") by {
        SizeMessages();
        ByteSizeAtLeastLength(big.chars);
      }
    }
  }

  /**
   * The KB branch of the size unit is never taken from the two entry
   * points: `partition_id` has a message of its own, and the limits of
   * `data` and `json` are whole MiB.
   */
  lemma KilobyteBranchUnreachable(name: string, maxSize: nat)
    requires (name, maxSize) in {("partition_id", PartitionIdMax), ("data", DataMax), ("json", JsonMax)}
    ensures name != "partition_id" ==> maxSize >= MiB && maxSize % MiB == 0
    ensures name != "partition_id" ==> SizeMessage(name, maxSize) == name + " too large (max " + NatToDecimal(maxSize / MiB) + "MB)"
  {
  }

  /** The size unit for a limit below 1 MiB is whole KiB, rounded down. */
  lemma KilobyteUnit()
    ensures SizeUnit(512 * 1024) == "512KB"
    ensures SizeUnit(1536) == "1KB"
  {
    assert NatToDecimal(51) == NatToDecimal(5) + "1";
    assert NatToDecimal(512) == NatToDecimal(51) + "2";
  }

  /** The limit is inclusive: exactly `maxSize` bytes passes, one byte more fails. */
  lemma SizeLimitInclusive(c: RubyChar, name: string, maxSize: nat)
    requires |c| == 1
    ensures CheckSizeLimit(Repeat(c, maxSize), name, maxSize) == Pass
    ensures CheckSizeLimit(Repeat(c, maxSize + 1), name, maxSize) == Fail(SizeMessage(name, maxSize))
  {
    RepeatByteSize(c, maxSize);
    RepeatByteSize(c, maxSize + 1);
  }

  /**
   * The limit counts bytes, not characters: 257 four-byte characters (1028
   * bytes) are a too-long `partition_id` although they are far fewer than
   * 1024 characters, while 1024 one-byte characters are accepted.
   */
  lemma LimitCountsBytes(wide: RubyChar, narrow: RubyChar, data: Arg)
    requires |wide| == 4 && |narrow| == 1
    requires data.Str? && ByteSize(data.s) <= DataMax
    ensures |Repeat(wide, 257).chars| < 1024
    ensures ValidateEncryptParams(Str(Repeat(wide, 257)), data) == Fail("partition_id too long (max 1KB)")
    ensures ValidateEncryptParams(Str(Repeat(narrow, 1024)), data) == Pass
  {
    RepeatByteSize(wide, 257);
    RepeatByteSize(narrow, 1024);
    SizeMessages();
  }

  /** Empty `data` is accepted; an empty `partition_id` or `json` never is. */
  lemma EmptinessRule(partitionId: Arg, empty: RubyString, parse: RubyString -> JsonClass)
    requires IsEmpty(empty)
    ensures GoodPartitionId(partitionId) ==> ValidateEncryptParams(partitionId, Str(empty)) == Pass
    ensures ValidateEncryptParams(Str(empty), Str(empty)) == Fail("partition_id cannot be empty")
    ensures GoodPartitionId(partitionId) ==>
              ValidateDecryptParams(partitionId, Str(empty), parse) == Fail("json cannot be empty")
  {
    assert ValidateStringParam(Str(empty), "data", DataMax) == Pass by {
      EmptyIffNoBytes(empty);
    }
    assert ValidateStringParam(Str(empty), "partition_id", PartitionIdMax) == Fail("partition_id cannot be empty") by {
      assert "partition_id" + " cannot be empty" == "partition_id cannot be empty";
    }
    assert ValidateStringParam(Str(empty), "json", JsonMax) == Fail("json cannot be empty") by {
      assert "json" + " cannot be empty" == "json cannot be empty";
    }
  }

  /** A common prefix cancels: `name + a == name + b` only when `a == b`. */
  lemma PrefixCancels(name: string, a: string, b: string)
    ensures name + a == name + b ==> a == b
  {
    assert (name + a)[|name|..] == a;
    assert (name + b)[|name|..] == b;
  }

  /** The emptiness guard fires only for `partition_id` and `json`. */
  lemma EmptinessOnlyForCheckedNames(value: Arg, name: string, maxSize: nat)
    requires ValidateStringParam(value, name, maxSize) == Fail(name + " cannot be empty")
    ensures name == "partition_id" || name == "json"
    ensures value.Str? && IsEmpty(value.s)
  {
    var empty := " cannot be empty";
    assert value.Str? by {
      PrefixCancels(name, " cannot be nil", empty);
      PrefixCancels(name, " must be a String", empty);
    }
    assert EmptinessChecked(name) && IsEmpty(value.s) by {
      var tooLarge := " too large (max " + SizeUnit(maxSize) + ")";
      assert name + " too large (max " + SizeUnit(maxSize) + ")" == name + tooLarge;
      assert tooLarge[1] == 't';
      PrefixCancels(name, " too long (max 1KB)", empty);
      PrefixCancels(name, tooLarge, empty);
    }
  }

  /**
   * A bad `partition_id` decides the outcome by itself: whatever `data` or
   * `json` accompanies it, the error is the same.
   */
  lemma PartitionIdCheckedFirst(partitionId: Arg, a: Arg, b: Arg, parse: RubyString -> JsonClass)
    requires !GoodPartitionId(partitionId)
    ensures ValidateEncryptParams(partitionId, a) == ValidateEncryptParams(partitionId, b)
    ensures ValidateDecryptParams(partitionId, a, parse) == ValidateDecryptParams(partitionId, b, parse)
    ensures ValidateEncryptParams(partitionId, a) == ValidateDecryptParams(partitionId, b, parse)
  {
  }

  /**
   * Nil is reported before anything else about the argument, then the type,
   * then emptiness (for the names that check it) before the size.
   */
  lemma NilThenTypeThenEmpty(name: string, maxSize: nat, empty: RubyString)
    requires IsEmpty(empty)
    ensures ValidateStringParam(Nil, name, maxSize).message == name + " cannot be nil"
    ensures ValidateStringParam(NonString, name, maxSize).message == name + " must be a String"
    ensures EmptinessChecked(name) ==> ValidateStringParam(Str(empty), name, maxSize) == Fail(name + " cannot be empty")
    ensures !EmptinessChecked(name) ==> ValidateStringParam(Str(empty), name, maxSize) == Pass
  {
    EmptyIffNoBytes(empty);
  }

  /**
   * Every text that is not a JSON object is refused with one and the same
   * message, whether it does not parse or parses to some other JSON value.
   */
  lemma NonObjectJsonRejected(partitionId: Arg, json: RubyString, parse: RubyString -> JsonClass)
    requires GoodPartitionId(partitionId)
    requires !IsEmpty(json) && ByteSize(json) <= JsonMax
    requires parse(json) != Hash
    ensures ValidateDecryptParams(partitionId, Str(json), parse) == Fail(InvalidJsonMessage)
  {
  }

  /**
   * The early return on empty text in `validate_json_format` is dead code
   * when it is reached from `validate_decrypt_params`: whenever the JSON
   * check runs, the text is a non-empty String.
   */
  lemma JsonEmptyReturnUnreachable(partitionId: Arg, json: Arg, parse: RubyString -> JsonClass)
    requires ValidateStringParam(partitionId, "partition_id", PartitionIdMax).Pass?
    requires ValidateStringParam(json, "json", JsonMax).Pass?
    ensures json.Str? && !IsEmpty(json.s)
    ensures ValidateDecryptParams(partitionId, json, parse) ==
              (if parse(json.s) == Hash then Pass else Fail(InvalidJsonMessage))
  {
  }
}
