# Asherah Ruby binding: guard and bookkeeping logic

Asherah is an application-layer envelope-encryption library. The Ruby gem
is a thin binding over the native `libasherah`, which it reaches through
FFI. Key hierarchy, caching, metastore and KMS all live in that native
library. This project models the Ruby-side logic that decides what reaches
the native library, and proves properties of it:

- **Argument validation** (`Validation`, lib/asherah/validation.rb). This
  is the ordered guard chain that `encrypt` and `decrypt` run on
  `partition_id`, `data` and `json`. The order is nil, then String type,
  then emptiness, then the byte-size limit, then the JSON-object check.
  Messages are computed from the limit. A Ruby string is a sequence of
  characters, each stored as its encoded bytes (`RubyText`), so
  `empty?` (characters) and `bytesize` (bytes) are separate notions.
  `JSON.parse` + `is_a?(Hash)` is a parameter that classifies a text as not
  JSON, an object, or another JSON value.
- **Result codes** (`Error`, lib/asherah/error.rb). This covers the `CODES`
  table and `check_result!`, which maps a negative native code to a
  `ResultError` message. The table is modelled as written, including the
  spelling "eecrypt failed" for -104. `CheckResultDynamic` models the same
  method over untyped Ruby values, because a caller passes it the
  arguments in the wrong order (see Findings).
- **Configuration object** (`Config`, lib/asherah/config.rb). This is a
  class whose attribute instance variables are a map; unassigned ones read
  as nil. `to_json` is a loop over `MAPPING` that builds the Hash given to
  `JSON.generate`. The Hash is returned as its ordered entries and is proved
  equal to the specification function `Emit`.
- **Lifecycle** (`Configuration`, lib/asherah/configuration.rb). This is a
  class with the `@initialized` flag and the
  `@intermediated_key_overhead_bytesize` field, and the methods `Configure`
  and `Shutdown`. Ghost counters track the C configuration buffer, so
  the proofs can show that the `ensure` clause frees every allocated
  buffer exactly once. The native `SetupJson` result code is a parameter,
  and so is `Config#validate!`.

Where the code and the surrounding tests disagree, the model follows the
code. The one exception is the setup check of `configure` (see Findings):
`Configure` models both the call as written and the corrected call, and
the lifecycle scenarios other than `ConfigureAsWrittenThenShutdown` use
the corrected one, because as written no `configure` ever succeeds.

- spec/error_handling_spec.rb:57-70 expects `check_result!(code, scope)`
  to raise a different exception class per code. It also expects a code
  -105 and messages such as `test (-100)`. lib/asherah/error.rb defines
  only `ResultError`, takes `(scope, result)`, knows the codes -100 to
  -104, and builds messages as `<scope> failed: <text>`. The model follows
  error.rb.
- lib/asherah/configuration.rb raises `AlreadyInitialized` (line 7) and
  `NotInitialized` (line 24), but lib/asherah/error.rb does not define
  them. `ConfigError` is not named in configuration.rb at all: it comes
  from `Config#validate!` (line 11), which is not part of this model and
  whose behaviour is known only from spec/config_spec.rb:20-121. The model
  treats all three as exception kinds (`Configuration.Failure`); where
  they are defined is not part of this model.

## Model

| member | source | states |
|---|---|---|
| `RubyText.ByteSizeAtLeastLength` | lib/asherah/validation.rb:30 | a string's byte size is at least its character count, and is zero exactly for the empty string |
| `RubyText.NatToDecimal` | lib/asherah/validation.rb:35 | integer interpolation gives decimal digits without a leading zero that denote the number |
| `Validation.SizeMessage` | lib/asherah/validation.rb:32-36 | the size message is longer than the parameter name, and for `partition_id` it is always `partition_id too long (max 1KB)` whatever the limit |
| `Validation.SizeMessageNamesParameter` | lib/asherah/validation.rb:33-36 | every size message opens with the parameter's name, and for any name but `partition_id` continues with ` too large (max <unit>)` |
| `Validation.SizeUnit` | lib/asherah/validation.rb:35 | the unit is whole MiB (`<max/1048576>MB`) from 1 MiB upward and whole KiB (`<max/1024>KB`) below |
| `Validation.CheckSizeLimit` | lib/asherah/validation.rb:29-38 | passes iff the byte size is at most the limit; on failure the message is the size message for that name |
| `Validation.ValidateStringParam` | lib/asherah/validation.rb:21-27 | passes iff the value is a String, is not empty where the name is `partition_id` or `json`, and is within the byte limit; gives the nil, type, empty and size message in that priority order |
| `RubyText.EmptyIffNoBytes` | lib/asherah/validation.rb:24-30 | a String is `empty?` exactly when its `bytesize` is zero, so the emptiness guard and the size check agree on what an empty value is |
| `Validation.ValidateEncryptParams` | lib/asherah/validation.rb:10-13 | passes iff `partition_id` is a non-empty String of at most 1024 bytes and `data` is a String of at most 100·1024·1024 bytes; a bad `partition_id` alone decides the error, and with a good one the error is `data`'s own |
| `Validation.ValidateJsonFormat` | lib/asherah/validation.rb:40-49 | passes iff the text is empty or parses to a JSON object; any other outcome gives the one message `json must be valid JSON format` |
| `Validation.ValidateDecryptParams` | lib/asherah/validation.rb:15-19 | passes iff `partition_id` is good and `json` is a non-empty String of at most 10 MiB that parses to an object; a bad `partition_id` alone decides the error, and with a good one a nil, non-String, empty or oversize `json` gives `json`'s own error |
| `Validation.SizeMessages` | lib/asherah/validation.rb:32-36 | the three limits print `partition_id too long (max 1KB)`, `data too large (max 100MB)` and `json too large (max 10MB)` |
| `Validation.EncryptDataMessages` | lib/asherah/validation.rb:10-13 | with a good `partition_id`, `encrypt` refuses `data` with `data cannot be nil`, `data must be a String` or `data too large (max 100MB)` |
| `Validation.DecryptJsonMessages` | lib/asherah/validation.rb:15-19 | with a good `partition_id`, `decrypt` refuses `json` with `json cannot be nil`, `json must be a String` or `json too large (max 10MB)` |
| `Validation.KilobyteUnit` | lib/asherah/validation.rb:35 | limits below 1 MiB print whole KiB rounded down (512 KiB gives `512KB`, 1536 bytes gives `1KB`); no call site reaches this branch (see `KilobyteBranchUnreachable`) |
| `Validation.KilobyteBranchUnreachable` | lib/asherah/validation.rb:11-17 | the three call sites never take the KB branch: `partition_id` has its own message and the `data` and `json` limits are whole MiB |
| `Validation.SizeLimitInclusive` | lib/asherah/validation.rb:30 | a string of exactly the limit in bytes passes, and one byte more fails with the size message |
| `Validation.LimitCountsBytes` | lib/asherah/validation.rb:30-33 | 257 four-byte characters are rejected as a too-long `partition_id`, and 1024 one-byte characters are accepted |
| `Validation.EmptinessRule` | lib/asherah/validation.rb:24 | empty `data` is accepted; an empty `partition_id` or `json` is refused with its "cannot be empty" message |
| `Validation.EmptinessOnlyForCheckedNames` | lib/asherah/validation.rb:24 | the "cannot be empty" error arises only for the names `partition_id` and `json`, and only for an empty String |
| `Validation.PartitionIdCheckedFirst` | lib/asherah/validation.rb:11-17 | with a bad `partition_id` both entry points give the same error, whatever `data` or `json` is |
| `Validation.NilThenTypeThenEmpty` | lib/asherah/validation.rb:22-24 | nil is reported as "cannot be nil", any other non-String as "must be a String", and an empty String as "cannot be empty" for `partition_id` and `json` while it passes for any other name |
| `Validation.NonObjectJsonRejected` | lib/asherah/validation.rb:43-48 | a non-empty, in-limit `json` that does not parse, or parses to a non-object, is refused with `json must be valid JSON format` |
| `Validation.JsonEmptyReturnUnreachable` | lib/asherah/validation.rb:41 | when `validate_decrypt_params` reaches the JSON check, the text is a non-empty String, so the empty early return never fires from there |
| `Error.Describe` | lib/asherah/error.rb:16 | a listed code gives its table text; any other code gives `unrecognized` |
| `Error.CheckResult` | lib/asherah/error.rb:14-19 | raises nothing iff the code is non-negative; otherwise the message is `<scope> failed: <description>`; depends on nothing but its arguments |
| `Error.CodesDomain` | lib/asherah/error.rb:6-12 | the table's keys are exactly -100 to -104, all negative |
| `Error.DecryptFailureSpelling` | lib/asherah/error.rb:11 | -104 reads `eecrypt failed`, so a decrypt failure reports `decrypt failed: eecrypt failed` |
| `Error.DescriptionsDistinct` | lib/asherah/error.rb:6-12 | the five descriptions are pairwise distinct and none reads `unrecognized` |
| `Error.MessageIdentifiesCode` | lib/asherah/error.rb:16-17 | for one scope, two negative codes give the same message only if they are the same listed code or both unlisted |
| `Error.CheckResultDynamic` | lib/asherah/error.rb:14-18 | with a String in the result position it raises `NoMethodError` for `negative?`; with an Integer it raises iff the code is negative, and with a String scope the message is `<scope> failed: <description>` |
| `Error.DynamicAgreesWithTyped` | lib/asherah/error.rb:14-19 | with a String scope and an Integer result, the untyped method's outcome is exactly `CheckResult`'s |
| `Config.WireName` | lib/asherah/config.rb:26-43 | each attribute's `MAPPING` value as listed at lines 26-43, never shorter than three characters; that no two attributes share one is `WireNameInjective` |
| `Config.Emit` | lib/asherah/config.rb:49-54 | the Hash `to_json` builds over a run of attributes, never with more entries than attributes; which entries it holds, their keys, count and order are `EmitMembership`, `EmitKeysDistinct`, `EmitCount` and `EmitKeepsOrder` |
| `Config.Position` | lib/asherah/config.rb:25-44 | every attribute has a place in `MAPPING` |
| `Config.MappingOrderComplete` | lib/asherah/config.rb:25-44 | `MAPPING` lists all 18 attributes, each exactly once |
| `Config.WireNameInjective` | lib/asherah/config.rb:25-44 | distinct attributes have distinct wire names |
| `Config.EmitMembership` | lib/asherah/config.rb:50-53 | every entry has a non-nil value and is `(MAPPING[a], a's value)` for some attribute `a`; every non-nil attribute has its entry |
| `Config.NilAttributeOmitted` | lib/asherah/config.rb:52 | no entry carries the wire name of a nil attribute |
| `Config.EmitKeysDistinct` | lib/asherah/config.rb:52 | over distinct attributes, entry keys are pairwise distinct, so no Hash store overwrites another |
| `Config.EmitCount` | lib/asherah/config.rb:49-54 | the number of entries equals the number of non-nil attributes |
| `Config.EmitAllNil` | lib/asherah/config.rb:49-54 | an all-nil configuration emits no entries (an empty object) |
| `Config.EmitKeepsOrder` | lib/asherah/config.rb:50 | when two attributes are non-nil, the earlier one's entry comes before the later one's |
| `Config.Config.constructor` | lib/asherah/config.rb:46 | a new configuration reads nil for every attribute |
| `Config.Config.Read` | lib/asherah/config.rb:46-51 | the `attr_reader` that `public_send(our_key)` calls: the assigned value, or nil for an attribute never assigned |
| `Config.Config.Write` | lib/asherah/config.rb:46 | an attribute writer changes that attribute only |
| `Config.Config.ToJson` | lib/asherah/config.rb:48-57 | returns the `MAPPING`-ordered entries of the non-nil attributes, with distinct keys, one per non-nil attribute; the object is only read |
| `Configuration.SetupCheckAsWritten` | lib/asherah/configuration.rb:17 | the setup check as called, code in the scope position: it raises `NoMethodError` for `negative?` whatever the code |
| `Configuration.SetupCheckAsWrittenAlwaysRaises` | lib/asherah/configuration.rb:17 | the setup check as called raises for every code, success included, and differs from the corrected check on every code |
| `Configuration.SetupCheck` | lib/asherah/configuration.rb:17 | with the arguments in the order error.rb:14 declares, setup passes iff the code is non-negative; otherwise it gives `ResultError("SetupJson failed failed: <description>")` |
| `Configuration.KeyOverhead` | lib/asherah/configuration.rb:12 | defined iff product id and service name are Strings, and then equals the sum of their byte sizes |
| `Configuration.Asherah.constructor` | lib/asherah/configuration.rb:7-12 | before the first `configure`, `@initialized` and `@intermediated_key_overhead_bytesize` are nil (false and `None`), and no setup or shutdown call has been made |
| `Configuration.Asherah.Configure` | lib/asherah/configuration.rb:6-21 | when already initialized it raises `AlreadyInitialized` and changes nothing; validation and `bytesize` failures change nothing; once validated it records the overhead, passes the emitted configuration to `SetupJson`; with the check as written it then raises `NoMethodError` and stays uninitialized, and with the corrected check it becomes initialized iff the code is non-negative; the buffer is freed exactly once on every path |
| `Configuration.Asherah.Shutdown` | lib/asherah/configuration.rb:23-28 | when not initialized it raises `NotInitialized` and changes nothing; otherwise it shuts the library down once and clears the flag, keeping the overhead |
| `Configuration.ConfigureAsWrittenThenShutdown` | lib/asherah/configuration.rb:6-28 | as written, `configure` raises `NoMethodError` even on success after setting the library up, and the following `shutdown` raises `NotInitialized`, so the library is never shut down |
| `Configuration.ConfigureShutdownConfigure` | lib/asherah/configuration.rb:6-28 | with the corrected setup check (`asWritten` false), configure, shutdown, configure all succeed and end initialized; as written the first configure already raises (`ConfigureAsWrittenThenShutdown`) |
| `Configuration.ConfigureShutdownShutdown` | lib/asherah/configuration.rb:23-28 | with the corrected setup check (`asWritten` false), configure, shutdown, shutdown: the second shutdown raises `NotInitialized`; as written the first one already does |
| `Configuration.ConfigureTwice` | lib/asherah/configuration.rb:7 | with the corrected setup check (`asWritten` false), a second configure raises `AlreadyInitialized` and keeps the first configuration's overhead and setup call; as written the flag is never set, so the second configure is not refused |
| `Configuration.FailedSetupThenRetry` | lib/asherah/configuration.rb:12-18 | with the corrected setup check (`asWritten` false), a failed setup leaves the flag false and the overhead recorded, and a retry succeeds with both buffers freed; as written the retry raises as well |

## Left out

- The encryption engine (encrypt/decrypt round trip, partition isolation, key hierarchy, caches, metastore, KMS) lives in the native library behind FFI and is not part of this model.
- lib/asherah.rb (C buffer marshalling and FFI calls) is foreign-call glue and is not part of this model.
- ext/asherah (native library download, checksum, build glue) is I/O plumbing and is not part of this model.
- lib/asherah/crypto_operations.rb is a buffer-size estimate, not a correctness property, and its constants are not part of this model.
- The plain records (key_meta.rb, envelope_key_record.rb, data_row_record.rb) have no behaviour to verify.
- `Config#validate!` and `set_env` are not part of this model. `validate!` is a parameter of `Configure`.
- `JSON.parse` and `JSON.generate` are library calls: parsing is an abstract classifier, and the JSON text is not produced (`ToJson` returns the Hash's entries).
- Configuration.Asherah.Configure: a block that raises is not modelled. The block is a map of attribute writes. A raise before line 14 would leave the buffer nil, like the other early failures.
- Configuration.Asherah.Configure: native calls cannot fail except through `SetupJson`'s code. `string_to_cbuffer` and `free` always succeed in the model.
- Configuration.Asherah.Configure: the corrected failure message is the one error.rb:17 builds once the scope is passed first. Had the declaration been reordered instead, to the `(code, scope)` order spec/error_handling_spec.rb:60-74 uses, those tests expect a per-code exception class and a `<scope> (<code>)` message, which no source file shown here defines; the model does not promise that form.
- Concurrency is not modelled. The model assumes `configure` and `shutdown` run one at a time; nothing in the source guards `@initialized` against concurrent calls, and interleavings are not captured.

## Findings

| source | as written | input that shows it | evidently intended | confidence | as-written member | corrected member |
|---|---|---|---|---|---|---|
| lib/asherah/configuration.rb:17 | the setup check passes the result code as the scope and the scope text as the result, the reverse of the declaration at lib/asherah/error.rb:14; `negative?` is then called on a String and raises `NoMethodError` | `SetupJson` returns 0 (success): `configure` still raises, and `@initialized` never becomes true | either pass the scope first and the code second, as lib/asherah.rb:33 does, or declare `check_result!` with the code first, the order spec/error_handling_spec.rb:60-74 calls it in; the model takes the first | high that the call always raises, medium on which side was meant to change; not executed | `Configuration.SetupCheckAsWritten` (shown by `Configuration.SetupCheckAsWrittenAlwaysRaises`; the whole lifecycle by `Configuration.Asherah.Configure` with `asWritten` and `Configuration.ConfigureAsWrittenThenShutdown`) | `Configuration.SetupCheck`, used by `Configuration.Asherah.Configure` without `asWritten` |
