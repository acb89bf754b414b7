/**
 * The lifecycle of the binding (lib/asherah/configuration.rb): `configure`
 * sets the native library up once, `shutdown` tears it down, and the
 * `@initialized` flag guards both.
 *
 * The native library is outside the model: the code `SetupJson` returns is
 * a parameter, and the calls made into the library are recorded in ghost
 * fields. `Config#validate!` is not part of this model either; it is a
 * parameter that either passes (`None`) or names the `ConfigError` it
 * raises. The C buffer holding the configuration is tracked by two ghost
 * counters, allocations and frees.
 */
module Configuration {
  import opened Wrappers
  import opened RubyText
  import Error
  import C = Config

  /**
   * The exceptions `configure` and `shutdown` can end in: the lifecycle's
   * own, the `ConfigError` of `validate!`, and what a call raises
   * (`NoMethodError`, or the `ResultError` of `check_result!`).
   */
  datatype Failure =
    | AlreadyInitialized
    | NotInitialized
    | ConfigError(message: string)
    | Raised(raised: Error.Raised)

  /** The scope string the setup check is given. */
  const SetupScope: string := "SetupJson failed"

  /**
   * The setup check as the source calls it, `check_result!(result,
   * 'SetupJson failed')`: the code lands in the `scope` position and the
   * String in the `result` position.
   */
  function SetupCheckAsWritten(result: int): (r: Error.Raised)
    ensures r == Error.NoMethodError("negative?")
  {
    Error.CheckResultDynamic(Error.RInt(result), Error.RStr(SetupScope))
  }


  /**
   * The setup check with the arguments in the declared order,
   * `check_result!('SetupJson failed', result)`: it passes exactly when the
   * code is non-negative.
   */
  function SetupCheck(result: int): (r: Error.Raised)
    ensures r.NoRaise? <==> result >= 0
    ensures !r.NoRaise? ==> r == Error.ResultError(SetupScope + " failed: " + Error.Describe(result))
  {
    Error.DynamicAgreesWithTyped(SetupScope, result);
    Error.CheckResultDynamic(Error.RStr(SetupScope), Error.RInt(result))
  }

  /**
   * As written, the check raises `NoMethodError` (String has no
   * `negative?`) whatever `SetupJson` returned, success included, so
   * `@initialized` can never become true; it disagrees with the corrected
   * check on every code.
   */
  lemma SetupCheckAsWrittenAlwaysRaises(result: int)
    ensures !SetupCheckAsWritten(result).NoRaise?
    ensures SetupCheckAsWritten(result) != SetupCheck(result)
  {
  }

  /**
   * `config.product_id.bytesize + config.service_name.bytesize`: `None` when
   * either is not a String, where `bytesize` raises `NoMethodError`.
   */
  function KeyOverhead(productId: C.Value, serviceName: C.Value): (r: Option<nat>)
    ensures r.Some? <==> productId.Str? && serviceName.Str?
    ensures r.Some? ==> r.value >= |productId.s.chars| + |serviceName.s.chars|
    ensures r.Some? ==> r.value == ByteSize(productId.s) + ByteSize(serviceName.s)
  {
    if productId.Str? && serviceName.Str? then
      ByteSizeAtLeastLength(productId.s.chars);
      ByteSizeAtLeastLength(serviceName.s.chars);
      Some(ByteSize(productId.s) + ByteSize(serviceName.s))
    else None
  }

  /** The module-level state `configure` and `shutdown` work on. */
  class Asherah {
    /** `@initialized` (nil, hence false, before the first `configure`). */
    var initialized: bool
    /** `@intermediated_key_overhead_bytesize` (nil before the first validated `configure`). */
    var intermediatedKeyOverheadBytesize: Option<nat>

    /** C buffers allocated for the configuration, and those freed. */
    ghost var buffersAllocated: nat
    ghost var buffersFreed: nat
    /** The configurations passed to `SetupJson`, oldest first. */
    ghost var setupCalls: seq<seq<C.Entry>>
    /** How many times the native `Shutdown` was called. */
    ghost var shutdownCalls: nat

    /** Every configuration buffer ever allocated has been freed. */
    ghost predicate Valid()
      reads this
    {
      buffersFreed == buffersAllocated
    }

    constructor ()
      ensures Valid()
      ensures !initialized && intermediatedKeyOverheadBytesize == None
      ensures setupCalls == [] && shutdownCalls == 0
    {
      initialized := false;
      intermediatedKeyOverheadBytesize := None;
      buffersAllocated, buffersFreed := 0, 0;
      setupCalls, shutdownCalls := [], 0;
    }

    /**
     * `configure`. `settings` is what the caller's block assigns to the fresh
     * `Config`; `validate` stands for `Config#validate!`; `setupResult` is the
     * code `SetupJson` returns. `asWritten` selects the setup check as
     * configuration.rb calls it (`SetupCheckAsWritten`); otherwise it is
     * called with its arguments in the declared order (`SetupCheck`).
     */
    method Configure(settings: map<C.Attr, C.Value>, validate: map<C.Attr, C.Value> -> Option<string>,
                     setupResult: int, asWritten: bool)
      returns (err: Option<Failure>)
      requires Valid()
      modifies this
      ensures Valid()
      // Already initialized: refused before the block runs, nothing changes.
      ensures old(initialized) ==> err == Some(AlreadyInitialized) && unchanged(this)
      // Validation fails: the ConfigError propagates, nothing changes.
      ensures !old(initialized) && validate(settings).Some? ==>
                err == Some(ConfigError(validate(settings).value)) && unchanged(this)
      // product_id or service_name is not a String: bytesize is missing, nothing changes.
      ensures !old(initialized) && validate(settings).None? &&
              KeyOverhead(C.Lookup(settings, C.ProductId), C.Lookup(settings, C.ServiceName)).None? ==>
                err == Some(Raised(Error.NoMethodError("bytesize"))) && unchanged(this)
      // Validated: the overhead is recorded and one buffer is allocated, passed
      // to SetupJson and freed, whatever SetupJson returns.
      ensures !old(initialized) && validate(settings).None? &&
              KeyOverhead(C.Lookup(settings, C.ProductId), C.Lookup(settings, C.ServiceName)).Some? ==>
                && intermediatedKeyOverheadBytesize ==
                     KeyOverhead(C.Lookup(settings, C.ProductId), C.Lookup(settings, C.ServiceName))
                && buffersAllocated == old(buffersAllocated) + 1
                && setupCalls == old(setupCalls) + [C.Emit(C.MappingOrder, settings)]
                && (asWritten ==> err == Some(Raised(Error.NoMethodError("negative?"))))
                && (!asWritten ==> (err.None? <==> setupResult >= 0))
                && (!asWritten && setupResult < 0 ==>
                      err == Some(Raised(Error.ResultError(SetupScope + " failed: " + Error.Describe(setupResult)))))
      ensures initialized <==> old(initialized) || err.None?
      ensures buffersFreed - old(buffersFreed) == buffersAllocated - old(buffersAllocated) <= 1
      ensures shutdownCalls == old(shutdownCalls)
    {
      var configBuffer: Option<seq<C.Entry>> := None;
      if initialized {
        err := Some(AlreadyInitialized);
      } else {
        var config := new C.Config();
        config.ivars := settings;  // yield config
        var invalid := validate(config.ivars);
        if invalid.Some? {
          err := Some(ConfigError(invalid.value));
        } else {
          var overhead := KeyOverhead(config.Read(C.ProductId), config.Read(C.ServiceName));
          if overhead.None? {
            err := Some(Raised(Error.NoMethodError("bytesize")));
          } else {
            intermediatedKeyOverheadBytesize := overhead;
            var json := config.ToJson();
            configBuffer := Some(json);
            buffersAllocated := buffersAllocated + 1;
            setupCalls := setupCalls + [json];
            var checked := if asWritten then SetupCheckAsWritten(setupResult) else SetupCheck(setupResult);
            if checked.NoRaise? {
              initialized := true;
              err := None;
            } else {
              err := Some(Raised(checked));
            }
          }
        }
      }
      // ensure: config_buffer&.free
      if configBuffer.Some? {
        buffersFreed := buffersFreed + 1;
      }
    }

    /** `shutdown`: refused unless initialized; otherwise the library is shut down and the flag cleared. */
    method Shutdown() returns (err: Option<Failure>)
      requires Valid()
      modifies this
      ensures Valid()
      ensures !old(initialized) ==> err == Some(NotInitialized) && unchanged(this)
      ensures old(initialized) ==>
                && err.None?
                && !initialized
                && shutdownCalls == old(shutdownCalls) + 1
                && intermediatedKeyOverheadBytesize == old(intermediatedKeyOverheadBytesize)
                && setupCalls == old(setupCalls)
                && buffersAllocated == old(buffersAllocated)
    {
      if !initialized {
        err := Some(NotInitialized);
        return;
      }
      shutdownCalls := shutdownCalls + 1;
      initialized := false;
      err := None;
    }
  }

  // ---------------------------------------------------------------------
  // Call sequences.

  /** A configuration that validates and whose product and service names are Strings. */
  predicate Acceptable(settings: map<C.Attr, C.Value>, validate: map<C.Attr, C.Value> -> Option<string>)
  {
    validate(settings).None? &&
    KeyOverhead(C.Lookup(settings, C.ProductId), C.Lookup(settings, C.ServiceName)).Some?
  }

  /** `configure`, `shutdown`, `configure` all succeed when setup succeeds twice. */
  method ConfigureShutdownConfigure(app: Asherah, settings: map<C.Attr, C.Value>,
                                    validate: map<C.Attr, C.Value> -> Option<string>, first: int, second: int)
    returns (e1: Option<Failure>, e2: Option<Failure>, e3: Option<Failure>)
    requires app.Valid() && !app.initialized
    requires Acceptable(settings, validate) && first >= 0 && second >= 0
    modifies app
    ensures e1.None? && e2.None? && e3.None?
    ensures app.initialized && app.Valid()
    ensures app.setupCalls == old(app.setupCalls) + [C.Emit(C.MappingOrder, settings), C.Emit(C.MappingOrder, settings)]
  {
    e1 := app.Configure(settings, validate, first, false);
    e2 := app.Shutdown();
    e3 := app.Configure(settings, validate, second, false);
  }

  /** `configure`, `shutdown`, `shutdown`: the second shutdown is refused. */
  method ConfigureShutdownShutdown(app: Asherah, settings: map<C.Attr, C.Value>,
                                   validate: map<C.Attr, C.Value> -> Option<string>, result: int)
    returns (e1: Option<Failure>, e2: Option<Failure>, e3: Option<Failure>)
    requires app.Valid() && !app.initialized
    requires Acceptable(settings, validate) && result >= 0
    modifies app
    ensures e1.None? && e2.None? && e3 == Some(NotInitialized)
    ensures !app.initialized && app.shutdownCalls == old(app.shutdownCalls) + 1
  {
    e1 := app.Configure(settings, validate, result, false);
    e2 := app.Shutdown();
    e3 := app.Shutdown();
  }

  /**
   * A second `configure` is refused and keeps the first configuration's
   * overhead and setup call.
   */
  method ConfigureTwice(app: Asherah, first: map<C.Attr, C.Value>, second: map<C.Attr, C.Value>,
                        validate: map<C.Attr, C.Value> -> Option<string>, r1: int, r2: int)
    returns (e1: Option<Failure>, e2: Option<Failure>)
    requires app.Valid() && !app.initialized
    requires Acceptable(first, validate) && r1 >= 0
    modifies app
    ensures e1.None? && e2 == Some(AlreadyInitialized)
    ensures app.intermediatedKeyOverheadBytesize ==
              KeyOverhead(C.Lookup(first, C.ProductId), C.Lookup(first, C.ServiceName))
    ensures app.setupCalls == old(app.setupCalls) + [C.Emit(C.MappingOrder, first)]
  {
    e1 := app.Configure(first, validate, r1, false);
    e2 := app.Configure(second, validate, r2, false);
  }

  /**
   * A failed setup leaves the flag false but the overhead recorded, so a
   * retry is allowed and replaces it.
   */
  method FailedSetupThenRetry(app: Asherah, first: map<C.Attr, C.Value>, second: map<C.Attr, C.Value>,
                              validate: map<C.Attr, C.Value> -> Option<string>, r1: int, r2: int)
    returns (e1: Option<Failure>, e2: Option<Failure>)
    requires app.Valid() && !app.initialized
    requires Acceptable(first, validate) && Acceptable(second, validate) && r1 < 0 && r2 >= 0
    modifies app
    ensures e1 == Some(Raised(Error.ResultError(SetupScope + " failed: " + Error.Describe(r1))))
    ensures e2.None? && app.initialized && app.Valid()
    ensures app.intermediatedKeyOverheadBytesize ==
              KeyOverhead(C.Lookup(second, C.ProductId), C.Lookup(second, C.ServiceName))
    ensures app.buffersFreed == old(app.buffersFreed) + 2
  {
    e1 := app.Configure(first, validate, r1, false);
    assert !app.initialized;
    e2 := app.Configure(second, validate, r2, false);
  }

  /**
   * The lifecycle as configuration.rb is written: `configure` on an
   * acceptable configuration raises `NoMethodError` whatever `SetupJson`
   * returns, success included, after the library has been set up and the
   * buffer freed; `@initialized` stays false, so the `shutdown` that should
   * follow is refused and the native library is never shut down.
   */
  method ConfigureAsWrittenThenShutdown(app: Asherah, settings: map<C.Attr, C.Value>,
                                        validate: map<C.Attr, C.Value> -> Option<string>, result: int)
    returns (e1: Option<Failure>, e2: Option<Failure>)
    requires app.Valid() && !app.initialized
    requires Acceptable(settings, validate)
    modifies app
    ensures e1 == Some(Raised(Error.NoMethodError("negative?"))) && e2 == Some(NotInitialized)
    ensures !app.initialized && app.Valid()
    ensures app.setupCalls == old(app.setupCalls) + [C.Emit(C.MappingOrder, settings)]
    ensures app.shutdownCalls == old(app.shutdownCalls)
  {
    e1 := app.Configure(settings, validate, result, true);
    e2 := app.Shutdown();
  }
}
