/**
 * The configuration object handed to the native library
 * (lib/asherah/config.rb).
 *
 * `Config` has one `attr_accessor` per entry of `MAPPING`; `to_json` walks
 * `MAPPING` in declaration order and puts every attribute whose value is
 * not nil into a Hash under its wire name, which `JSON.generate` then
 * prints. The model returns that Hash as the ordered sequence of its
 * entries; the JSON text itself is not modelled.
 */
module Config {
  import opened RubyText

  /** The attributes, one per `MAPPING` key. */
  datatype Attr =
    | Kms | Metastore | ServiceName | ProductId | ConnectionString
    | ReplicaReadConsistency | DynamoDbEndpoint | DynamoDbRegion | DynamoDbTableName
    | EnableRegionSuffix | RegionMap | PreferredRegion | SessionCacheMaxSize
    | SessionCacheDuration | EnableSessionCaching | ExpireAfter | CheckInterval | Verbose

  /**
   * The values callers assign. Ruby does not restrict them; these are the
   * kinds the attribute documentation names, plus `nil`.
   */
  datatype Value =
    | Nil
    | Str(s: RubyString)
    | Bool(b: bool)
    | Int(i: int)
    | Hash(pairs: seq<(RubyString, RubyString)>)

  /** One entry of the Hash given to `JSON.generate`. */
  datatype Entry = Entry(key: string, value: Value)

  /** The keys of `MAPPING`, in declaration order. */
  const MappingOrder: seq<Attr> := [
    Kms, Metastore, ServiceName, ProductId, ConnectionString,
    ReplicaReadConsistency, DynamoDbEndpoint, DynamoDbRegion, DynamoDbTableName,
    EnableRegionSuffix, RegionMap, PreferredRegion, SessionCacheMaxSize,
    SessionCacheDuration, EnableSessionCaching, ExpireAfter, CheckInterval, Verbose
  ]

  /**
   * `MAPPING[attr]`: the name the native library expects; never
   * shorter than three characters.
   */
  function WireName(a: Attr): (w: string)
    ensures |w| >= 3
  {
    match a
    case Kms => "KMS"
    case Metastore => "Metastore"
    case ServiceName => "ServiceName"
    case ProductId => "ProductID"
    case ConnectionString => "ConnectionString"
    case ReplicaReadConsistency => "ReplicaReadConsistency"
    case DynamoDbEndpoint => "DynamoDBEndpoint"
    case DynamoDbRegion => "DynamoDBRegion"
    case DynamoDbTableName => "DynamoDBTableName"
    case EnableRegionSuffix => "EnableRegionSuffix"
    case RegionMap => "RegionMap"
    case PreferredRegion => "PreferredRegion"
    case SessionCacheMaxSize => "SessionCacheMaxSize"
    case SessionCacheDuration => "SessionCacheDuration"
    case EnableSessionCaching => "EnableSessionCaching"
    case ExpireAfter => "ExpireAfter"
    case CheckInterval => "CheckInterval"
    case Verbose => "Verbose"
  }

  /** Reading an instance variable that was never assigned yields nil. */
  function Lookup(ivars: map<Attr, Value>, a: Attr): Value
  {
    if a in ivars then ivars[a] else Nil
  }

  predicate Distinct(attrs: seq<Attr>)
  {
    forall i, j :: 0 <= i < j < |attrs| ==> attrs[i] != attrs[j]
  }

  /**
   * The entries `to_json` puts into its Hash after walking `attrs`: one
   * `(wire name, value)` pair per attribute whose value is not nil, in the
   * order of `attrs`.
   */
  function Emit(attrs: seq<Attr>, ivars: map<Attr, Value>): (r: seq<Entry>)
    ensures |r| <= |attrs|
  {
    if attrs == [] then []
    else
      var a := attrs[|attrs| - 1];
      var before := Emit(attrs[..|attrs| - 1], ivars);
      if Lookup(ivars, a) == Nil then before else before + [Entry(WireName(a), Lookup(ivars, a))]
  }

  /** The attributes among `attrs` that hold a value. */
  function Assigned(attrs: seq<Attr>, ivars: map<Attr, Value>): set<Attr>
  {
    set a | a in attrs && Lookup(ivars, a) != Nil
  }

  // ---------------------------------------------------------------------
  // The table.

  /** Where `a` stands in `MAPPING`. */
  function Position(a: Attr): (k: nat)
    ensures k < |MappingOrder| && MappingOrder[k] == a
  {
    match a
    case Kms => 0
    case Metastore => 1
    case ServiceName => 2
    case ProductId => 3
    case ConnectionString => 4
    case ReplicaReadConsistency => 5
    case DynamoDbEndpoint => 6
    case DynamoDbRegion => 7
    case DynamoDbTableName => 8
    case EnableRegionSuffix => 9
    case RegionMap => 10
    case PreferredRegion => 11
    case SessionCacheMaxSize => 12
    case SessionCacheDuration => 13
    case EnableSessionCaching => 14
    case ExpireAfter => 15
    case CheckInterval => 16
    case Verbose => 17
  }

  /** `MAPPING` lists each of the 18 attributes exactly once. */
  lemma MappingOrderComplete()
    ensures |MappingOrder| == 18
    ensures Distinct(MappingOrder)
    ensures forall a: Attr :: a in MappingOrder
  {
    forall a: Attr
      ensures a in MappingOrder
    {
      var k := Position(a);
    }
  }

  /** `MAPPING` is injective: no two attributes share a wire name. */
  lemma WireNameInjective(a: Attr, b: Attr)
    requires a != b
    ensures WireName(a) != WireName(b)
  {
  }

  // ---------------------------------------------------------------------
  // What `to_json` emits.

  /**
   * An entry is emitted exactly for the attributes that hold a value; its
   * key is the attribute's wire name and its value the attribute's value,
   * unchanged.
   */
  lemma {:induction false} EmitMembership(attrs: seq<Attr>, ivars: map<Attr, Value>)
    ensures forall e :: e in Emit(attrs, ivars) ==>
              e.value != Nil && exists a :: a in attrs && e == Entry(WireName(a), Lookup(ivars, a))
    ensures forall a :: a in attrs && Lookup(ivars, a) != Nil ==>
              Entry(WireName(a), Lookup(ivars, a)) in Emit(attrs, ivars)
  {
    if attrs != [] {
      var init := attrs[..|attrs| - 1];
      EmitMembership(init, ivars);
      assert attrs == init + [attrs[|attrs| - 1]];
    }
  }

  /** A nil attribute never shows up under its wire name. */
  lemma NilAttributeOmitted(attrs: seq<Attr>, ivars: map<Attr, Value>, a: Attr)
    requires Lookup(ivars, a) == Nil
    ensures forall e :: e in Emit(attrs, ivars) ==> e.key != WireName(a)
  {
    EmitMembership(attrs, ivars);
  }

  /** Over distinct attributes no two entries share a key, so no Hash store overwrites another. */
  lemma {:induction false} EmitKeysDistinct(attrs: seq<Attr>, ivars: map<Attr, Value>)
    requires Distinct(attrs)
    ensures forall i, j :: 0 <= i < j < |Emit(attrs, ivars)| ==>
              Emit(attrs, ivars)[i].key != Emit(attrs, ivars)[j].key
  {
    if attrs != [] {
      var init := attrs[..|attrs| - 1];
      var last := attrs[|attrs| - 1];
      EmitKeysDistinct(init, ivars);
      EmitMembership(init, ivars);
      var before := Emit(init, ivars);
      if Lookup(ivars, last) != Nil {
        var e := Emit(attrs, ivars);
        forall i | 0 <= i < |before|
          ensures e[i].key != WireName(last)
        {
          assert before[i] in before;
          var b :| b in init && before[i] == Entry(WireName(b), Lookup(ivars, b));
          var k :| 0 <= k < |init| && init[k] == b;
          assert attrs[k] == b;
          WireNameInjective(b, last);
        }
      }
    }
  }

  /** Over distinct attributes, one entry per attribute that holds a value. */
  lemma {:induction false} EmitCount(attrs: seq<Attr>, ivars: map<Attr, Value>)
    requires Distinct(attrs)
    ensures |Emit(attrs, ivars)| == |Assigned(attrs, ivars)|
  {
    if attrs != [] {
      var init := attrs[..|attrs| - 1];
      var last := attrs[|attrs| - 1];
      EmitCount(init, ivars);
      assert attrs == init + [last];
      assert last !in init by {
        forall k | 0 <= k < |init| ensures init[k] != last {
          assert attrs[k] == init[k];
        }
      }
      if Lookup(ivars, last) == Nil {
        assert Assigned(attrs, ivars) == Assigned(init, ivars);
      } else {
        assert Assigned(attrs, ivars) == Assigned(init, ivars) + {last};
      }
    }
  }

  /** An all-nil configuration emits nothing: `to_json` prints `{}`. */
  lemma {:induction false} EmitAllNil(attrs: seq<Attr>, ivars: map<Attr, Value>)
    requires forall a :: a in attrs ==> Lookup(ivars, a) == Nil
    ensures Emit(attrs, ivars) == []
  {
    if attrs != [] {
      EmitAllNil(attrs[..|attrs| - 1], ivars);
    }
  }

  /**
   * Entries keep the order of `attrs`: when an earlier and a later attribute
   * both hold values, the earlier one's entry comes first.
   */
  lemma {:induction false} EmitKeepsOrder(attrs: seq<Attr>, ivars: map<Attr, Value>, i: nat, j: nat)
    requires i < j < |attrs|
    requires Lookup(ivars, attrs[i]) != Nil && Lookup(ivars, attrs[j]) != Nil
    ensures exists p, q :: 0 <= p < q < |Emit(attrs, ivars)| &&
              Emit(attrs, ivars)[p] == Entry(WireName(attrs[i]), Lookup(ivars, attrs[i])) &&
              Emit(attrs, ivars)[q] == Entry(WireName(attrs[j]), Lookup(ivars, attrs[j]))
  {
    var init := attrs[..|attrs| - 1];
    var before := Emit(init, ivars);
    var e := Emit(attrs, ivars);
    var first := Entry(WireName(attrs[i]), Lookup(ivars, attrs[i]));
    assert attrs[i] == init[i];
    if j == |attrs| - 1 {
      EmitMembership(init, ivars);
      assert init[i] in init;
      var p :| 0 <= p < |before| && before[p] == first;
      assert e[p] == first && e[|before|] == Entry(WireName(attrs[j]), Lookup(ivars, attrs[j]));
    } else {
      assert attrs[j] == init[j];
      EmitKeepsOrder(init, ivars, i, j);
      var p, q :| 0 <= p < q < |before| &&
                  before[p] == first &&
                  before[q] == Entry(WireName(init[j]), Lookup(ivars, init[j]));
      assert e[p] == before[p] && e[q] == before[q];
    }
  }

  // ---------------------------------------------------------------------
  // The object.

  class Config {
    /** The attribute instance variables that have been assigned. */
    var ivars: map<Attr, Value>

    /** `Config.new`: no attribute assigned yet, so every reader returns nil. */
    constructor ()
      ensures ivars == map[]
      ensures forall a :: Read(a) == Nil
    {
      ivars := map[];
    }

    /** The `attr_reader` of `a` (`public_send(our_key)`). */
    function Read(a: Attr): (v: Value)
      reads this
      ensures a !in ivars ==> v == Nil
      ensures a in ivars ==> v == ivars[a]
    {
      Lookup(ivars, a)
    }

    /** The `attr_writer` of `a`: only that attribute changes. */
    method Write(a: Attr, v: Value)
      modifies this
      ensures Read(a) == v
      ensures forall b :: b != a ==> Read(b) == old(Read(b))
      ensures ivars == old(ivars)[a := v]
    {
      ivars := ivars[a := v];
    }

    /**
     * `to_json`, up to the printing: the Hash built by walking `MAPPING`,
     * as its entries in insertion order. The object is only read.
     */
    method ToJson() returns (entries: seq<Entry>)
      ensures entries == Emit(MappingOrder, ivars)
      ensures forall a :: Read(a) != Nil <==> Entry(WireName(a), Read(a)) in entries
      ensures forall e :: e in entries ==> exists a :: e == Entry(WireName(a), Read(a))
      ensures forall i, j :: 0 <= i < j < |entries| ==> entries[i].key != entries[j].key
      ensures |entries| == |Assigned(MappingOrder, ivars)|
    {
      entries := [];
      var i := 0;
      while i < |MappingOrder|
        invariant 0 <= i <= |MappingOrder|
        invariant entries == Emit(MappingOrder[..i], ivars)
      {
        var ourKey := MappingOrder[i];
        var value := Read(ourKey);
        if value != Nil {
          entries := entries + [Entry(WireName(ourKey), value)];
        }
        assert MappingOrder[..i + 1][..i] == MappingOrder[..i];
        i := i + 1;
      }
      assert MappingOrder[..i] == MappingOrder;
      MappingOrderComplete();
      EmitMembership(MappingOrder, ivars);
      EmitKeysDistinct(MappingOrder, ivars);
      EmitCount(MappingOrder, ivars);
    }
  }
}
