/** The bucket's configuration: the options the constructor keeps, built by a
    shallow top-level merge of the caller's options over fixed defaults, and
    the time from which the buckets are considered to be filling. */
module Bucket {
  import opened Js

  /** The fresh target object the caller's options are merged into:
      `{storage: {type: 'memory'}, buckets: {size: 100, refreshRate: 50, refreshInterval: 1}}`.
      It has exactly these two keys, so `waitForTokenMs` has no default. */
  function Defaults(): (d: map<string, JsValue>)
    ensures d.Keys == {"storage", "buckets"}
    ensures d["storage"] == Obj(map["type" := Str("memory")])
    ensures d["buckets"] == Obj(map["size" := Num(100), "refreshRate" := Num(50), "refreshInterval" := Num(1)])
  {
    map["storage" := Obj(map["type" := Str("memory")]),
        "buckets" := Obj(map["size" := Num(100), "refreshRate" := Num(50), "refreshInterval" := Num(1)])]
  }

  /** The decimal digit character for `d`. */
  function Digit(d: nat): (c: char)
    requires d < 10
    ensures '0' <= c <= '9' && c as int - '0' as int == d
  {
    ('0' as int + d) as char
  }

  /** The number a string of decimal digits spells. */
  function DecimalValue(k: string): (v: int)
  {
    if k == [] then 0 else DecimalValue(k[..|k| - 1]) * 10 + (k[|k| - 1] as int - '0' as int)
  }

  /** The decimal spelling of an array index, as a property key. */
  function IndexKey(n: nat): (k: string)
    ensures |k| > 0 && k[|k| - 1] == Digit(n % 10)
    decreases n
  {
    if n < 10 then [Digit(n)] else IndexKey(n / 10) + [Digit(n % 10)]
  }

  /** An index key is canonical decimal: only digits, a single digit exactly
      for indices below 10, and no leading zero. */
  lemma {:induction false} IndexKeyIsDecimal(n: nat)
    ensures forall i :: 0 <= i < |IndexKey(n)| ==> '0' <= IndexKey(n)[i] <= '9'
    ensures (|IndexKey(n)| == 1) == (n < 10)
    ensures n >= 10 ==> IndexKey(n)[0] != '0'
    decreases n
  {
    if n >= 10 {
      IndexKeyIsDecimal(n / 10);
      var k := IndexKey(n / 10);
      assert IndexKey(n) == k + [Digit(n % 10)];
      if n / 10 < 10 {
        assert k == [Digit(n / 10)];
      }
    }
  }

  /** Reading an index key back as a decimal number gives the index. */
  lemma {:induction false} IndexKeyRoundTrip(n: nat)
    ensures DecimalValue(IndexKey(n)) == n
    decreases n
  {
    var k := IndexKey(n);
    if n < 10 {
      assert k[..0] == [];
    } else {
      assert k[..|k| - 1] == IndexKey(n / 10);
      IndexKeyRoundTrip(n / 10);
      assert DecimalValue(k) == (n / 10) * 10 + n % 10;
    }
  }

  /** Distinct indices have distinct keys. */
  lemma IndexKeyInjective(i: nat, j: nat)
    requires IndexKey(i) == IndexKey(j)
    ensures i == j
  {
    IndexKeyRoundTrip(i);
    IndexKeyRoundTrip(j);
  }

  /** The keys of the indices below `n`, and no other key. */
  function IndexKeys(n: nat): (keys: set<string>)
    ensures forall i :: 0 <= i < n ==> IndexKey(i) in keys
  {
    if n == 0 then {} else IndexKeys(n - 1) + {IndexKey(n - 1)}
  }

  /** `IndexKeys(n)` is exactly the set of the keys of the indices below `n`. */
  lemma {:induction false} IndexKeysExactly(n: nat)
    ensures IndexKeys(n) == set i | 0 <= i < n :: IndexKey(i)
  {
    if n > 0 {
      IndexKeysExactly(n - 1);
      var below := set i | 0 <= i < n - 1 :: IndexKey(i);
      var all := set i | 0 <= i < n :: IndexKey(i);
      forall k | k in all ensures k in below + {IndexKey(n - 1)} {
        var i :| 0 <= i < n && k == IndexKey(i);
        if i < n - 1 { assert IndexKey(i) in below; }
      }
      forall k | k in below ensures k in all {
        var i :| 0 <= i < n - 1 && k == IndexKey(i);
        assert IndexKey(i) in all;
      }
      assert IndexKey(n - 1) in all;
      assert all == below + {IndexKey(n - 1)};
    }
  }

  /** The one-character strings of `s`, keyed by their index, and no other key. */
  function CharProps(s: string): (m: map<string, JsValue>)
    ensures m.Keys == IndexKeys(|s|)
    ensures forall i :: 0 <= i < |s| ==> m[IndexKey(i)] == Str([s[i]])
    decreases |s|
  {
    if s == [] then map[]
    else
      var n := |s| - 1;
      var m := CharProps(s[..n]);
      assert forall i :: 0 <= i < n ==> IndexKey(i) != IndexKey(n) by {
        forall i | 0 <= i < n ensures IndexKey(i) != IndexKey(n) {
          if IndexKey(i) == IndexKey(n) { IndexKeyInjective(i, n); }
        }
      }
      m[IndexKey(n) := Str([s[n]])]
  }

  /** The own enumerable properties `Object.assign` copies from a source:
      none from `undefined`, `null`, booleans and numbers, the indexed
      characters of a string, all properties of an object. */
  function OwnProps(source: JsValue): (r: map<string, JsValue>)
    ensures source.Obj? ==> r == source.props
    ensures source.Str? ==> r == CharProps(source.s)
    ensures source.Undefined? || source.Null? || source.Bool? || source.Num? ==> r == map[]
  {
    match source
    case Str(s) => CharProps(s)
    case Obj(props) => props
    case _ => map[]
  }

  /** `Object.assign(defaults, options)`: every property of the caller's options
      is kept as given, and a default survives only where the options have no
      property of that name. */
  function Merge(defaults: map<string, JsValue>, options: JsValue): (r: map<string, JsValue>)
    ensures r.Keys == defaults.Keys + OwnProps(options).Keys
    ensures forall k :: k in OwnProps(options) ==> r[k] == OwnProps(options)[k]
    ensures forall k :: k in defaults && k !in OwnProps(options) ==> r[k] == defaults[k]
  {
    defaults + OwnProps(options)
  }

  /** `serviceStartedTime || now`: a non-zero start time is kept, and zero
      means the clock's reading. */
  function StartTime(serviceStartedTime: int, now: int): (t: int)
    ensures serviceStartedTime != 0 ==> t == serviceStartedTime
    ensures serviceStartedTime == 0 ==> t == now
  {
    if serviceStartedTime != 0 then serviceStartedTime else now
  }

  class Bucket {
    var options: map<string, JsValue>
    var started: int

    /** The constructor reads the clock only through `now`; `serviceStartedTime`
        is 0 when the caller omits it. The caller's options are a value and are
        not changed. */
    constructor (options: JsValue, serviceStartedTime: int, now: int)
      ensures this.options == Merge(Defaults(), options)
      ensures started == StartTime(serviceStartedTime, now)
    {
      this.options := Merge(Defaults(), options);
      started := StartTime(serviceStartedTime, now);
    }
  }

  /** Without a `storage` option the merged options select the in-memory store. */
  lemma DefaultStorageWhenOmitted(options: JsValue)
    requires "storage" !in OwnProps(options)
    ensures Merge(Defaults(), options)["storage"] == Obj(map["type" := Str("memory")])
  {
  }

  /** Without a `buckets` option the merged options hold the default bucket
      shape. */
  lemma DefaultBucketsWhenOmitted(options: JsValue)
    requires "buckets" !in OwnProps(options)
    ensures Merge(Defaults(), options)["buckets"] ==
              Obj(map["size" := Num(100), "refreshRate" := Num(50), "refreshInterval" := Num(1)])
  {
  }

  /** A supplied `storage` or `buckets` object replaces the default whole: the
      merged value is the caller's object, and none of the subfields it lacks
      is filled in from the defaults. */
  lemma SuppliedReplacesWhole(options: JsValue, key: string, given: map<string, JsValue>)
    requires key == "storage" || key == "buckets"
    requires key in OwnProps(options) && OwnProps(options)[key] == Obj(given)
    ensures Merge(Defaults(), options)[key] == Obj(given)
    ensures forall f :: f in Defaults()[key].props && f !in given ==>
              f !in Merge(Defaults(), options)[key].props
  {
  }

  /** In particular `{buckets: {size: 10}}` leaves the merged buckets without a
      `refreshRate`, although the documented per-field default is 50. */
  lemma PartialBucketsNotFilled()
    ensures var merged := Merge(Defaults(), Obj(map["buckets" := Obj(map["size" := Num(10)])]));
            merged["buckets"] == Obj(map["size" := Num(10)]) &&
            "refreshRate" !in merged["buckets"].props &&
            merged["storage"] == Obj(map["type" := Str("memory")])
  {
  }

  /** Options outside the defaults, such as `waitForTokenMs` or `type`, pass
      through unchanged. */
  lemma ExtraOptionsPassThrough(options: JsValue, key: string)
    requires key !in Defaults() && key in OwnProps(options)
    ensures key in Merge(Defaults(), options) && Merge(Defaults(), options)[key] == OwnProps(options)[key]
  {
  }

  /** Omitted options, and options that are `null`, yield exactly the defaults. */
  lemma NoOptionsGiveDefaults(options: JsValue)
    requires options == Undefined || options == Null
    ensures Merge(Defaults(), options) == Defaults()
  {
  }

  /** No default exists for `waitForTokenMs`: when the caller omits it, the
      merged options have no such property. */
  lemma NoWaitForTokenDefault(options: JsValue)
    requires "waitForTokenMs" !in OwnProps(options)
    ensures "waitForTokenMs" !in Merge(Defaults(), options)
  {
  }

  /** The configuration of the first scenario in the bucket's tests: the
      top-level `type` and `waitForTokenMs` pass through, `storage` keeps its
      default, and `buckets` is the one supplied. */
  method FirstScenarioConfiguration(now: int) returns (b: Bucket)
    ensures b.options == map["type" := Str("memory"),
                             "waitForTokenMs" := Num(10),
                             "storage" := Obj(map["type" := Str("memory")]),
                             "buckets" := Obj(map["size" := Num(10), "refreshRate" := Num(3), "refreshInterval" := Num(1)])]
    ensures b.started == now
  {
    var given := Obj(map["type" := Str("memory"),
                         "buckets" := Obj(map["size" := Num(10), "refreshRate" := Num(3), "refreshInterval" := Num(1)]),
                         "waitForTokenMs" := Num(10)]);
    b := new Bucket(given, 0, now);
  }
}
