/** JavaScript values and plain-object dictionaries, as far as the storage layer
    and the bucket configuration use them. A plain object `{}` indexed by a
    string key is a finite map; reading a key that was never written yields
    `undefined`, and `obj[key] = value` replaces one entry. */
module Js {

  datatype Option<+T> = None | Some(value: T) {
    function GetOr(default: T): T {
      match this
      case Some(v) => v
      case None => default
    }
  }

  /** The JavaScript values a caller can store or pass as options. Numbers are
      modelled as unbounded integers; arrays are objects with index keys. */
  datatype JsValue =
    | Undefined
    | Null
    | Bool(b: bool)
    | Num(n: int)
    | Str(s: string)
    | Obj(props: map<string, JsValue>)

  /** The own property `k` of a dictionary, or None when `k` was never written. */
  function Read<V>(m: map<string, V>, k: string): (r: Option<V>)
    ensures r.Some? <==> k in m
    ensures r.Some? ==> r.value == m[k]
  {
    if k in m then Some(m[k]) else None
  }

  /** `obj[k] = v`: a read of `k` now yields `v`, every other key reads as before. */
  function Write<V>(m: map<string, V>, k: string, v: V): (m': map<string, V>)
    ensures Read(m', k) == Some(v)
    ensures forall j :: j != k ==> Read(m', j) == Read(m, j)
    ensures m'.Keys == m.Keys + {k}
  {
    m[k := v]
  }

  /** One assignment `obj[key] = value`. */
  datatype Assignment<V> = Assignment(key: string, value: V)

  /** The dictionary after performing the assignments `ws` in order. */
  function Apply<V>(m: map<string, V>, ws: seq<Assignment<V>>): (m': map<string, V>)
    decreases |ws|
  {
    if ws == [] then m else Apply(Write(m, ws[0].key, ws[0].value), ws[1..])
  }

  /** The value of the last assignment to `k` in `ws`, found by scanning from
      the end, or None when `ws` never assigns `k`. */
  function LastWrite<V>(ws: seq<Assignment<V>>, k: string): (r: Option<V>)
  {
    if ws == [] then None
    else if ws[|ws| - 1].key == k then Some(ws[|ws| - 1].value)
    else LastWrite(ws[..|ws| - 1], k)
  }

  /** Performing one more assignment after a history is one more Write. */
  lemma {:induction false} ApplySnoc<V>(m: map<string, V>, ws: seq<Assignment<V>>, w: Assignment<V>)
    ensures Apply(m, ws + [w]) == Write(Apply(m, ws), w.key, w.value)
    decreases |ws|
  {
    if ws == [] {
      assert ws + [w] == [w];
    } else {
      assert (ws + [w])[1..] == ws[1..] + [w];
      ApplySnoc(Write(m, ws[0].key, ws[0].value), ws[1..], w);
    }
  }

  /** Last write wins: after any history of assignments, a key reads as the
      last value assigned to it, and a key never assigned reads as before. */
  lemma {:induction false} LastWriteWins<V>(m: map<string, V>, ws: seq<Assignment<V>>, k: string)
    ensures Read(Apply(m, ws), k) == if LastWrite(ws, k).Some? then LastWrite(ws, k) else Read(m, k)
    decreases |ws|
  {
    if ws != [] {
      var init, w := ws[..|ws| - 1], ws[|ws| - 1];
      assert ws == init + [w];
      ApplySnoc(m, init, w);
      if w.key != k {
        LastWriteWins(m, init, k);
      }
    }
  }

  /** Two writes to the same key leave only the second. */
  lemma WriteOverwrites<V>(m: map<string, V>, k: string, v1: V, v2: V)
    ensures Write(Write(m, k, v1), k, v2) == Write(m, k, v2)
  {
  }

}
