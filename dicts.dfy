/** Python dicts with string keys, as sequences of (key, value) pairs in
    insertion order. Assigning to an existing key keeps its position. */
module Dicts {
  import opened Wrappers

  type Dict<V> = seq<(string, V)>

  /** No key appears twice, as in every Python dict. */
  predicate Keyed<V>(d: Dict<V>) {
    forall i, j | 0 <= i < j < |d| :: d[i].0 != d[j].0
  }

  function Keys<V>(d: Dict<V>): (r: seq<string>)
    ensures |r| == |d| && forall i | 0 <= i < |d| :: r[i] == d[i].0
  {
    seq(|d|, i requires 0 <= i < |d| => d[i].0)
  }

  /** Python `key in d`. */
  predicate HasKey<V>(d: Dict<V>, key: string) {
    exists i | 0 <= i < |d| :: d[i].0 == key
  }

  /** The index of the first entry under `key`, if any. */
  function Find<V>(d: Dict<V>, key: string): (r: Option<nat>)
    ensures r.Some? ==> r.value < |d| && d[r.value].0 == key
    ensures r.Some? ==> forall j | 0 <= j < r.value :: d[j].0 != key
    ensures r.None? ==> forall j | 0 <= j < |d| :: d[j].0 != key
  {
    if |d| == 0 then None
    else if d[0].0 == key then Some(0)
    else
      match Find(d[1..], key)
      case Some(i) => Some(i + 1)
      case None => None
  }

  /** Two dicts whose keys agree on where `key` occurs find it at the same place. */
  lemma FindSame<V>(d: Dict<V>, e: Dict<V>, key: string)
    requires |d| <= |e|
    requires forall j | 0 <= j < |d| :: (d[j].0 == key) == (e[j].0 == key)
    requires forall j | |d| <= j < |e| :: e[j].0 != key
    ensures Find(d, key) == Find(e, key)
  {
  }

  /** Python `d.get(key)`: the value stored under `key`, if any. */
  function Get<V>(d: Dict<V>, key: string): (r: Option<V>)
    ensures r.Some? <==> HasKey(d, key)
    ensures r.Some? ==> exists i | 0 <= i < |d| :: d[i] == (key, r.value)
  {
    match Find(d, key)
    case Some(i) => Some(d[i].1)
    case None => None
  }

  /** In a dict with unique keys, `Get` returns the value of the entry under `key`. */
  lemma GetKeyed<V>(d: Dict<V>, i: int)
    requires Keyed(d) && 0 <= i < |d|
    ensures Get(d, d[i].0) == Some(d[i].1)
  {
    var f := Find(d, d[i].0);
    assert f.Some?;
    assert !(f.value < i) && !(i < f.value);
  }

  /** Appending an entry leaves the lookup of every key already present as
      it was; the new entry answers only for a key that was absent. */
  lemma {:induction false} GetSnoc<V>(d: Dict<V>, key: string, v: V, k: string)
    ensures Get(d + [(key, v)], k) == if HasKey(d, k) then Get(d, k) else if k == key then Some(v) else None
  {
    var e := d + [(key, v)];
    if HasKey(d, k) {
      var i := Find(d, k).value;
      assert e[i] == d[i];
      var f := Find(e, k);
      assert f.Some?;
      assert !(f.value < i) && !(i < f.value);
    } else {
      assert forall j | 0 <= j < |d| :: e[j].0 == d[j].0;
      assert e[|d|] == (key, v);
    }
  }

  /** Python `d.get(key, default)`. */
  function GetOr<V>(d: Dict<V>, key: string, default: V): (r: V)
    ensures HasKey(d, key) ==> Some(r) == Get(d, key)
    ensures !HasKey(d, key) ==> r == default
  {
    Get(d, key).GetOr(default)
  }

  /** Python `d[key] = v`: an existing key is overwritten where it stands, a
      new key is added at the end. */
  function Put<V>(d: Dict<V>, key: string, v: V): (r: Dict<V>)
    ensures Get(r, key) == Some(v)
    ensures Keyed(d) ==> Keyed(r)
  {
    match Find(d, key)
    case Some(i) =>
      var r := d[i := (key, v)];
      FindSame(d, r, key);
      r
    case None =>
      var r := d + [(key, v)];
      assert r[|d|].0 == key;
      assert forall j | 0 <= j < |d| :: r[j] == d[j];
      r
  }

  /** An existing key keeps its position; a new key goes last. */
  lemma PutKeys<V>(d: Dict<V>, key: string, v: V)
    ensures HasKey(d, key) ==> Keys(Put(d, key, v)) == Keys(d)
    ensures !HasKey(d, key) ==> Keys(Put(d, key, v)) == Keys(d) + [key]
  {
  }

  /** Assigning to `key` leaves every other key's value as it was. */
  lemma PutOther<V>(d: Dict<V>, key: string, v: V, k: string)
    requires k != key
    ensures Get(Put(d, key, v), k) == Get(d, k)
  {
    var r := Put(d, key, v);
    FindSame(d, r, k);
  }

  /** Assigning to a key the dict does not hold appends the entry. */
  lemma PutAbsent<V>(d: Dict<V>, key: string, v: V)
    requires !HasKey(d, key)
    ensures Put(d, key, v) == d + [(key, v)]
  {
  }

  /** Assigning to a new key appends it and leaves every other key's value
      as it was. */
  lemma PutNewKey<V>(d: Dict<V>, keys: seq<string>, key: string, v: V)
    requires Keys(d) == keys && key !in keys
    ensures Keys(Put(d, key, v)) == keys + [key]
    ensures forall k | k != key :: Get(Put(d, key, v), k) == Get(d, k)
  {
    assert !HasKey(d, key) by {
      assert forall i | 0 <= i < |d| :: d[i].0 == keys[i];
    }
    PutKeys(d, key, v);
    forall k | k != key
      ensures Get(Put(d, key, v), k) == Get(d, k)
    {
      PutOther(d, key, v, k);
    }
  }

  /** Dropping the last entry of a dict with unique keys leaves unique keys,
      none of them the last entry's. */
  lemma KeyedInit<V>(d: Dict<V>)
    requires Keyed(d) && |d| > 0
    ensures Keyed(d[..|d| - 1]) && d[|d| - 1].0 !in Keys(d[..|d| - 1])
  {
    var init := d[..|d| - 1];
    assert forall i | 0 <= i < |init| :: init[i] == d[i];
  }

  lemma KeysSnoc<V>(d: Dict<V>)
    requires |d| > 0
    ensures Keys(d) == Keys(d[..|d| - 1]) + [d[|d| - 1].0]
  {
    var init := d[..|d| - 1];
    assert forall i | 0 <= i < |init| :: init[i] == d[i];
  }

  /** Python `d.update(e)`: every entry of `e`, in order, assigned into `d`. */
  function Update<V>(d: Dict<V>, e: Dict<V>): Dict<V>
    decreases |e|
  {
    if |e| == 0 then d
    else
      var last := e[|e| - 1];
      Put(Update(d, e[..|e| - 1]), last.0, last.1)
  }

  /** After `d.update(e)` a key of `e` holds `e`'s value and any other key its
      old value. */
  lemma {:induction false} GetUpdate<V>(d: Dict<V>, e: Dict<V>, key: string)
    requires Keyed(e)
    ensures Get(Update(d, e), key) == if HasKey(e, key) then Get(e, key) else Get(d, key)
    decreases |e|
  {
    if |e| > 0 {
      var init := e[..|e| - 1];
      var last := e[|e| - 1];
      assert forall i | 0 <= i < |init| :: init[i] == e[i];
      GetUpdate(d, init, key);
      if key != last.0 {
        PutOther(Update(d, init), last.0, last.1, key);
        if HasKey(e, key) {
          var i :| 0 <= i < |e| && e[i].0 == key;
          assert init[i].0 == key;
        }
      }
    }
  }

  /** `d.update(e)` keeps the keys of `d` in their places and keeps keys unique. */
  lemma {:induction false} UpdateKeys<V>(d: Dict<V>, e: Dict<V>)
    requires Keyed(d)
    ensures Keyed(Update(d, e))
    ensures |Update(d, e)| >= |d|
    ensures Keys(Update(d, e))[..|d|] == Keys(d)
    decreases |e|
  {
    if |e| > 0 {
      UpdateKeys(d, e[..|e| - 1]);
    }
  }

  /** The keys of `d` as a set. */
  function KeySet<V>(d: Dict<V>): (r: set<string>)
    ensures forall k :: k in r <==> HasKey(d, k)
  {
    set i | 0 <= i < |d| :: d[i].0
  }

  /** `d[key] = v` adds `key` and no other key. */
  lemma PutKeySet<V>(d: Dict<V>, key: string, v: V)
    ensures KeySet(Put(d, key, v)) == KeySet(d) + {key}
  {
    var r := Put(d, key, v);
    forall k ensures HasKey(r, k) <==> HasKey(d, k) || k == key {
      if k != key {
        PutOther(d, key, v, k);
      }
    }
  }

  /** `d.update(e)` adds the keys of `e` and no other key. */
  lemma {:induction false} UpdateKeySet<V>(d: Dict<V>, e: Dict<V>)
    ensures KeySet(Update(d, e)) == KeySet(d) + KeySet(e)
    decreases |e|
  {
    if |e| > 0 {
      var init := e[..|e| - 1];
      var last := e[|e| - 1];
      UpdateKeySet(d, init);
      PutKeySet(Update(d, init), last.0, last.1);
      KeySetSnoc(e);
    }
  }

  lemma KeySetSnoc<V>(e: Dict<V>)
    requires |e| > 0
    ensures KeySet(e) == KeySet(e[..|e| - 1]) + {e[|e| - 1].0}
  {
    var init := e[..|e| - 1];
    assert forall i | 0 <= i < |init| :: init[i] == e[i];
  }
}
