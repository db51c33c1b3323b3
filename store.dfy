/**
 * The interest-based value cache of src/store.rs. Two keyed maps, one per
 * value type, hold for each key a watcher (previous/current pair), an
 * `interested` flag and the getter that samples the key. A lookup registers
 * a missing key with one immediate sample and marks the key interested;
 * `update_all` evicts every key nobody looked up since the last pass,
 * re-samples the rest and clears every flag.
 *
 * A getter is an opaque handle of type `G`; what each getter returns at the
 * moment it is called is given by a `sample: G -> Option<A>` argument.
 */
module Store {
  import opened Wrappers
  import opened Watchers
  import opened SilksongMemory

  /** One cache entry: `StoreValue<A>`. */
  datatype StoreValue<A, G> = StoreValue(watcher: Watcher<A>, interested: bool, get: G)

  type Entries<A, G> = map<string, StoreValue<A, G>>

  /** `StoreValue::new`: one sample attempt seeds the pair; the entry starts interested. */
  function NewValue<A, G>(get: G, sample: G -> Option<A>): (v: StoreValue<A, G>)
    ensures v.interested && v.get == get
    ensures sample(get).None? ==> v.watcher.pair.None?
    ensures sample(get).Some? ==> v.watcher.pair == Some(Pair(sample(get).value, sample(get).value))
  {
    StoreValue(Unset<A>().Offer(sample(get)), true, get)
  }

  /** `StoreValue::update` followed by clearing the flag, as one step of `update_all`. */
  function Refresh<A, G>(v: StoreValue<A, G>, sample: G -> Option<A>): (r: StoreValue<A, G>)
    ensures !r.interested && r.get == v.get
    ensures sample(v.get).None? ==> r.watcher == v.watcher
    ensures sample(v.get).Some? ==> r.watcher.pair.Some? && r.watcher.pair.value.current == sample(v.get).value
    ensures sample(v.get).Some? && v.watcher.pair.Some? ==>
      r.watcher.pair.value.previous == v.watcher.pair.value.current
    ensures sample(v.get).Some? && v.watcher.pair.None? ==>
      r.watcher.pair == Some(Pair(sample(v.get).value, sample(v.get).value))
  {
    StoreValue(v.watcher.Offer(sample(v.get)), false, v.get)
  }

  /** What a lookup of `key` returns: its pair, or nothing for a missing key or an unsampled entry. */
  function PairOf<A, G>(m: Entries<A, G>, key: string): Option<Pair<A>>
  {
    if key in m then m[key].watcher.pair else None
  }

  /** The effect of `get_bool`/`get_i32`: only the flag of a present key changes. */
  function MarkInterested<A, G>(m: Entries<A, G>, key: string): (r: Entries<A, G>)
    ensures r.Keys == m.Keys
    ensures forall k :: k in m && k != key ==> r[k] == m[k]
    ensures key in m ==> r[key] == m[key].(interested := true)
  {
    if key in m then m[key := m[key].(interested := true)] else m
  }

  /**
   * The effect of `get_bool_bang`/`get_i32_bang`: a missing key gains one
   * new entry, sampled once; a present key only becomes interested, and its
   * getter, pair and the supplied getter's result play no part.
   */
  function Register<A, G>(m: Entries<A, G>, key: string, get: G, sample: G -> Option<A>): (r: Entries<A, G>)
    ensures r.Keys == m.Keys + {key}
    ensures forall k :: k in m && k != key ==> r[k] == m[k]
    ensures key !in m ==> r[key] == NewValue(get, sample)
    ensures key in m ==> r[key] == m[key].(interested := true)
  {
    MarkInterested(if key in m then m else m[key := NewValue(get, sample)], key)
  }

  /** `retain(|_, v| v.interested)`. */
  function Retained<A, G>(m: Entries<A, G>): (r: Entries<A, G>)
    ensures forall k :: k in r <==> k in m && m[k].interested
    ensures forall k :: k in r ==> r[k] == m[k]
  {
    map k | k in m && m[k].interested :: m[k]
  }

  /** The loop over `values_mut()`: every entry re-sampled and its flag cleared. */
  function Refreshed<A, G>(m: Entries<A, G>, sample: G -> Option<A>): (r: Entries<A, G>)
    ensures r.Keys == m.Keys
    ensures forall k :: k in r ==> r[k] == Refresh(m[k], sample)
  {
    map k | k in m :: Refresh(m[k], sample)
  }

  /** One map's part of `update_all`. */
  function UpdatedAll<A, G>(m: Entries<A, G>, sample: G -> Option<A>): (r: Entries<A, G>)
    ensures r.Keys <= m.Keys
    ensures forall k :: k in r <==> k in m && m[k].interested
    ensures forall k :: k in r ==> !r[k].interested && r[k] == Refresh(m[k], sample)
  {
    Refreshed(Retained(m), sample)
  }

  /** Re-samples every entry of `m` and clears its flag, one key at a time. */
  method RefreshValues<A, G>(m: Entries<A, G>, sample: G -> Option<A>) returns (r: Entries<A, G>)
    ensures r == Refreshed(m, sample)
  {
    r := m;
    var todo := m.Keys;
    while todo != {}
      invariant todo <= m.Keys && r.Keys == m.Keys
      invariant forall k :: k in todo ==> r[k] == m[k]
      invariant forall k :: k in m && k !in todo ==> r[k] == Refresh(m[k], sample)
      decreases todo
    {
      var k :| k in todo;
      r := r[k := Refresh(r[k], sample)];
      todo := todo - {k};
    }
  }

  /** `Store`: one cache for boolean signals and one for `i32` signals. */
  class Store<G> {
    var bools: Entries<bool, G>
    var i32s: Entries<i32, G>

    constructor ()
      ensures bools == map[] && i32s == map[]
    {
      bools := map[];
      i32s := map[];
    }

    /** `get_bool`. */
    method GetBool(key: string) returns (r: Option<Pair<bool>>)
      modifies this`bools
      ensures bools == MarkInterested(old(bools), key)
      ensures r == PairOf(old(bools), key)
    {
      if key !in bools {
        return None;
      }
      var v := bools[key];
      bools := bools[key := v.(interested := true)];
      r := v.watcher.pair;
    }

    /** `get_i32`. */
    method GetI32(key: string) returns (r: Option<Pair<i32>>)
      modifies this`i32s
      ensures i32s == MarkInterested(old(i32s), key)
      ensures r == PairOf(old(i32s), key)
    {
      if key !in i32s {
        return None;
      }
      var v := i32s[key];
      i32s := i32s[key := v.(interested := true)];
      r := v.watcher.pair;
    }

    /** `get_bool_bang`: registers a missing key, then looks it up. */
    method GetBoolBang(key: string, get: G, sample: G -> Option<bool>) returns (r: Option<Pair<bool>>)
      modifies this`bools
      ensures bools == Register(old(bools), key, get, sample)
      ensures r == PairOf(bools, key)
      ensures key in old(bools) ==> r == old(bools)[key].watcher.pair
    {
      if key !in bools {
        bools := bools[key := NewValue(get, sample)];
      }
      r := GetBool(key);
    }

    /** `get_i32_bang`: registers a missing key, then looks it up. */
    method GetI32Bang(key: string, get: G, sample: G -> Option<i32>) returns (r: Option<Pair<i32>>)
      modifies this`i32s
      ensures i32s == Register(old(i32s), key, get, sample)
      ensures r == PairOf(i32s, key)
      ensures key in old(i32s) ==> r == old(i32s)[key].watcher.pair
    {
      if key !in i32s {
        i32s := i32s[key := NewValue(get, sample)];
      }
      r := GetI32(key);
    }

    /** `update_all`: evict the uninterested entries of both maps, then refresh the survivors. */
    method UpdateAll(sampleBool: G -> Option<bool>, sampleI32: G -> Option<i32>)
      modifies this
      ensures bools == UpdatedAll(old(bools), sampleBool)
      ensures i32s == UpdatedAll(old(i32s), sampleI32)
    {
      bools := Retained(bools);
      i32s := Retained(i32s);
      bools := RefreshValues(bools, sampleBool);
      i32s := RefreshValues(i32s, sampleI32);
    }
  }

  /** One lookup through `get_*_bang`: the key and the getter supplied with it. */
  datatype Request<G> = Request(key: string, get: G)

  /** The map after the lookups `reqs`, in order, within one tick. */
  function Lookups<A, G>(m: Entries<A, G>, reqs: seq<Request<G>>, sample: G -> Option<A>): Entries<A, G>
    decreases |reqs|
  {
    if reqs == [] then m
    else Lookups(Register(m, reqs[0].key, reqs[0].get, sample), reqs[1..], sample)
  }

  /** Whether some lookup of `reqs` asks for `key`. */
  predicate Requested<G>(reqs: seq<Request<G>>, key: string)
  {
    exists i :: 0 <= i < |reqs| && reqs[i].key == key
  }

  /** Lookups of other keys neither add `key` nor mark it interested. */
  lemma {:induction false} LookupsLeaveOthers<A, G>(m: Entries<A, G>, reqs: seq<Request<G>>, sample: G -> Option<A>, key: string)
    requires !Requested(reqs, key)
    ensures key in Lookups(m, reqs, sample) <==> key in m
    ensures key in m ==> Lookups(m, reqs, sample)[key] == m[key]
    decreases |reqs|
  {
    if reqs != [] {
      assert !Requested(reqs[1..], key) by {
        forall i | 0 <= i < |reqs[1..]| ensures reqs[1..][i].key != key {
          assert reqs[1..][i] == reqs[i + 1];
        }
      }
      LookupsLeaveOthers(Register(m, reqs[0].key, reqs[0].get, sample), reqs[1..], sample, key);
    }
  }

  /** A looked-up key is present and interested once the tick's lookups are done. */
  lemma {:induction false} LookupsMarkRequested<A, G>(m: Entries<A, G>, reqs: seq<Request<G>>, sample: G -> Option<A>, key: string)
    requires Requested(reqs, key)
    ensures key in Lookups(m, reqs, sample) && Lookups(m, reqs, sample)[key].interested
    decreases |reqs|
  {
    var m' := Register(m, reqs[0].key, reqs[0].get, sample);
    if reqs[0].key == key {
      LookupsKeepInterest(m', reqs[1..], sample, key);
    } else {
      var i :| 0 <= i < |reqs| && reqs[i].key == key;
      assert reqs[1..][i - 1] == reqs[i];
      LookupsMarkRequested(m', reqs[1..], sample, key);
    }
  }

  /** Lookups never take a key away or clear its interest. */
  lemma {:induction false} LookupsKeepInterest<A, G>(m: Entries<A, G>, reqs: seq<Request<G>>, sample: G -> Option<A>, key: string)
    requires key in m && m[key].interested
    ensures key in Lookups(m, reqs, sample) && Lookups(m, reqs, sample)[key].interested
    decreases |reqs|
  {
    if reqs != [] {
      LookupsKeepInterest(Register(m, reqs[0].key, reqs[0].get, sample), reqs[1..], sample, key);
    }
  }

  /**
   * Across two passes of `update_all`: a key survives the second pass
   * exactly when it was looked up in between, so an entry nobody asked for
   * during a tick is gone after that tick's pass.
   */
  lemma EvictedUnlessLookedUp<A, G>(m: Entries<A, G>, reqs: seq<Request<G>>, sample: G -> Option<A>,
                                    s1: G -> Option<A>, s2: G -> Option<A>, key: string)
    ensures key in UpdatedAll(Lookups(UpdatedAll(m, s1), reqs, sample), s2) <==> Requested(reqs, key)
  {
    if Requested(reqs, key) {
      LookupsMarkRequested(UpdatedAll(m, s1), reqs, sample, key);
    } else {
      LookupsLeaveOthers(UpdatedAll(m, s1), reqs, sample, key);
    }
  }

  /** A key registered in this tick survives the next pass, re-sampled from its first sample. */
  lemma FreshEntrySurvives<A, G>(m: Entries<A, G>, key: string, get: G, sample: G -> Option<A>, next: G -> Option<A>)
    requires key !in m
    ensures var r := UpdatedAll(Register(m, key, get, sample), next);
      key in r && r[key] == Refresh(NewValue(get, sample), next)
  {
  }

  /** After eviction, a lookup starts the key over with a fresh sample: nothing stale is carried. */
  lemma EvictedKeyStartsOver<A, G>(m: Entries<A, G>, key: string, get: G, s1: G -> Option<A>, sample: G -> Option<A>)
    requires key in m && !m[key].interested
    ensures Register(UpdatedAll(m, s1), key, get, sample)[key] == NewValue(get, sample)
  {
  }

  /** On a present key the getter supplied with the lookup is never used. */
  lemma RegisterIgnoresGetterWhenPresent<A, G>(m: Entries<A, G>, key: string,
                                               get1: G, sample1: G -> Option<A>, get2: G, sample2: G -> Option<A>)
    requires key in m
    ensures Register(m, key, get1, sample1) == Register(m, key, get2, sample2) == MarkInterested(m, key)
  {
  }

  /** Two passes with no lookup between them empty the map. */
  lemma TwoPassesWithoutLookupsEmpty<A, G>(m: Entries<A, G>, s1: G -> Option<A>, s2: G -> Option<A>)
    ensures UpdatedAll(UpdatedAll(m, s1), s2) == map[]
  {
  }
}
