/**
 * The previous/current pair kept for one sampled quantity, after the
 * `Watcher` and `Pair` types of the asr crate (whose code is not part of this
 * model). The first successful sample `v` makes the pair `(v, v)`; every
 * later one shifts the current value into the previous slot.
 */
module Watchers {
  import opened Wrappers

  /** Rust's `Pair { old, current }`; `old` is a Dafny keyword, hence `previous`. */
  datatype Pair<A> = Pair(previous: A, current: A)

  datatype Watcher<A> = Watcher(pair: Option<Pair<A>>) {

    /** `update_infallible(v)`: record one successful sample. */
    function Update(v: A): (w: Watcher<A>)
      ensures w.pair.Some? && w.pair.value.current == v
      ensures w.pair.value.previous == if pair.Some? then pair.value.current else v
    {
      match pair
      case None => Watcher(Some(Pair(v, v)))
      case Some(p) => Watcher(Some(Pair(p.current, v)))
    }

    /**
     * One sampling attempt: a sample that produced nothing leaves the pair
     * as it was, a successful one is recorded.
     */
    function Offer(sample: Option<A>): (w: Watcher<A>)
      ensures sample.None? ==> w == this
      ensures sample.Some? ==> w.pair == Some(Pair(if pair.Some? then pair.value.current else sample.value, sample.value))
    {
      match sample
      case None => this
      case Some(v) => Update(v)
    }
  }

  /** A watcher that has never seen a sample. */
  function Unset<A>(): Watcher<A>
  {
    Watcher(None)
  }

  /** The watcher after the sampling attempts `samples`, oldest first. */
  function Feed<A>(w: Watcher<A>, samples: seq<Option<A>>): Watcher<A>
    decreases |samples|
  {
    if samples == [] then w
    else Feed(w, samples[..|samples| - 1]).Offer(samples[|samples| - 1])
  }

  /** The values of the attempts that succeeded, oldest first. */
  function Successes<A>(samples: seq<Option<A>>): (s: seq<A>)
    ensures forall i :: 0 <= i < |s| ==> Some(s[i]) in samples
    decreases |samples|
  {
    if samples == [] then []
    else
      var rest := Successes(samples[..|samples| - 1]);
      match samples[|samples| - 1]
      case None => rest
      case Some(v) => rest + [v]
  }

  /**
   * After any run of sampling attempts, the pair holds the last two values
   * actually sampled: `current` is the latest success and `previous` the one
   * before it; the initial state shows through only while fewer than two
   * samples have succeeded, and failed attempts leave no trace.
   */
  lemma {:induction false} FeedKeepsLastTwo<A>(w: Watcher<A>, samples: seq<Option<A>>)
    ensures var s, r := Successes(samples), Feed(w, samples);
      && (|s| == 0 ==> r == w)
      && (|s| >= 1 ==> r.pair.Some? && r.pair.value.current == s[|s| - 1])
      && (|s| >= 2 ==> r.pair.value.previous == s[|s| - 2])
      && (|s| == 1 ==> r.pair.value.previous == if w.pair.Some? then w.pair.value.current else s[0])
    decreases |samples|
  {
    if samples != [] {
      FeedKeepsLastTwo(w, samples[..|samples| - 1]);
    }
  }
}
