/**
 * The host timer's action vocabulary. The timer code itself is not part of
 * this model; `ShouldSplit` and `OrElse` follow the semantics its callers in
 * src/splits.rs rely on.
 */
module Timer {

  /** What one evaluation asks the host timer to do; `Pass` means "no decision". */
  datatype SplitterAction = Pass | Split | ManualSplit | Skip | Reset {

    /**
     * `or_else`: a decisive action stands, and only `Pass` defers to the
     * fallback (which the source computes lazily, in a closure).
     */
    function OrElse(fallback: SplitterAction): (r: SplitterAction)
      ensures this != Pass ==> r == this
      ensures this == Pass ==> r == fallback
    {
      if this == Pass then fallback else this
    }
  }

  /** `should_split`: a condition that holds splits, one that fails passes. */
  function ShouldSplit(b: bool): (a: SplitterAction)
    ensures a == Split || a == Pass
    ensures a == Split <==> b
  {
    if b then Split else Pass
  }
}
