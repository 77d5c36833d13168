/**
 * React's effect scheduling, as the components below rely on it: an effect
 * runs after the first render, and after a later render only when some entry
 * of its dependency list differs from the previous render's.
 */
module Effects {
  import opened Options

  /**
   * Whether an effect whose previous render had dependency list `last`
   * (None before the first render) runs after a render with list `deps`.
   */
  predicate EffectRuns<D(==)>(last: Option<D>, deps: D) {
    last.None? || last.value != deps
  }

  /** After any render the effect is settled: re-rendering with the same list runs nothing. */
  lemma SameDepsDoNotRerun<D>(last: Option<D>, deps: D)
    ensures !EffectRuns(Some(deps), deps)
    ensures EffectRuns(last, deps) <==> last != Some(deps)
  {
  }
}
