/**
 * The votes a plugin casts for one lifecycle action (Auth::RESULT_*).
 * A vote is `null` or any integer; these four are the named ones.
 */
module ResultCodes {
  import opened Wrappers
  import opened Php

  /** No effect either way. */
  const NOOP: Option<int> := None
  /** Provisional success: pass if no later plugin fails. */
  const SUCCESS: Option<int> := Some(0)
  /** Forced immediate success, skipping the remaining plugins. */
  const FORCE: Option<int> := Some(1)
  /** Immediate failure. */
  const FAILURE: Option<int> := Some(-1)

  /** The PHP value a plugin method returns for a vote. */
  function AsValue(vote: Option<int>): (v: Value)
    ensures v.Null? <==> vote.None?
    ensures vote.Some? ==> v == Int(vote.value)
  {
    match vote
    case None => Null
    case Some(n) => Int(n)
  }

  /** The four named votes are the PHP values `null`, `0`, `1` and `-1`. */
  lemma NamedVotes()
    ensures AsValue(NOOP) == Null && AsValue(SUCCESS) == Int(0)
    ensures AsValue(FORCE) == Int(1) && AsValue(FAILURE) == Int(-1)
  {
  }

  /** Distinct votes are distinct PHP values. */
  lemma AsValueInjective(a: Option<int>, b: Option<int>)
    ensures AsValue(a) == AsValue(b) ==> a == b
  {
  }
}
