/**
 * The vote-folding rule of Auth::action (src/Auth.php), as a pure function
 * over the outcomes of the plugin calls in registration order.
 */
module Votes {
  import opened Wrappers
  import opened Php
  import opened ResultCodes

  /** What one call of a plugin's login/logout/verify did. */
  datatype Outcome =
    | Returned(v: Value)   // the method returned `v`
    | ThrewAuth            // it threw an AuthException
    | ThrewOther           // it threw any other Exception

  /** What an action gives its caller: a boolean, or the AuthException passed on. */
  datatype ActionResult = Done(ok: bool) | Raised

  /** How the loop treats one call: a valid vote, an exception to propagate, or a fault that fails the action. */
  datatype Step = Vote(code: Option<int>) | Propagate | Abort

  /** The catch clauses of `action` and the result check of `callPlugin`. */
  function Check(o: Outcome): (s: Step)
    ensures s.Vote? <==> o.Returned? && (o.v.Int? || o.v.Null?)
    ensures s == Abort <==> o == ThrewOther
  {
    match o
    case ThrewAuth => Propagate
    case ThrewOther => Abort
    case Returned(v) =>
      if v.Int? then Vote(Some(v.i))
      else if v.Null? then Vote(NOOP)
      else Propagate  // neither int nor null: callPlugin raises AuthException
  }

  /**
   * A returned vote is read back as that vote, and a call is read as a vote
   * only when it returned the PHP value of one.
   */
  lemma VoteRoundTrip(vote: Option<int>, o: Outcome)
    ensures Check(Returned(AsValue(vote))) == Vote(vote)
    ensures Check(o).Vote? ==> o == Returned(AsValue(Check(o).code))
  {
  }

  /** The loop goes on after this call: the vote was NOOP or SUCCESS. */
  predicate Continues(o: Outcome) {
    Check(o) == Vote(NOOP) || Check(o) == Vote(SUCCESS)
  }

  /** What the action returns when the loop stops at `o`. */
  function Decide(o: Outcome): ActionResult
    requires !Continues(o)
  {
    match Check(o)
    case Propagate => Raised
    case Abort => Done(false)
    case Vote(c) => Done(c.value >= 1)
  }

  /** The loop of `action` from some point on, with the running `$success` flag. */
  function FoldFrom(os: seq<Outcome>, success: bool): ActionResult
    decreases |os|
  {
    if os == [] then Done(success)
    else if Check(os[0]) == Vote(SUCCESS) then FoldFrom(os[1..], true)
    else if Check(os[0]) == Vote(NOOP) then FoldFrom(os[1..], success)
    else Decide(os[0])
  }

  /** The result of an action whose plugins produce `os`, `$success` starting false. */
  function Fold(os: seq<Outcome>): ActionResult {
    FoldFrom(os, false)
  }

  /** How many plugins the loop calls: up to and including the first that stops it. */
  function Called(os: seq<Outcome>): (n: nat)
    ensures n <= |os|
    decreases |os|
  {
    if os == [] then 0 else if Continues(os[0]) then 1 + Called(os[1..]) else 1
  }

  /** Some call among `os` voted SUCCESS. */
  predicate SomeSuccess(os: seq<Outcome>) {
    exists i :: 0 <= i < |os| && Check(os[i]) == Vote(SUCCESS)
  }

  /**
   * With no stopping vote, the action answers whether any plugin voted
   * SUCCESS (or whether one already had, for the running flag).
   */
  lemma {:induction false} FoldFromNoStop(os: seq<Outcome>, success: bool)
    requires forall i :: 0 <= i < |os| ==> Continues(os[i])
    ensures FoldFrom(os, success) == Done(success || SomeSuccess(os))
    ensures Called(os) == |os|
    decreases |os|
  {
    if os != [] {
      var rest := os[1..];
      assert forall i :: 0 <= i < |rest| ==> Continues(rest[i]) by {
        forall i | 0 <= i < |rest| ensures Continues(rest[i]) { assert rest[i] == os[i + 1]; }
      }
      FoldFromNoStop(rest, success || Check(os[0]) == Vote(SUCCESS));
      if SomeSuccess(os) && Check(os[0]) != Vote(SUCCESS) {
        var i :| 0 <= i < |os| && Check(os[i]) == Vote(SUCCESS);
        assert rest[i - 1] == os[i];
      }
      if SomeSuccess(rest) {
        var i :| 0 <= i < |rest| && Check(rest[i]) == Vote(SUCCESS);
        assert os[i + 1] == rest[i];
      }
    }
  }

  /** No plugin stops the loop: the action returns true iff some plugin voted SUCCESS. */
  lemma FoldNoStop(os: seq<Outcome>)
    requires forall i :: 0 <= i < |os| ==> Continues(os[i])
    ensures Fold(os) == Done(SomeSuccess(os))
    ensures Called(os) == |os|
  {
    FoldFromNoStop(os, false);
  }

  /**
   * The first call that does not vote NOOP or SUCCESS decides the action,
   * whatever came before it and whatever comes after; no later plugin is called.
   */
  lemma {:induction false} FoldFromFirstStop(os: seq<Outcome>, k: nat, success: bool)
    requires k < |os|
    requires forall i :: 0 <= i < k ==> Continues(os[i])
    requires !Continues(os[k])
    ensures FoldFrom(os, success) == Decide(os[k])
    ensures Called(os) == k + 1
    decreases k
  {
    if k > 0 {
      var rest := os[1..];
      forall i | 0 <= i < k - 1 ensures Continues(rest[i]) { assert rest[i] == os[i + 1]; }
      FoldFromFirstStop(rest, k - 1, success || Check(os[0]) == Vote(SUCCESS));
    }
  }

  lemma FoldFirstStop(os: seq<Outcome>, k: nat)
    requires k < |os|
    requires forall i :: 0 <= i < k ==> Continues(os[i])
    requires !Continues(os[k])
    ensures Fold(os) == Decide(os[k])
    ensures Called(os) == k + 1
  {
    FoldFromFirstStop(os, k, false);
  }

  /** Plugins after the one that stops the loop cannot change the result. */
  lemma {:induction false} FoldIgnoresUncalled(os: seq<Outcome>, later: seq<Outcome>)
    ensures Fold(os[..Called(os)] + later) == Fold(os) || Called(os) == |os|
    ensures Called(os) < |os| ==> Called(os[..Called(os)] + later) == Called(os)
  {
    if Called(os) < |os| {
      var k := FirstStop(os);
      var s := os[..Called(os)] + later;
      FoldFirstStop(os, k);
      forall i | 0 <= i < k ensures Continues(s[i]) { assert s[i] == os[i]; }
      assert s[k] == os[k];
      FoldFirstStop(s, k);
    }
  }

  /** The position of the first stopping call, when there is one. */
  function FirstStop(os: seq<Outcome>): (k: nat)
    requires Called(os) < |os|
    ensures k < |os| && !Continues(os[k]) && Called(os) == k + 1
    ensures forall i :: 0 <= i < k ==> Continues(os[i])
    decreases |os|
  {
    if !Continues(os[0]) then 0
    else
      var k := FirstStop(os[1..]);
      assert forall i :: 1 <= i < k + 1 ==> os[i] == os[1..][i - 1];
      k + 1
  }

  /** An empty chain, or one where every plugin abstains, fails the action. */
  lemma AllAbstainFails(os: seq<Outcome>)
    requires forall i :: 0 <= i < |os| ==> os[i] == Returned(Null)
    ensures Fold(os) == Done(false)
  {
    FoldNoStop(os);
  }

  /** FORCE registered before FAILURE passes; FAILURE before FORCE fails. */
  lemma OrderDecides()
    ensures Fold([Returned(Int(1)), Returned(Int(-1))]) == Done(true)
    ensures Fold([Returned(Int(-1)), Returned(Int(1))]) == Done(false)
    ensures Called([Returned(Int(1)), Returned(Int(-1))]) == 1
  {
    FoldFirstStop([Returned(Int(1)), Returned(Int(-1))], 0);
    FoldFirstStop([Returned(Int(-1)), Returned(Int(1))], 0);
  }

  /** A result that is neither an int nor null raises, at whatever position the loop reaches it. */
  lemma InvalidResultRaises(os: seq<Outcome>, k: nat)
    requires k < |os| && os[k].Returned? && !os[k].v.Int? && !os[k].v.Null?
    requires forall i :: 0 <= i < k ==> Continues(os[i])
    ensures Fold(os) == Raised
  {
    FoldFirstStop(os, k);
  }

  /** An AuthException reached by the loop propagates; any other exception fails the action. */
  lemma ExceptionsReached(os: seq<Outcome>, k: nat)
    requires k < |os| && !os[k].Returned?
    requires forall i :: 0 <= i < k ==> Continues(os[i])
    ensures Fold(os) == (if os[k] == ThrewAuth then Raised else Done(false))
    ensures Called(os) == k + 1
  {
    FoldFirstStop(os, k);
  }
}
