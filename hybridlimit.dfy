/**
 * HybridLoginLimitPlugin (src/Plugin/Limit/HybridLoginLimitPlugin.php):
 * several limiters acting as one. Logins go to the children in order and
 * stop at the first that fails or forces; counts are combined by max,
 * thresholds by min.
 */
module HybridLimit {
  import opened Wrappers
  import opened Php
  import opened ResultCodes
  import opened Limits

  /** PHP_INT_MAX on a 64-bit build: the maximum of a hybrid with no children. */
  const PHP_INT_MAX: int := 0x7FFF_FFFF_FFFF_FFFF

  /** A constructor argument: a limiter, or any other value. */
  datatype Candidate = Limiting(l: Limiter) | NotLimiting(v: Value)

  /** The constructor's check: the children in order, or None for the InvalidArgumentException. */
  function Accept(cands: seq<Candidate>): (r: Option<seq<Limiter>>)
    ensures r.Some? <==> forall i :: 0 <= i < |cands| ==> cands[i].Limiting?
    ensures r.Some? ==> |r.value| == |cands| && forall i :: 0 <= i < |cands| ==> r.value[i] == cands[i].l
    decreases |cands|
  {
    if cands == [] then Some([])
    else if cands[0].NotLimiting? then None
    else
      match Accept(cands[1..])
      case None => None
      case Some(rest) => Some([cands[0].l] + rest)
  }

  /** A vote that ends a hybrid login: FAILURE or FORCE. */
  predicate Decisive(v: Option<int>) {
    v == FAILURE || v == FORCE
  }

  /** The combining rule of `login`, over the children's votes in order, with the running result. */
  function CombineFrom(votes: seq<Option<int>>, result: Option<int>): Option<int>
    decreases |votes|
  {
    if votes == [] then result
    else if Decisive(votes[0]) then votes[0]
    else CombineFrom(votes[1..], if votes[0] == SUCCESS then SUCCESS else result)
  }

  function Combine(votes: seq<Option<int>>): Option<int> {
    CombineFrom(votes, NOOP)
  }

  /** The first FAILURE or FORCE decides, whatever follows it. */
  lemma {:induction false} CombineFromFirstDecisive(votes: seq<Option<int>>, result: Option<int>, k: nat)
    requires k < |votes| && Decisive(votes[k])
    requires forall j :: 0 <= j < k ==> !Decisive(votes[j])
    ensures CombineFrom(votes, result) == votes[k]
    decreases k
  {
    if k > 0 {
      var rest := votes[1..];
      assert forall j :: 0 <= j < k - 1 ==> !Decisive(rest[j]) by {
        forall j | 0 <= j < k - 1 ensures !Decisive(rest[j]) { assert rest[j] == votes[j + 1]; }
      }
      CombineFromFirstDecisive(rest, if votes[0] == SUCCESS then SUCCESS else result, k - 1);
    }
  }

  /** Without FAILURE or FORCE, the result is SUCCESS if some child (or the running result) said SUCCESS, else NOOP. */
  lemma {:induction false} CombineFromNoDecisive(votes: seq<Option<int>>, result: Option<int>)
    requires result == SUCCESS || result == NOOP
    requires forall j :: 0 <= j < |votes| ==> !Decisive(votes[j])
    ensures CombineFrom(votes, result) == if result == SUCCESS || SUCCESS in votes then SUCCESS else NOOP
    decreases |votes|
  {
    if votes != [] {
      var rest := votes[1..];
      assert forall j :: 0 <= j < |rest| ==> !Decisive(rest[j]) by {
        forall j | 0 <= j < |rest| ensures !Decisive(rest[j]) { assert rest[j] == votes[j + 1]; }
      }
      CombineFromNoDecisive(rest, if votes[0] == SUCCESS then SUCCESS else result);
      assert votes == [votes[0]] + rest;
    }
  }

  lemma CombineFirstDecisive(votes: seq<Option<int>>, k: nat)
    requires k < |votes| && Decisive(votes[k])
    requires forall j :: 0 <= j < k ==> !Decisive(votes[j])
    ensures Combine(votes) == votes[k]
  {
    CombineFromFirstDecisive(votes, NOOP, k);
  }

  /** With no FAILURE or FORCE: SUCCESS if any child said SUCCESS, otherwise NOOP; other integers are ignored. */
  lemma CombineNoDecisive(votes: seq<Option<int>>)
    requires forall j :: 0 <= j < |votes| ==> !Decisive(votes[j])
    ensures Combine(votes) == if SUCCESS in votes then SUCCESS else NOOP
  {
    CombineFromNoDecisive(votes, NOOP);
  }

  /** A single limiter that says SUCCESS makes the hybrid say SUCCESS; a 2 is ignored. */
  lemma CombineOddVotes()
    ensures Combine([SUCCESS]) == SUCCESS
    ensures Combine([Some(2)]) == NOOP
    ensures Combine([Some(2), SUCCESS, NOOP]) == SUCCESS
    ensures Combine([SUCCESS, FAILURE, FORCE]) == FAILURE
  {
    CombineNoDecisive([SUCCESS]);
    CombineNoDecisive([Some(2)]);
    CombineNoDecisive([Some(2), SUCCESS, NOOP]);
    CombineFirstDecisive([SUCCESS, FAILURE, FORCE], 1);
  }

  /** Every child is described by the world. */
  predicate AllHeld(w: World, ls: seq<Limiter>) {
    forall i :: 0 <= i < |ls| ==> Has(w, ls[i])
  }

  lemma KeepsHeld(w: World, w1: World, ls: seq<Limiter>)
    requires AllHeld(w, ls) && SameKeys(w, w1)
    ensures AllHeld(w1, ls) && AllHeld(w1, if ls == [] then [] else ls[1..])
  {
  }

  /** The `login` loop from some child on: children in order, returning at the first decisive vote. */
  function LoginFrom(w: World, ls: seq<Limiter>, username: string, result: Option<int>): (r: (Option<int>, World))
    requires AllHeld(w, ls)
    ensures SameKeys(w, r.1)
    decreases |ls|
  {
    if ls == [] then (result, w)
    else
      var (v, w1) := LimiterLogin(w, ls[0], username);
      KeepsHeld(w, w1, ls);
      if Decisive(v) then (v, w1)
      else LoginFrom(w1, ls[1..], username, if v == SUCCESS then SUCCESS else result)
  }

  /** The votes of the children a login actually calls, in order. */
  function Votes(w: World, ls: seq<Limiter>, username: string): (vs: seq<Option<int>>)
    requires AllHeld(w, ls)
    ensures |vs| <= |ls|
    decreases |ls|
  {
    if ls == [] then []
    else
      var (v, w1) := LimiterLogin(w, ls[0], username);
      KeepsHeld(w, w1, ls);
      if Decisive(v) then [v] else [v] + Votes(w1, ls[1..], username)
  }

  /** A hybrid login answers the combining rule over the votes of the children it called. */
  lemma {:induction false} LoginIsCombine(w: World, ls: seq<Limiter>, username: string, result: Option<int>)
    requires AllHeld(w, ls)
    ensures LoginFrom(w, ls, username, result).0 == CombineFrom(Votes(w, ls, username), result)
    decreases |ls|
  {
    if ls != [] {
      var (v, w1) := LimiterLogin(w, ls[0], username);
      KeepsHeld(w, w1, ls);
      if !Decisive(v) {
        LoginIsCombine(w1, ls[1..], username, if v == SUCCESS then SUCCESS else result);
        assert Votes(w, ls, username) == [v] + Votes(w1, ls[1..], username);
      }
    }
  }

  /**
   * A hybrid login calls every child unless one of them was decisive,
   * which is then the last one called.
   */
  lemma {:induction false} VotesStopAtDecisive(w: World, ls: seq<Limiter>, username: string)
    requires AllHeld(w, ls)
    ensures var vs := Votes(w, ls, username);
      |vs| == |ls| || (vs != [] && Decisive(vs[|vs| - 1]))
    ensures forall j :: 0 <= j < |Votes(w, ls, username)| - 1 ==> !Decisive(Votes(w, ls, username)[j])
    decreases |ls|
  {
    if ls != [] {
      var (v, w1) := LimiterLogin(w, ls[0], username);
      KeepsHeld(w, w1, ls);
      if !Decisive(v) {
        VotesStopAtDecisive(w1, ls[1..], username);
        var rest := Votes(w1, ls[1..], username);
        assert Votes(w, ls, username) == [v] + rest;
        assert forall j :: 1 <= j < |rest| + 1 ==> ([v] + rest)[j] == rest[j - 1];
      }
    }
  }

  /** With cookie and memcache children only, a hybrid login fails exactly when a child it called failed, and otherwise abstains. */
  lemma {:induction false} LoginFailsOrAbstains(w: World, ls: seq<Limiter>, username: string)
    requires AllHeld(w, ls)
    ensures LoginFrom(w, ls, username, NOOP).0 in {FAILURE, NOOP}
    ensures LoginFrom(w, ls, username, NOOP).0 == FAILURE <==> FAILURE in Votes(w, ls, username)
    decreases |ls|
  {
    if ls != [] {
      var (v, w1) := LimiterLogin(w, ls[0], username);
      LimiterLoginVotes(w, ls[0], username);
      KeepsHeld(w, w1, ls);
      if v != FAILURE {
        LoginFailsOrAbstains(w1, ls[1..], username);
        assert Votes(w, ls, username) == [v] + Votes(w1, ls[1..], username);
      }
    }
  }

  /** `decrementAttempts`: each child's decrement once, in order. */
  function DecrementFrom(w: World, ls: seq<Limiter>): (w1: World)
    requires AllHeld(w, ls)
    ensures SameKeys(w, w1)
    decreases |ls|
  {
    if ls == [] then w
    else
      var w1 := LimiterDecrement(w, ls[0]);
      KeepsHeld(w, w1, ls);
      DecrementFrom(w1, ls[1..])
  }

  /** The `getLoginAttempts` loop: children in order, keeping the larger count. */
  function AttemptsFrom(w: World, ls: seq<Limiter>, acc: int): (r: (int, World))
    requires AllHeld(w, ls)
    ensures SameKeys(w, r.1)
    decreases |ls|
  {
    if ls == [] then (acc, w)
    else
      var (n, w1) := LimiterAttempts(w, ls[0]);
      KeepsHeld(w, w1, ls);
      AttemptsFrom(w1, ls[1..], if n > acc then n else acc)
  }

  /** The largest of `acc` and the children's reports in world `w`. */
  function Largest(w: World, ls: seq<Limiter>, acc: int): (r: int)
    requires AllHeld(w, ls)
    ensures r >= acc && forall i :: 0 <= i < |ls| ==> r >= Report(w, ls[i])
    ensures r == acc || exists i :: 0 <= i < |ls| && r == Report(w, ls[i])
    decreases |ls|
  {
    if ls == [] then acc
    else
      var n := Report(w, ls[0]);
      var r := Largest(w, ls[1..], if n > acc then n else acc);
      assert forall i :: 1 <= i < |ls| ==> ls[i] == ls[1..][i - 1];
      r
  }

  /**
   * The attempts a hybrid reports are the largest of 0 and its children's
   * counts as they stood before the call: loading a cookie on the way
   * changes no child's count.
   */
  lemma {:induction false} AttemptsIsLargest(w: World, ls: seq<Limiter>, acc: int)
    requires AllHeld(w, ls)
    ensures AttemptsFrom(w, ls, acc).0 == Largest(w, ls, acc)
    decreases |ls|
  {
    if ls != [] {
      var (n, w1) := LimiterAttempts(w, ls[0]);
      KeepsHeld(w, w1, ls);
      var rest := ls[1..];
      forall i | 0 <= i < |rest|
        ensures Report(w1, rest[i]) == Report(w, rest[i])
      {
        AttemptsKeepReports(w, ls[0], rest[i]);
      }
      AttemptsIsLargest(w1, rest, if n > acc then n else acc);
      LargestSameReports(w, w1, rest, if n > acc then n else acc);
      AttemptsKeepReports(w, ls[0], ls[0]);
    }
  }

  lemma {:induction false} LargestSameReports(w: World, w1: World, ls: seq<Limiter>, acc: int)
    requires AllHeld(w, ls) && AllHeld(w1, ls)
    requires forall i :: 0 <= i < |ls| ==> Report(w1, ls[i]) == Report(w, ls[i])
    ensures Largest(w1, ls, acc) == Largest(w, ls, acc)
    decreases |ls|
  {
    if ls != [] {
      var n := Report(w, ls[0]);
      LargestSameReports(w, w1, ls[1..], if n > acc then n else acc);
    }
  }

  /** The `getMaxLoginAttempts` loop: the smallest of `acc` and the children's maxima. */
  function Smallest(ls: seq<Limiter>, acc: int): (r: int)
    ensures r <= acc && forall i :: 0 <= i < |ls| ==> r <= MaxAttempts(ls[i])
    ensures r == acc || exists i :: 0 <= i < |ls| && r == MaxAttempts(ls[i])
    decreases |ls|
  {
    if ls == [] then acc
    else
      var m := MaxAttempts(ls[0]);
      var r := Smallest(ls[1..], if m < acc then m else acc);
      assert forall i :: 1 <= i < |ls| ==> ls[i] == ls[1..][i - 1];
      r
  }

  class HybridLoginLimiter {
    /** The children, in the order given. */
    const limiters: seq<Limiter>

    constructor (ls: seq<Limiter>)
      ensures limiters == ls
    {
      limiters := ls;
    }

    /** Every child is one of the footprint's objects. */
    predicate Within(fp: Footprint) {
      forall i :: 0 <= i < |limiters| ==> fp.Holds(limiters[i])
    }

    lemma WithinHeld(fp: Footprint, w: World)
      requires Within(fp) && w.counts.Keys == fp.cookies && w.trackers.Keys == fp.memcaches
      ensures forall i :: 0 <= i <= |limiters| ==> AllHeld(w, limiters[i..])
    {
    }

    method DecrementAttempts(ghost fp: Footprint)
      requires Within(fp)
      modifies fp.Objects()
      ensures WorldOf(fp) == DecrementFrom(old(WorldOf(fp)), limiters)
    {
      WithinHeld(fp, WorldOf(fp));
      for i := 0 to |limiters|
        invariant AllHeld(WorldOf(fp), limiters[i..])
        invariant DecrementFrom(old(WorldOf(fp)), limiters) == DecrementFrom(WorldOf(fp), limiters[i..])
      {
        assert limiters[i..][1..] == limiters[i + 1..];
        Decrement(limiters[i], fp);
        WithinHeld(fp, WorldOf(fp));
      }
    }

    method GetLoginAttempts(ghost fp: Footprint) returns (n: int)
      requires Within(fp)
      modifies fp.Objects()
      ensures (n, WorldOf(fp)) == AttemptsFrom(old(WorldOf(fp)), limiters, 0)
      ensures n == Largest(old(WorldOf(fp)), limiters, 0)
    {
      WithinHeld(fp, WorldOf(fp));
      AttemptsIsLargest(WorldOf(fp), limiters, 0);
      n := 0;
      for i := 0 to |limiters|
        invariant AllHeld(WorldOf(fp), limiters[i..])
        invariant AttemptsFrom(old(WorldOf(fp)), limiters, 0) == AttemptsFrom(WorldOf(fp), limiters[i..], n)
      {
        assert limiters[i..][1..] == limiters[i + 1..];
        var k := Attempts(limiters[i], fp);
        n := if k > n then k else n;
        WithinHeld(fp, WorldOf(fp));
      }
    }

    method GetMaxLoginAttempts() returns (m: int)
      ensures m == Smallest(limiters, PHP_INT_MAX)
    {
      m := PHP_INT_MAX;
      for i := 0 to |limiters|
        invariant Smallest(limiters, PHP_INT_MAX) == Smallest(limiters[i..], m)
      {
        assert limiters[i..][1..] == limiters[i + 1..];
        var k := Max(limiters[i]);
        m := if k < m then k else m;
      }
    }

    method Login(username: string, password: string, ghost fp: Footprint) returns (r: Option<int>)
      requires Within(fp)
      modifies fp.Objects()
      ensures (r, WorldOf(fp)) == LoginFrom(old(WorldOf(fp)), limiters, username, NOOP)
    {
      WithinHeld(fp, WorldOf(fp));
      r := NOOP;
      for i := 0 to |limiters|
        invariant AllHeld(WorldOf(fp), limiters[i..])
        invariant LoginFrom(old(WorldOf(fp)), limiters, username, NOOP) == LoginFrom(WorldOf(fp), limiters[i..], username, r)
      {
        assert limiters[i..][1..] == limiters[i + 1..];
        var v := Limits.Login(limiters[i], username, password, fp);
        if v == FAILURE || v == FORCE {
          return v;
        } else if v == SUCCESS {
          r := v;
        }
        WithinHeld(fp, WorldOf(fp));
      }
    }
  }

  /** `new HybridLoginLimitPlugin($limiters)`: None where the constructor throws. */
  method New(cands: seq<Candidate>) returns (h: Option<HybridLoginLimiter>)
    ensures h.Some? <==> Accept(cands).Some?
    ensures h.Some? ==> fresh(h.value) && h.value.limiters == Accept(cands).value
  {
    var ls: seq<Limiter> := [];
    for i := 0 to |cands|
      invariant |ls| == i
      invariant forall j :: 0 <= j < i ==> cands[j].Limiting? && ls[j] == cands[j].l
    {
      if cands[i].NotLimiting? {
        return None;
      }
      ls := ls + [cands[i].l];
    }
    var made := new HybridLoginLimiter(ls);
    h := Some(made);
  }
}
