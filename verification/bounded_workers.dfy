/** Mapping a list with a bounded number of workers that interleave at every await. */
module BoundedWorkers {
  import opened Common

  datatype Worker = Idle | Busy(index: nat) | Finished | Dead

  /** `results` is the sparse array being filled; `taken` lists the indices in the order taken. */
  datatype State<R> = State(n: nat, workers: seq<Worker>, next: nat, results: map<nat, R>, taken: seq<nat>)

  function Start<R>(n: nat, concurrency: nat): State<R> {
    State(n, seq(Min(concurrency, n), i => Idle), 0, map[], [])
  }

  datatype Action<R> =
    | Take                            // the loop test, and the next index if there is one
    | Return(value: R)                // the mapper resolves
    | Reject                          // the mapper fails; this worker stops

  predicate Enabled<R>(s: State<R>, w: nat, a: Action<R>) {
    w < |s.workers| &&
    match a
    case Take => s.workers[w].Idle?
    case Return(_) => s.workers[w].Busy?
    case Reject => s.workers[w].Busy?
  }

  function Apply<R>(s: State<R>, w: nat, a: Action<R>): State<R>
    requires Enabled(s, w, a)
  {
    match a
    case Take =>
      if s.next < s.n
      then s.(workers := s.workers[w := Busy(s.next)], next := s.next + 1, taken := s.taken + [s.next])
      else s.(workers := s.workers[w := Finished])
    case Return(value) =>
      s.(results := s.results[s.workers[w].index := value], workers := s.workers[w := Idle])
    case Reject => s.(workers := s.workers[w := Dead])
  }

  /** Every action returns what the mapper gives for the index in hand. */
  predicate Step<R(==)>(f: nat -> R, s: State<R>, w: nat, a: Action<R>, s': State<R>) {
    Enabled(s, w, a) && s' == Apply(s, w, a) && (a.Return? ==> a.value == f(s.workers[w].index))
  }

  ghost predicate Next<R(!new)>(f: nat -> R, s: State<R>, s': State<R>) {
    exists w: nat, a: Action<R> :: Step(f, s, w, a, s')
  }

  predicate InFlight<R>(s: State<R>, w: int, i: nat) {
    0 <= w < |s.workers| && s.workers[w] == Busy(i)
  }

  /** An index below `next` is done, in exactly one worker's hands, or was lost to a failure. */
  ghost predicate Inv<R(!new)>(f: nat -> R, s: State<R>) {
    && s.next <= s.n && |s.taken| == s.next && (forall i :: 0 <= i < s.next ==> s.taken[i] == i)
    && (forall i :: i in s.results ==> i < s.next && s.results[i] == f(i))
    && (forall w, i: nat :: InFlight(s, w, i) ==> i < s.next && i !in s.results)
    && (forall w, v, i: nat :: InFlight(s, w, i) && InFlight(s, v, i) ==> w == v)
    && (s.workers == [] ==> s.results == map[])
    && (NoneDead(s) ==> forall i: nat :: i < s.next && i !in s.results ==> exists w :: InFlight(s, w, i))
    && (forall w :: 0 <= w < |s.workers| && s.workers[w].Finished? ==> s.next == s.n)
  }

  predicate NoneDead<R>(s: State<R>) {
    forall w :: 0 <= w < |s.workers| ==> !s.workers[w].Dead?
  }

  predicate AllFinished<R>(s: State<R>) {
    forall w :: 0 <= w < |s.workers| ==> s.workers[w].Finished?
  }

  lemma StepInv<R(!new)>(f: nat -> R, s: State<R>, w: nat, a: Action<R>, s': State<R>)
    requires Inv(f, s) && Step(f, s, w, a, s')
    ensures Inv(f, s')
  {
    forall v, i: nat | InFlight(s', v, i)
      ensures if v == w then a.Take? && i == s.next && s.next < s.n else InFlight(s, v, i)
    {
    }
    forall v, i: nat | InFlight(s', v, i) ensures i < s'.next && i !in s'.results {
      if v != w && a.Return? {
        assert InFlight(s, v, i) && InFlight(s, w, s.workers[w].index);
      }
    }
    forall i | 0 <= i < s'.next ensures s'.taken[i] == i {
    }
    forall u, v, i: nat | InFlight(s', u, i) && InFlight(s', v, i) ensures u == v {
      assert u != w ==> InFlight(s, u, i);
      assert v != w ==> InFlight(s, v, i);
    }
    assert forall v :: 0 <= v < |s'.workers| && s'.workers[v].Finished? ==> s'.next == s'.n by {
      assert forall v :: 0 <= v < |s.workers| && v != w ==> s'.workers[v] == s.workers[v];
    }
    assert !a.Take? ==> InFlight(s, w, s.workers[w].index);
    if NoneDead(s') {
      assert NoneDead(s) by {
        assert forall v :: 0 <= v < |s.workers| ==> v == w || s.workers[v] == s'.workers[v];
      }
      forall i: nat | i < s'.next && i !in s'.results ensures exists v :: InFlight(s', v, i) {
        if a.Take? && i == s.next {
          assert InFlight(s', w, i);
        } else {
          var v :| InFlight(s, v, i);
          assert v != w ==> InFlight(s', v, i);
        }
      }
    }
  }

  ghost predicate Follows<R(!new)>(f: nat -> R, run: seq<State<R>>, i: nat)
    requires i + 1 < |run|
  {
    Next(f, run[i], run[i + 1])
  }

  ghost predicate IsRun<R(!new)>(f: nat -> R, n: nat, concurrency: nat, run: seq<State<R>>) {
    run != [] && run[0] == Start(n, concurrency) && forall i :: 0 <= i < |run| - 1 ==> Follows(f, run, i)
  }

  lemma {:induction false} RunInv<R(!new)>(f: nat -> R, n: nat, concurrency: nat, run: seq<State<R>>, k: nat)
    requires IsRun(f, n, concurrency, run) && k < |run|
    ensures Inv(f, run[k]) && run[k].n == n && |run[k].workers| == Min(concurrency, n)
  {
    if k > 0 {
      RunInv(f, n, concurrency, run, k - 1);
      assert Follows(f, run, k - 1);
      var w, a :| Step(f, run[k - 1], w, a, run[k]);
      StepInv(f, run[k - 1], w, a, run[k]);
    }
  }

  /** Under every interleaving each index is taken exactly once, in order, and no two workers hold
      the same one; at most `concurrency` calls are in flight. */
  lemma TakenOnce<R(!new)>(f: nat -> R, n: nat, concurrency: nat, run: seq<State<R>>, k: nat)
    requires IsRun(f, n, concurrency, run) && k < |run|
    ensures run[k].taken == seq(run[k].next, i => i) && run[k].next <= n
    ensures BusyCount(run[k].workers) <= concurrency
  {
    RunInv(f, n, concurrency, run, k);
  }

  function BusyCount(workers: seq<Worker>): (c: nat)
    ensures c <= |workers|
  {
    if workers == [] then 0
    else BusyCount(workers[..|workers| - 1]) + (if workers[|workers| - 1].Busy? then 1 else 0)
  }

  /** When all workers have finished, the results are the mapped list in input order, provided
      there was a worker at all. */
  lemma ResultsKeepOrder<R(!new)>(f: nat -> R, n: nat, concurrency: nat, run: seq<State<R>>, k: nat)
    requires IsRun(f, n, concurrency, run) && k < |run| && AllFinished(run[k])
    ensures run[k].results == (map i: nat | i < n :: f(i)) <==> concurrency > 0 || n == 0
  {
    RunInv(f, n, concurrency, run, k);
    var s := run[k];
    if concurrency > 0 && n > 0 {
      assert s.workers[0].Finished?;
      forall i: nat | i < n ensures i in s.results {
        assert NoneDead(s);
      }
    }
    if concurrency == 0 && n > 0 {
      assert s.workers == [];
      assert 0 in (map i: nat | i < n :: f(i));
    }
  }

  /** With no worker, three values give no result at all, and nothing reports it. */
  lemma ZeroWorkersDoNothing<R(!new)>(f: nat -> R)
    ensures IsRun(f, 3, 0, [Start<R>(3, 0)]) && AllFinished(Start<R>(3, 0))
    ensures Start<R>(3, 0).results != (map i: nat | i < 3 :: f(i))
  {
    assert 0 in (map i: nat | i < 3 :: f(i));
  }
}
