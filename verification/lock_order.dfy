/** The order in which a transaction takes its locks, and why nobody waits in a circle. */
module LockOrder {
  import opened RevisionKeys

  datatype Lock =
    | Fence                      // the clock-operation advisory lock
    | RequestRow(id: string)     // the row of one request
    | Activation                 // the advisory lock of a coverage activation
    | CoverageMeta               // the row that holds the coverage version
    | RevisionRow(key: Key)      // the row of one revision key

  /** Fence, then the request row, then the locks of an activation, then revision rows in key order. */
  predicate LockLess(a: Lock, b: Lock) {
    match a
    case Fence => !b.Fence?
    case RequestRow(_) => b.Activation? || b.CoverageMeta? || b.RevisionRow?
    case Activation => b.CoverageMeta? || b.RevisionRow?
    case CoverageMeta => b.RevisionRow?
    case RevisionRow(k) => b.RevisionRow? && KeyLess(k, b.key)
  }

  lemma LockLessTransitive(a: Lock, b: Lock, c: Lock)
    requires LockLess(a, b) && LockLess(b, c)
    ensures LockLess(a, c)
  {
    if a.RevisionRow? && b.RevisionRow? {
      KeyLessTransitive(a.key, b.key, c.key);
    }
  }

  lemma LockLessIrreflexive(a: Lock)
    ensures !LockLess(a, a)
  {
    if a.RevisionRow? { KeyLessTrichotomy(a.key, a.key); }
  }

  lemma {:induction false} ChainAscends(wanted: seq<Lock>, i: nat)
    requires i < |wanted|
    requires forall k :: 0 <= k < |wanted| - 1 ==> LockLess(wanted[k], wanted[k + 1])
    ensures i > 0 ==> LockLess(wanted[0], wanted[i])
  {
    if i > 1 {
      ChainAscends(wanted, i - 1);
      assert LockLess(wanted[i - 1], wanted[i - 1 + 1]);
      LockLessTransitive(wanted[0], wanted[i - 1], wanted[i]);
    }
  }

  /** If each waits for a lock the next one holds, and holds only locks below the one it wants,
      then the last one cannot in turn hold what the first one wants. */
  lemma NoCircularWait(wanted: seq<Lock>, held: seq<set<Lock>>)
    requires |wanted| == |held| > 0
    requires forall i, l :: 0 <= i < |held| && l in held[i] ==> LockLess(l, wanted[i])
    requires forall i :: 0 <= i < |wanted| - 1 ==> wanted[i] in held[i + 1]
    ensures wanted[|wanted| - 1] !in held[0]
  {
    var n := |wanted|;
    if wanted[n - 1] in held[0] {
      assert LockLess(wanted[n - 1], wanted[0]);
      ChainAscends(wanted, n - 1);
      if n > 1 { LockLessTransitive(wanted[0], wanted[n - 1], wanted[0]); }
      LockLessIrreflexive(wanted[0]);
      assert false;
    }
  }
}
