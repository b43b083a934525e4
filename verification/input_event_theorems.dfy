/** Theorems about whole runs of the request boundary. */
module InputEventTheorems {
  import opened Common
  import opened CanonicalJson
  import opened KeyOrder
  import opened RevisionKeys
  import RJ = RevisionJournal
  import opened LockOrder
  import opened InputEvents
  import opened InputEventMachine
  import opened InputEventSafety

  ghost predicate Follows(run: seq<State>, i: nat)
    requires i + 1 < |run|
  {
    Next(run[i], run[i + 1])
  }

  ghost predicate IsRun(l0: map<string, Row>, run: seq<State>) {
    run != [] && Initial(l0, run[0]) && forall i :: 0 <= i < |run| - 1 ==> Follows(run, i)
  }

  lemma {:induction false} ReachableSafe(l0: map<string, Row>, run: seq<State>, i: nat)
    requires IsRun(l0, run) && i < |run|
    ensures run[i] in Safe(l0)
  {
    if i == 0 {
      InitialInv(l0, run[0]);
    } else {
      ReachableSafe(l0, run, i - 1);
      assert Follows(run, i - 1);
      var c, a :| Step(run[i - 1], c, a, run[i]);
      StepInv(l0, run[i - 1], c, a, run[i]);
    }
  }

  predicate PerformedAt(effects: seq<Effect>, m: int, id: string) {
    0 <= m < |effects| && effects[m].requestId == id
  }

  /** Exactly once: whatever callers, retries, crashes, lost acknowledgements and late recorders
      do, the effects of a request are committed at most once, and exactly when its row became
      a success in this run. */
  lemma ExactlyOnce(l0: map<string, Row>, run: seq<State>, i: nat, id: string)
    requires IsRun(l0, run) && i < |run|
    ensures var s := run[i];
      && (forall m, n :: PerformedAt(s.effects, m, id) && PerformedAt(s.effects, n, id) ==> m == n)
      && (Performed(s.effects, id) <==> SucceededIn(s.ledger, id) && !SucceededIn(l0, id))
      && (forall m :: PerformedAt(s.effects, m, id) ==>
            && SucceededIn(s.ledger, id)
            && s.ledger[id].attempts == s.effects[m].attempt
            && s.ledger[id].result == Some(Canonical(s.effects[m].value)))
  {
    ReachableSafe(l0, run, i);
    assert EffectsOk(l0, run[i]);
  }

  /** Nobody ever sees an unfinished row that was not already there at the start. */
  lemma NeverUnfinished(l0: map<string, Row>, run: seq<State>, i: nat, id: string)
    requires IsRun(l0, run) && i < |run| && id in run[i].ledger
    ensures var row := run[i].ledger[id];
            (row.status == Waiting || row.status == Processing) ==> id in l0 && row == l0[id]
  {
    ReachableSafe(l0, run, i);
    assert LedgerOk(l0, run[i].ledger);
  }

  // ---- rows over time ----

  lemma CommitEvolves(s: State, c: CallerId, pc: Pc, id: string)
    requires CallersOk(s) && CanCommit(s, c) && id in s.ledger
    ensures var ledger := CommitWith(s, c, pc).ledger; id in ledger && Evolves(s.ledger[id], ledger[id])
  {
    var cl := s.callers[c];
    assert CallerOk(s.ledger, PendingAt(s.journal, c), cl);
    CommittedRowEvolves(s.ledger, PendingAt(s.journal, c), cl);
  }

  /** A step changes at most the row of the caller that commits, and only by evolution. */
  lemma StepEvolves(s: State, c: CallerId, a: Action, id: string)
    requires CallersOk(s) && Enabled(s, c, a) && id in s.ledger
    ensures var ledger := Apply(s, c, a).ledger; id in ledger && Evolves(s.ledger[id], ledger[id])
  {
    match a
    case Commit => CommitEvolves(s, c, Done(Answer(s.callers[c].pc)), id);
    case CommitUnseen(error) => CommitEvolves(s, c, AfterFailure(s.callers[c].pc, error), id);
    case Other(_) =>
    case _ => OnlyCommitsShow(s, c, a);
  }

  lemma NextEvolves(l0: map<string, Row>, run: seq<State>, i: nat, id: string)
    requires IsRun(l0, run) && i + 1 < |run| && id in run[i].ledger
    ensures id in run[i + 1].ledger && Evolves(run[i].ledger[id], run[i + 1].ledger[id])
  {
    ReachableSafe(l0, run, i);
    assert CallersOk(run[i]);
    assert Follows(run, i);
    var c, a :| Step(run[i], c, a, run[i + 1]);
    StepEvolves(run[i], c, a, id);
  }

  /** Between any two moments of a run a row only evolves: identity fixed, attempts growing,
      payload replaced at most once and only by adoption, successes untouched. */
  lemma {:induction false} LedgerHistory(l0: map<string, Row>, run: seq<State>, i: nat, j: nat, id: string)
    requires IsRun(l0, run) && i <= j < |run| && id in run[i].ledger
    ensures id in run[j].ledger && Evolves(run[i].ledger[id], run[j].ledger[id])
    decreases j
  {
    if i < j {
      LedgerHistory(l0, run, i, j - 1, id);
      NextEvolves(l0, run, j - 1, id);
      EvolvesTransitive(run[i].ledger[id], run[j - 1].ledger[id], run[j].ledger[id]);
    }
  }

  /** Success is absorbing, and every answer stays true of it: callers that were told a result
      were all told the one stored with the success, and rejected ones stay rejected. */
  lemma SuccessAbsorbs(l0: map<string, Row>, run: seq<State>, i: nat, j: nat, c: CallerId)
    requires IsRun(l0, run) && i <= j < |run| && c in run[i].callers && run[i].callers[c].pc.Done?
    ensures var q, answer := run[i].callers[c].q, run[i].callers[c].pc.answer;
      && (answer.Executed? || answer.Replayed? ==>
            SucceededIn(run[i].ledger, q.id) && q.id in run[j].ledger && run[j].ledger[q.id] == run[i].ledger[q.id])
      && AnswerOk(run[j].ledger, q, answer)
  {
    ReachableSafe(l0, run, i);
    var cl := run[i].callers[c];
    assert CallerOk(run[i].ledger, PendingAt(run[i].journal, c), cl);
    if cl.q.id in run[i].ledger {
      LedgerHistory(l0, run, i, j, cl.q.id);
      AnswerStable(run[i].ledger[cl.q.id], run[j].ledger[cl.q.id], cl.q, cl.pc.answer);
    }
  }

  /** While a request's row is a success, no caller of it is running business code. */
  lemma NoBusinessAfterSuccess(l0: map<string, Row>, run: seq<State>, i: nat, c: CallerId)
    requires IsRun(l0, run) && i < |run| && c in run[i].callers
    ensures SucceededIn(run[i].ledger, run[i].callers[c].q.id) ==> !BusinessStarted(run[i].callers[c].pc)
  {
    ReachableSafe(l0, run, i);
    assert CallerOk(run[i].ledger, PendingAt(run[i].journal, c), run[i].callers[c]);
  }

  predicate HasExecuted(s: State, c: CallerId) {
    c in s.callers && s.callers[c].pc.Done? && s.callers[c].pc.answer.Executed?
  }

  /** Only a caller that is running business can become one that has executed. */
  lemma ExecutedOnlyByBusiness(s: State, c: CallerId, a: Action, s': State, u: CallerId)
    requires Step(s, c, a, s') && HasExecuted(s', u)
    ensures u in s.callers && s'.callers[u].q == s.callers[u].q
    ensures HasExecuted(s, u) || BusinessStarted(s.callers[u].pc)
  {
  }

  lemma NoLateExecution(l0: map<string, Row>, run: seq<State>, i: nat, j: nat, c: CallerId)
    requires IsRun(l0, run) && i < j < |run| && HasExecuted(run[j], c)
    requires SucceededIn(run[i].ledger, run[j].callers[c].q.id)
    ensures HasExecuted(run[j - 1], c) && run[j].callers[c].q == run[j - 1].callers[c].q
  {
    assert Follows(run, j - 1);
    var w, a :| Step(run[j - 1], w, a, run[j]);
    ExecutedOnlyByBusiness(run[j - 1], w, a, run[j], c);
    LedgerHistory(l0, run, i, j - 1, run[j].callers[c].q.id);
    NoBusinessAfterSuccess(l0, run, j - 1, c);
  }

  /** Whoever has executed a request that was a success before had executed it by then. */
  lemma {:induction false} ExecutedBefore(l0: map<string, Row>, run: seq<State>, i: nat, j: nat, c: CallerId)
    requires IsRun(l0, run) && i <= j < |run| && HasExecuted(run[j], c)
    requires SucceededIn(run[i].ledger, run[j].callers[c].q.id)
    ensures HasExecuted(run[i], c)
    decreases j
  {
    if i < j {
      NoLateExecution(l0, run, i, j, c);
      ExecutedBefore(l0, run, i, j - 1, c);
    }
  }

  /** A call that arrives after a success never runs business: a matching one gets the stored
      result, a mismatching one is rejected, unless its own transaction is lost. */
  lemma LateCallerIsAnswered(l0: map<string, Row>, run: seq<State>, i: nat, j: nat, c: CallerId)
    requires IsRun(l0, run) && i <= j < |run| && c !in run[i].callers && c in run[j].callers
    requires SucceededIn(run[i].ledger, run[j].callers[c].q.id)
    ensures var cl, row := run[j].callers[c], run[i].ledger[run[j].callers[c].q.id];
      && !BusinessStarted(cl.pc)
      && (cl.pc.Done? ==>
            || cl.pc.answer.Threw?
            || cl.pc.answer == (if Matching(row, cl.q) then Replayed(ResultOf(row)) else Rejected))
  {
    var cl := run[j].callers[c];
    LedgerHistory(l0, run, i, j, cl.q.id);
    NoBusinessAfterSuccess(l0, run, j, c);
    if HasExecuted(run[j], c) { ExecutedBefore(l0, run, i, j, c); }
    ReachableSafe(l0, run, j);
    assert CallerOk(run[j].ledger, PendingAt(run[j].journal, c), cl);
  }

  /** Two callers of one request that both got a result got the same one, up to member order. */
  lemma Agreement(l0: map<string, Row>, run: seq<State>, i: nat, c: CallerId, u: CallerId, v: Js, w: Js)
    requires IsRun(l0, run) && i < |run| && c in run[i].callers && u in run[i].callers
    requires run[i].callers[c].q.id == run[i].callers[u].q.id
    requires run[i].callers[c].pc == Done(Executed(v))
    requires run[i].callers[u].pc == Done(Executed(w)) || run[i].callers[u].pc == Done(Replayed(w))
    requires WellFormed(v)
    ensures SameJson(v, w)
    ensures run[i].callers[u].pc == Done(Replayed(w)) ==> w == Canonical(v)
    ensures SameJson(Identity(run[i].callers[c].q.payload), Identity(run[i].callers[u].q.payload))
  {
    ReachableSafe(l0, run, i);
    assert CallerOk(run[i].ledger, PendingAt(run[i].journal, c), run[i].callers[c]);
    assert CallerOk(run[i].ledger, PendingAt(run[i].journal, u), run[i].callers[u]);
    CanonicalIdempotent(v);
  }

  /** A failed run or a late record leaves a row that the same request, and any with an equivalent
      payload, may run again. */
  lemma FailureStaysRetryable(row: Row, q: Request, again: Request, error: string)
    requires WellFormed(q.payload) && WellFormed(again.payload) && MatchingBase(row, q)
    requires again.eventType == q.eventType && again.actor == q.actor && Equivalent(again.payload, q.payload)
    ensures Admit(Aborted(Claimed(row, q), error), again) == InputEvents.Run
    ensures Admit(LateFailure(row, q, error), again) == InputEvents.Run
  {
    IdentityDecides(q.payload, again.payload);
    CanonicalIffEquivalent(q.payload, again.payload);
    CanonicalIffEquivalent(again.payload, q.payload);
  }

  /** Once a row carries a request's identity, every later retry of that request is admitted, or
      answered with the stored result; none is ever rejected. */
  lemma RetryNeverRejected(l0: map<string, Row>, run: seq<State>, i: nat, j: nat, q: Request)
    requires IsRun(l0, run) && i <= j < |run| && q.id in run[i].ledger && WellFormed(q.payload)
    requires Matching(run[i].ledger[q.id], q) && run[i].ledger[q.id].status != Processing
    ensures q.id in run[j].ledger && Matching(run[j].ledger[q.id], q)
    ensures Admit(run[j].ledger[q.id], q) == if run[j].ledger[q.id].status == Succeeded then Replay else InputEvents.Run
  {
    LedgerHistory(l0, run, i, j, q.id);
    var a, b := run[i].ledger[q.id], run[j].ledger[q.id];
    IdentityDecides(q.payload, q.payload);
    assert LegacyEmptyPayload(a.payload) ==> a.payload == EMPTY;
  }

  /** A caller about to commit a failed run, or a late record of one. */
  predicate FailureReady(s: State, c: CallerId) {
    CanCommit(s, c) && s.callers[c].row.Some? && (s.callers[c].pc.RecorderComplete? || s.callers[c].pc.result.Threw?)
  }

  /** The same request again, or one with an equivalent payload. */
  ghost predicate Again(q: Request, again: Request) {
    && again.id == q.id && again.eventType == q.eventType && again.actor == q.actor && WellFormed(again.payload)
    && Equivalent(again.payload, q.payload)
  }

  predicate Admitted(ledger: map<string, Row>, q: Request) {
    q.id in ledger && Admit(ledger[q.id], q) == InputEvents.Run && !Adoptable(ledger[q.id], q)
  }

  lemma CommittedFailureAdmits(l0: map<string, Row>, s: State, c: CallerId, pc: Pc, again: Request)
    requires s in Safe(l0) && FailureReady(s, c) && Again(s.callers[c].q, again)
    ensures Admitted(CommitWith(s, c, pc).ledger, again)
  {
    var cl := s.callers[c];
    assert CallerOk(s.ledger, PendingAt(s.journal, c), cl);
    FailureRowAdmits(s.ledger, PendingAt(s.journal, c), cl, again);
  }

  lemma FailureRowAdmits(ledger: map<string, Row>, p: Option<RJ.Pending>, cl: Caller, again: Request)
    requires CallerOk(ledger, p, cl) && cl.row.Some? && (cl.pc.RecorderComplete? || (cl.pc.Complete? && cl.pc.result.Threw?))
    requires Again(cl.q, again)
    ensures Admit(cl.row.value, again) == InputEvents.Run && !Adoptable(cl.row.value, again)
  {
    var error := if cl.pc.RecorderComplete? then cl.pc.error else cl.pc.result.error;
    FailureStaysRetryable(cl.base.value, cl.q, again, error);
    assert !LegacyEmptyPayload(Identity(cl.q.payload));
  }

  /** The step that commits a failed run of a request, seen from a retry of it. */
  ghost predicate CommitsFailure(s: State, c: CallerId, pc: Pc, s': State, again: Request) {
    FailureReady(s, c) && Again(s.callers[c].q, again) && s' == CommitWith(s, c, pc)
  }

  lemma FailureAdmitted(l0: map<string, Row>, s: State, c: CallerId, pc: Pc, s': State, again: Request)
    requires s in Safe(l0) && CommitsFailure(s, c, pc, s', again)
    ensures WellFormed(again.payload) && Admitted(s'.ledger, again)
  {
    CommittedFailureAdmits(l0, s, c, pc, again);
  }

  lemma FailureAdmittedAt(l0: map<string, Row>, run: seq<State>, i: nat, c: CallerId, pc: Pc, again: Request)
    requires IsRun(l0, run) && i + 1 < |run| && CommitsFailure(run[i], c, pc, run[i + 1], again)
    ensures WellFormed(again.payload) && Admitted(run[i + 1].ledger, again)
  {
    ReachableSafe(l0, run, i);
    FailureAdmitted(l0, run[i], c, pc, run[i + 1], again);
  }

  /** However a run of a request failed, once its failure or its late record is committed every
      later retry of that request, and of any with an equivalent payload, runs or is replayed. */
  lemma CommittedFailureStaysRetryable(l0: map<string, Row>, run: seq<State>, i: nat, j: nat, c: CallerId, pc: Pc,
                                       again: Request)
    requires IsRun(l0, run) && i < j < |run| && CommitsFailure(run[i], c, pc, run[i + 1], again)
    ensures again.id in run[j].ledger && Admit(run[j].ledger[again.id], again) != Reject
  {
    FailureAdmittedAt(l0, run, i, c, pc, again);
    AdmittedStaysAdmitted(l0, run, i + 1, j, again);
  }

  lemma AdmittedStaysAdmitted(l0: map<string, Row>, run: seq<State>, i: nat, j: nat, q: Request)
    requires IsRun(l0, run) && i <= j < |run| && WellFormed(q.payload) && Admitted(run[i].ledger, q)
    ensures q.id in run[j].ledger && Admit(run[j].ledger[q.id], q) != Reject
  {
    RetryNeverRejected(l0, run, i, j, q);
  }

  /** The row a caller is about to lock is always there. */
  lemma RowNeverDisappears(l0: map<string, Row>, run: seq<State>, i: nat, c: CallerId)
    requires IsRun(l0, run) && i < |run| && c in run[i].callers
    requires run[i].callers[c].pc.Inserted? || run[i].callers[c].pc.RecorderInserted?
    ensures run[i].callers[c].row.Some? || run[i].callers[c].q.id in run[i].ledger
  {
    ReachableSafe(l0, run, i);
    assert CallerOk(run[i].ledger, PendingAt(run[i].journal, c), run[i].callers[c]);
  }

  // ---- the journal, end to end ----

  /** A success with marked keys owns an outbox row, which announces exactly those keys; every
      other request owns none. */
  lemma EndToEnd(l0: map<string, Row>, run: seq<State>, i: nat, id: string, n: nat)
    requires IsRun(l0, run) && i < |run|
    ensures var s := run[i];
      && (n in s.journal.outbox && s.journal.outbox[n].origin == Some(id) ==>
            exists m :: 0 <= m < |s.effects| && s.effects[m].requestId == id && s.effects[m].outboxId == Some(n)
                     && s.journal.outbox[n].revisions.Keys == KeySet(s.effects[m].keys))
      && (forall m :: 0 <= m < |s.effects| && s.effects[m].requestId == id && s.effects[m].keys != [] ==>
            && s.effects[m].outboxId.Some? && s.effects[m].outboxId.value in s.journal.outbox
            && s.journal.outbox[s.effects[m].outboxId.value].origin == Some(id))
      && (!SucceededIn(s.ledger, id) || SucceededIn(l0, id) ==>
            !(n in s.journal.outbox && s.journal.outbox[n].origin == Some(id)))
  {
    ReachableSafe(l0, run, i);
    var s := run[i];
    assert EffectsOk(l0, s);
    if n in s.journal.outbox && s.journal.outbox[n].origin == Some(id) {
      assert Explained(s.effects, id, n);
      var m :| 0 <= m < |s.effects| && s.effects[m].requestId == id && s.effects[m].outboxId == Some(n);
      assert EffectOk(s.ledger, s.journal.outbox, s.effects[m]);
      assert Performed(s.effects, id);
    }
    forall m | 0 <= m < |s.effects| && s.effects[m].requestId == id && s.effects[m].keys != []
      ensures s.effects[m].outboxId.Some? && s.effects[m].outboxId.value in s.journal.outbox
      ensures s.journal.outbox[s.effects[m].outboxId.value].origin == Some(id)
    {
      assert EffectOk(s.ledger, s.journal.outbox, s.effects[m]);
    }
  }

  /** The commit of a successful request raises each of its keys by exactly one and announces it at
      that revision; every other commit of a caller leaves heads and outbox alone. */
  lemma CommitRaisesByOne(l0: map<string, Row>, s: State, c: CallerId, pc: Pc, k: Key)
    requires s in Safe(l0) && CanCommit(s, c)
    ensures var cl, s' := s.callers[c], CommitWith(s, c, pc);
      var keys := if cl.effect.Some? then cl.effect.value.keys else [];
      && RJ.At(s'.journal.heads, k) == RJ.At(s.journal.heads, k) + (if k in keys then 1 else 0)
      && (keys == [] ==> s'.journal.outbox == s.journal.outbox)
      && (k in keys ==>
            var n := cl.effect.value.outboxId;
            && n.Some? && n.value !in s.journal.outbox
            && s'.journal.outbox.Keys == s.journal.outbox.Keys + {n.value}
            && RJ.Has(s'.journal, n.value, k) && RJ.Rev(s'.journal, n.value, k) == RJ.At(s'.journal.heads, k))
  {
    var cl := s.callers[c];
    assert CallerOk(s.ledger, PendingAt(s.journal, c), cl);
    if cl.effect.Some? && cl.effect.value.keys != [] {
      CommitAnnounces(s, c, cl.effect.value.keys, k);
    } else {
      assert PendingAt(s.journal, c) == None;
    }
  }

  lemma CommitAnnounces(s: State, c: CallerId, keys: seq<Key>, k: Key)
    requires RJ.Inv(s.journal) && c in s.journal.pending && RJ.Enabled(s.journal, c, RJ.Commit)
    requires s.journal.pending[c].heads.Keys == KeySet(keys) && s.journal.pending[c].row.Some?
    ensures var j, j', n := s.journal, RJ.Apply(s.journal, c, RJ.Commit), s.journal.pending[c].row.value;
      && RJ.At(j'.heads, k) == RJ.At(j.heads, k) + (if k in keys then 1 else 0)
      && n !in j.outbox && j'.outbox.Keys == j.outbox.Keys + {n}
      && (k in keys ==> RJ.Has(j', n, k) && RJ.Rev(j', n, k) == RJ.At(j'.heads, k))
  {
    CommittedJournal(s, c, keys);
    assert RJ.PendingIdInv(s.journal, c);
  }

  /** No request ever owns two outbox rows. */
  lemma OneOutboxRow(l0: map<string, Row>, run: seq<State>, i: nat, id: string, m: nat, n: nat)
    requires IsRun(l0, run) && i < |run|
    requires m in run[i].journal.outbox && run[i].journal.outbox[m].origin == Some(id)
    requires n in run[i].journal.outbox && run[i].journal.outbox[n].origin == Some(id)
    ensures m == n
  {
    EndToEnd(l0, run, i, id, m);
    EndToEnd(l0, run, i, id, n);
    ExactlyOnce(l0, run, i, id);
    var effects := run[i].effects;
    var x :| 0 <= x < |effects| && effects[x].requestId == id && effects[x].outboxId == Some(m);
    var y :| 0 <= y < |effects| && effects[y].requestId == id && effects[y].outboxId == Some(n);
    assert PerformedAt(effects, x, id) && PerformedAt(effects, y, id);
  }

  /** The journal of a run of the boundary, other writers included, has the revision history of
      the journal itself. */
  lemma BoundaryRevisionHistory(l0: map<string, Row>, run: seq<State>, i: nat, k: Key)
    requires IsRun(l0, run) && i < |run|
    ensures var j := run[i].journal;
      && (forall v: int :: RJ.At(j.base, k) < v <= RJ.At(j.heads, k) <==> RJ.Announced(j, k, v))
      && (forall m, n :: RJ.Has(j, m, k) && RJ.Has(j, n, k) ==> (m < n <==> RJ.Rev(j, m, k) < RJ.Rev(j, n, k)))
  {
    ReachableSafe(l0, run, i);
    var j := run[i].journal;
    assert RJ.KeyInv(j, k);
    forall v: int | RJ.Announced(j, k, v) ensures RJ.At(j.base, k) < v <= RJ.At(j.heads, k) {
      var id :| RJ.Has(j, id, k) && RJ.Rev(j, id, k) == v;
    }
  }

  // ---- the interleaved transaction is the atomic one ----

  function Committed(s: State): Store {
    Store(s.ledger, s.effects, s.journal.heads, s.journal.outbox)
  }

  /** How the business code of a caller that is ready to commit had ended. */
  function BusinessOf(cl: Caller): Business {
    if cl.effect.Some? then Returns(cl.effect.value.writes, cl.effect.value.value, cl.effect.value.keys)
    else if cl.pc.Complete? && cl.pc.result.Threw? then Throws(cl.pc.result.error)
    else Throws("")
  }

  lemma {:induction false} NormalizeAscending(keys: seq<Key>)
    requires Ascending(keys)
    ensures Normalize(keys) == keys
  {
    NormalizeSound(keys);
    AscendingUnique(Normalize(keys), keys);
  }

  lemma CommittedJournal(s: State, c: CallerId, keys: seq<Key>)
    requires RJ.Inv(s.journal) && c in s.journal.pending && RJ.Enabled(s.journal, c, RJ.Commit)
    requires s.journal.pending[c].heads.Keys == KeySet(keys)
    ensures s.journal.pending[c].heads == Revisions(s.journal.heads, keys)
    ensures RJ.Apply(s.journal, c, RJ.Commit).heads == BumpAll(s.journal.heads, keys)
  {
    var p := s.journal.pending[c];
    forall k | k in keys ensures k in p.heads && p.heads[k] == RJ.At(s.journal.heads, k) + 1 {
      assert k in KeySet(keys);
      assert RJ.KeyInv(s.journal, k) && RJ.Holds(s.journal, c, k);
    }
    assert forall k :: k in p.heads <==> k in KeySet(keys);
  }

  lemma SuccessIsAtomic(s: State, c: CallerId, pc: Pc, cl: Caller)
    requires RJ.Inv(s.journal) && CanCommit(s, c) && cl == s.callers[c] && cl.pc.Complete? && cl.effect.Some?
    requires CallerOk(s.ledger, PendingAt(s.journal, c), cl)
    ensures var id := cl.effect.value.outboxId;
      Committed(CommitWith(s, c, pc))
      == Settle(Committed(s), cl.q, cl.base.value, BusinessOf(cl), if id.Some? then id.value else 0)
  {
    var keys := cl.effect.value.keys;
    NormalizeAscending(keys);
    if keys != [] { CommittedJournal(s, c, keys); }
  }

  lemma PlainCommitIsAtomic(s: State, c: CallerId, pc: Pc, cl: Caller)
    requires CanCommit(s, c) && cl == s.callers[c] && cl.pc.Complete? && cl.effect == None
    requires CallerOk(s.ledger, PendingAt(s.journal, c), cl)
    ensures Committed(CommitWith(s, c, pc))
      == if cl.pc.result.Threw? then Settle(Committed(s), cl.q, cl.base.value, BusinessOf(cl), 0) else Committed(s)
  {
  }

  /** Serializability: at every commit of a request, in any interleaving, the committed database
      changes exactly as if the whole transaction had run at that instant. */
  lemma CommitIsAtomic(l0: map<string, Row>, s: State, c: CallerId, pc: Pc) returns (sequence: nat, outboxId: nat)
    requires s in Safe(l0) && CanCommit(s, c) && s.callers[c].pc.Complete?
    ensures var cl := s.callers[c];
      (Committed(CommitWith(s, c, pc)), cl.pc.result)
      == Transact(Committed(s), cl.q, BusinessOf(cl), sequence, outboxId)
  {
    var cl := s.callers[c];
    assert CallerOk(s.ledger, PendingAt(s.journal, c), cl);
    sequence := cl.base.value.sequence;
    outboxId := if cl.effect.Some? && cl.effect.value.outboxId.Some? then cl.effect.value.outboxId.value else 0;
    assert BaseRow(Committed(s), cl.q, sequence) == cl.base.value;
    if cl.effect.Some? { SuccessIsAtomic(s, c, pc, cl); } else { PlainCommitIsAtomic(s, c, pc, cl); }
  }

  /** The same for the recorder of a late failure. */
  lemma RecorderIsAtomic(l0: map<string, Row>, s: State, c: CallerId, pc: Pc) returns (sequence: nat)
    requires s in Safe(l0) && CanCommit(s, c) && s.callers[c].pc.RecorderComplete?
    ensures var cl := s.callers[c];
      Committed(CommitWith(s, c, pc)) == RecordLate(Committed(s), cl.q, cl.pc.error, sequence)
  {
    var cl := s.callers[c];
    assert CallerOk(s.ledger, PendingAt(s.journal, c), cl);
    sequence := cl.base.value.sequence;
    assert BaseRow(Committed(s), cl.q, sequence) == cl.base.value;
  }

  /** Nothing else a caller does is visible to others. */
  lemma OnlyCommitsShow(s: State, c: CallerId, a: Action)
    requires Enabled(s, c, a) && !a.Commit? && !a.CommitUnseen? && !a.Other?
    ensures Committed(Apply(s, c, a)) == Committed(s)
  {
  }

  // ---- no circular wait ----

  /** The locks of a coverage activation, in the order it takes them; a head that is already there
      is not locked. */
  const ACTIVATION: seq<Lock> := [
    Activation, CoverageMeta, RevisionRow(Key("dashboard.global", 0)), RevisionRow(Key("map.world", 0))]

  /** Coverage activations under way, each with the number of these locks it has passed. */
  type Activations = map<CallerId, nat>

  predicate ActivationsOk(s: State, acts: Activations) {
    forall p :: p in acts ==> acts[p] <= |ACTIVATION| && p !in s.callers && p !in s.journal.pending && s.fence != Some(p)
  }

  /** What a participant holds at most: a caller of the boundary, another writer of the journal or
      an activation. */
  function HeldLocks(s: State, acts: Activations, p: CallerId): set<Lock>
    requires ActivationsOk(s, acts)
  {
    (if p in acts then set l | l in ACTIVATION[..acts[p]] else {})
    + (if s.fence == Some(p) then {Fence} else {})
    + (if p in s.callers && s.callers[p].locked then {RequestRow(s.callers[p].q.id)} else {})
    + (if p in s.journal.pending then set k | k in s.journal.pending[p].heads :: RevisionRow(k) else {})
  }

  /** The lock the next statement of a caller needs, if it needs one it may not have. */
  function WantedLock(cl: Caller): Option<Lock> {
    if (cl.pc.Idle? || cl.pc.RecorderIdle?) && cl.q.fenced then Some(Fence)
    else if (cl.pc.Open? || cl.pc.RecorderOpen? || cl.pc.Inserted? || cl.pc.RecorderInserted?) && !cl.locked
      then Some(RequestRow(cl.q.id))
    else if cl.pc.Journaling? && cl.pc.next < |cl.pc.keys| then Some(RevisionRow(cl.pc.keys[cl.pc.next]))
    else None
  }

  /** Another writer may want any key behind those it has; what a caller or an activation wants is
      given by where it stands. */
  predicate Wants(s: State, acts: Activations, p: CallerId, l: Lock)
    requires ActivationsOk(s, acts)
  {
    if p in acts then acts[p] < |ACTIVATION| && l == ACTIVATION[acts[p]]
    else if p in s.callers then WantedLock(s.callers[p]) == Some(l)
    else l.RevisionRow? && RJ.Ordered(RJ.PendingOf(s.journal, p), l.key)
  }

  /** Taking keys in order never keeps a caller of the boundary from its next key. */
  lemma CallersAreOrdered(l0: map<string, Row>, s: State, c: CallerId)
    requires s in Safe(l0) && c in s.callers && s.callers[c].pc.Journaling? && s.callers[c].pc.next < |s.callers[c].pc.keys|
    ensures RJ.Ordered(RJ.PendingOf(s.journal, c), s.callers[c].pc.keys[s.callers[c].pc.next])
  {
    var cl := s.callers[c];
    assert CallerOk(s.ledger, PendingAt(s.journal, c), cl);
    forall h | h in RJ.PendingOf(s.journal, c).heads ensures KeyLess(h, cl.pc.keys[cl.pc.next]) {
      assert h in KeySet(cl.pc.keys[..cl.pc.next]);
    }
  }

  lemma ActivationAscends(i: nat, j: nat)
    requires i < j < |ACTIVATION|
    ensures LockLess(ACTIVATION[i], ACTIVATION[j])
  {
    assert StringLess("dashboard.global", "map.world");
  }

  lemma CallerHeldBelow(l0: map<string, Row>, s: State, c: CallerId, l: Lock, wanted: Lock)
    requires s in Safe(l0) && c in s.callers && WantedLock(s.callers[c]) == Some(wanted)
    requires l in HeldLocks(s, map[], c)
    ensures LockLess(l, wanted)
  {
    var cl := s.callers[c];
    assert LocksOk(s);
    assert CallerOk(s.ledger, PendingAt(s.journal, c), cl);
    if l.RevisionRow? {
      assert cl.pc.Journaling? && l.key in KeySet(cl.pc.keys[..cl.pc.next]);
    }
  }

  lemma HeldBelowWanted(l0: map<string, Row>, s: State, acts: Activations, p: CallerId, l: Lock, wanted: Lock)
    requires s in Safe(l0) && ActivationsOk(s, acts) && Wants(s, acts, p, wanted) && l in HeldLocks(s, acts, p)
    ensures LockLess(l, wanted)
  {
    if p in acts {
      var i :| 0 <= i < acts[p] && ACTIVATION[..acts[p]][i] == l;
      ActivationAscends(i, acts[p]);
    } else if p in s.callers {
      CallerHeldBelow(l0, s, p, l, wanted);
    } else {
      assert LocksOk(s);
    }
  }

  /** Each participant of the chain waits for a lock that the next one may hold. */
  predicate WaitingChain(s: State, acts: Activations, circle: seq<CallerId>, wanted: seq<Lock>)
    requires ActivationsOk(s, acts)
  {
    && circle != [] && |wanted| == |circle|
    && (forall n :: 0 <= n < |circle| ==> Wants(s, acts, circle[n], wanted[n]))
    && (forall n :: 0 <= n < |circle| - 1 ==> wanted[n] in HeldLocks(s, acts, circle[n + 1]))
  }

  lemma ChainStaysOpen(l0: map<string, Row>, s: State, acts: Activations, circle: seq<CallerId>, wanted: seq<Lock>)
    requires s in Safe(l0) && ActivationsOk(s, acts) && WaitingChain(s, acts, circle, wanted)
    ensures wanted[|circle| - 1] !in HeldLocks(s, acts, circle[0])
  {
    var held := seq(|circle|, n requires 0 <= n < |circle| => HeldLocks(s, acts, circle[n]));
    forall n, l | 0 <= n < |held| && l in held[n] ensures LockLess(l, wanted[n]) {
      assert Wants(s, acts, circle[n], wanted[n]);
      HeldBelowWanted(l0, s, acts, circle[n], l, wanted[n]);
    }
    NoCircularWait(wanted, held);
  }

  /** In every reachable state: callers, other writers of the journal and coverage activations never
      wait for each other in a circle. */
  lemma NoDeadlock(l0: map<string, Row>, run: seq<State>, i: nat, acts: Activations, circle: seq<CallerId>, wanted: seq<Lock>)
    requires IsRun(l0, run) && i < |run| && ActivationsOk(run[i], acts) && WaitingChain(run[i], acts, circle, wanted)
    ensures wanted[|circle| - 1] !in HeldLocks(run[i], acts, circle[0])
  {
    ReachableSafe(l0, run, i);
    ChainStaysOpen(l0, run[i], acts, circle, wanted);
  }
}
