/** What every interleaving of callers guarantees about requests and their effects. */
module InputEventSafety {
  import opened Common
  import opened CanonicalJson
  import opened RevisionKeys
  import RJ = RevisionJournal
  import opened LockOrder
  import opened InputEvents
  import opened InputEventMachine

  // ---- one step ----

  lemma OtherPendingUnchanged(j: RJ.Journal, w: RJ.WriterId, a: RJ.Action, u: RJ.WriterId)
    requires RJ.Enabled(j, w, a) && u != w
    ensures PendingAt(RJ.Apply(j, w, a), u) == PendingAt(j, u)
  {
  }

  /** Only a commit can touch the ledger, the effects or the outbox. */
  predicate SameDatabase(s: State, s': State) {
    s'.ledger == s.ledger && s'.effects == s.effects && s'.journal.outbox == s.journal.outbox
  }

  predicate SameOthers(s: State, c: CallerId, s': State) {
    && s'.callers.Keys == s.callers.Keys + {c}
    && (forall u :: u in s.callers && u != c ==> s'.callers[u] == s.callers[u])
    && (forall u :: u in s.callers && u != c ==> PendingAt(s'.journal, u) == PendingAt(s.journal, u))
    && (forall u :: u in s'.journal.pending && u != c ==> PendingAt(s'.journal, u) == PendingAt(s.journal, u))
  }

  predicate KeepsLock(s: State, c: CallerId, q: Request) {
    c in s.callers && s.callers[c].locked && s.callers[c].q == q
  }

  lemma QuietCallers(s: State, c: CallerId, s': State)
    requires CallersOk(s) && s'.ledger == s.ledger && SameOthers(s, c, s')
    requires CallerOk(s'.ledger, PendingAt(s'.journal, c), s'.callers[c])
    ensures CallersOk(s')
  {
    forall u | u in s'.callers ensures CallerOk(s'.ledger, PendingAt(s'.journal, u), s'.callers[u]) {
      if u != c { assert CallerOk(s.ledger, PendingAt(s.journal, u), s.callers[u]); }
    }
  }

  lemma QuietLocks(s: State, c: CallerId, s': State)
    requires LocksOk(s) && SameOthers(s, c, s')
    requires s'.callers[c].locked ==> KeepsLock(s, c, s'.callers[c].q) || LockFree(s, c, s'.callers[c].q.id)
    requires s'.fence.Some? ==> s'.fence.value in s'.callers && InTransaction(s'.callers[s'.fence.value].pc)
    ensures LocksOk(s')
  {
    forall x, y | x in s'.callers && y in s'.callers && x != y ensures !Contend(s'.callers[x], s'.callers[y]) {
      if x in s.callers && y in s.callers { assert !Contend(s.callers[x], s.callers[y]); }
    }
  }

  lemma QuietInv(l0: map<string, Row>, s: State, c: CallerId, s': State)
    requires s in Safe(l0) && SameDatabase(s, s') && SameOthers(s, c, s')
    requires CallerOk(s'.ledger, PendingAt(s'.journal, c), s'.callers[c])
    requires RJ.Inv(s'.journal)
    requires s'.callers[c].locked ==> KeepsLock(s, c, s'.callers[c].q) || LockFree(s, c, s'.callers[c].q.id)
    requires s'.fence.Some? ==> s'.fence.value in s'.callers && InTransaction(s'.callers[s'.fence.value].pc)
    ensures s' in Safe(l0)
  {
    QuietCallers(s, c, s');
    QuietLocks(s, c, s');
    assert EffectsOk(l0, s');
  }

  /** A step that changes nothing but the caller itself, the fence and the serial. */
  lemma LocalStepInv(l0: map<string, Row>, s: State, c: CallerId, cl': Caller, fence: Option<CallerId>, serial: nat)
    requires s in Safe(l0) && CallerOk(s.ledger, PendingAt(s.journal, c), cl')
    requires c !in s.callers ==> c !in s.journal.pending
    requires cl'.locked ==> KeepsLock(s, c, cl'.q) || LockFree(s, c, cl'.q.id)
    requires fence == s.fence || fence == Some(c) || fence == None
    requires fence == Some(c) ==> InTransaction(cl'.pc)
    ensures s.(callers := s.callers[c := cl'], fence := fence, nextSequence := serial) in Safe(l0)
  {
    QuietInv(l0, s, c, s.(callers := s.callers[c := cl'], fence := fence, nextSequence := serial));
  }

  lemma JournalQuiet(j: RJ.Journal, c: CallerId, b: RJ.Action)
    requires RJ.Inv(j) && RJ.Enabled(j, c, b) && (b.Bump? || b.InsertRow? || b.Rollback?)
    ensures var j' := RJ.Apply(j, c, b);
      && RJ.Inv(j') && j'.outbox == j.outbox
      && (forall u :: u != c ==> PendingAt(j', u) == PendingAt(j, u))
      && PendingAt(j', c) == match b
         case Rollback => None
         case Bump(k) => var p := RJ.PendingOf(j, c); Some(p.(heads := p.heads[k := RJ.At(j.heads, k) + 1]))
         case InsertRow(origin) => Some(j.pending[c].(row := Some(j.nextId), origin := origin))
  {
    RJ.StepInv(j, c, b);
  }

  /** A step of a caller that changes the journal only in that caller's pending part. */
  lemma CallerStepInv(l0: map<string, Row>, s: State, c: CallerId, b: RJ.Action, cl': Caller, fence: Option<CallerId>)
    requires s in Safe(l0) && c in s.callers
    requires RJ.Enabled(s.journal, c, b) && (b.Bump? || b.InsertRow? || b.Rollback?)
    requires CallerOk(s.ledger, PendingAt(RJ.Apply(s.journal, c, b), c), cl')
    requires cl'.locked ==> KeepsLock(s, c, cl'.q)
    requires fence == s.fence || fence == None
    requires fence == Some(c) ==> InTransaction(cl'.pc)
    ensures s.(journal := RJ.Apply(s.journal, c, b), fence := fence, callers := s.callers[c := cl']) in Safe(l0)
  {
    JournalQuiet(s.journal, c, b);
    var s' := s.(journal := RJ.Apply(s.journal, c, b), fence := fence, callers := s.callers[c := cl']);
    forall u | u in s'.journal.pending && u != c ensures PendingAt(s'.journal, u) == PendingAt(s.journal, u) {
    }
    QuietInv(l0, s, c, s');
  }

  lemma ArriveInv(l0: map<string, Row>, s: State, c: CallerId, q: Request)
    requires s in Safe(l0) && Enabled(s, c, Arrive(q))
    ensures Apply(s, c, Arrive(q)) in Safe(l0)
  {
    LocalStepInv(l0, s, c, Released(q, Idle), s.fence, s.nextSequence);
  }

  lemma BeginInv(l0: map<string, Row>, s: State, c: CallerId, cl: Caller)
    requires s in Safe(l0) && CanBegin(s, c) && cl == s.callers[c]
    ensures BeginTransaction(s, c) in Safe(l0)
  {
    assert CallerOk(s.ledger, PendingAt(s.journal, c), cl);
    var pc := if cl.pc.Idle? then Open else RecorderOpen(cl.pc.error);
    LocalStepInv(l0, s, c, cl.(pc := pc), if cl.q.fenced then Some(c) else s.fence, s.nextSequence);
  }

  lemma InsertedCallerOk(ledger: map<string, Row>, p: Option<RJ.Pending>, cl: Caller, serial: nat)
    requires CallerOk(ledger, p, cl) && (cl.pc.Open? || cl.pc.RecorderOpen?)
    ensures CallerOk(ledger, p, InsertedCaller(ledger, cl, serial))
    ensures !cl.locked && InTransaction(InsertedCaller(ledger, cl, serial).pc)
  {
  }

  lemma InsertInv(l0: map<string, Row>, s: State, c: CallerId, cl: Caller)
    requires s in Safe(l0) && CanInsert(s, c) && cl == s.callers[c]
    ensures InsertPending(s, c) in Safe(l0)
  {
    assert CallerOk(s.ledger, PendingAt(s.journal, c), cl);
    InsertedCallerOk(s.ledger, PendingAt(s.journal, c), cl, s.nextSequence);
    LocalStepInv(l0, s, c, InsertedCaller(s.ledger, cl, s.nextSequence), s.fence, s.nextSequence + 1);
  }

  lemma LockInv(l0: map<string, Row>, s: State, c: CallerId, cl: Caller)
    requires s in Safe(l0) && CanLock(s, c) && cl == s.callers[c]
    ensures LockRow(s, c) in Safe(l0)
  {
    assert CallerOk(s.ledger, PendingAt(s.journal, c), cl);
    var cl' := cl.(pc := if cl.pc.Inserted? then Locked else RecorderLocked(cl.pc.error), locked := true,
                   base := Some(if cl.row.Some? then cl.row.value else s.ledger[cl.q.id]));
    LocalStepInv(l0, s, c, cl', s.fence, s.nextSequence);
  }

  lemma RecorderClaimOk(ledger: map<string, Row>, cl: Caller)
    requires CallerOk(ledger, None, cl) && cl.pc.RecorderLocked?
    ensures var row := if RecorderApplies(cl.base.value, cl.q) then Some(LateFailure(cl.base.value, cl.q, cl.pc.error)) else cl.row;
            CallerOk(ledger, None, cl.(row := row, pc := RecorderComplete(cl.pc.error)))
  {
    FreshRowMatches(cl.q, cl.base.value.sequence);
  }

  lemma ClaimOk(ledger: map<string, Row>, cl: Caller)
    requires CallerOk(ledger, None, cl) && cl.pc.Locked?
    ensures var base := cl.base.value;
      match Admit(base, cl.q)
      case Replay => CallerOk(ledger, None, cl.(pc := Complete(Replayed(ResultOf(base)))))
      case Reject => CallerOk(ledger, None, Released(cl.q, Done(Rejected)))
      case Run => CallerOk(ledger, None, cl.(row := Some(Claimed(base, cl.q)), pc := Running))
  {
    FreshRowMatches(cl.q, cl.base.value.sequence);
  }

  lemma RecorderClaimInv(l0: map<string, Row>, s: State, c: CallerId, cl: Caller)
    requires s in Safe(l0) && CanClaim(s, c) && cl == s.callers[c] && cl.pc.RecorderLocked?
    ensures ClaimRow(s, c) in Safe(l0)
  {
    assert CallerOk(s.ledger, PendingAt(s.journal, c), cl);
    RecorderClaimOk(s.ledger, cl);
    var base := cl.base.value;
    var row := if RecorderApplies(base, cl.q) then Some(LateFailure(base, cl.q, cl.pc.error)) else cl.row;
    LocalStepInv(l0, s, c, cl.(row := row, pc := RecorderComplete(cl.pc.error)), s.fence, s.nextSequence);
  }

  lemma ClaimInv(l0: map<string, Row>, s: State, c: CallerId, cl: Caller)
    requires s in Safe(l0) && CanClaim(s, c) && cl == s.callers[c] && cl.pc.Locked?
    ensures ClaimRow(s, c) in Safe(l0)
  {
    assert CallerOk(s.ledger, PendingAt(s.journal, c), cl);
    ClaimOk(s.ledger, cl);
    var base := cl.base.value;
    match Admit(base, cl.q)
    case Replay =>
      LocalStepInv(l0, s, c, cl.(pc := Complete(Replayed(ResultOf(base)))), s.fence, s.nextSequence);
    case Run =>
      LocalStepInv(l0, s, c, cl.(row := Some(Claimed(base, cl.q)), pc := Running), s.fence, s.nextSequence);
    case Reject =>
      RejectInv(l0, s, c, cl);
  }

  lemma RejectInv(l0: map<string, Row>, s: State, c: CallerId, cl: Caller)
    requires s in Safe(l0) && c in s.callers && cl == s.callers[c]
    requires CallerOk(s.ledger, None, Released(cl.q, Done(Rejected))) && PendingAt(s.journal, c) == None
    ensures RollbackTo(s, c, Done(Rejected)) in Safe(l0)
  {
    JournalQuiet(s.journal, c, RJ.Rollback);
    CallerStepInv(l0, s, c, RJ.Rollback, Released(cl.q, Done(Rejected)), DropFence(s, c));
  }

  lemma ReturnInv(l0: map<string, Row>, s: State, c: CallerId, cl: Caller, writes: seq<string>, value: Js, marks: seq<Key>)
    requires s in Safe(l0) && CanReturn(s, c) && cl == s.callers[c]
    ensures BusinessReturns(s, c, writes, value, marks) in Safe(l0)
  {
    assert CallerOk(s.ledger, PendingAt(s.journal, c), cl);
    NormalizeSound(marks);
    LocalStepInv(l0, s, c, cl.(pc := Journaling(writes, value, Normalize(marks), 0)), s.fence, s.nextSequence);
  }

  lemma FinishInv(l0: map<string, Row>, s: State, c: CallerId, cl: Caller)
    requires s in Safe(l0) && CanFinish(s, c) && cl == s.callers[c]
    ensures FinishRun(s, c) in Safe(l0)
  {
    assert CallerOk(s.ledger, PendingAt(s.journal, c), cl);
    assert cl.pc.keys[..cl.pc.next] == cl.pc.keys;
    LocalStepInv(l0, s, c,
      cl.(row := Some(Completed(cl.row.value, cl.pc.value)), effect := Some(FinishedEffect(s, c)),
          pc := Complete(Executed(cl.pc.value))),
      s.fence, s.nextSequence);
  }

  lemma KeySetNext(keys: seq<Key>, next: nat)
    requires next < |keys|
    ensures KeySet(keys[..next + 1]) == KeySet(keys[..next]) + {keys[next]} && KeySet(keys[..0]) == {}
  {
    assert keys[..next + 1] == keys[..next] + [keys[next]];
  }

  lemma BumpedJournal(p: RJ.Pending, cl: Caller, revision: nat)
    requires cl.pc.Journaling? && cl.pc.next < |cl.pc.keys| && p.row == None
    requires JournalingOk(cl, if cl.pc.next == 0 then None else Some(p))
    requires cl.pc.next == 0 ==> p == RJ.Pending(map[], None, None)
    ensures JournalingOk(BumpedCaller(cl), Some(p.(heads := p.heads[cl.pc.keys[cl.pc.next] := revision])))
  {
    KeySetNext(cl.pc.keys, cl.pc.next);
    assert p.heads.Keys == KeySet(cl.pc.keys[..cl.pc.next]);
  }

  lemma BumpedOk(ledger: map<string, Row>, p: RJ.Pending, cl: Caller, revision: nat)
    requires cl.pc.Journaling? && cl.pc.next < |cl.pc.keys| && p.row == None
    requires CallerOk(ledger, if cl.pc.next == 0 then None else Some(p), cl)
    requires cl.pc.next == 0 ==> p == RJ.Pending(map[], None, None)
    ensures CallerOk(ledger, Some(p.(heads := p.heads[cl.pc.keys[cl.pc.next] := revision])), BumpedCaller(cl))
  {
    BumpedJournal(p, cl, revision);
  }

  lemma BumpReady(s: State, c: CallerId, cl: Caller)
    requires RJ.Inv(s.journal) && c in s.callers && cl == s.callers[c] && CanBump(s, c)
    requires CallerOk(s.ledger, PendingAt(s.journal, c), cl)
    ensures CallerOk(s.ledger, PendingAt(RJ.Apply(s.journal, c, RJ.Bump(cl.pc.keys[cl.pc.next])), c), BumpedCaller(cl))
  {
    var k := cl.pc.keys[cl.pc.next];
    var p := RJ.PendingOf(s.journal, c);
    assert c in s.journal.pending <==> cl.pc.next > 0;
    BumpedOk(s.ledger, p, cl, RJ.At(s.journal.heads, k) + 1);
    JournalQuiet(s.journal, c, RJ.Bump(k));
  }

  lemma BumpInv(l0: map<string, Row>, s: State, c: CallerId, cl: Caller)
    requires s in Safe(l0) && CanBump(s, c) && cl == s.callers[c]
    ensures BumpKey(s, c) in Safe(l0)
  {
    assert CallerOk(s.ledger, PendingAt(s.journal, c), cl);
    BumpReady(s, c, cl);
    CallerStepInv(l0, s, c, RJ.Bump(cl.pc.keys[cl.pc.next]), BumpedCaller(cl), s.fence);
  }

  lemma AnnounceReady(s: State, c: CallerId, cl: Caller)
    requires RJ.Inv(s.journal) && CanAnnounce(s, c) && cl == s.callers[c]
    requires CallerOk(s.ledger, PendingAt(s.journal, c), cl)
    ensures CallerOk(s.ledger, PendingAt(RJ.Apply(s.journal, c, RJ.InsertRow(Some(cl.q.id))), c), cl)
  {
    JournalQuiet(s.journal, c, RJ.InsertRow(Some(cl.q.id)));
  }

  lemma AnnounceInv(l0: map<string, Row>, s: State, c: CallerId, cl: Caller)
    requires s in Safe(l0) && CanAnnounce(s, c) && cl == s.callers[c]
    ensures AnnounceRow(s, c) in Safe(l0)
  {
    assert CallerOk(s.ledger, PendingAt(s.journal, c), cl);
    AnnounceReady(s, c, cl);
    CallerStepInv(l0, s, c, RJ.InsertRow(Some(cl.q.id)), cl, s.fence);
    assert s.callers[c := cl] == s.callers;
  }

  lemma ThrownOk(ledger: map<string, Row>, p: Option<RJ.Pending>, cl: Caller, error: string)
    requires CallerOk(ledger, p, cl) && BusinessStarted(cl.pc)
    ensures cl.locked && cl.base.Some?
    ensures CallerOk(ledger, None, cl.(row := Some(Aborted(Claimed(cl.base.value, cl.q), error)), effect := None,
                                       pc := Complete(Threw(error))))
  {
    assert ClaimedOk(ledger, cl);
  }

  lemma ThrowInv(l0: map<string, Row>, s: State, c: CallerId, error: string)
    requires s in Safe(l0) && CanThrow(s, c)
    ensures ThrowError(s, c, error) in Safe(l0)
  {
    var cl := s.callers[c];
    assert CallerOk(s.ledger, PendingAt(s.journal, c), cl);
    ThrownOk(s.ledger, PendingAt(s.journal, c), cl, error);
    JournalQuiet(s.journal, c, RJ.Rollback);
    assert s.fence == Some(c) ==> InTransaction(cl.pc);
    CallerStepInv(l0, s, c, RJ.Rollback,
      cl.(row := Some(Aborted(Claimed(cl.base.value, cl.q), error)), effect := None, pc := Complete(Threw(error))), s.fence);
  }

  lemma AbortInv(l0: map<string, Row>, s: State, c: CallerId, error: string)
    requires s in Safe(l0) && c in s.callers && !s.callers[c].pc.Done?
    ensures RollbackTo(s, c, AfterFailure(s.callers[c].pc, error)) in Safe(l0)
  {
    var cl := s.callers[c];
    assert CallerOk(s.ledger, PendingAt(s.journal, c), cl);
    JournalQuiet(s.journal, c, RJ.Rollback);
    CallerStepInv(l0, s, c, RJ.Rollback, Released(cl.q, AfterFailure(cl.pc, error)), DropFence(s, c));
  }

  // ---- commit ----

  predicate ReadyToCommit(cl: Caller) {
    cl.pc.Complete? || cl.pc.RecorderComplete?
  }

  /** What a caller ready to commit writes is a legal evolution of the committed row. */
  lemma CommittedRowEvolves(ledger: map<string, Row>, p: Option<RJ.Pending>, cl: Caller)
    requires CallerOk(ledger, p, cl) && ReadyToCommit(cl)
    ensures BaseOk(ledger, cl)
    ensures cl.row.Some? ==> cl.base.value.status != Succeeded
    ensures cl.row.Some? && cl.q.id in ledger ==> Evolves(ledger[cl.q.id], cl.row.value)
    ensures cl.row.Some? && cl.q.id !in ledger ==> Finished(cl.row.value)
    ensures cl.effect.Some? <==> cl.row.Some? && cl.row.value.status == Succeeded
    ensures cl.effect == None ==> p == None
  {
    var base := cl.base.value;
    match cl.pc
    case Complete(Executed(v)) => RunEvolves(base, cl.q, v, "");
    case Complete(Threw(e)) => RunEvolves(base, cl.q, Null, e);
    case RecorderComplete(e) => RecorderEvolves(base, cl.q, e);
    case _ =>
  }

  /** Whoever does not hold the row lock survives any legal change of that row. */
  lemma OtherSurvives(ledger: map<string, Row>, id: string, row: Row, p: Option<RJ.Pending>, other: Caller)
    requires CallerOk(ledger, p, other)
    requires other.locked ==> other.q.id != id
    requires id in ledger ==> Evolves(ledger[id], row)
    ensures CallerOk(ledger[id := row], p, other)
  {
    if other.q.id == id && id in ledger && other.pc.Done? {
      AnswerStable(ledger[id], row, other.q, other.pc.answer);
    }
  }

  lemma AnswerStable(a: Row, b: Row, q: Request, answer: Outcome)
    requires Evolves(a, b) && WellFormed(q.payload)
    ensures AnswerOk(map[q.id := a], q, answer) ==> AnswerOk(map[q.id := b], q, answer)
  {
    IdentityDecides(q.payload, q.payload);
    assert LegacyEmptyPayload(b.payload) ==> b.payload == EMPTY;
  }

  /** What commits, and what it leaves of the journal. */
  lemma JournalCommit(j: RJ.Journal, c: CallerId)
    requires RJ.Inv(j) && RJ.Enabled(j, c, RJ.Commit)
    ensures var j' := RJ.Apply(j, c, RJ.Commit);
      && RJ.Inv(j')
      && PendingAt(j', c) == None
      && (forall u :: u != c ==> PendingAt(j', u) == PendingAt(j, u))
      && (forall n :: n in j.outbox ==> n in j'.outbox && j'.outbox[n] == j.outbox[n])
      && (forall n :: n in j'.outbox && n !in j.outbox ==> c in j.pending && j.pending[c].row == Some(n))
      && (c in j.pending ==> var p := j.pending[c];
            p.row.value in j'.outbox && p.row.value !in j.outbox
            && j'.outbox[p.row.value] == RJ.OutboxRow(p.heads, p.origin))
  {
    RJ.StepInv(j, c, RJ.Commit);
    if c in j.pending { assert RJ.PendingIdInv(j, c); }
  }

  lemma CommitCallers(s: State, c: CallerId, cl: Caller, pc: Pc, s': State)
    requires CallersOk(s) && LocksOk(s) && RJ.Inv(s.journal)
    requires c in s.callers && cl == s.callers[c] && ReadyToCommit(cl)
    requires RJ.Enabled(s.journal, c, RJ.Commit) && s' == CommitWith(s, c, pc)
    requires pc.RecorderIdle? || (pc.Done? && AnswerOk(s'.ledger, cl.q, pc.answer))
    ensures CallersOk(s')
  {
    assert CallerOk(s.ledger, PendingAt(s.journal, c), cl);
    CommittedRowEvolves(s.ledger, PendingAt(s.journal, c), cl);
    JournalCommit(s.journal, c);
    forall u | u in s'.callers ensures CallerOk(s'.ledger, PendingAt(s'.journal, u), s'.callers[u]) {
      if u != c {
        assert CallerOk(s.ledger, PendingAt(s.journal, u), s.callers[u]);
        assert !Contend(cl, s.callers[u]);
        if cl.row.Some? {
          OtherSurvives(s.ledger, cl.q.id, cl.row.value, PendingAt(s.journal, u), s.callers[u]);
        }
      }
    }
  }

  lemma CommitLocks(s: State, c: CallerId, pc: Pc, s': State)
    requires LocksOk(s) && c in s.callers && RJ.Inv(s.journal)
    requires RJ.Enabled(s.journal, c, RJ.Commit) && s' == CommitWith(s, c, pc)
    ensures LocksOk(s')
  {
    forall x, y | x in s'.callers && y in s'.callers && x != y ensures !Contend(s'.callers[x], s'.callers[y]) {
      assert !Contend(s.callers[x], s.callers[y]);
    }
  }

  lemma CommitLedger(l0: map<string, Row>, ledger: map<string, Row>, p: Option<RJ.Pending>, cl: Caller)
    requires LedgerOk(l0, ledger) && CallerOk(ledger, p, cl) && ReadyToCommit(cl) && cl.row.Some?
    ensures LedgerOk(l0, ledger[cl.q.id := cl.row.value])
  {
    CommittedRowEvolves(ledger, p, cl);
    var id := cl.q.id;
    if id in l0 {
      EvolvesTransitive(l0[id], ledger[id], cl.row.value);
    } else if id in ledger {
      assert Finished(ledger[id]);
    }
  }

  /** One more effect, for a request that had none, next to its newly succeeded row. */
  lemma EffectAdded(l0: map<string, Row>, ledger: map<string, Row>, effects: seq<Effect>, row: Row, e: Effect)
    requires AtMostOnce(effects) && ExactlySucceeded(l0, ledger, effects)
    requires row.status == Succeeded && !SucceededIn(ledger, e.requestId) && !SucceededIn(l0, e.requestId)
    ensures AtMostOnce(effects + [e]) && ExactlySucceeded(l0, ledger[e.requestId := row], effects + [e])
  {
    var all, n := effects + [e], |effects|;
    assert !Performed(effects, e.requestId);
    forall x | true ensures Performed(all, x) <==> Performed(effects, x) || x == e.requestId {
      if i :| 0 <= i < n && effects[i].requestId == x { assert all[i].requestId == x; }
      assert all[n].requestId == e.requestId;
    }
    forall x | true ensures SucceededIn(ledger[e.requestId := row], x) <==> SucceededIn(ledger, x) || x == e.requestId {
    }
  }

  lemma FailureAdded(l0: map<string, Row>, ledger: map<string, Row>, effects: seq<Effect>, id: string, row: Row)
    requires ExactlySucceeded(l0, ledger, effects)
    requires row.status != Succeeded && !SucceededIn(ledger, id)
    ensures ExactlySucceeded(l0, ledger[id := row], effects)
  {
    forall x | true ensures SucceededIn(ledger[id := row], x) <==> SucceededIn(ledger, x) {
    }
  }

  /** Stored effects stay valid when another request's row changes and the outbox grows. */
  lemma EffectsStayValid(ledger: map<string, Row>, effects: seq<Effect>, outbox: map<nat, RJ.OutboxRow>,
                         id: string, row: Row, outbox': map<nat, RJ.OutboxRow>)
    requires EffectsValid(ledger, effects, outbox) && !SucceededIn(ledger, id)
    requires forall n :: n in outbox ==> n in outbox' && outbox'[n] == outbox[n]
    ensures EffectsValid(ledger[id := row], effects, outbox')
  {
    forall i | 0 <= i < |effects| ensures EffectOk(ledger[id := row], outbox', effects[i]) {
      assert EffectOk(ledger, outbox, effects[i]);
    }
  }

  lemma ExplanationsGrow(effects: seq<Effect>, outbox: map<nat, RJ.OutboxRow>, more: seq<Effect>,
                         outbox': map<nat, RJ.OutboxRow>)
    requires OutboxExplained(effects, outbox)
    requires forall n :: n in outbox' && n in outbox ==> outbox'[n] == outbox[n]
    requires forall n :: n in outbox' && n !in outbox && outbox'[n].origin.Some? ==>
                           more != [] && more[0].requestId == outbox'[n].origin.value && more[0].outboxId == Some(n)
    ensures OutboxExplained(effects + more, outbox')
  {
    var all := effects + more;
    forall n | n in outbox' && outbox'[n].origin.Some? ensures Explained(all, outbox'[n].origin.value, n) {
      if n in outbox {
        assert Explained(effects, outbox[n].origin.value, n);
        var i :| 0 <= i < |effects| && effects[i].requestId == outbox[n].origin.value && effects[i].outboxId == Some(n);
        assert all[i] == effects[i];
      } else {
        assert all[|effects|] == more[0];
      }
    }
  }

  lemma CommitSuccess(l0: map<string, Row>, s: State, c: CallerId, cl: Caller, j': RJ.Journal)
    requires LedgerOk(l0, s.ledger) && EffectsOk(l0, s) && RJ.Inv(s.journal)
    requires CallerOk(s.ledger, PendingAt(s.journal, c), cl) && ReadyToCommit(cl) && cl.effect.Some?
    requires RJ.Enabled(s.journal, c, RJ.Commit) && j' == RJ.Apply(s.journal, c, RJ.Commit)
    ensures cl.row.Some?
    ensures var ledger, effects := s.ledger[cl.q.id := cl.row.value], s.effects + [cl.effect.value];
      && AtMostOnce(effects) && ExactlySucceeded(l0, ledger, effects)
      && EffectsValid(ledger, effects, j'.outbox) && OutboxExplained(effects, j'.outbox)
  {
    CommittedRowEvolves(s.ledger, PendingAt(s.journal, c), cl);
    JournalCommit(s.journal, c);
    var e := cl.effect.value;
    assert e.requestId in l0 ==> Evolves(l0[e.requestId], s.ledger[e.requestId]);
    EffectAdded(l0, s.ledger, s.effects, cl.row.value, e);
    EffectsStayValid(s.ledger, s.effects, s.journal.outbox, cl.q.id, cl.row.value, j'.outbox);
    assert EffectOk(s.ledger[cl.q.id := cl.row.value], j'.outbox, e);
    ExplanationsGrow(s.effects, s.journal.outbox, [e], j'.outbox);
  }

  lemma CommitEffects(l0: map<string, Row>, s: State, c: CallerId, cl: Caller, pc: Pc, s': State)
    requires s in Safe(l0) && c in s.callers && cl == s.callers[c] && ReadyToCommit(cl)
    requires RJ.Enabled(s.journal, c, RJ.Commit) && s' == CommitWith(s, c, pc)
    ensures EffectsOk(l0, s')
  {
    assert CallerOk(s.ledger, PendingAt(s.journal, c), cl);
    CommittedRowEvolves(s.ledger, PendingAt(s.journal, c), cl);
    if cl.effect.Some? {
      CommitSuccess(l0, s, c, cl, s'.journal);
    } else {
      assert s'.journal.outbox == s.journal.outbox;
      if cl.row.Some? {
        FailureAdded(l0, s.ledger, s.effects, cl.q.id, cl.row.value);
        EffectsStayValid(s.ledger, s.effects, s.journal.outbox, cl.q.id, cl.row.value, s.journal.outbox);
      }
    }
  }

  lemma CommitAnswer(s: State, c: CallerId, cl: Caller, pc: Pc, s': State)
    requires CallersOk(s) && c in s.callers && cl == s.callers[c] && ReadyToCommit(cl)
    requires RJ.Enabled(s.journal, c, RJ.Commit) && s' == CommitWith(s, c, pc)
    requires pc.RecorderIdle? || (pc.Done? && (pc.answer.Threw? || cl.pc == Complete(pc.answer)))
    ensures pc.Done? ==> AnswerOk(s'.ledger, cl.q, pc.answer)
    ensures CallerOk(s.ledger, PendingAt(s.journal, c), cl)
  {
    assert CallerOk(s.ledger, PendingAt(s.journal, c), cl);
  }

  lemma CommitWithInv(l0: map<string, Row>, s: State, c: CallerId, cl: Caller, pc: Pc)
    requires s in Safe(l0) && c in s.callers && cl == s.callers[c] && ReadyToCommit(cl)
    requires RJ.Enabled(s.journal, c, RJ.Commit)
    requires pc.RecorderIdle? || (pc.Done? && (pc.answer.Threw? || cl.pc == Complete(pc.answer)))
    ensures CommitWith(s, c, pc) in Safe(l0)
  {
    var s' := CommitWith(s, c, pc);
    RJ.StepInv(s.journal, c, RJ.Commit);
    CommitAnswer(s, c, cl, pc, s');
    CommitCallers(s, c, cl, pc, s');
    CommitLocks(s, c, pc, s');
    if cl.row.Some? { CommitLedger(l0, s.ledger, PendingAt(s.journal, c), cl); }
    CommitEffects(l0, s, c, cl, pc, s');
  }

  lemma OtherEffects(s: State, w: CallerId, b: RJ.Action, s': State)
    requires EffectsValid(s.ledger, s.effects, s.journal.outbox) && OutboxExplained(s.effects, s.journal.outbox)
    requires LocksOk(s) && RJ.Inv(s.journal) && Enabled(s, w, Other(b)) && s' == Apply(s, w, Other(b))
    ensures EffectsValid(s'.ledger, s'.effects, s'.journal.outbox) && OutboxExplained(s'.effects, s'.journal.outbox)
  {
    if b.Commit? { JournalCommit(s.journal, w); }
    assert forall n :: n in s.journal.outbox ==> n in s'.journal.outbox && s'.journal.outbox[n] == s.journal.outbox[n];
    assert forall n :: n in s'.journal.outbox && n !in s.journal.outbox ==> s'.journal.outbox[n].origin == None;
    forall i | 0 <= i < |s.effects| ensures EffectOk(s'.ledger, s'.journal.outbox, s'.effects[i]) {
      assert EffectOk(s.ledger, s.journal.outbox, s.effects[i]);
    }
    ExplanationsGrow(s.effects, s.journal.outbox, [], s'.journal.outbox);
    assert s.effects + [] == s'.effects;
  }

  lemma OtherCallers(s: State, w: CallerId, b: RJ.Action, s': State)
    requires CallersOk(s) && RJ.Inv(s.journal) && Enabled(s, w, Other(b)) && s' == Apply(s, w, Other(b))
    ensures CallersOk(s')
  {
    forall u | u in s.callers ensures CallerOk(s'.ledger, PendingAt(s'.journal, u), s'.callers[u]) {
      OtherPendingUnchanged(s.journal, w, b, u);
      assert CallerOk(s.ledger, PendingAt(s.journal, u), s.callers[u]);
    }
  }

  /** Another writer of the journal never disturbs the boundary. */
  lemma OtherInv(l0: map<string, Row>, s: State, w: CallerId, b: RJ.Action)
    requires s in Safe(l0) && Enabled(s, w, Other(b))
    ensures Apply(s, w, Other(b)) in Safe(l0)
  {
    var s' := Apply(s, w, Other(b));
    RJ.StepInv(s.journal, w, b);
    OtherCallers(s, w, b, s');
    OtherEffects(s, w, b, s');
  }

  lemma StartStepInv(l0: map<string, Row>, s: State, c: CallerId, a: Action, s': State)
    requires s in Safe(l0) && Step(s, c, a, s') && (a.Begin? || a.Insert? || a.Lock? || a.Claim?)
    ensures s' in Safe(l0)
  {
    var cl := s.callers[c];
    match a
    case Begin => BeginInv(l0, s, c, cl);
    case Insert => InsertInv(l0, s, c, cl);
    case Lock => LockInv(l0, s, c, cl);
    case Claim => if cl.pc.Locked? { ClaimInv(l0, s, c, cl); } else { RecorderClaimInv(l0, s, c, cl); }
  }

  lemma BusinessStepInv(l0: map<string, Row>, s: State, c: CallerId, a: Action, s': State)
    requires s in Safe(l0) && Step(s, c, a, s') && (a.Return? || a.Finish?)
    ensures s' in Safe(l0)
  {
    var cl := s.callers[c];
    match a
    case Return(writes, value, marks) => ReturnInv(l0, s, c, cl, writes, value, marks);
    case Finish => FinishInv(l0, s, c, cl);
  }

  lemma ThrowStepInv(l0: map<string, Row>, s: State, c: CallerId, error: string, s': State)
    requires s in Safe(l0) && Step(s, c, Throw(error), s')
    ensures s' in Safe(l0)
  {
    ThrowInv(l0, s, c, error);
  }

  lemma AbortStepInv(l0: map<string, Row>, s: State, c: CallerId, error: string, s': State)
    requires s in Safe(l0) && Step(s, c, Abort(error), s')
    ensures s' in Safe(l0)
  {
    AbortInv(l0, s, c, error);
  }

  lemma CommitInv(l0: map<string, Row>, s: State, c: CallerId, a: Action, s': State)
    requires s in Safe(l0) && Step(s, c, a, s') && (a.Commit? || a.CommitUnseen?)
    ensures s' in Safe(l0)
  {
    var cl := s.callers[c];
    assert CallerOk(s.ledger, PendingAt(s.journal, c), cl);
    if a.Commit? {
      CommitWithInv(l0, s, c, cl, Done(Answer(cl.pc)));
    } else {
      CommitWithInv(l0, s, c, cl, AfterFailure(cl.pc, a.error));
    }
  }

  /** Every step of every caller, and of everybody else, keeps the invariant. */
  lemma StepInv(l0: map<string, Row>, s: State, c: CallerId, a: Action, s': State)
    requires s in Safe(l0) && Step(s, c, a, s')
    ensures s' in Safe(l0)
  {
    if a.Begin? || a.Insert? || a.Lock? || a.Claim? {
      StartStepInv(l0, s, c, a, s');
    } else if a.Return? || a.Finish? {
      BusinessStepInv(l0, s, c, a, s');
    } else if a.BumpNext? {
      BumpInv(l0, s, c, s.callers[c]);
    } else if a.Announce? {
      AnnounceInv(l0, s, c, s.callers[c]);
    } else if a.Commit? || a.CommitUnseen? {
      CommitInv(l0, s, c, a, s');
    } else if a.Throw? {
      ThrowStepInv(l0, s, c, a.error, s');
    } else if a.Abort? {
      AbortStepInv(l0, s, c, a.error, s');
    } else if a.Arrive? {
      ArriveInv(l0, s, c, a.q);
    } else {
      OtherInv(l0, s, c, a.a);
    }
  }
}
