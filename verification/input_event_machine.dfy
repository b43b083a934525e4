/** Concurrent callers of the request boundary, statement by statement, over one database. */
module InputEventMachine {
  import opened Common
  import opened CanonicalJson
  import opened KeyOrder
  import opened RevisionKeys
  import RJ = RevisionJournal
  import opened LockOrder
  import opened InputEvents

  type CallerId = nat

  datatype Pc =
    | Idle
    | Open                                  // transaction begun, fence taken if asked for
    | Inserted
    | Locked
    | Running                               // claimed, savepoint set: business has started
    | Journaling(writes: seq<string>, value: Js, keys: seq<Key>, next: nat)
    | Complete(result: Outcome)             // ready to commit
    | RecorderIdle(error: string)
    | RecorderOpen(error: string)
    | RecorderInserted(error: string)
    | RecorderLocked(error: string)
    | RecorderComplete(error: string)
    | Done(answer: Outcome)

  datatype Caller = Caller(
    q: Request, pc: Pc,
    locked: bool,              // holds the row lock of its request
    base: Option<Row>,         // the row as read under that lock
    row: Option<Row>,          // its uncommitted version of the row
    effect: Option<Effect>)    // its uncommitted business effects

  datatype State = State(
    ledger: map<string, Row>, effects: seq<Effect>, nextSequence: nat,
    journal: RJ.Journal, fence: Option<CallerId>, callers: map<CallerId, Caller>)

  datatype Action =
    | Arrive(q: Request)
    | Begin
    | Insert
    | Lock
    | Claim
    | Return(writes: seq<string>, value: Js, marks: seq<Key>)
    | BumpNext
    | Announce
    | Finish
    | Throw(error: string)
    | Commit
    | CommitUnseen(error: string)
    | Abort(error: string)
    | Other(a: RJ.Action)      // another writer of the same journal, or the seeding of heads

  predicate Recorder(pc: Pc) {
    pc.RecorderIdle? || pc.RecorderOpen? || pc.RecorderInserted? || pc.RecorderLocked? || pc.RecorderComplete?
  }

  predicate InTransaction(pc: Pc) {
    !pc.Idle? && !pc.RecorderIdle? && !pc.Done?
  }

  predicate BusinessStarted(pc: Pc) {
    pc.Running? || pc.Journaling? || (pc.Complete? && !pc.result.Replayed?)
  }

  predicate LockFree(s: State, c: CallerId, id: string) {
    forall u :: u in s.callers && u != c ==> !(s.callers[u].locked && s.callers[u].q.id == id)
  }

  /** The caller once its transaction is over. */
  function Released(q: Request, pc: Pc): Caller {
    Caller(q, pc, false, None, None, None)
  }

  function DropFence(s: State, c: CallerId): Option<CallerId> {
    if s.fence == Some(c) then None else s.fence
  }

  function AfterFailure(pc: Pc, error: string): Pc {
    if BusinessStarted(pc) then RecorderIdle(error)
    else if Recorder(pc) then Done(Threw(pc.error))
    else Done(Threw(error))
  }

  function CommitWith(s: State, c: CallerId, pc: Pc): State
    requires c in s.callers && RJ.Enabled(s.journal, c, RJ.Commit)
  {
    var cl := s.callers[c];
    State(if cl.row.Some? then s.ledger[cl.q.id := cl.row.value] else s.ledger,
          if cl.effect.Some? then s.effects + [cl.effect.value] else s.effects,
          s.nextSequence,
          RJ.Apply(s.journal, c, RJ.Commit),
          DropFence(s, c),
          s.callers[c := Released(cl.q, pc)])
  }

  function RollbackTo(s: State, c: CallerId, pc: Pc): State
    requires c in s.callers
  {
    s.(journal := RJ.Apply(s.journal, c, RJ.Rollback),
       fence := DropFence(s, c),
       callers := s.callers[c := Released(s.callers[c].q, pc)])
  }

  // ---- the statements, each with the condition under which it does not wait ----

  predicate CanBegin(s: State, c: CallerId) {
    c in s.callers && var cl := s.callers[c];
    (cl.pc.Idle? || cl.pc.RecorderIdle?) && (cl.q.fenced ==> s.fence == None)
  }

  function BeginTransaction(s: State, c: CallerId): State
    requires CanBegin(s, c)
  {
    var cl := s.callers[c];
    s.(fence := if cl.q.fenced then Some(c) else s.fence,
       callers := s.callers[c := cl.(pc := if cl.pc.Idle? then Open else RecorderOpen(cl.pc.error))])
  }

  predicate CanInsert(s: State, c: CallerId) {
    c in s.callers && var cl := s.callers[c];
    (cl.pc.Open? || cl.pc.RecorderOpen?) && (cl.q.id in s.ledger || LockFree(s, c, cl.q.id))
  }

  function InsertedCaller(ledger: map<string, Row>, cl: Caller, serial: nat): Caller
    requires cl.pc.Open? || cl.pc.RecorderOpen?
  {
    var pc := if cl.pc.Open? then Inserted else RecorderInserted(cl.pc.error);
    if cl.q.id in ledger then cl.(pc := pc)
    else cl.(pc := pc, locked := true, row := Some(WaitingRow(cl.q, serial)))
  }

  /** A conflicting insert does nothing, but uses up a serial all the same. */
  function InsertPending(s: State, c: CallerId): State
    requires CanInsert(s, c)
  {
    s.(nextSequence := s.nextSequence + 1,
       callers := s.callers[c := InsertedCaller(s.ledger, s.callers[c], s.nextSequence)])
  }

  predicate CanLock(s: State, c: CallerId) {
    c in s.callers && var cl := s.callers[c];
    (cl.pc.Inserted? || cl.pc.RecorderInserted?) && LockFree(s, c, cl.q.id) && (cl.row.Some? || cl.q.id in s.ledger)
  }

  function LockRow(s: State, c: CallerId): State
    requires CanLock(s, c)
  {
    var cl := s.callers[c];
    s.(callers := s.callers[c := cl.(pc := if cl.pc.Inserted? then Locked else RecorderLocked(cl.pc.error),
                                     locked := true,
                                     base := Some(if cl.row.Some? then cl.row.value else s.ledger[cl.q.id]))])
  }

  predicate CanClaim(s: State, c: CallerId) {
    c in s.callers && var cl := s.callers[c];
    (cl.pc.Locked? || cl.pc.RecorderLocked?) && cl.base.Some?
  }

  function ClaimRow(s: State, c: CallerId): State
    requires CanClaim(s, c)
  {
    var cl := s.callers[c];
    var base := cl.base.value;
    if cl.pc.RecorderLocked? then
      var row := if RecorderApplies(base, cl.q) then Some(LateFailure(base, cl.q, cl.pc.error)) else cl.row;
      s.(callers := s.callers[c := cl.(row := row, pc := RecorderComplete(cl.pc.error))])
    else
      match Admit(base, cl.q)
      case Replay => s.(callers := s.callers[c := cl.(pc := Complete(Replayed(ResultOf(base))))])
      case Reject => RollbackTo(s, c, Done(Rejected))
      case Run => s.(callers := s.callers[c := cl.(row := Some(Claimed(base, cl.q)), pc := Running)])
  }

  predicate CanReturn(s: State, c: CallerId) {
    c in s.callers && s.callers[c].pc.Running?
  }

  function BusinessReturns(s: State, c: CallerId, writes: seq<string>, value: Js, marks: seq<Key>): State
    requires CanReturn(s, c)
  {
    s.(callers := s.callers[c := s.callers[c].(pc := Journaling(writes, value, Normalize(marks), 0))])
  }

  predicate CanBump(s: State, c: CallerId) {
    c in s.callers && var pc := s.callers[c].pc;
    pc.Journaling? && pc.next < |pc.keys| && RJ.Enabled(s.journal, c, RJ.Bump(pc.keys[pc.next]))
  }

  function BumpedCaller(cl: Caller): Caller
    requires cl.pc.Journaling?
  {
    cl.(pc := cl.pc.(next := cl.pc.next + 1))
  }

  function BumpKey(s: State, c: CallerId): State
    requires CanBump(s, c)
  {
    var cl := s.callers[c];
    s.(journal := RJ.Apply(s.journal, c, RJ.Bump(cl.pc.keys[cl.pc.next])), callers := s.callers[c := BumpedCaller(cl)])
  }

  predicate CanAnnounce(s: State, c: CallerId) {
    c in s.callers && var cl := s.callers[c];
    cl.pc.Journaling? && cl.pc.next == |cl.pc.keys| && RJ.Enabled(s.journal, c, RJ.InsertRow(Some(cl.q.id)))
  }

  function AnnounceRow(s: State, c: CallerId): State
    requires CanAnnounce(s, c)
  {
    s.(journal := RJ.Apply(s.journal, c, RJ.InsertRow(Some(s.callers[c].q.id))))
  }

  predicate CanFinish(s: State, c: CallerId) {
    c in s.callers && var cl := s.callers[c];
    cl.pc.Journaling? && cl.pc.next == |cl.pc.keys| && cl.row.Some?
    && (cl.pc.keys != [] ==> RJ.PendingOf(s.journal, c).row.Some?)
  }

  function FinishedEffect(s: State, c: CallerId): Effect
    requires CanFinish(s, c)
  {
    var cl := s.callers[c];
    var outboxId := if cl.pc.keys == [] then None else RJ.PendingOf(s.journal, c).row;
    Effect(cl.q.id, cl.row.value.attempts, cl.pc.writes, cl.pc.value, cl.pc.keys, outboxId)
  }

  function FinishRun(s: State, c: CallerId): State
    requires CanFinish(s, c)
  {
    var cl := s.callers[c];
    s.(callers := s.callers[c := cl.(row := Some(Completed(cl.row.value, cl.pc.value)),
                                     effect := Some(FinishedEffect(s, c)), pc := Complete(Executed(cl.pc.value)))])
  }

  predicate CanThrow(s: State, c: CallerId) {
    c in s.callers && BusinessStarted(s.callers[c].pc) && s.callers[c].base.Some?
  }

  /** Rollback to the savepoint; the claim, made before it, stays. */
  function ThrowError(s: State, c: CallerId, error: string): State
    requires CanThrow(s, c)
  {
    var cl := s.callers[c];
    s.(journal := RJ.Apply(s.journal, c, RJ.Rollback),
       callers := s.callers[c := cl.(row := Some(Aborted(Claimed(cl.base.value, cl.q), error)), effect := None,
                                     pc := Complete(Threw(error)))])
  }

  predicate CanCommit(s: State, c: CallerId) {
    c in s.callers && (s.callers[c].pc.Complete? || s.callers[c].pc.RecorderComplete?)
    && RJ.Enabled(s.journal, c, RJ.Commit)
  }

  function Answer(pc: Pc): Outcome
    requires pc.Complete? || pc.RecorderComplete?
  {
    if pc.Complete? then pc.result else Threw(pc.error)
  }

  predicate Enabled(s: State, c: CallerId, a: Action) {
    match a
    case Arrive(q) => c !in s.callers && c !in s.journal.pending && WellFormed(q.payload)
    case Other(b) => c !in s.callers && RJ.Enabled(s.journal, c, b) && (b.InsertRow? ==> b.origin == None)
    case Begin => CanBegin(s, c)
    case Insert => CanInsert(s, c)
    case Lock => CanLock(s, c)
    case Claim => CanClaim(s, c)
    case Return(_, _, _) => CanReturn(s, c)
    case BumpNext => CanBump(s, c)
    case Announce => CanAnnounce(s, c)
    case Finish => CanFinish(s, c)
    case Throw(_) => CanThrow(s, c)
    case Commit => CanCommit(s, c)
    case CommitUnseen(_) => CanCommit(s, c)
    case Abort(_) => c in s.callers && !s.callers[c].pc.Done?
  }

  function Apply(s: State, c: CallerId, a: Action): State
    requires Enabled(s, c, a)
  {
    match a
    case Arrive(q) => s.(callers := s.callers[c := Released(q, Idle)])
    case Other(b) => s.(journal := RJ.Apply(s.journal, c, b))
    case Begin => BeginTransaction(s, c)
    case Insert => InsertPending(s, c)
    case Lock => LockRow(s, c)
    case Claim => ClaimRow(s, c)
    case Return(writes, value, marks) => BusinessReturns(s, c, writes, value, marks)
    case BumpNext => BumpKey(s, c)
    case Announce => AnnounceRow(s, c)
    case Finish => FinishRun(s, c)
    case Throw(error) => ThrowError(s, c, error)
    case Commit => CommitWith(s, c, Done(Answer(s.callers[c].pc)))
    case CommitUnseen(error) => CommitWith(s, c, AfterFailure(s.callers[c].pc, error))
    case Abort(error) => RollbackTo(s, c, AfterFailure(s.callers[c].pc, error))
  }

  predicate Step(s: State, c: CallerId, a: Action, s': State) {
    Enabled(s, c, a) && s' == Apply(s, c, a)
  }

  ghost predicate Next(s: State, s': State) {
    exists c: CallerId, a: Action :: Step(s, c, a, s')
  }

  // ---- invariant: one caller ----

  predicate Waits(row: Row, q: Request) {
    row == WaitingRow(q, row.sequence)
  }

  /** Nobody else can have changed the row since it was read. */
  predicate BaseOk(ledger: map<string, Row>, cl: Caller) {
    && cl.locked && cl.base.Some?
    && (if cl.q.id in ledger then cl.base.value == ledger[cl.q.id] else Waits(cl.base.value, cl.q))
  }

  function KeySet(keys: seq<Key>): set<Key> {
    set k | k in keys
  }

  /** A request may not run: its identity is taken by something it cannot replace. */
  predicate Blocked(row: Row, q: Request) {
    row.status == Processing || (!Matching(row, q) && !Adoptable(row, q))
  }

  predicate AnswerOk(ledger: map<string, Row>, q: Request, answer: Outcome) {
    match answer
    case Threw(_) => true
    case Rejected => q.id in ledger && Blocked(ledger[q.id], q)
    case Executed(v) => q.id in ledger && ledger[q.id].status == Succeeded && Matching(ledger[q.id], q)
                        && ledger[q.id].result == Some(Canonical(v))
    case Replayed(v) => q.id in ledger && ledger[q.id].status == Succeeded && Matching(ledger[q.id], q)
                        && ResultOf(ledger[q.id]) == v
  }

  predicate JournalingOk(cl: Caller, p: Option<RJ.Pending>)
    requires cl.pc.Journaling?
  {
    var pc := cl.pc;
    && Ascending(pc.keys) && pc.next <= |pc.keys|
    && (p.Some? <==> pc.next > 0)
    && (p.Some? ==>
          && p.value.heads.Keys == KeySet(pc.keys[..pc.next])
          && (p.value.row.Some? ==> pc.next == |pc.keys| && p.value.origin == Some(cl.q.id))
          && (p.value.row == None ==> p.value.origin == None))
  }

  predicate EffectPending(cl: Caller, p: Option<RJ.Pending>)
    requires cl.effect.Some?
  {
    var e := cl.effect.value;
    && (e.keys == [] ==> p == None && e.outboxId == None)
    && (e.keys != [] ==> p.Some? && p.value.row.Some? && p.value.row == e.outboxId
                         && p.value.origin == Some(cl.q.id) && p.value.heads.Keys == KeySet(e.keys))
  }

  predicate ClaimedOk(ledger: map<string, Row>, cl: Caller) {
    BaseOk(ledger, cl) && Admit(cl.base.value, cl.q) == InputEvents.Run
  }

  predicate PcOk(ledger: map<string, Row>, p: Option<RJ.Pending>, cl: Caller) {
    match cl.pc
    case Inserted => InsertedOk(ledger, p, cl)
    case RecorderInserted(_) => InsertedOk(ledger, p, cl)
    case Locked => LockedOk(ledger, p, cl)
    case RecorderLocked(_) => LockedOk(ledger, p, cl)
    case Running => ClaimedOk(ledger, cl) && cl.row == Some(Claimed(cl.base.value, cl.q)) && cl.effect == None && p == None
    case Journaling(_, _, _, _) =>
      ClaimedOk(ledger, cl) && cl.row == Some(Claimed(cl.base.value, cl.q)) && cl.effect == None && JournalingOk(cl, p)
    case Complete(result) => CompleteOk(ledger, p, cl)
    case RecorderComplete(error) =>
      && BaseOk(ledger, cl) && cl.effect == None && p == None
      && (if RecorderApplies(cl.base.value, cl.q) then cl.row == Some(LateFailure(cl.base.value, cl.q, error))
          else cl.row == None && cl.q.id in ledger)
    case Done(answer) => cl == Released(cl.q, cl.pc) && p == None && AnswerOk(ledger, cl.q, answer)
    case _ => cl == Released(cl.q, cl.pc) && p == None
  }

  predicate InsertedOk(ledger: map<string, Row>, p: Option<RJ.Pending>, cl: Caller) {
    && cl.base == None && cl.effect == None && p == None
    && (cl.locked <==> cl.row.Some?)
    && (if cl.row.Some? then cl.q.id !in ledger && Waits(cl.row.value, cl.q) else cl.q.id in ledger)
  }

  predicate LockedOk(ledger: map<string, Row>, p: Option<RJ.Pending>, cl: Caller) {
    && BaseOk(ledger, cl) && cl.effect == None && p == None
    && cl.row == if cl.q.id in ledger then None else cl.base
  }

  predicate CompleteOk(ledger: map<string, Row>, p: Option<RJ.Pending>, cl: Caller)
    requires cl.pc.Complete?
  {
    match cl.pc.result
    case Executed(v) =>
      && ClaimedOk(ledger, cl) && cl.row == Some(Completed(Claimed(cl.base.value, cl.q), v))
      && cl.effect.Some? && cl.effect.value.requestId == cl.q.id && cl.effect.value.value == v
      && cl.effect.value.attempt == cl.row.value.attempts && Ascending(cl.effect.value.keys) && EffectPending(cl, p)
    case Threw(error) =>
      && ClaimedOk(ledger, cl) && cl.row == Some(Aborted(Claimed(cl.base.value, cl.q), error))
      && cl.effect == None && p == None
    case Replayed(v) =>
      && BaseOk(ledger, cl) && Admit(cl.base.value, cl.q) == Replay && v == ResultOf(cl.base.value)
      && cl.row == None && cl.effect == None && p == None
    case Rejected => false
  }

  function PendingAt(j: RJ.Journal, c: CallerId): Option<RJ.Pending> {
    if c in j.pending then Some(j.pending[c]) else None
  }

  predicate CallerOk(ledger: map<string, Row>, p: Option<RJ.Pending>, cl: Caller) {
    WellFormed(cl.q.payload) && PcOk(ledger, p, cl)
  }

  // ---- invariant: the database ----

  /** Old rows have evolved; new rows are finished ones of this boundary. */
  ghost predicate LedgerOk(l0: map<string, Row>, ledger: map<string, Row>) {
    && (forall id :: id in l0 ==> id in ledger && Evolves(l0[id], ledger[id]))
    && (forall id :: id in ledger && id !in l0 ==> Finished(ledger[id]))
  }

  predicate Finished(row: Row) {
    (row.status == Succeeded || row.status == Failed) && row.target == Api
  }

  predicate SucceededIn(ledger: map<string, Row>, id: string) {
    id in ledger && ledger[id].status == Succeeded
  }

  predicate Performed(effects: seq<Effect>, id: string) {
    exists i :: 0 <= i < |effects| && effects[i].requestId == id
  }

  /** A committed effect belongs to a success, with that attempt, result and outbox row. */
  predicate EffectOk(ledger: map<string, Row>, outbox: map<nat, RJ.OutboxRow>, e: Effect) {
    && SucceededIn(ledger, e.requestId)
    && ledger[e.requestId].attempts == e.attempt
    && ledger[e.requestId].result == Some(Canonical(e.value))
    && Ascending(e.keys)
    && (e.outboxId == None <==> e.keys == [])
    && (e.outboxId.Some? ==>
          && e.outboxId.value in outbox
          && outbox[e.outboxId.value].origin == Some(e.requestId)
          && outbox[e.outboxId.value].revisions.Keys == KeySet(e.keys))
  }

  predicate Explained(effects: seq<Effect>, id: string, outboxId: nat) {
    exists i :: 0 <= i < |effects| && effects[i].requestId == id && effects[i].outboxId == Some(outboxId)
  }

  ghost predicate AtMostOnce(effects: seq<Effect>) {
    forall i, j :: 0 <= i < j < |effects| ==> effects[i].requestId != effects[j].requestId
  }

  ghost predicate EffectsValid(ledger: map<string, Row>, effects: seq<Effect>, outbox: map<nat, RJ.OutboxRow>) {
    forall i :: 0 <= i < |effects| ==> EffectOk(ledger, outbox, effects[i])
  }

  ghost predicate ExactlySucceeded(l0: map<string, Row>, ledger: map<string, Row>, effects: seq<Effect>) {
    forall id :: Performed(effects, id) <==> SucceededIn(ledger, id) && !SucceededIn(l0, id)
  }

  ghost predicate OutboxExplained(effects: seq<Effect>, outbox: map<nat, RJ.OutboxRow>) {
    forall n :: n in outbox && outbox[n].origin.Some? ==> Explained(effects, outbox[n].origin.value, n)
  }

  ghost predicate EffectsOk(l0: map<string, Row>, s: State) {
    && AtMostOnce(s.effects)
    && EffectsValid(s.ledger, s.effects, s.journal.outbox)
    && ExactlySucceeded(l0, s.ledger, s.effects)
    && OutboxExplained(s.effects, s.journal.outbox)
  }

  ghost predicate CallersOk(s: State) {
    forall c :: c in s.callers ==> CallerOk(s.ledger, PendingAt(s.journal, c), s.callers[c])
  }

  predicate Contend(a: Caller, b: Caller) {
    a.locked && b.locked && a.q.id == b.q.id
  }

  ghost predicate LocksOk(s: State) {
    && (forall c, u :: c in s.callers && u in s.callers && Contend(s.callers[c], s.callers[u]) ==> c == u)
    && (s.fence.Some? ==> s.fence.value in s.callers && InTransaction(s.callers[s.fence.value].pc))
    && (forall w :: w in s.journal.pending && w !in s.callers ==> s.journal.pending[w].origin == None)
  }

  ghost predicate Inv(l0: map<string, Row>, s: State) {
    CallersOk(s) && LocksOk(s) && LedgerOk(l0, s.ledger) && EffectsOk(l0, s) && RJ.Inv(s.journal)
  }

  predicate Initial(l0: map<string, Row>, s: State) {
    s.ledger == l0 && s.effects == [] && s.fence == None && s.callers == map[] && RJ.Initial(s.journal)
  }

  /** The states the invariant describes. */
  ghost function Safe(l0: map<string, Row>): iset<State> {
    iset s: State | Inv(l0, s)
  }

  lemma InitialInv(l0: map<string, Row>, s: State)
    requires Initial(l0, s)
    ensures s in Safe(l0)
  {
    RJ.InitialInv(s.journal);
  }
}
