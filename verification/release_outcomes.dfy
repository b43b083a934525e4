/** How a deployment ends, told from the outcomes of its calls and from its polls alone. */
module ReleaseOutcomes {
  import opened Common
  import opened ReleaseController
  import opened ReleaseTheorems

  // ---- the script ----

  /** The outcome of call number `n`. */
  function Out(c: Config, n: nat): Outcome {
    if n < |c.script| then c.script[n] else Done
  }

  predicate AllDone(c: Config, n: nat, k: nat)
    decreases k
  {
    k == 0 || (Out(c, n).Done? && AllDone(c, n + 1, k - 1))
  }

  function FirstFailure(c: Config, n: nat, k: nat): (f: nat)
    requires !AllDone(c, n, k)
    ensures f < k
    decreases k
  {
    if Out(c, n).Done? then 1 + FirstFailure(c, n + 1, k - 1) else 0
  }

  /** Of `k` stops, each followed by its delete, every delete succeeds. */
  predicate DeletesDone(c: Config, n: nat, k: nat)
    decreases k
  {
    k == 0 || (Out(c, n + 1).Done? && DeletesDone(c, n + 2, k - 1))
  }

  predicate NothingTouched(c: Config, n: nat, k: nat)
    decreases k
  {
    k == 0 || (!Took(Out(c, n)) && NothingTouched(c, n + 1, k - 1))
  }

  /** How many of the next `k` calls take no effect. */
  function Idle(c: Config, n: nat, k: nat): nat
    decreases k
  {
    if k == 0 then 0 else (if Took(Out(c, n)) then 0 else 1) + Idle(c, n + 1, k - 1)
  }

  // ---- which calls a deployment makes ----

  function Count(procs: Table, names: seq<string>, k: nat): (n: nat)
    requires k <= |names|
    ensures n <= k
  {
    if k == 0 then 0 else Count(procs, names, k - 1) + (if names[k - 1] in procs then 1 else 0)
  }

  /** How many managed processes are there. */
  function Managed(procs: Table): nat {
    Count(procs, MANAGED, |MANAGED|)
  }

  function StaticCall(c: Config): nat {
    if c.staticFrontend then 1 else 0
  }

  /** The listing and, of the `m` processes it shows, each delete succeed. */
  predicate StopClears(c: Config, n: nat, m: nat) {
    Out(c, n).Done? && DeletesDone(c, n + 1, m)
  }

  /** The first start, if everything before it succeeds. */
  function SwitchAt(c: Config, n: nat, m: nat): nat {
    n + Preparation(c) + 1 + 2 * m + StaticCall(c)
  }

  predicate Clears(c: Config, n: nat, m: nat) {
    && AllDone(c, n, Preparation(c)) && StopClears(c, n + Preparation(c), m)
    && (c.staticFrontend ==> Out(c, SwitchAt(c, n, m) - 1).Done?)
  }

  /** How many processes are left by the starts of `more` definitions, after `k` that succeeded. */
  function LeftBy(c: Config, q: nat, k: nat, more: nat): nat {
    if AllDone(c, q, more) then k + more
    else
      var f := FirstFailure(c, q, more);
      Idle(c, q + f + 1, k + f) + (if Took(Out(c, q + f)) then 1 else 0)
  }

  /** The call after these starts and, if one of them failed, the deletes of those before it. */
  function EndOf(c: Config, q: nat, k: nat, more: nat): nat {
    if AllDone(c, q, more) then q + more else q + k + 2 * FirstFailure(c, q, more) + 1
  }

  function StartsLeave(c: Config, q: nat): nat {
    LeftBy(c, q, 0, |Definitions(c)|)
  }

  function StartsEnd(c: Config, q: nat): nat {
    EndOf(c, q, 0, |Definitions(c)|)
  }

  // ---- the polls ----

  /** The status of a process started afresh, after the first `j` polls. */
  function StatusAfter(polls: seq<Poll>, j: nat, n: string): Status
    requires j <= |polls|
  {
    if j == 0 then Status(true, 0)
    else if n in polls[j - 1].statuses then polls[j - 1].statuses[n]
    else StatusAfter(polls, j - 1, n)
  }

  predicate Up(polls: seq<Poll>, names: seq<string>, j: nat)
    requires j <= |polls|
  {
    forall i :: 0 <= i < |names| ==> StatusAfter(polls, j, names[i]) == Status(true, 0)
  }

  predicate Good(polls: seq<Poll>, names: seq<string>, j: nat)
    requires 1 <= j <= |polls|
  {
    polls[j - 1].api && polls[j - 1].frontend && polls[j - 1].listed && Up(polls, names, j)
  }

  /** One of the next `limit` polls shows everything ready. */
  predicate BecomesReady(polls: seq<Poll>, names: seq<string>, j: nat, limit: nat)
    decreases limit
  {
    limit > 0 && j < |polls| && (Good(polls, names, j + 1) || BecomesReady(polls, names, j + 1, limit - 1))
  }

  function PollsUsed(polls: seq<Poll>, names: seq<string>, j: nat, limit: nat): (used: nat)
    requires j <= |polls|
    ensures j <= used <= |polls|
    decreases limit
  {
    if limit == 0 || j == |polls| || Good(polls, names, j + 1) then (if limit == 0 || j == |polls| then j else j + 1)
    else PollsUsed(polls, names, j + 1, limit - 1)
  }

  // ---- the publication ----

  /** The switch to the new processes succeeds. */
  predicate Switches(c: Config, q: nat, polls: seq<Poll>) {
    AllDone(c, q, |Definitions(c)| + StaticCall(c)) && BecomesReady(polls, Definitions(c), 0, c.pollLimit)
  }

  /** The first call of the publication, if a deployment that finds `m` processes comes to it. */
  function PublishAt(c: Config, n: nat, m: nat, polls: seq<Poll>): Option<nat> {
    if Clears(c, n, m) && Switches(c, SwitchAt(c, n, m), polls)
    then Some(SwitchAt(c, n, m) + |Definitions(c)| + StaticCall(c)) else None
  }

  predicate RefMoved(c: Config, p: nat) {
    && c.refConfigured && Out(c, p).Done? && Took(Out(c, p + 1))
    && !(Out(c, p + 1).Done? && !Out(c, p + 2).Done? && Took(Out(c, p + 3)))
  }

  predicate ActiveMoved(c: Config, p: nat) {
    if c.refConfigured then Out(c, p).Done? && Out(c, p + 1).Done? && Took(Out(c, p + 2)) else Took(Out(c, p))
  }

  predicate Completes(c: Config, p: nat) {
    if c.refConfigured then AllDone(c, p, 3) else Out(c, p).Done?
  }

  /** After the publication of `commit`, ref and active release name one commit. */
  predicate Agree(c: Config, p: nat, ref: Option<string>, active: string, commit: string) {
    match (RefMoved(c, p), ActiveMoved(c, p))
    case (true, true) => true
    case (true, false) => commit == active
    case (false, true) => ref == Some(commit)
    case (false, false) => ref == Some(active)
  }

  lemma PublishEffect(c: Config, h: State, release: Release)
    ensures var (after, r) := Publish(c, h, release);
      && after.procs == h.procs && after.artifact == h.artifact
      && after.gitRef == (if RefMoved(c, h.next) then Some(release.commit) else h.gitRef)
      && after.active == (if ActiveMoved(c, h.next) then release else h.active)
      && (r.stage == Finished <==> Completes(c, h.next))
  {
    assert At(c, h, 0) == Out(c, h.next) && At(c, Skip(h, 1), 0) == Out(c, h.next + 1);
    assert AllDone(c, h.next, 3) <==> Out(c, h.next).Done? && Out(c, h.next + 1).Done? && Out(c, h.next + 2).Done?;
  }

  /** Exactly when a publication leaves ref and active release at one commit. */
  lemma PublishAgreesIff(c: Config, h: State, release: Release)
    ensures var after := Publish(c, h, release).0;
      after.gitRef == Some(after.active.commit) <==> Agree(c, h.next, h.gitRef, h.active.commit, release.commit)
  {
    PublishEffect(c, h, release);
  }

  // ---- phases ----

  lemma {:induction false} CallsEnd(c: Config, h: State, n: nat)
    ensures Calls(c, h, n).1 <==> AllDone(c, h.next, n)
    ensures Calls(c, h, n).1 ==> Calls(c, h, n).0 == Skip(h, n)
    decreases n
  {
    if n > 0 {
      CallsEnd(c, Skip(h, 1), n - 1);
    }
  }

  lemma {:induction false} CountSame(a: Table, b: Table, names: seq<string>, k: nat)
    requires k <= |names| && forall i :: 0 <= i < k ==> (names[i] in a <==> names[i] in b)
    ensures Count(a, names, k) == Count(b, names, k)
  {
    if k > 0 {
      CountSame(a, b, names, k - 1);
    }
  }

  lemma {:induction false} CountTail(procs: Table, names: seq<string>, j: nat, k: nat)
    requires j <= k <= |names| && forall i :: j <= i < k ==> names[i] !in procs
    ensures Count(procs, names, k) == Count(procs, names, j)
  {
    if j < k {
      CountTail(procs, names, j, k - 1);
    }
  }

  lemma {:induction false} CountFull(procs: Table, names: seq<string>, k: nat)
    requires k <= |names|
    ensures Count(procs, names, k) == k <==> forall i :: 0 <= i < k ==> names[i] in procs
  {
    if k > 0 {
      CountFull(procs, names, k - 1);
    }
  }

  function StopPair(c: Config, h: State, name: string): State {
    DeleteOne(c, StopOne(c, h, name), name).0
  }

  /** One stop with its delete leaves the processes still to come alone. */
  lemma StopPairAt(c: Config, h: State, i: nat)
    requires 0 < i <= |MANAGED| && MANAGED[i - 1] in h.procs
    ensures var pair := StopPair(c, h, MANAGED[i - 1]);
      && pair.next == h.next + 2
      && (forall k :: 0 <= k < i - 1 ==> MANAGED[k] != MANAGED[i - 1] && (MANAGED[k] in pair.procs <==> MANAGED[k] in h.procs))
      && Count(pair.procs, MANAGED, i - 1) == Count(h.procs, MANAGED, i - 1) == Count(h.procs, MANAGED, i) - 1
      && StopFirst(c, h, i).0 == StopFirst(c, pair, i - 1).0
      && (StopFirst(c, h, i).1 <==> Out(c, h.next + 1).Done? && StopFirst(c, pair, i - 1).1)
  {
    ManagedDistinct();
    CountSame(h.procs, StopPair(c, h, MANAGED[i - 1]).procs, MANAGED, i - 1);
  }

  lemma {:induction false} StopEnd(c: Config, h: State, i: nat)
    requires i <= |MANAGED|
    ensures var k := Count(h.procs, MANAGED, i);
      (StopFirst(c, h, i).1 <==> DeletesDone(c, h.next, k)) && StopFirst(c, h, i).0.next == h.next + 2 * k
    decreases i
  {
    if i > 0 {
      if MANAGED[i - 1] !in h.procs {
        StopEnd(c, h, i - 1);
      } else {
        StopPairAt(c, h, i);
        StopEnd(c, StopPair(c, h, MANAGED[i - 1]), i - 1);
      }
    }
  }

  lemma StopManagedEnd(c: Config, h: State)
    ensures StopManaged(c, h).1 <==> StopClears(c, h.next, Managed(h.procs))
    ensures StopManaged(c, h).1 ==> StopManaged(c, h).0.next == h.next + 1 + 2 * Managed(h.procs)
  {
    StopEnd(c, Skip(h, 1), |MANAGED|);
  }

  /** When the old processes are gone and the switch begins. */
  lemma ClearedIff(c: Config, h: State)
    ensures Cleared(c, h).Some? <==> Clears(c, h.next, Managed(h.procs))
    ensures Cleared(c, h).Some? ==>
      && Cleared(c, h).value.next == SwitchAt(c, h.next, Managed(h.procs))
      && Cleared(c, h).value.polls == h.polls
  {
    var prepared := Calls(c, h, Preparation(c));
    CallsEnd(c, h, Preparation(c));
    if prepared.1 {
      var stopped := StopManaged(c, prepared.0);
      StopManagedEnd(c, prepared.0);
      StopManagedAt(c, prepared.0, "");
      CallsEnd(c, stopped.0, 1);
      assert stopped.1 && c.staticFrontend ==> (Calls(c, stopped.0, 1).1 <==> Out(c, stopped.0.next).Done?);
    }
  }

  // ---- the starts ----

  predicate Fresh(procs: Table, n: string, workspace: string) {
    n in procs ==> procs[n] == Proc(workspace, true, 0)
  }

  lemma {:induction false} UnstartEnd(c: Config, h: State, names: seq<string>, k: nat)
    requires k <= |names| && DistinctNames(names) && forall i :: 0 <= i < k ==> names[i] in h.procs
    ensures var after := Unstart(c, h, names, k);
      after.next == h.next + k && Count(after.procs, names, k) == Idle(c, h.next, k)
    decreases k
  {
    if k > 0 {
      var h' := DeleteOne(c, h, names[k - 1]).0;
      UnstartEnd(c, h', names, k - 1);
      assert names[k - 1] !in names[..k - 1];
      UnstartAt(c, h', names, k - 1, names[k - 1]);
    }
  }

  predicate DistinctNames(names: seq<string>) {
    forall i, j :: 0 <= i < j < |names| ==> names[i] != names[j]
  }

  lemma {:induction false} StartEnd(c: Config, h: State, names: seq<string>, workspace: string, k: nat)
    requires k <= |names| && DistinctNames(names)
    requires forall i :: 0 <= i < k ==> names[i] in h.procs
    requires forall i :: k <= i < |names| ==> names[i] !in h.procs
    ensures var r, left := StartFrom(c, h, names, workspace, k), |names| - k;
      && (r.1 <==> AllDone(c, h.next, left))
      && r.0.next == EndOf(c, h.next, k, left) && Count(r.0.procs, names, |names|) == LeftBy(c, h.next, k, left)
    decreases |names| - k
  {
    if k == |names| {
      CountFull(h.procs, names, k);
    } else if At(c, h, 0).Done? {
      StartEnd(c, StartOne(c, h, names[k], workspace), names, workspace, k + 1);
    } else {
      StartBreaks(c, h, names, workspace, k);
    }
  }

  lemma StartBreaks(c: Config, h: State, names: seq<string>, workspace: string, k: nat)
    requires k < |names| && DistinctNames(names) && !At(c, h, 0).Done?
    requires forall i :: 0 <= i < k ==> names[i] in h.procs
    requires forall i :: k <= i < |names| ==> names[i] !in h.procs
    ensures var after := StartFrom(c, h, names, workspace, k).0;
      && after.next == h.next + 1 + k
      && Count(after.procs, names, |names|) == Idle(c, h.next + 1, k) + (if Took(Out(c, h.next)) then 1 else 0)
  {
    var h' := StartOne(c, h, names[k], workspace);
    var after := Unstart(c, h', names, k);
    UnstartEnd(c, h', names, k);
    forall i | k <= i < |names| ensures names[i] in after.procs <==> names[i] in h'.procs {
      assert names[i] !in names[..k];
      UnstartAt(c, h', names, k, names[i]);
    }
    CountTail(after.procs, names, k + 1, |names|);
  }

  lemma {:induction false} StartFresh(c: Config, h: State, names: seq<string>, workspace: string, k: nat, n: string)
    requires k <= |names| && Fresh(h.procs, n, workspace)
    ensures Fresh(StartFrom(c, h, names, workspace, k).0.procs, n, workspace)
    decreases |names| - k
  {
    if k < |names| {
      var h' := StartOne(c, h, names[k], workspace);
      if At(c, h, 0).Done? {
        StartFresh(c, h', names, workspace, k + 1, n);
      } else {
        UnstartAt(c, h', names, k, n);
      }
    }
  }

  lemma DefinitionsDistinct(c: Config)
    ensures DistinctNames(Definitions(c)) && DistinctNames(MANAGED)
    ensures c.staticFrontend ==> MANAGED[1] !in Definitions(c)
  {
    ManagedDistinct();
  }

  /** Where only definitions can be, the managed processes are the definitions that are there. */
  lemma ManagedCount(c: Config, procs: Table)
    requires c.staticFrontend ==> MANAGED[1] !in procs
    ensures Managed(procs) == Count(procs, Definitions(c), |Definitions(c)|)
  {
    var names := Definitions(c);
    if c.staticFrontend {
      assert Count(procs, names, 2) == Count(procs, names, 1) + (if names[1] in procs then 1 else 0);
      assert Count(procs, names, 1) == Count(procs, names, 0) + (if names[0] in procs then 1 else 0);
      assert Count(procs, MANAGED, 3) == Count(procs, MANAGED, 2) + (if MANAGED[2] in procs then 1 else 0);
      assert Count(procs, MANAGED, 2) == Count(procs, MANAGED, 1);
      assert Count(procs, MANAGED, 1) == Count(procs, MANAGED, 0) + (if MANAGED[0] in procs then 1 else 0);
    }
  }

  lemma RunningCounts(c: Config, h: State, workspace: string)
    requires Running(c, h, workspace)
    ensures Managed(h.procs) == |Definitions(c)|
  {
    var names := Definitions(c);
    DefinitionsDistinct(c);
    if c.staticFrontend {
      assert ExactlyAt(h.procs, names, workspace, MANAGED[1]);
    }
    ManagedCount(c, h.procs);
    CountFull(h.procs, names, |names|);
  }

  lemma StartsTable(c: Config, h: State, workspace: string)
    requires NoneManaged(h.procs)
    ensures var r := StartFrom(c, h, Definitions(c), workspace, 0);
      && r.0.polls == h.polls && SameElse(r.0, h)
      && (forall n :: n in MANAGED ==> Fresh(r.0.procs, n, workspace))
      && (forall n :: n in MANAGED && n !in Definitions(c) ==> n !in r.0.procs)
  {
    var names := Definitions(c);
    var r := StartFrom(c, h, names, workspace, 0);
    StartAt(c, h, names, workspace, 0, "");
    forall n | n in MANAGED
      ensures Fresh(r.0.procs, n, workspace)
      ensures n !in names ==> n !in r.0.procs
    {
      var i :| 0 <= i < |MANAGED| && MANAGED[i] == n;
      StartFresh(c, h, names, workspace, 0, n);
      StartAt(c, h, names, workspace, 0, n);
    }
  }

  lemma DefinitionsAbsent(c: Config, procs: Table)
    requires NoneManaged(procs)
    ensures forall i :: 0 <= i < |Definitions(c)| ==> Definitions(c)[i] !in procs
  {
    forall n | n in MANAGED ensures n !in procs {
      var k :| 0 <= k < |MANAGED| && MANAGED[k] == n;
    }
    assert forall i :: 0 <= i < |Definitions(c)| ==> Definitions(c)[i] in Definitions(c);
  }

  lemma StartsCount(c: Config, h: State, workspace: string)
    requires NoneManaged(h.procs)
    ensures var r, names := StartFrom(c, h, Definitions(c), workspace, 0), Definitions(c);
      && (r.1 <==> AllDone(c, h.next, |names|))
      && r.0.next == StartsEnd(c, h.next) && Count(r.0.procs, names, |names|) == StartsLeave(c, h.next)
  {
    DefinitionsDistinct(c);
    DefinitionsAbsent(c, h.procs);
    StartEnd(c, h, Definitions(c), workspace, 0);
  }

  /** Everything a series of starts does to a table without managed processes. */
  lemma StartsUp(c: Config, h: State, workspace: string)
    requires NoneManaged(h.procs)
    ensures var r := StartFrom(c, h, Definitions(c), workspace, 0);
      && (r.1 <==> AllDone(c, h.next, |Definitions(c)|))
      && r.0.next == StartsEnd(c, h.next) && r.0.polls == h.polls && SameElse(r.0, h)
      && Managed(r.0.procs) == StartsLeave(c, h.next)
      && (forall n :: n in MANAGED ==> Fresh(r.0.procs, n, workspace))
      && (forall n :: n in MANAGED && n !in Definitions(c) ==> n !in r.0.procs)
      && (Running(c, r.0, workspace) <==> StartsLeave(c, h.next) == |Definitions(c)|)
  {
    var r := StartFrom(c, h, Definitions(c), workspace, 0);
    StartsTable(c, h, workspace);
    StartsCount(c, h, workspace);
    DefinitionsDistinct(c);
    assert c.staticFrontend ==> MANAGED[1] in MANAGED && MANAGED[1] !in r.0.procs;
    ManagedCount(c, r.0.procs);
    FreshRunning(c, r.0, workspace);
  }

  lemma FreshRunning(c: Config, h: State, workspace: string)
    requires forall n :: n in MANAGED ==> Fresh(h.procs, n, workspace)
    requires forall n :: n in MANAGED && n !in Definitions(c) ==> n !in h.procs
    ensures Running(c, h, workspace) <==> Count(h.procs, Definitions(c), |Definitions(c)|) == |Definitions(c)|
  {
    var names := Definitions(c);
    CountFull(h.procs, names, |names|);
    if forall i :: 0 <= i < |names| ==> names[i] in h.procs {
      forall i | 0 <= i < |MANAGED| ensures ExactlyAt(h.procs, names, workspace, MANAGED[i]) {
        assert Fresh(h.procs, MANAGED[i], workspace);
      }
      forall i | 0 <= i < |names| ensures names[i] in h.procs && h.procs[names[i]].online && h.procs[names[i]].restarts == 0 {
        assert names[i] in names && names[i] in MANAGED;
        assert Fresh(h.procs, names[i], workspace);
      }
    }
  }

  // ---- waiting ----

  predicate Polled(procs: Table, polls: seq<Poll>, names: seq<string>, j: nat)
    requires j <= |polls|
  {
    forall i :: 0 <= i < |names| ==>
      names[i] in procs && Status(procs[names[i]].online, procs[names[i]].restarts) == StatusAfter(polls, j, names[i])
  }

  lemma PolledReady(procs: Table, polls: seq<Poll>, names: seq<string>, j: nat)
    requires j <= |polls| && Polled(procs, polls, names, j)
    ensures Ready(procs, names) <==> Up(polls, names, j)
  {
    forall i | 0 <= i < |names|
      ensures StatusAfter(polls, j, names[i]) == Status(true, 0)
        <==> names[i] in procs && procs[names[i]].online && procs[names[i]].restarts == 0
    {
      assert Status(procs[names[i]].online, procs[names[i]].restarts) == StatusAfter(polls, j, names[i]);
    }
  }

  lemma PollNext(procs: Table, polls: seq<Poll>, names: seq<string>, j: nat)
    requires j < |polls| && Polled(procs, polls, names, j)
    ensures Polled(Refresh(procs, polls[j].statuses), polls, names, j + 1)
  {
    var after := Refresh(procs, polls[j].statuses);
    forall i | 0 <= i < |names|
      ensures names[i] in after
      ensures Status(after[names[i]].online, after[names[i]].restarts) == StatusAfter(polls, j + 1, names[i])
    {
      assert names[i] in procs;
    }
  }

  lemma {:induction false} AwaitEnd(c: Config, h: State, polls: seq<Poll>, j: nat, limit: nat)
    requires j <= |polls| && h.polls == polls[j..] && Polled(h.procs, polls, Definitions(c), j)
    ensures var r, used := Await(c, h, limit), PollsUsed(polls, Definitions(c), j, limit);
      && (r.1 <==> BecomesReady(polls, Definitions(c), j, limit))
      && r.0.polls == polls[used..] && r.0.next == h.next && Polled(r.0.procs, polls, Definitions(c), used)
    decreases limit
  {
    if limit > 0 && j < |polls| {
      var h' := h.(polls := h.polls[1..], procs := Refresh(h.procs, h.polls[0].statuses));
      PollNext(h.procs, polls, Definitions(c), j);
      PolledReady(h'.procs, polls, Definitions(c), j + 1);
      assert h'.polls == polls[j + 1..];
      if !Good(polls, Definitions(c), j + 1) {
        AwaitEnd(c, h', polls, j + 1, limit - 1);
      }
    }
  }

  // ---- the switch ----

  /** What a failed switch leaves: the next call, how many managed processes, how many polls were
      used, whether all definitions are there and up, and whether the artifact was activated. */
  datatype Failure = Failure(next: nat, left: nat, used: nat, up: bool, served: bool)

  function FailedSwitch(c: Config, q: nat, polls: seq<Poll>): (f: Failure)
    ensures f.used <= |polls|
  {
    var names := Definitions(c);
    if !AllDone(c, q, |names|) then Failure(StartsEnd(c, q), StartsLeave(c, q), 0, StartsLeave(c, q) == |names|, false)
    else if c.staticFrontend && !Out(c, q + |names|).Done? then
      Failure(q + |names| + 1, |names|, 0, true, Took(Out(c, q + |names|)))
    else
      var used := PollsUsed(polls, names, 0, c.pollLimit);
      Failure(q + |names| + StaticCall(c), |names|, used, Up(polls, names, used), c.staticFrontend)
  }

  lemma {:induction false} AllDoneOneMore(c: Config, n: nat, k: nat)
    ensures AllDone(c, n, k + 1) <==> AllDone(c, n, k) && Out(c, n + k).Done?
    decreases k
  {
    if k > 0 {
      AllDoneOneMore(c, n + 1, k - 1);
    }
  }

  lemma WaitEnd(c: Config, h: State, workspace: string)
    requires Running(c, h, workspace) && forall n :: n in MANAGED ==> Fresh(h.procs, n, workspace)
    requires forall n :: n in MANAGED && n !in Definitions(c) ==> n !in h.procs
    ensures var r, used := Await(c, h, c.pollLimit), PollsUsed(h.polls, Definitions(c), 0, c.pollLimit);
      && (r.1 <==> BecomesReady(h.polls, Definitions(c), 0, c.pollLimit))
      && r.0.polls == h.polls[used..] && r.0.next == h.next && SameElse(r.0, h)
      && Managed(r.0.procs) == |Definitions(c)|
      && (forall n :: n in MANAGED && n in r.0.procs ==> r.0.procs[n].workspace == workspace)
      && (Running(c, r.0, workspace) <==> Up(h.polls, Definitions(c), used))
  {
    var names := Definitions(c);
    var r, used := Await(c, h, c.pollLimit), PollsUsed(h.polls, names, 0, c.pollLimit);
    assert h.polls == h.polls[0..];
    assert Polled(h.procs, h.polls, names, 0) by {
      forall i | 0 <= i < |names| ensures names[i] in h.procs && h.procs[names[i]] == Proc(workspace, true, 0) {
        assert names[i] in names && names[i] in MANAGED;
        assert Fresh(h.procs, names[i], workspace);
      }
    }
    AwaitEnd(c, h, h.polls, 0, c.pollLimit);
    AwaitAt(c, h, c.pollLimit, "");
    RunningCounts(c, h, workspace);
    forall n | n in MANAGED ensures SameAt(r.0.procs, h.procs, n) && (n in h.procs ==> h.procs[n].workspace == workspace) {
      AwaitAt(c, h, c.pollLimit, n);
      assert Fresh(h.procs, n, workspace);
    }
    forall i | 0 <= i < |MANAGED|
      ensures MANAGED[i] in r.0.procs <==> MANAGED[i] in h.procs
      ensures ExactlyAt(r.0.procs, names, workspace, MANAGED[i])
    {
      assert SameAt(r.0.procs, h.procs, MANAGED[i]);
      assert ExactlyAt(h.procs, names, workspace, MANAGED[i]);
    }
    CountSame(h.procs, r.0.procs, MANAGED, |MANAGED|);
    PolledReady(r.0.procs, h.polls, names, used);
  }

  function Served(c: Config, h: State, artifactId: string): (State, bool) {
    if c.staticFrontend then SetArtifact(c, h, Some(artifactId)) else (h, true)
  }

  /** The activation that follows the starts, where the frontend is static. */
  lemma ServeEnd(c: Config, h: State, artifactId: string)
    ensures var r := Served(c, h, artifactId);
      && r.0.procs == h.procs && r.0.polls == h.polls && r.0.next == h.next + StaticCall(c)
      && (r.1 <==> (c.staticFrontend ==> Out(c, h.next).Done?))
      && r.0.artifact == (if c.staticFrontend && Took(Out(c, h.next)) then Some(artifactId) else h.artifact)
  {
  }

  lemma SwitchUnfolds(c: Config, h: State, workspace: string, artifactId: string)
    ensures var started := StartFrom(c, h, Definitions(c), workspace, 0);
      var served := Served(c, started.0, artifactId);
      Switch(c, h, workspace, artifactId)
      == if !started.1 then started else if !served.1 then served else Await(c, served.0, c.pollLimit)
  {
  }

  /** How a switch from a table without managed processes ends. */
  lemma SwitchEnd(c: Config, h: State, workspace: string, artifactId: string)
    requires NoneManaged(h.procs)
    ensures var r, f := Switch(c, h, workspace, artifactId), FailedSwitch(c, h.next, h.polls);
      && (r.1 <==> Switches(c, h.next, h.polls))
      && (r.1 ==> r.0.next == h.next + |Definitions(c)| + StaticCall(c))
      && (!r.1 ==>
            && r.0.next == f.next && Managed(r.0.procs) == f.left && r.0.polls == h.polls[f.used..]
            && (Running(c, r.0, workspace) <==> f.up)
            && r.0.artifact == (if f.served then Some(artifactId) else h.artifact))
  {
    var names := Definitions(c);
    StartsUp(c, h, workspace);
    SwitchUnfolds(c, h, workspace, artifactId);
    AllDoneOneMore(c, h.next, |names|);
    if AllDone(c, h.next, |names|) {
      SwitchServes(c, h, workspace, artifactId);
    }
  }

  lemma SwitchServes(c: Config, h: State, workspace: string, artifactId: string)
    requires NoneManaged(h.procs) && AllDone(c, h.next, |Definitions(c)|)
    ensures var r, p := Switch(c, h, workspace, artifactId), h.next + |Definitions(c)|;
      && r.0.next == p + StaticCall(c) && Managed(r.0.procs) == |Definitions(c)|
      && r.0.artifact == (if c.staticFrontend && Took(Out(c, p)) then Some(artifactId) else h.artifact)
    ensures var r, p := Switch(c, h, workspace, artifactId), h.next + |Definitions(c)|;
      var used := PollsUsed(h.polls, Definitions(c), 0, c.pollLimit);
      if c.staticFrontend && !Out(c, p).Done? then !r.1 && r.0.polls == h.polls[0..] && Running(c, r.0, workspace)
      else
        && (r.1 <==> BecomesReady(h.polls, Definitions(c), 0, c.pollLimit))
        && r.0.polls == h.polls[used..] && (Running(c, r.0, workspace) <==> Up(h.polls, Definitions(c), used))
  {
    var started := StartFrom(c, h, Definitions(c), workspace, 0).0;
    StartsUp(c, h, workspace);
    SwitchUnfolds(c, h, workspace, artifactId);
    ServeEnd(c, started, artifactId);
    ServedEnd(c, Served(c, started, artifactId).0, started, workspace);
  }

  /** Serving the artifact changes no process; waiting then depends on the polls alone. */
  lemma ServedEnd(c: Config, h: State, started: State, workspace: string)
    requires h.procs == started.procs && Running(c, started, workspace)
    requires forall n :: n in MANAGED ==> Fresh(h.procs, n, workspace)
    requires forall n :: n in MANAGED && n !in Definitions(c) ==> n !in h.procs
    ensures Running(c, h, workspace) && Managed(h.procs) == |Definitions(c)|
    ensures var r, used := Await(c, h, c.pollLimit), PollsUsed(h.polls, Definitions(c), 0, c.pollLimit);
      && (r.1 <==> BecomesReady(h.polls, Definitions(c), 0, c.pollLimit))
      && r.0.polls == h.polls[used..] && r.0.next == h.next && r.0.artifact == h.artifact
      && Managed(r.0.procs) == |Definitions(c)|
      && (Running(c, r.0, workspace) <==> Up(h.polls, Definitions(c), used))
  {
    RunningCounts(c, h, workspace);
    WaitEnd(c, h, workspace);
  }

  // ---- the whole deployment ----

  /** What an operation that came to a publication at call `p`, or to none, did to ref and active
      release. */
  predicate Published(c: Config, h: State, release: Release, p: Option<nat>, after: State, stage: Stage) {
    match p
    case None => after.gitRef == h.gitRef && after.active == h.active && stage != Finished
    case Some(p) =>
      && after.gitRef == (if RefMoved(c, p) then Some(release.commit) else h.gitRef)
      && after.active == (if ActiveMoved(c, p) then release else h.active)
      && (stage == Finished <==> Completes(c, p))
  }

  /** A deployment either comes to its publication or leaves ref and active release alone. */
  lemma DeployReaches(c: Config, h: State, release: Release, artifactId: string, previous: Option<string>)
    ensures var r := Deploy(c, h, release, artifactId, previous);
      Published(c, h, release, PublishAt(c, h.next, Managed(h.procs), h.polls), r.0, r.1.stage)
  {
    PublishAtIs(c, h);
    if Cleared(c, h).None? {
      EarlyReaches(c, h, release, artifactId, previous);
    } else {
      LateReaches(c, h, Cleared(c, h).value, release, artifactId, previous);
    }
  }

  lemma PublishAtIs(c: Config, h: State)
    ensures PublishAt(c, h.next, Managed(h.procs), h.polls)
      == match Cleared(c, h)
         case None => None
         case Some(t) => if Switches(c, t.next, t.polls) then Some(t.next + |Definitions(c)| + StaticCall(c)) else None
  {
    ClearedIff(c, h);
  }

  lemma EarlyReaches(c: Config, h: State, release: Release, artifactId: string, previous: Option<string>)
    requires Cleared(c, h).None?
    ensures var r := Deploy(c, h, release, artifactId, previous); Published(c, h, release, None, r.0, r.1.stage)
  {
    ClearedSound(c, h);
    CallsFrame(c, h, Preparation(c));
    EarlyStages(c, h, release, artifactId, previous);
  }

  lemma LateReaches(c: Config, h: State, t: State, release: Release, artifactId: string, previous: Option<string>)
    requires Cleared(c, h) == Some(t)
    ensures var r := Deploy(c, h, release, artifactId, previous);
      Published(c, h, release,
                if Switches(c, t.next, t.polls) then Some(t.next + |Definitions(c)| + StaticCall(c)) else None, r.0, r.1.stage)
  {
    ClearedSound(c, h);
    SwitchKeepsRelease(c, t, release.workspace, artifactId);
    var switched := Switch(c, t, release.workspace, artifactId);
    LateStages(c, h, t, release, artifactId, previous);
    if switched.1 {
      PublishEffect(c, switched.0, release);
    } else {
      CompensateSound(c, switched.0, previous, t.artifact);
    }
  }

  lemma SwitchKeepsRelease(c: Config, t: State, workspace: string, artifactId: string)
    requires NoneManaged(t.procs)
    ensures var r := Switch(c, t, workspace, artifactId);
      && (r.1 <==> Switches(c, t.next, t.polls)) && r.0.gitRef == t.gitRef && r.0.active == t.active
      && (r.1 ==> r.0.next == t.next + |Definitions(c)| + StaticCall(c))
  {
    SwitchEnd(c, t, workspace, artifactId);
    SwitchSound(c, t, workspace, artifactId);
  }

  /** Exactly when a deployment leaves ref and active release at one commit, from any host. */
  lemma DeployRefAgreesIff(c: Config, h: State, release: Release, artifactId: string, previous: Option<string>)
    ensures var after := Deploy(c, h, release, artifactId, previous).0;
      after.gitRef == Some(after.active.commit)
      <==> match PublishAt(c, h.next, Managed(h.procs), h.polls)
           case None => h.gitRef == Some(h.active.commit)
           case Some(p) => Agree(c, p, h.gitRef, h.active.commit, release.commit)
  {
    DeployReaches(c, h, release, artifactId, previous);
  }

  /** Exactly when a deployment finishes, from any host. */
  lemma DeployFinishesIff(c: Config, h: State, release: Release, artifactId: string, previous: Option<string>)
    ensures Deploy(c, h, release, artifactId, previous).1.stage == Finished
      <==> var p := PublishAt(c, h.next, Managed(h.procs), h.polls); p.Some? && Completes(c, p.value)
  {
    DeployReaches(c, h, release, artifactId, previous);
  }

  lemma {:induction false} QuietDone(c: Config, n: nat, k: nat)
    requires |c.script| <= n
    ensures AllDone(c, n, k) && DeletesDone(c, n, k)
    decreases k
  {
    if k > 0 {
      QuietDone(c, n + 1, k - 1);
      QuietDone(c, n + 2, k - 1);
    }
  }

  /** If no call fails, a deployment finishes exactly if the new processes show ready in time. */
  lemma QuietDeployFinishesIff(c: Config, h: State, release: Release, artifactId: string, previous: Option<string>)
    requires |c.script| <= h.next
    ensures Deploy(c, h, release, artifactId, previous).1.stage == Finished
      <==> BecomesReady(h.polls, Definitions(c), 0, c.pollLimit)
  {
    var m := Managed(h.procs);
    QuietReaches(c, h.next, m, h.polls);
    DeployFinishesIff(c, h, release, artifactId, previous);
  }

  lemma QuietReaches(c: Config, n: nat, m: nat, polls: seq<Poll>)
    requires |c.script| <= n
    ensures var p := PublishAt(c, n, m, polls);
      && (p.Some? <==> BecomesReady(polls, Definitions(c), 0, c.pollLimit))
      && (p.Some? ==> Completes(c, p.value))
  {
    var q, d := SwitchAt(c, n, m), |Definitions(c)| + StaticCall(c);
    QuietDone(c, n, Preparation(c));
    QuietDone(c, n + Preparation(c) + 1, m);
    QuietDone(c, q, d);
    QuietDone(c, q + d, 3);
  }
}
