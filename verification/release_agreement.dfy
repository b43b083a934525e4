/** Exactly when a deployment, or a series of operations, leaves the host in agreement with itself. */
module ReleaseAgreement {
  import opened Common
  import opened ReleaseController
  import opened ReleaseTheorems
  import opened ReleaseOutcomes

  /** The active release is what runs and is up, what is served and what the ref names. */
  predicate Consistent(c: Config, h: State, artifactOf: string -> string) {
    && Running(c, h, h.active.workspace)
    && (c.staticFrontend ==> h.artifact == Some(artifactOf(h.active.commit)))
    && (c.refConfigured ==> h.gitRef == Some(h.active.commit))
  }

  // ---- an interrupted stop ----

  predicate IsUp(procs: Table, n: string) {
    n in procs && procs[n].online && procs[n].restarts == 0
  }

  /** The first `i` managed processes that were there are still there and up. */
  predicate Held(before: Table, after: Table, i: nat)
    requires i <= |MANAGED|
  {
    i == 0 || (Held(before, after, i - 1) && (MANAGED[i - 1] in before ==> IsUp(after, MANAGED[i - 1])))
  }

  lemma {:induction false} HeldSame(a: Table, b: Table, after: Table, i: nat)
    requires i <= |MANAGED| && forall k :: 0 <= k < i ==> (MANAGED[k] in a <==> MANAGED[k] in b)
    ensures Held(a, after, i) <==> Held(b, after, i)
  {
    if i > 0 {
      HeldSame(a, b, after, i - 1);
    }
  }

  /** What was up stays up exactly if no stop and no delete takes effect. */
  lemma {:induction false} StopHolds(c: Config, h: State, i: nat)
    requires i <= |MANAGED| && forall k :: 0 <= k < i && MANAGED[k] in h.procs ==> IsUp(h.procs, MANAGED[k])
    ensures Held(h.procs, StopFirst(c, h, i).0.procs, i) <==> NothingTouched(c, h.next, 2 * Count(h.procs, MANAGED, i))
    decreases i
  {
    if i > 0 {
      var name := MANAGED[i - 1];
      if name !in h.procs {
        StopHolds(c, h, i - 1);
      } else {
        var pair := StopPair(c, h, name);
        StopPairAt(c, h, i);
        StopHolds(c, pair, i - 1);
        HeldSame(h.procs, pair.procs, StopFirst(c, h, i).0.procs, i - 1);
        TouchOne(c, h, i);
        TouchTwo(c, h.next, Count(h.procs, MANAGED, i - 1));
      }
    }
  }

  lemma TouchTwo(c: Config, n: nat, k: nat)
    ensures NothingTouched(c, n, 2 * (k + 1)) <==> !Took(Out(c, n)) && !Took(Out(c, n + 1)) && NothingTouched(c, n + 2, 2 * k)
  {
    assert NothingTouched(c, n + 1, 2 * k + 1) <==> !Took(Out(c, n + 1)) && NothingTouched(c, n + 2, 2 * k);
  }

  lemma TouchOne(c: Config, h: State, i: nat)
    requires 0 < i <= |MANAGED| && IsUp(h.procs, MANAGED[i - 1])
    ensures IsUp(StopFirst(c, h, i).0.procs, MANAGED[i - 1]) <==> !Took(Out(c, h.next)) && !Took(Out(c, h.next + 1))
  {
    var name := MANAGED[i - 1];
    assert At(c, StopOne(c, h, name), 0) == Out(c, h.next + 1);
    StopPairAt(c, h, i);
    assert name !in MANAGED[..i - 1];
    StopAt(c, StopPair(c, h, name), i - 1, name);
  }

  /** Of a running host, a stop that fails at the listing or touches nothing leaves all up. */
  predicate StopSpares(c: Config, n: nat) {
    !Out(c, n).Done? || NothingTouched(c, n + 1, 2 * |Definitions(c)|)
  }

  /** One managed name as a running host has it. */
  predicate UpAt(c: Config, procs: Table, workspace: string, n: string) {
    && (n in procs <==> n in Definitions(c))
    && (n in procs ==> IsUp(procs, n) && procs[n].workspace == workspace)
  }

  predicate AllUp(c: Config, procs: Table, workspace: string) {
    forall n :: n in MANAGED ==> UpAt(c, procs, workspace, n)
  }

  lemma RunningIff(c: Config, h: State, workspace: string)
    ensures Running(c, h, workspace) <==> AllUp(c, h.procs, workspace)
  {
    var names := Definitions(c);
    if Running(c, h, workspace) {
      forall n | n in MANAGED ensures UpAt(c, h.procs, workspace, n) {
        var k :| 0 <= k < |MANAGED| && MANAGED[k] == n;
        assert ExactlyAt(h.procs, names, workspace, MANAGED[k]);
        if n in names {
          var j :| 0 <= j < |names| && names[j] == n;
        }
      }
    }
    if AllUp(c, h.procs, workspace) {
      forall k | 0 <= k < |MANAGED| ensures ExactlyAt(h.procs, names, workspace, MANAGED[k]) {
        assert UpAt(c, h.procs, workspace, MANAGED[k]);
      }
      forall j | 0 <= j < |names| ensures IsUp(h.procs, names[j]) {
        assert names[j] in names && names[j] in MANAGED;
        assert UpAt(c, h.procs, workspace, names[j]);
      }
    }
  }

  lemma HeldAt(before: Table, after: Table, i: nat, n: string)
    requires i <= |MANAGED| && Held(before, after, i) && n in MANAGED[..i] && n in before
    ensures IsUp(after, n)
  {
    if n != MANAGED[i - 1] {
      assert MANAGED[..i] == MANAGED[..i - 1] + [MANAGED[i - 1]];
      HeldAt(before, after, i - 1, n);
    }
  }

  lemma {:induction false} HeldFrom(before: Table, after: Table, i: nat)
    requires i <= |MANAGED| && forall n :: n in MANAGED && n in before ==> IsUp(after, n)
    ensures Held(before, after, i)
  {
    if i > 0 {
      assert MANAGED[i - 1] in MANAGED;
      HeldFrom(before, after, i - 1);
    }
  }

  lemma StopSparesUp(c: Config, h: State, workspace: string)
    requires AllUp(c, h.procs, workspace) && Out(c, h.next).Done?
    ensures AllUp(c, StopManaged(c, h).0.procs, workspace) <==> NothingTouched(c, h.next + 1, 2 * Managed(h.procs))
  {
    var after := StopManaged(c, h).0.procs;
    forall n | n in MANAGED && n in after ensures n in h.procs && after[n].workspace == workspace {
      assert UpAt(c, h.procs, workspace, n);
      StopManagedAt(c, h, n);
    }
    HeldUp(c, h, after, workspace);
    forall k | 0 <= k < |MANAGED| && MANAGED[k] in h.procs ensures IsUp(h.procs, MANAGED[k]) {
      assert UpAt(c, h.procs, workspace, MANAGED[k]);
    }
    StopHolds(c, Skip(h, 1), |MANAGED|);
  }

  lemma StopSparesIff(c: Config, h: State, workspace: string)
    requires Running(c, h, workspace)
    ensures Running(c, StopManaged(c, h).0, workspace) <==> StopSpares(c, h.next)
  {
    RunningIff(c, h, workspace);
    RunningIff(c, StopManaged(c, h).0, workspace);
    RunningCounts(c, h, workspace);
    if Out(c, h.next).Done? { StopSparesUp(c, h, workspace); }
  }

  lemma HeldUp(c: Config, h: State, after: Table, workspace: string)
    requires AllUp(c, h.procs, workspace)
    requires forall n :: n in MANAGED && n in after ==> n in h.procs && after[n].workspace == workspace
    ensures Held(h.procs, after, |MANAGED|) <==> AllUp(c, after, workspace)
  {
    assert MANAGED[..|MANAGED|] == MANAGED;
    if Held(h.procs, after, |MANAGED|) {
      forall n | n in MANAGED ensures UpAt(c, after, workspace, n) {
        assert UpAt(c, h.procs, workspace, n);
        if n in h.procs { HeldAt(h.procs, after, |MANAGED|, n); }
      }
    }
    if AllUp(c, after, workspace) {
      forall n | n in MANAGED && n in h.procs ensures IsUp(after, n) {
        assert UpAt(c, h.procs, workspace, n) && UpAt(c, after, workspace, n);
      }
      HeldFrom(h.procs, after, |MANAGED|);
    }
  }

  /** Stopping never brings a process up or back. */
  lemma {:induction false} StopMendsNothing(c: Config, h: State, i: nat, n: string)
    requires i <= |MANAGED|
    ensures IsUp(StopFirst(c, h, i).0.procs, n) ==> IsUp(h.procs, n)
    decreases i
  {
    if i > 0 {
      if MANAGED[i - 1] !in h.procs {
        StopMendsNothing(c, h, i - 1, n);
      } else {
        StopMendsNothing(c, DeleteOne(c, StopOne(c, h, MANAGED[i - 1]), MANAGED[i - 1]).0, i - 1, n);
      }
    }
  }

  // ---- a compensated switch ----

  /** The compensation that finds `m` processes clears them and brings the previous ones up. */
  predicate BringsBack(c: Config, n: nat, m: nat, polls: seq<Poll>) {
    var q := n + 1 + 2 * m + StaticCall(c);
    && StopClears(c, n, m) && (c.staticFrontend ==> Out(c, q - 1).Done?)
    && (if AllDone(c, q, |Definitions(c)|) then Up(polls, Definitions(c), PollsUsed(polls, Definitions(c), 0, c.pollLimit))
        else StartsLeave(c, q) == |Definitions(c)|)
  }

  lemma NotRunning(c: Config, h: State, workspace: string)
    requires forall n :: n in MANAGED && n in h.procs ==> h.procs[n].workspace != workspace
    ensures !Running(c, h, workspace)
  {
    var n := Definitions(c)[0];
    assert n in Definitions(c) && n in MANAGED;
    var i :| 0 <= i < |MANAGED| && MANAGED[i] == n;
    assert !ExactlyAt(h.procs, Definitions(c), workspace, MANAGED[i]);
  }

  lemma StartedBack(c: Config, h: State, workspace: string)
    requires NoneManaged(h.procs)
    ensures var started := StartFrom(c, h, Definitions(c), workspace, 0);
      var end := if started.1 then Await(c, started.0, c.pollLimit).0 else started.0;
      && end.artifact == h.artifact
      && (Running(c, end, workspace)
          <==> if AllDone(c, h.next, |Definitions(c)|)
               then Up(h.polls, Definitions(c), PollsUsed(h.polls, Definitions(c), 0, c.pollLimit))
               else StartsLeave(c, h.next) == |Definitions(c)|)
  {
    StartsUp(c, h, workspace);
    var started := StartFrom(c, h, Definitions(c), workspace, 0);
    if started.1 {
      WaitEnd(c, started.0, workspace);
    }
  }

  lemma StopEmpties(c: Config, h: State)
    requires StopManaged(c, h).1
    ensures NoneManaged(StopManaged(c, h).0.procs) && SameElse(StopManaged(c, h).0, h)
    ensures StopManaged(c, h).0.polls == h.polls
  {
    StopManagedAt(c, h, "");
    forall i | 0 <= i < |MANAGED| ensures MANAGED[i] !in StopManaged(c, h).0.procs {
      assert MANAGED[i] in MANAGED;
      StopManagedAt(c, h, MANAGED[i]);
    }
  }

  lemma NoneRunning(c: Config, h: State, workspace: string)
    requires NoneManaged(h.procs)
    ensures !Running(c, h, workspace)
  {
    forall n | n in MANAGED ensures n !in h.procs {
      var i :| 0 <= i < |MANAGED| && MANAGED[i] == n;
    }
    NotRunning(c, h, workspace);
  }

  lemma ClearedBack(c: Config, h: State, previous: string, previousArtifact: Option<string>)
    requires StopManaged(c, h).1
    ensures var after := Compensate(c, h, Some(previous), previousArtifact).0;
      Running(c, after, previous) && (c.staticFrontend ==> after.artifact == previousArtifact)
      <==> BringsBack(c, h.next, Managed(h.procs), h.polls)
  {
    var stopped := StopManaged(c, h).0;
    StopEmpties(c, h);
    StopManagedEnd(c, h);
    RestartIff(c, stopped, previous, previousArtifact);
  }

  function Restart(c: Config, h: State, previous: string, previousArtifact: Option<string>): State {
    var served := if c.staticFrontend then SetArtifact(c, h, previousArtifact) else (h, true);
    if !served.1 then served.0
    else
      var started := StartFrom(c, served.0, Definitions(c), previous, 0);
      if started.1 then Await(c, started.0, c.pollLimit).0 else started.0
  }

  /** The part of a compensation behind its stop. */
  lemma RestartIff(c: Config, h: State, previous: string, previousArtifact: Option<string>)
    requires NoneManaged(h.procs)
    ensures var after, q := Restart(c, h, previous, previousArtifact), h.next + StaticCall(c);
      Running(c, after, previous) && (c.staticFrontend ==> after.artifact == previousArtifact)
      <==> (c.staticFrontend ==> Out(c, h.next).Done?)
           && (if AllDone(c, q, |Definitions(c)|) then Up(h.polls, Definitions(c), PollsUsed(h.polls, Definitions(c), 0, c.pollLimit))
               else StartsLeave(c, q) == |Definitions(c)|)
  {
    var served := if c.staticFrontend then SetArtifact(c, h, previousArtifact) else (h, true);
    if served.1 {
      StartedBack(c, served.0, previous);
    } else {
      NoneRunning(c, served.0, previous);
    }
  }

  lemma ClearingStops(c: Config, h: State, workspace: string)
    requires Running(c, h, workspace) && StopManaged(c, h).1
    ensures !StopSpares(c, h.next)
  {
    StopManagedEnd(c, h);
    RunningCounts(c, h, workspace);
    ClearsOnlyTouching(c, h.next + 1, Managed(h.procs));
  }

  /** What a compensation leaves, for a host whose managed processes all run from one workspace. */
  lemma CompensateIff(c: Config, h: State, from: string, previous: string, previousArtifact: Option<string>)
    requires forall n :: n in MANAGED && n in h.procs ==> h.procs[n].workspace == from && n in Definitions(c)
    ensures var after := Compensate(c, h, Some(previous), previousArtifact).0;
      Running(c, after, previous) && (c.staticFrontend ==> after.artifact == previousArtifact)
      <==> BringsBack(c, h.next, Managed(h.procs), h.polls)
           || (from == previous && Running(c, h, previous) && StopSpares(c, h.next)
               && (c.staticFrontend ==> h.artifact == previousArtifact))
  {
    if StopManaged(c, h).1 {
      ClearedBack(c, h, previous, previousArtifact);
      if Running(c, h, previous) { ClearingStops(c, h, previous); }
    } else {
      StopManagedEnd(c, h);
      StopManagedAt(c, h, "");
      Uncleared(c, h, from, previous);
    }
  }

  lemma ClearsOnlyTouching(c: Config, n: nat, k: nat)
    requires DeletesDone(c, n, k) && k > 0
    ensures !NothingTouched(c, n, 2 * k)
  {
    assert NothingTouched(c, n, 2 * k) ==> NothingTouched(c, n + 1, 2 * k - 1);
  }

  lemma Uncleared(c: Config, h: State, from: string, previous: string)
    requires forall n :: n in MANAGED && n in h.procs ==> h.procs[n].workspace == from && n in Definitions(c)
    ensures var stopped := StopManaged(c, h).0;
      Running(c, stopped, previous) <==> from == previous && Running(c, h, previous) && StopSpares(c, h.next)
  {
    if Running(c, StopManaged(c, h).0, previous) { StopRan(c, h, from, previous); }
    if Running(c, h, previous) { StopSparesIff(c, h, previous); }
  }

  /** A host that is running after a stop was so before. */
  lemma StopRan(c: Config, h: State, from: string, previous: string)
    requires Running(c, StopManaged(c, h).0, previous)
    requires forall n :: n in MANAGED && n in h.procs ==> h.procs[n].workspace == from && n in Definitions(c)
    ensures from == previous && Running(c, h, previous)
  {
    var stopped := StopManaged(c, h).0;
    RunningIff(c, stopped, previous);
    RunningIff(c, h, previous);
    forall n | n in MANAGED ensures UpAt(c, h.procs, previous, n) {
      StopManagedAt(c, h, n);
      StopMendsNothing(c, Skip(h, 1), |MANAGED|, n);
      assert UpAt(c, stopped.procs, previous, n);
    }
    var n := Definitions(c)[0];
    assert n in Definitions(c) && n in MANAGED;
    assert UpAt(c, h.procs, previous, n);
  }

  // ---- one deployment ----

  predicate PublishKeeps(c: Config, p: nat, release: Release, active: Release, artifactOf: string -> string) {
    && (ActiveMoved(c, p)
        || (release.workspace == active.workspace
            && (c.staticFrontend ==> artifactOf(release.commit) == artifactOf(active.commit))))
    && (c.refConfigured ==> Agree(c, p, Some(active.commit), active.commit, release.commit))
  }

  /** The old processes are brought back, or the new ones are of the same workspace and survive. */
  predicate BackKeeps(c: Config, f: Failure, polls: seq<Poll>, release: Release, active: Release, artifactOf: string -> string)
    requires f.used <= |polls|
  {
    || BringsBack(c, f.next, f.left, polls[f.used..])
    || (release.workspace == active.workspace && f.up && StopSpares(c, f.next)
        && (c.staticFrontend && f.served ==> artifactOf(release.commit) == artifactOf(active.commit)))
  }

  /** How the calls from number `n` on and the polls must end for a deployment to leave a consistent
      host consistent. */
  predicate Keeps(c: Config, n: nat, polls: seq<Poll>, release: Release, active: Release, artifactOf: string -> string) {
    var d := |Definitions(c)|;
    var q := SwitchAt(c, n, d);
    if !AllDone(c, n, Preparation(c)) then true
    else if !StopClears(c, n + Preparation(c), d) then StopSpares(c, n + Preparation(c))
    else if c.staticFrontend && !Out(c, q - 1).Done? then false      // all stopped, then the artifact could not be read
    else if Switches(c, q, polls) then PublishKeeps(c, q + d + StaticCall(c), release, active, artifactOf)
    else BackKeeps(c, FailedSwitch(c, q, polls), polls, release, active, artifactOf)
  }

  lemma PublishKeepsIff(c: Config, h: State, release: Release, artifactOf: string -> string)
    requires Running(c, h, release.workspace)
    requires c.staticFrontend ==> h.artifact == Some(artifactOf(release.commit))
    requires c.refConfigured ==> h.gitRef == Some(h.active.commit)
    ensures Consistent(c, Publish(c, h, release).0, artifactOf) <==> PublishKeeps(c, h.next, release, h.active, artifactOf)
  {
    var after := Publish(c, h, release).0;
    PublishEffect(c, h, release);
    if after.active.workspace != release.workspace {
      RunningIff(c, h, release.workspace);
      forall n | n in MANAGED && n in h.procs ensures h.procs[n].workspace != after.active.workspace {
        assert UpAt(c, h.procs, release.workspace, n);
      }
      NotRunning(c, after, after.active.workspace);
    }
  }

  /** The new processes that a failed switch leaves. */
  lemma SwitchLeaves(c: Config, t: State, workspace: string, artifactId: string)
    requires NoneManaged(t.procs)
    ensures var after := Switch(c, t, workspace, artifactId).0;
      forall n :: n in MANAGED && n in after.procs ==> after.procs[n].workspace == workspace && n in Definitions(c)
  {
    SwitchSound(c, t, workspace, artifactId);
    StartsUp(c, t, workspace);
    var started := StartFrom(c, t, Definitions(c), workspace, 0);
    var served := if c.staticFrontend then SetArtifact(c, started.0, Some(artifactId)) else started;
    forall n | n in MANAGED && n !in Definitions(c) ensures n !in Switch(c, t, workspace, artifactId).0.procs {
      AwaitAt(c, served.0, c.pollLimit, n);
    }
  }

  lemma SwitchedIff(c: Config, h: State, t: State, release: Release, artifactOf: string -> string)
    requires Consistent(c, h, artifactOf) && Cleared(c, h) == Some(t)
    ensures var after := Deploy(c, h, release, artifactOf(release.commit), Some(h.active.workspace)).0;
      Consistent(c, after, artifactOf)
      <==> if Switches(c, t.next, t.polls)
           then PublishKeeps(c, t.next + |Definitions(c)| + StaticCall(c), release, h.active, artifactOf)
           else BackKeeps(c, FailedSwitch(c, t.next, t.polls), t.polls, release, h.active, artifactOf)
  {
    var artifactId, previous := artifactOf(release.commit), Some(h.active.workspace);
    var switched := Switch(c, t, release.workspace, artifactId);
    ClearedSound(c, h);
    LateStages(c, h, t, release, artifactId, previous);
    SwitchEnd(c, t, release.workspace, artifactId);
    SwitchSound(c, t, release.workspace, artifactId);
    if switched.1 {
      PublishKeepsIff(c, switched.0, release, artifactOf);
    } else {
      SwitchLeaves(c, t, release.workspace, artifactId);
      CompensateIff(c, switched.0, release.workspace, h.active.workspace, t.artifact);
      CompensateSound(c, switched.0, previous, t.artifact);
    }
  }

  lemma UnswitchedIff(c: Config, h: State, release: Release, artifactOf: string -> string)
    requires Consistent(c, h, artifactOf) && Cleared(c, h).None? && AllDone(c, h.next, Preparation(c))
    ensures var after := Deploy(c, h, release, artifactOf(release.commit), Some(h.active.workspace)).0;
      var s := h.next + Preparation(c);
      Consistent(c, after, artifactOf) <==> !StopClears(c, s, |Definitions(c)|) && StopSpares(c, s)
  {
    var prepared := Skip(h, Preparation(c));
    var stopped := StopManaged(c, prepared);
    CallsEnd(c, h, Preparation(c));
    CallsFrame(c, stopped.0, 1);
    StopManagedEnd(c, prepared);
    RunningCounts(c, h, h.active.workspace);
    StopManagedAt(c, prepared, "");
    if stopped.1 {
      StopEmpties(c, prepared);
      NoneRunning(c, stopped.0, h.active.workspace);
    } else {
      StopSparesIff(c, prepared, h.active.workspace);
    }
  }

  /** A deployment started from a consistent host, of any release, leaves it consistent exactly if
      its calls and polls end as said. */
  lemma DeployKeepsIff(c: Config, h: State, release: Release, artifactOf: string -> string)
    requires Consistent(c, h, artifactOf)
    ensures Consistent(c, Deploy(c, h, release, artifactOf(release.commit), Some(h.active.workspace)).0, artifactOf)
      <==> Keeps(c, h.next, h.polls, release, h.active, artifactOf)
  {
    RunningCounts(c, h, h.active.workspace);
    ClearedIff(c, h);
    CallsEnd(c, h, Preparation(c));
    CallsFrame(c, h, Preparation(c));
    if Cleared(c, h).Some? {
      SwitchedIff(c, h, Cleared(c, h).value, release, artifactOf);
    } else if AllDone(c, h.next, Preparation(c)) {
      UnswitchedIff(c, h, release, artifactOf);
    }
  }

  /** A finished deployment leaves the host consistent, whatever it was before. */
  lemma FinishedIsConsistent(c: Config, h: State, release: Release, artifactOf: string -> string, previous: Option<string>)
    ensures var (after, r) := Deploy(c, h, release, artifactOf(release.commit), previous);
      r.stage == Finished ==> Consistent(c, after, artifactOf)
  {
    DeployStages(c, h, release, artifactOf(release.commit), previous);
  }

  // ---- series of operations ----

  /** An operation, with how its calls and polls end. */
  datatype Op = Op(release: Release, mine: bool, script: seq<Outcome>, polls: seq<Poll>)

  function With(c: Config, op: Op): Config {
    c.(script := op.script)
  }

  function AfterOp(c: Config, h: State, op: Op, artifactOf: string -> string): State {
    Operation(With(c, op), h.(next := 0, polls := op.polls), op.release, artifactOf(op.release.commit), op.mine).0
  }

  function AfterOps(c: Config, h: State, ops: seq<Op>, artifactOf: string -> string): State {
    if ops == [] then h else AfterOp(c, AfterOps(c, h, ops[..|ops| - 1], artifactOf), ops[|ops| - 1], artifactOf)
  }

  /** The calls and polls of an operation, the first three of which come before its deployment. */
  predicate OpKeeps(c: Config, active: Release, op: Op, artifactOf: string -> string) {
    AllDone(With(c, op), 0, 3) ==> Keeps(With(c, op), 3, op.polls, op.release, active, artifactOf)
  }

  /** The release that is active after an operation on a consistent host. */
  function ActiveAfter(c: Config, active: Release, op: Op): Release {
    var p := PublishAt(With(c, op), 3, |Definitions(c)|, op.polls);
    if AllDone(With(c, op), 0, 3) && p.Some? && ActiveMoved(With(c, op), p.value) then op.release else active
  }

  function ActiveAfterAll(c: Config, active: Release, ops: seq<Op>): Release {
    if ops == [] then active else ActiveAfter(c, ActiveAfterAll(c, active, ops[..|ops| - 1]), ops[|ops| - 1])
  }

  predicate AllKeep(c: Config, active: Release, ops: seq<Op>, artifactOf: string -> string) {
    ops == []
    || (AllKeep(c, active, ops[..|ops| - 1], artifactOf)
        && OpKeeps(c, ActiveAfterAll(c, active, ops[..|ops| - 1]), ops[|ops| - 1], artifactOf))
  }

  predicate AlwaysConsistent(c: Config, h: State, ops: seq<Op>, artifactOf: string -> string) {
    && (ops == [] || AlwaysConsistent(c, h, ops[..|ops| - 1], artifactOf))
    && Consistent(c, AfterOps(c, h, ops, artifactOf), artifactOf)
  }

  lemma OperationFrame(c: Config, h: State, release: Release, artifactId: string, mine: bool)
    ensures var pinned := Calls(c, h, 3);
      var deployed := if pinned.1 then Deploy(c, pinned.0, release, artifactId, Some(pinned.0.active.workspace)).0 else pinned.0;
      Operation(c, h, release, artifactId, mine).0 == deployed.(next := Operation(c, h, release, artifactId, mine).0.next)
  {
    var pinned := Calls(c, h, 3);
    var deployed := if pinned.1 then Deploy(c, pinned.0, release, artifactId, Some(pinned.0.active.workspace)).0 else pinned.0;
    CallsFrame(c, deployed, 1);
    CallsFrame(c, Skip(deployed, 1), 1);
  }

  lemma SameTable(c: Config, h: State, d: Config, g: State, artifactOf: string -> string)
    requires c == d.(script := c.script) && h == g.(next := h.next, polls := h.polls)
    ensures Consistent(c, h, artifactOf) == Consistent(d, g, artifactOf)
  {
  }

  lemma OpKeepsIff(c: Config, h: State, op: Op, artifactOf: string -> string)
    requires Consistent(c, h, artifactOf)
    ensures Consistent(c, AfterOp(c, h, op, artifactOf), artifactOf) <==> OpKeeps(c, h.active, op, artifactOf)
    ensures AfterOp(c, h, op, artifactOf).active == ActiveAfter(c, h.active, op)
  {
    var d, g := With(c, op), h.(next := 0, polls := op.polls);
    var pinned := Calls(d, g, 3);
    CallsEnd(d, g, 3);
    CallsFrame(d, g, 3);
    SameTable(d, pinned.0, c, h, artifactOf);
    OperationFrame(d, g, op.release, artifactOf(op.release.commit), op.mine);
    if pinned.1 {
      RunningCounts(d, pinned.0, h.active.workspace);
      DeployKeepsIff(d, pinned.0, op.release, artifactOf);
      DeployReaches(d, pinned.0, op.release, artifactOf(op.release.commit), Some(h.active.workspace));
      SameTable(d, Deploy(d, pinned.0, op.release, artifactOf(op.release.commit), Some(h.active.workspace)).0,
                c, AfterOp(c, h, op, artifactOf), artifactOf);
    } else {
      SameTable(d, pinned.0, c, AfterOp(c, h, op, artifactOf), artifactOf);
    }
  }

  /** The host is consistent after every operation of a series exactly if the calls and polls of
      each operation end as said. */
  lemma {:induction false} SeriesConsistentIff(c: Config, h: State, ops: seq<Op>, artifactOf: string -> string)
    requires Consistent(c, h, artifactOf)
    ensures AlwaysConsistent(c, h, ops, artifactOf) <==> AllKeep(c, h.active, ops, artifactOf)
    ensures AlwaysConsistent(c, h, ops, artifactOf) ==>
      AfterOps(c, h, ops, artifactOf).active == ActiveAfterAll(c, h.active, ops)
  {
    if ops != [] {
      var shorter := ops[..|ops| - 1];
      SeriesConsistentIff(c, h, shorter, artifactOf);
      if AlwaysConsistent(c, h, shorter, artifactOf) {
        OpKeepsIff(c, AfterOps(c, h, shorter, artifactOf), ops[|ops| - 1], artifactOf);
      }
    }
  }

  /** An operation is recorded as succeeded only after its deployment finished, and never touched
      without the lease. */
  lemma RecordedSoundly(c: Config, h: State, release: Release, artifactId: string, mine: bool)
    ensures var (after, recorded, r) := Operation(c, h, release, artifactId, mine);
      && (recorded == SUCCEEDED ==> r.stage == Finished && after.active == release && Running(c, after, release.workspace))
      && (recorded == FAILED ==> mine)
  {
    var pinned := Calls(c, h, 3).0;
    DeployStages(c, pinned, release, artifactId, Some(pinned.active.workspace));
    OperationFrame(c, h, release, artifactId, mine);
  }

  // ---- the failures that part them ----

  /** Published although the call failed, and the ref swapped back: the ref names the old commit,
      the active release is the new one. */
  lemma PublishCanPart(h: State, release: Release)
    requires h.next == 0 && h.gitRef == Some(h.active.commit) && h.active.commit != release.commit
    ensures var c := Config(false, true, 1, [Done, Done, Failed(true), Done]);
      && Publish(c, h, release).1.stage != Finished
      && Publish(c, h, release).0.gitRef == Some(h.active.commit) && Publish(c, h, release).0.active == release
  {
    var c := Config(false, true, 1, [Done, Done, Failed(true), Done]);
    PublishEffect(c, h, release);
  }

  /** Six calls and the listing succeed, then what is said of stops and deletes. */
  function StopScript(rest: seq<Outcome>): Config {
    Config(false, true, 1, [Done, Done, Done, Done, Done, Done, Done] + rest)
  }

  lemma StopFails(h: State, rest: seq<Outcome>, release: Release, artifactOf: string -> string)
    requires h.next == 0 && Consistent(StopScript(rest), h, artifactOf)
    requires !DeletesDone(StopScript(rest), 7, 3)
    ensures var c := StopScript(rest);
      var after := Deploy(c, h, release, artifactOf(release.commit), Some(h.active.workspace)).0;
      && after == StopFirst(c, Skip(h, 7), 3).0
      && (Consistent(c, after, artifactOf) <==> NothingTouched(c, 7, 6))
  {
    var c := StopScript(rest);
    assert Out(c, 0).Done? && Out(c, 1).Done? && Out(c, 2).Done? && Out(c, 3).Done? && Out(c, 4).Done? && Out(c, 5).Done?;
    assert AllDone(c, 4, 2) && AllDone(c, 2, 4);
    assert AllDone(c, 0, 6) && Out(c, 6).Done?;
    CallsEnd(c, h, 6);
    RunningCounts(c, h, h.active.workspace);
    StopManagedEnd(c, Skip(h, 6));
    DeployKeepsIff(c, h, release, artifactOf);
  }

  /** Stopping deletes one process and fails on the next: nothing puts it back. */
  lemma StopCanPart(h: State, release: Release, artifactOf: string -> string)
    requires h.next == 0 && Consistent(StopScript([Done, Done, Done, Failed(false)]), h, artifactOf)
    ensures var c := StopScript([Done, Done, Done, Failed(false)]);
      !Consistent(c, Deploy(c, h, release, artifactOf(release.commit), Some(h.active.workspace)).0, artifactOf)
  {
    var c := StopScript([Done, Done, Done, Failed(false)]);
    assert Out(c, 7).Done? && Out(c, 8).Done? && Out(c, 10) == Failed(false);
    assert !DeletesDone(c, 9, 2);
    StopFails(h, [Done, Done, Done, Failed(false)], release, artifactOf);
  }

  /** Every stop succeeds and every delete fails: the processes are all in the table, none is up. */
  lemma StopCanSilence(h: State, release: Release, artifactOf: string -> string)
    requires var rest := [Done, Failed(false), Done, Failed(false), Done, Failed(false)];
      h.next == 0 && Consistent(StopScript(rest), h, artifactOf)
    ensures var c := StopScript([Done, Failed(false), Done, Failed(false), Done, Failed(false)]);
      var after := Deploy(c, h, release, artifactOf(release.commit), Some(h.active.workspace)).0;
      && (forall n :: n in MANAGED ==> n in after.procs && !after.procs[n].online)
      && !Consistent(c, after, artifactOf)
  {
    var rest := [Done, Failed(false), Done, Failed(false), Done, Failed(false)];
    var c := StopScript(rest);
    assert Out(c, 7).Done? && Out(c, 8) == Failed(false) && Out(c, 9).Done? && Out(c, 10) == Failed(false);
    assert Out(c, 11).Done? && Out(c, 12) == Failed(false);
    assert Silences(c, 11, 1) && Silences(c, 9, 2);
    StopFails(h, rest, release, artifactOf);
    RunningIff(c, h, h.active.workspace);
    RunningCounts(c, h, h.active.workspace);
    forall n | n in MANAGED ensures n in h.procs {
      assert UpAt(c, h.procs, h.active.workspace, n);
    }
    forall n | n in MANAGED ensures n in StopFirst(c, Skip(h, 7), 3).0.procs && !StopFirst(c, Skip(h, 7), 3).0.procs[n].online {
      assert MANAGED[..3] == MANAGED;
      SilencedAt(c, Skip(h, 7), 3, n);
    }
  }

  /** Of `k` stops, each followed by its delete, every stop takes effect and no delete does. */
  predicate Silences(c: Config, n: nat, k: nat)
    decreases k
  {
    k == 0 || (Took(Out(c, n)) && !Took(Out(c, n + 1)) && Silences(c, n + 2, k - 1))
  }

  lemma {:induction false} SilencedAt(c: Config, h: State, i: nat, n: string)
    requires i <= |MANAGED| && n in MANAGED[..i] && n in h.procs && Silences(c, h.next, Count(h.procs, MANAGED, i))
    ensures n in StopFirst(c, h, i).0.procs && !StopFirst(c, h, i).0.procs[n].online
    decreases i
  {
    var name := MANAGED[i - 1];
    assert MANAGED[..i] == MANAGED[..i - 1] + [name];
    if name !in h.procs {
      SilencedAt(c, h, i - 1, n);
    } else {
      var stopped := StopOne(c, h, name);
      var deleted := DeleteOne(c, stopped, name).0;
      assert At(c, stopped, 0) == Out(c, h.next + 1);
      ManagedDistinct();
      assert name !in MANAGED[..i - 1];
      CountSame(h.procs, deleted.procs, MANAGED, i - 1);
      if n == name {
        StopAt(c, deleted, i - 1, name);
      } else {
        SilencedAt(c, deleted, i - 1, n);
      }
    }
  }
}
