/** What a deployment guarantees, and exactly when it leaves the host in agreement with itself. */
module ReleaseTheorems {
  import opened Common
  import opened ReleaseController

  // ---- the process table ----

  predicate SameAt(a: Table, b: Table, n: string) {
    (n in a <==> n in b) && (n in a ==> a[n].workspace == b[n].workspace)
  }

  /** The same processes run from the same workspaces, apart from the given names. */
  ghost predicate SameExcept(a: Table, b: Table, names: seq<string>) {
    forall n :: n !in names ==> SameAt(a, b, n)
  }

  predicate RunsFrom(procs: Table, n: string, workspace: string) {
    n in procs && procs[n].workspace == workspace
  }

  predicate ExactlyAt(procs: Table, names: seq<string>, workspace: string, n: string) {
    if n in names then RunsFrom(procs, n, workspace) else n !in procs
  }

  /** The managed processes are exactly these, all run from this workspace. */
  predicate Exactly(procs: Table, names: seq<string>, workspace: string) {
    forall i :: 0 <= i < |MANAGED| ==> ExactlyAt(procs, names, workspace, MANAGED[i])
  }

  predicate NoneManaged(procs: Table) {
    forall i :: 0 <= i < |MANAGED| ==> MANAGED[i] !in procs
  }

  /** Only processes, the call count and the polls differ. */
  predicate SameElse(a: State, b: State) {
    a.artifact == b.artifact && a.gitRef == b.gitRef && a.active == b.active
  }

  lemma {:induction false} CallsFrame(c: Config, h: State, n: nat)
    ensures Calls(c, h, n).0 == h.(next := Calls(c, h, n).0.next)
    decreases n
  {
    if n > 0 && At(c, h, 0).Done? {
      CallsFrame(c, Skip(h, 1), n - 1);
    }
  }

  lemma {:induction false} UnstartAt(c: Config, h: State, names: seq<string>, k: nat, n: string)
    requires k <= |names|
    ensures var after := Unstart(c, h, names, k);
      && SameElse(after, h) && after.polls == h.polls
      && (n in after.procs ==> n in h.procs && after.procs[n] == h.procs[n])
      && (n !in names[..k] ==> (n in after.procs <==> n in h.procs))
    decreases k
  {
    if k > 0 {
      UnstartAt(c, DeleteOne(c, h, names[k - 1]).0, names, k - 1, n);
      assert names[..k] == names[..k - 1] + [names[k - 1]];
    }
  }

  /** Starting puts the named processes there, all of them when it succeeds, and no others. */
  lemma {:induction false} StartAt(c: Config, h: State, names: seq<string>, workspace: string, k: nat, n: string)
    requires k <= |names|
    ensures var r := StartFrom(c, h, names, workspace, k);
      && SameElse(r.0, h) && r.0.polls == h.polls
      && (n !in names ==> (n in r.0.procs <==> n in h.procs) && (n in h.procs ==> r.0.procs[n] == h.procs[n]))
      && (n in r.0.procs ==> RunsFrom(r.0.procs, n, workspace) || (n in h.procs && r.0.procs[n] == h.procs[n]))
      && (r.1 && n in names[k..] ==> RunsFrom(r.0.procs, n, workspace))
      && (r.1 && n in names[..k] && RunsFrom(h.procs, n, workspace) ==> RunsFrom(r.0.procs, n, workspace))
    decreases |names| - k
  {
    if k < |names| {
      var h' := StartOne(c, h, names[k], workspace);
      assert names[k] in names;
      assert names[k..] == [names[k]] + names[k + 1..] && names[..k + 1] == names[..k] + [names[k]];
      if At(c, h, 0).Done? {
        StartAt(c, h', names, workspace, k + 1, n);
      } else {
        UnstartAt(c, h', names, k, n);
        assert n in names[..k] ==> n in names;
      }
    }
  }

  /** Stopping never moves a process, and on success leaves nothing managed. */
  lemma {:induction false} StopAt(c: Config, h: State, i: nat, n: string)
    requires i <= |MANAGED|
    ensures var r := StopFirst(c, h, i);
      && SameElse(r.0, h) && r.0.polls == h.polls
      && (n in r.0.procs ==> n in h.procs && r.0.procs[n].workspace == h.procs[n].workspace)
      && (n !in MANAGED[..i] ==> (n in r.0.procs <==> n in h.procs) && (n in h.procs ==> r.0.procs[n] == h.procs[n]))
      && (r.1 && n in MANAGED[..i] ==> n !in r.0.procs)
    decreases i
  {
    if i > 0 {
      var name := MANAGED[i - 1];
      assert MANAGED[..i] == MANAGED[..i - 1] + [name];
      if name !in h.procs {
        StopAt(c, h, i - 1, n);
      } else {
        StopAt(c, DeleteOne(c, StopOne(c, h, name), name).0, i - 1, n);
      }
    }
  }

  lemma StopManagedAt(c: Config, h: State, n: string)
    ensures var r := StopManaged(c, h);
      && SameElse(r.0, h) && r.0.polls == h.polls
      && (n in r.0.procs ==> n in h.procs && r.0.procs[n].workspace == h.procs[n].workspace)
      && (n !in MANAGED ==> (n in r.0.procs <==> n in h.procs) && (n in h.procs ==> r.0.procs[n] == h.procs[n]))
      && (r.1 && n in MANAGED ==> n !in r.0.procs)
  {
    if At(c, h, 0).Done? {
      StopAt(c, Skip(h, 1), |MANAGED|, n);
      assert MANAGED[..|MANAGED|] == MANAGED;
    }
  }

  /** Waiting changes statuses only, and succeeds only if everything expected is ready. */
  lemma {:induction false} AwaitAt(c: Config, h: State, limit: nat, n: string)
    ensures var r := Await(c, h, limit);
      && SameElse(r.0, h) && r.0.next == h.next && SameAt(r.0.procs, h.procs, n)
      && (r.1 ==> Ready(r.0.procs, Definitions(c)))
    decreases limit
  {
    if limit > 0 && h.polls != [] {
      var h' := h.(polls := h.polls[1..], procs := Refresh(h.procs, h.polls[0].statuses));
      assert SameAt(h'.procs, h.procs, n);
      if !Shows(h.polls[0], h'.procs, Definitions(c)) {
        AwaitAt(c, h', limit - 1, n);
      }
    }
  }

  // ---- the two big steps ----

  predicate Running(c: Config, h: State, workspace: string) {
    Exactly(h.procs, Definitions(c), workspace) && Ready(h.procs, Definitions(c))
  }

  lemma SwitchSound(c: Config, h: State, workspace: string, artifactId: string)
    requires NoneManaged(h.procs)
    ensures var r := Switch(c, h, workspace, artifactId);
      && SameExcept(r.0.procs, h.procs, MANAGED) && r.0.gitRef == h.gitRef && r.0.active == h.active
      && (!c.staticFrontend ==> r.0.artifact == h.artifact)
      && (forall n :: n in MANAGED && n in r.0.procs ==> r.0.procs[n].workspace == workspace)
      && (r.1 ==> Running(c, r.0, workspace) && (c.staticFrontend ==> r.0.artifact == Some(artifactId)))
  {
    var names := Definitions(c);
    var started := StartFrom(c, h, names, workspace, 0);
    assert names[0..] == names;
    var served := if c.staticFrontend then SetArtifact(c, started.0, Some(artifactId)) else started;
    forall n
      ensures n !in MANAGED ==> SameAt(Switch(c, h, workspace, artifactId).0.procs, h.procs, n)
      ensures n in MANAGED && n in Switch(c, h, workspace, artifactId).0.procs ==>
        Switch(c, h, workspace, artifactId).0.procs[n].workspace == workspace
      ensures n in MANAGED && Switch(c, h, workspace, artifactId).1 ==>
        ExactlyAt(Switch(c, h, workspace, artifactId).0.procs, names, workspace, n)
    {
      StartAt(c, h, names, workspace, 0, n);
      AwaitAt(c, served.0, c.pollLimit, n);
    }
    StartAt(c, h, names, workspace, 0, "");
    AwaitAt(c, served.0, c.pollLimit, "");
  }

  lemma CompensateSound(c: Config, h: State, previous: Option<string>, previousArtifact: Option<string>)
    ensures var r := Compensate(c, h, previous, previousArtifact);
      && SameExcept(r.0.procs, h.procs, MANAGED) && r.0.gitRef == h.gitRef && r.0.active == h.active
      && (!c.staticFrontend ==> r.0.artifact == h.artifact)
      && (r.1 && c.staticFrontend ==> r.0.artifact == previousArtifact)
      && (r.1 && previous.None? ==> NoneManaged(r.0.procs))
      && (r.1 && previous.Some? ==> Running(c, r.0, previous.value))
  {
    var names := Definitions(c);
    var stopped := StopManaged(c, h);
    var served := if c.staticFrontend then SetArtifact(c, stopped.0, previousArtifact) else stopped;
    StopManagedAt(c, h, "");
    forall n
      ensures n !in MANAGED ==> SameAt(stopped.0.procs, h.procs, n)
      ensures stopped.1 && n in MANAGED ==> n !in stopped.0.procs
    {
      StopManagedAt(c, h, n);
    }
    if stopped.1 && served.1 && previous.Some? {
      var started := StartFrom(c, served.0, names, previous.value, 0);
      assert names[0..] == names;
      StartAt(c, served.0, names, previous.value, 0, "");
      AwaitAt(c, started.0, c.pollLimit, "");
      forall n
        ensures n !in MANAGED ==> SameAt(Compensate(c, h, previous, previousArtifact).0.procs, h.procs, n)
        ensures n in MANAGED && Compensate(c, h, previous, previousArtifact).1 ==>
          ExactlyAt(Compensate(c, h, previous, previousArtifact).0.procs, names, previous.value, n)
      {
        StartAt(c, served.0, names, previous.value, 0, n);
        AwaitAt(c, started.0, c.pollLimit, n);
        assert n !in MANAGED ==> SameAt(stopped.0.procs, h.procs, n);
      }
    }
  }

  // ---- the stages of a deployment ----

  /** The state in which the old processes are stopped and the switch may begin, if it is reached. */
  function Cleared(c: Config, h: State): Option<State> {
    var prepared := Calls(c, h, Preparation(c));
    var stopped := StopManaged(c, prepared.0);
    var read := if c.staticFrontend then Calls(c, stopped.0, 1) else stopped;
    if prepared.1 && stopped.1 && read.1 then Some(read.0) else None
  }

  lemma ClearedSound(c: Config, h: State)
    ensures Cleared(c, h).Some? ==> (
      var t := Cleared(c, h).value;
      SameElse(t, h) && NoneManaged(t.procs) && SameExcept(t.procs, h.procs, MANAGED))
    ensures SameElse(StopManaged(c, Calls(c, h, Preparation(c)).0).0, h)
  {
    var prepared := Calls(c, h, Preparation(c));
    var stopped := StopManaged(c, prepared.0);
    CallsFrame(c, h, Preparation(c));
    CallsFrame(c, stopped.0, 1);
    StopManagedAt(c, prepared.0, "");
    forall n
      ensures n !in MANAGED ==> SameAt(stopped.0.procs, h.procs, n)
      ensures stopped.1 && n in MANAGED ==> n !in stopped.0.procs
    {
      StopManagedAt(c, prepared.0, n);
    }
  }

  /** What runs, what is served and where ref and active release stand at each stage. */
  ghost predicate StageOk(c: Config, h: State, release: Release, artifactId: string, previous: Option<string>,
                          after: State, r: Report) {
    && SameExcept(after.procs, h.procs, MANAGED)
    && (r.stage == Preparing ==> after == h.(next := after.next))
    && (r.stage == Stopping ==> SameElse(after, h))
    && (r.stage == Switching ==> SwitchingOk(c, h, previous, after, r.restored))
    && (r.stage == Publishing || r.stage == Finished ==>
          Running(c, after, release.workspace) && (c.staticFrontend ==> after.artifact == Some(artifactId)))
    && (r.stage == Publishing && r.restored ==> after.gitRef == h.gitRef)
    && (r.stage == Finished ==> after.active == release && (c.refConfigured ==> after.gitRef == Some(release.commit)))
    && (!c.staticFrontend ==> after.artifact == h.artifact)
    && (!c.refConfigured ==> after.gitRef == h.gitRef)
  }

  /** A failed switch leaves ref and active release alone and, if the compensation succeeded, has
      the previous artifact and exactly the previous workspace's processes back. */
  predicate SwitchingOk(c: Config, h: State, previous: Option<string>, after: State, restored: bool) {
    && after.gitRef == h.gitRef && after.active == h.active
    && (restored ==> after.artifact == h.artifact)
    && (restored && previous.None? ==> NoneManaged(after.procs))
    && (restored && previous.Some? ==> Running(c, after, previous.value))
  }

  lemma EarlyStages(c: Config, h: State, release: Release, artifactId: string, previous: Option<string>)
    requires Cleared(c, h).None?
    ensures var (after, r) := Deploy(c, h, release, artifactId, previous);
      && (r.stage == Preparing || r.stage == Stopping) && StageOk(c, h, release, artifactId, previous, after, r)
  {
    var prepared := Calls(c, h, Preparation(c));
    var stopped := StopManaged(c, prepared.0);
    CallsFrame(c, h, Preparation(c));
    CallsFrame(c, stopped.0, 1);
    StopManagedAt(c, prepared.0, "");
    forall n | n !in MANAGED ensures SameAt(stopped.0.procs, h.procs, n) {
      StopManagedAt(c, prepared.0, n);
    }
  }

  lemma LateStages(c: Config, h: State, t: State, release: Release, artifactId: string, previous: Option<string>)
    requires Cleared(c, h) == Some(t)
    ensures var switched := Switch(c, t, release.workspace, artifactId);
      var back := Compensate(c, switched.0, previous, t.artifact);
      Deploy(c, h, release, artifactId, previous)
      == if switched.1 then Publish(c, switched.0, release) else (back.0, Report(Switching, back.1))
  {
  }

  lemma PublishSound(c: Config, h: State, release: Release)
    ensures var (after, r) := Publish(c, h, release);
      && (r.stage == Publishing || r.stage == Finished)
      && after.procs == h.procs && after.artifact == h.artifact
      && (r.stage == Publishing && r.restored ==> after.gitRef == h.gitRef)
      && (r.stage == Finished ==> after.active == release && (c.refConfigured ==> after.gitRef == Some(release.commit)))
      && (!c.refConfigured ==> after.gitRef == h.gitRef)
  {
  }

  lemma DeployStages(c: Config, h: State, release: Release, artifactId: string, previous: Option<string>)
    ensures var (after, r) := Deploy(c, h, release, artifactId, previous);
      StageOk(c, h, release, artifactId, previous, after, r)
  {
    ClearedSound(c, h);
    if Cleared(c, h).None? {
      EarlyStages(c, h, release, artifactId, previous);
    } else {
      var t := Cleared(c, h).value;
      var switched := Switch(c, t, release.workspace, artifactId);
      LateStages(c, h, t, release, artifactId, previous);
      SwitchSound(c, t, release.workspace, artifactId);
      CompensateSound(c, switched.0, previous, t.artifact);
      PublishSound(c, switched.0, release);
      forall n | n !in MANAGED
        ensures SameAt(switched.0.procs, h.procs, n)
        ensures SameAt(Compensate(c, switched.0, previous, t.artifact).0.procs, h.procs, n)
      {
        assert SameAt(t.procs, h.procs, n) && SameAt(switched.0.procs, t.procs, n);
      }
    }
  }

  lemma ManagedDistinct()
    ensures forall i, j :: 0 <= i < j < |MANAGED| ==> MANAGED[i] != MANAGED[j]
  {
    assert |MANAGED[0]| != |MANAGED[1]| && |MANAGED[0]| != |MANAGED[2]| && |MANAGED[1]| != |MANAGED[2]|;
  }
}
