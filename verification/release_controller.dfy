/** Deploying a gateway release, and putting the previous one back when the switch fails. */
module ReleaseController {
  import opened Common

  datatype Proc = Proc(workspace: string, online: bool, restarts: nat)

  type Table = map<string, Proc>

  const MANAGED: seq<string> := ["sammo:gateway-api", "sammo:gateway-frontend", "sammo:gateway-orchestrator"]

  /** How a call to the outside world ends; a failed one may have taken effect all the same. */
  datatype Outcome = Done | Failed(applied: bool)

  datatype Status = Status(online: bool, restarts: nat)

  /** One readiness poll: the two endpoints, and the statuses the process list shows by now. */
  datatype Poll = Poll(api: bool, frontend: bool, listed: bool, statuses: map<string, Status>)

  datatype Release = Release(commit: string, workspace: string)

  /** `script` says how the calls end, in the order they are made; further calls succeed. */
  datatype Config = Config(staticFrontend: bool, refConfigured: bool, pollLimit: nat, script: seq<Outcome>)

  /** `next` counts the calls made so far. */
  datatype State = State(
    procs: Table, artifact: Option<string>, gitRef: Option<string>, active: Release, next: nat, polls: seq<Poll>)

  /** Where a deployment ended. */
  datatype Stage = Preparing | Stopping | Switching | Publishing | Finished

  /** `restored` says that the compensating steps of a failed stage all succeeded. */
  datatype Report = Report(stage: Stage, restored: bool)

  /** What became of the operation's record. */
  datatype Verdict = SUCCEEDED | FAILED | LEFT

  function Definitions(c: Config): (names: seq<string>)
    ensures names != [] && forall n :: n in names ==> n in MANAGED
  {
    if c.staticFrontend then [MANAGED[0], MANAGED[2]] else MANAGED
  }

  // ---- single calls ----

  function At(c: Config, h: State, i: nat): Outcome {
    if h.next + i < |c.script| then c.script[h.next + i] else Done
  }

  function Took(o: Outcome): bool {
    o.Done? || o.applied
  }

  function Skip(h: State, n: nat): State {
    h.(next := h.next + n)
  }

  function StartOne(c: Config, h: State, name: string, workspace: string): State {
    var h' := Skip(h, 1);
    if Took(At(c, h, 0)) then h'.(procs := h.procs[name := Proc(workspace, true, 0)]) else h'
  }

  /** Deleting a process that is not there counts as done. */
  function DeleteOne(c: Config, h: State, name: string): (State, bool) {
    var h' := Skip(h, 1);
    (if Took(At(c, h, 0)) then h'.(procs := h.procs - {name}) else h', At(c, h, 0).Done? || name !in h.procs)
  }

  function StopOne(c: Config, h: State, name: string): State {
    var h' := Skip(h, 1);
    if Took(At(c, h, 0)) && name in h.procs
    then h'.(procs := h.procs[name := h.procs[name].(online := false)]) else h'
  }

  function SetArtifact(c: Config, h: State, id: Option<string>): (State, bool) {
    var h' := Skip(h, 1);
    (if Took(At(c, h, 0)) then h'.(artifact := id) else h', At(c, h, 0).Done?)
  }

  function SwapRef(c: Config, h: State, expected: Option<string>, commit: Option<string>): (State, bool) {
    var h' := Skip(h, 1);
    (if Took(At(c, h, 0)) && h.gitRef == expected then h'.(gitRef := commit) else h',
     At(c, h, 0).Done? && h.gitRef == expected)
  }

  function SetActive(c: Config, h: State, release: Release): (State, bool) {
    var h' := Skip(h, 1);
    (if Took(At(c, h, 0)) then h'.(active := release) else h', At(c, h, 0).Done?)
  }

  // ---- phases ----

  /** Calls that touch nothing managed: all of `n` must succeed. */
  function Calls(c: Config, h: State, n: nat): (State, bool)
    decreases n
  {
    if n == 0 then (h, true)
    else if At(c, h, 0).Done? then Calls(c, Skip(h, 1), n - 1)
    else (Skip(h, 1), false)
  }

  /** Deletes the first `k` names, last one first; failures are ignored. */
  function Unstart(c: Config, h: State, names: seq<string>, k: nat): State
    requires k <= |names|
    decreases k
  {
    if k == 0 then h else Unstart(c, DeleteOne(c, h, names[k - 1]).0, names, k - 1)
  }

  function StartFrom(c: Config, h: State, names: seq<string>, workspace: string, k: nat): (State, bool)
    requires k <= |names|
    decreases |names| - k
  {
    if k == |names| then (h, true)
    else if At(c, h, 0).Done? then StartFrom(c, StartOne(c, h, names[k], workspace), names, workspace, k + 1)
    else (Unstart(c, StartOne(c, h, names[k], workspace), names, k), false)
  }

  /** Stops and deletes those of the first `i` managed processes that are there, last one first. */
  function StopFirst(c: Config, h: State, i: nat): (State, bool)
    requires i <= |MANAGED|
    decreases i
  {
    if i == 0 then (h, true)
    else if MANAGED[i - 1] !in h.procs then StopFirst(c, h, i - 1)
    else
      var deleted := DeleteOne(c, StopOne(c, h, MANAGED[i - 1]), MANAGED[i - 1]);
      var rest := StopFirst(c, deleted.0, i - 1);
      (rest.0, deleted.1 && rest.1)
  }

  function StopManaged(c: Config, h: State): (State, bool) {
    if At(c, h, 0).Done? then StopFirst(c, Skip(h, 1), |MANAGED|) else (Skip(h, 1), false)
  }

  predicate Ready(procs: Table, names: seq<string>) {
    forall i :: 0 <= i < |names| ==> names[i] in procs && procs[names[i]].online && procs[names[i]].restarts == 0
  }

  function Refresh(procs: Table, statuses: map<string, Status>): Table {
    map n | n in procs ::
      if n in statuses then procs[n].(online := statuses[n].online, restarts := statuses[n].restarts) else procs[n]
  }

  predicate Shows(poll: Poll, procs: Table, names: seq<string>) {
    poll.api && poll.frontend && poll.listed && Ready(procs, names)
  }

  /** Polls until everything is ready or the time is up. */
  function Await(c: Config, h: State, limit: nat): (State, bool)
    decreases limit
  {
    if limit == 0 || h.polls == [] then (h, false)
    else
      var h' := h.(polls := h.polls[1..], procs := Refresh(h.procs, h.polls[0].statuses));
      if Shows(h.polls[0], h'.procs, Definitions(c)) then (h', true) else Await(c, h', limit - 1)
  }

  function Switch(c: Config, h: State, workspace: string, artifactId: string): (State, bool) {
    var started := StartFrom(c, h, Definitions(c), workspace, 0);
    if !started.1 then started
    else
      var served := if c.staticFrontend then SetArtifact(c, started.0, Some(artifactId)) else started;
      if !served.1 then served else Await(c, served.0, c.pollLimit)
  }

  /** Puts the previous artifact and the previous workspace's processes back. */
  function Compensate(c: Config, h: State, previous: Option<string>, previousArtifact: Option<string>): (State, bool) {
    var stopped := StopManaged(c, h);
    if !stopped.1 then stopped
    else
      var served := if c.staticFrontend then SetArtifact(c, stopped.0, previousArtifact) else stopped;
      if !served.1 || previous.None? then served
      else
        var started := StartFrom(c, served.0, Definitions(c), previous.value, 0);
        if !started.1 then started else Await(c, started.0, c.pollLimit)
  }

  function Publish(c: Config, h: State, release: Release): (State, Report) {
    if !c.refConfigured then
      var published := SetActive(c, h, release);
      (published.0, Report(if published.1 then Finished else Publishing, true))
    else if !At(c, h, 0).Done? then (Skip(h, 1), Report(Publishing, true))
    else
      var swapped := SwapRef(c, Skip(h, 1), h.gitRef, Some(release.commit));
      if !swapped.1 then (swapped.0, Report(Publishing, swapped.0.gitRef == h.gitRef))
      else
        var published := SetActive(c, swapped.0, release);
        if published.1 then (published.0, Report(Finished, true))
        else
          var back := SwapRef(c, published.0, Some(release.commit), h.gitRef);
          (back.0, Report(Publishing, back.1))
  }

  /** Workspace, manifest, build, staging of a static frontend, lease, migration, lease. */
  function Preparation(c: Config): nat {
    if c.staticFrontend then 7 else 6
  }

  /** `previous` is the workspace of the active release, if any. */
  function Deploy(c: Config, h: State, release: Release, artifactId: string, previous: Option<string>): (State, Report) {
    var prepared := Calls(c, h, Preparation(c));
    if !prepared.1 then (prepared.0, Report(Preparing, true))
    else
      var stopped := StopManaged(c, prepared.0);
      if !stopped.1 then (stopped.0, Report(Stopping, false))
      else
        var read := if c.staticFrontend then Calls(c, stopped.0, 1) else stopped;
        if !read.1 then (read.0, Report(Stopping, false))
        else
          var switched := Switch(c, read.0, release.workspace, artifactId);
          if switched.1 then Publish(c, switched.0, release)
          else
            var back := Compensate(c, switched.0, previous, read.0.artifact);
            (back.0, Report(Switching, back.1))
  }

  /** One claimed operation. `mine` says whether, after an error, the operation is still running
      under this controller's lease; if not, its record is left alone. */
  function Operation(c: Config, h: State, release: Release, artifactId: string, mine: bool): (State, Verdict, Report) {
    var pinned := Calls(c, h, 3);      // read the state, resolve the commit, pin it under the lease
    var r := if pinned.1 then Deploy(c, pinned.0, release, artifactId, Some(pinned.0.active.workspace))
             else (pinned.0, Report(Preparing, true));
    var completed := if r.1.stage == Finished then (Skip(r.0, 1), Took(At(c, r.0, 0))) else (r.0, false);
    if completed.1 then (completed.0, SUCCEEDED, r.1)
    else if !mine then (completed.0, LEFT, r.1)
    else
      var noted := Calls(c, completed.0, 1);
      if !noted.1 then (noted.0, LEFT, r.1)
      else (Skip(noted.0, 1), if Took(At(c, noted.0, 0)) then FAILED else LEFT, r.1)
  }

  // ---- the controller ----

  class Host {
    const c: Config
    var procs: Table
    var artifact: Option<string>
    var gitRef: Option<string>
    var active: Release
    var next: nat
    var polls: seq<Poll>

    ghost function Now(): State
      reads this
    {
      State(procs, artifact, gitRef, active, next, polls)
    }

    constructor (c: Config, h: State)
      ensures this.c == c && Now() == h
    {
      this.c := c;
      procs, artifact, gitRef, active, next, polls := h.procs, h.artifact, h.gitRef, h.active, h.next, h.polls;
    }

    method Call() returns (o: Outcome)
      modifies this`next
      ensures o == At(c, old(Now()), 0) && Now() == Skip(old(Now()), 1)
    {
      o := if next < |c.script| then c.script[next] else Done;
      next := next + 1;
    }

    method StartProcess(name: string, workspace: string) returns (ok: bool)
      modifies this`next, this`procs
      ensures Now() == StartOne(c, old(Now()), name, workspace) && (ok <==> At(c, old(Now()), 0).Done?)
    {
      var o := Call();
      if Took(o) { procs := procs[name := Proc(workspace, true, 0)]; }
      ok := o.Done?;
    }

    method DeleteProcess(name: string) returns (ok: bool)
      modifies this`next, this`procs
      ensures (Now(), ok) == DeleteOne(c, old(Now()), name)
    {
      var o := Call();
      ok := o.Done? || name !in procs;
      if Took(o) { procs := procs - {name}; }
    }

    method StopProcess(name: string)
      modifies this`next, this`procs
      ensures Now() == StopOne(c, old(Now()), name)
    {
      var o := Call();
      if Took(o) && name in procs { procs := procs[name := procs[name].(online := false)]; }
    }

    method StartDefinitions(names: seq<string>, workspace: string) returns (ok: bool)
      modifies this`next, this`procs
      ensures (Now(), ok) == StartFrom(c, old(Now()), names, workspace, 0)
    {
      ghost var was := Now();
      var started := 0;
      while started < |names|
        invariant started <= |names|
        invariant StartFrom(c, was, names, workspace, 0) == StartFrom(c, Now(), names, workspace, started)
      {
        ghost var before := Now();
        ok := StartProcess(names[started], workspace);
        if !ok {
          ghost var failed := Now();
          ghost var k := started;
          while started > 0
            invariant started <= k <= |names|
            invariant Unstart(c, failed, names, k) == Unstart(c, Now(), names, started)
          {
            started := started - 1;
            var _ := DeleteProcess(names[started]);
          }
          return;
        }
        started := started + 1;
      }
      ok := true;
    }

    method StopManagedProcesses() returns (ok: bool)
      modifies this`next, this`procs
      ensures (Now(), ok) == StopManaged(c, old(Now()))
    {
      var listing := Call();
      if !listing.Done? { return false; }
      ghost var was := Now();
      ok := true;
      var i := |MANAGED|;
      while i > 0
        invariant 0 <= i <= |MANAGED|
        invariant StopFirst(c, was, |MANAGED|).0 == StopFirst(c, Now(), i).0
        invariant StopFirst(c, was, |MANAGED|).1 == (ok && StopFirst(c, Now(), i).1)
      {
        i := i - 1;
        if MANAGED[i] in procs {
          StopProcess(MANAGED[i]);
          var deleted := DeleteProcess(MANAGED[i]);
          ok := ok && deleted;
        }
      }
    }

    method WaitForReadiness() returns (ok: bool)
      modifies this`polls, this`procs
      ensures (Now(), ok) == Await(c, old(Now()), c.pollLimit)
    {
      ghost var was := Now();
      var left := c.pollLimit;
      while left > 0 && polls != []
        invariant Await(c, was, c.pollLimit) == Await(c, Now(), left)
      {
        var poll := polls[0];
        polls := polls[1..];
        procs := Refresh(procs, poll.statuses);
        if Shows(poll, procs, Definitions(c)) { return true; }
        left := left - 1;
      }
      ok := false;
    }

    method CallAll(n: nat) returns (ok: bool)
      modifies this`next
      ensures (Now(), ok) == Calls(c, old(Now()), n)
    {
      ghost var was := Now();
      var left := n;
      while left > 0
        invariant Calls(c, was, n) == Calls(c, Now(), left)
      {
        var o := Call();
        if !o.Done? { return false; }
        left := left - 1;
      }
      ok := true;
    }

    method ActivateArtifact(id: Option<string>) returns (ok: bool)
      modifies this`next, this`artifact
      ensures (Now(), ok) == SetArtifact(c, old(Now()), id)
    {
      var o := Call();
      if Took(o) { artifact := id; }
      ok := o.Done?;
    }

    method CompareAndSwapRef(expected: Option<string>, commit: Option<string>) returns (ok: bool)
      modifies this`next, this`gitRef
      ensures (Now(), ok) == SwapRef(c, old(Now()), expected, commit)
    {
      var o := Call();
      ok := o.Done? && gitRef == expected;
      if Took(o) && gitRef == expected { gitRef := commit; }
    }

    method PublishActive(release: Release) returns (ok: bool)
      modifies this`next, this`active
      ensures (Now(), ok) == SetActive(c, old(Now()), release)
    {
      var o := Call();
      if Took(o) { active := release; }
      ok := o.Done?;
    }

    method SwitchTo(workspace: string, artifactId: string) returns (ok: bool)
      modifies this
      ensures (Now(), ok) == Switch(c, old(Now()), workspace, artifactId)
    {
      ok := StartDefinitions(Definitions(c), workspace);
      if ok && c.staticFrontend { ok := ActivateArtifact(Some(artifactId)); }
      if ok { ok := WaitForReadiness(); }
    }

    method RestorePrevious(previous: Option<string>, previousArtifact: Option<string>) returns (ok: bool)
      modifies this
      ensures (Now(), ok) == Compensate(c, old(Now()), previous, previousArtifact)
    {
      ok := StopManagedProcesses();
      if ok && c.staticFrontend { ok := ActivateArtifact(previousArtifact); }
      if ok && previous.Some? {
        ok := StartDefinitions(Definitions(c), previous.value);
        if ok { ok := WaitForReadiness(); }
      }
    }

    method PublishRelease(release: Release) returns (r: Report)
      modifies this
      ensures (Now(), r) == Publish(c, old(Now()), release)
    {
      var previousRef := gitRef;
      if c.refConfigured {
        var read := Call();
        if !read.Done? { return Report(Publishing, true); }
        var swapped := CompareAndSwapRef(previousRef, Some(release.commit));
        if !swapped { return Report(Publishing, gitRef == previousRef); }
      }
      var published := PublishActive(release);
      if published { return Report(Finished, true); }
      var restored := true;
      if c.refConfigured { restored := CompareAndSwapRef(Some(release.commit), previousRef); }
      r := Report(Publishing, restored);
    }

    method DeployRelease(release: Release, artifactId: string, previous: Option<string>) returns (r: Report)
      modifies this
      ensures (Now(), r) == Deploy(c, old(Now()), release, artifactId, previous)
    {
      var prepared := CallAll(Preparation(c));
      if !prepared { return Report(Preparing, true); }
      var stopped := StopManagedProcesses();
      if !stopped { return Report(Stopping, false); }
      var previousArtifact := artifact;
      if c.staticFrontend {
        var read := CallAll(1);
        if !read { return Report(Stopping, false); }
      }
      var switched := SwitchTo(release.workspace, artifactId);
      if !switched {
        var restored := RestorePrevious(previous, previousArtifact);
        return Report(Switching, restored);
      }
      r := PublishRelease(release);
    }

    method RunOnce(release: Release, artifactId: string, mine: bool) returns (recorded: Verdict, r: Report)
      modifies this
      ensures (Now(), recorded, r) == Operation(c, old(Now()), release, artifactId, mine)
    {
      r, recorded := Report(Preparing, true), LEFT;
      var pinned := CallAll(3);
      if pinned { r := DeployRelease(release, artifactId, Some(active.workspace)); }
      if r.stage == Finished {
        var completed := Call();
        if Took(completed) { return SUCCEEDED, r; }
      }
      if mine {
        var noted := CallAll(1);
        if noted {
          var completed := Call();
          if Took(completed) { recorded := FAILED; }
        }
      }
    }
  }
}
