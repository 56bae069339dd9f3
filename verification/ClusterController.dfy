/** The API server with its informer cache as the cluster controller sees it, and
    the controller itself (pkg/controller/cluster/cluster_controller.go). */
module ClusterControl {
  import opened Objects
  import opened CertBundle
  import opened ClusterWorld
  import ControlPlane
  import Lifecycle
  import Outside
  import World

  // ---- The cache and the phase -----------------------------------------------------

  /** The state after i steps holds the cluster. */
  predicate ShownAt(start: State, log: seq<Step>, i: nat, ns: string, uid: nat)
    requires i <= |log|
  {
    Holds(Exec(start, log[..i]), ns, uid)
  }

  /** From `seen` on every state the cache can show holds the cluster. */
  ghost predicate ShownSince(start: State, log: seq<Step>, seen: nat, ns: string, uid: nat) {
    forall i {:trigger ShownAt(start, log, i, ns, uid)} :: seen <= i <= |log| ==> ShownAt(start, log, i, ns, uid)
  }

  /** The cache knows every cluster that was started. */
  ghost predicate Knows(start: State, log: seq<Step>, seen: nat) {
    var s := Exec(start, log);
    forall ns :: Started(s, ns) ==> ShownSince(start, log, seen, ns, s.clusters[ns].uid)
  }

  lemma ShownOneMore(start: State, log: seq<Step>, step: Step, seen: nat, ns: string, uid: nat)
    requires ShownSince(start, log, seen, ns, uid) && Holds(Next(Exec(start, log), step), ns, uid)
    ensures ShownSince(start, log + [step], seen, ns, uid)
  {
    var all := log + [step];
    forall i | seen <= i <= |all|
      ensures ShownAt(start, all, i, ns, uid)
    {
      if i <= |log| {
        assert all[..i] == log[..i];
        assert ShownAt(start, log, i, ns, uid);
      } else {
        assert all[..i] == all;
        ExecSnoc(start, log, step);
      }
    }
  }

  /** No step that leaves the phases alone can start a cluster. */
  lemma KnowsOneMore(start: State, log: seq<Step>, step: Step, seen: nat)
    requires Initial(start) && Knows(start, log, seen) && Enabled(Exec(start, log), step)
    requires forall c :: step.event == WriteCluster(c) ==> c.phase == Exec(start, log).clusters[c.ns].phase
    ensures Knows(start, log + [step], seen)
  {
    var s, t := Exec(start, log), Next(Exec(start, log), step);
    RunKeepsInv(start, log);
    ExecSnoc(start, log, step);
    forall ns | Started(t, ns)
      ensures ShownSince(start, log + [step], seen, ns, t.clusters[ns].uid)
    {
      assert Started(s, ns) && s.clusters[ns].uid == t.clusters[ns].uid;
      ShownOneMore(start, log, step, seen, ns, t.clusters[ns].uid);
    }
  }

  /** Starting a cluster that the cache showed at position `at` is known. */
  lemma KnowsStarted(start: State, log: seq<Step>, step: Step, seen: nat, at: nat, c: Cluster)
    requires Initial(start) && Knows(start, log, seen) && at <= seen <= |log|
    requires step.event == WriteCluster(c) && Enabled(Exec(start, log), step)
    requires Holds(Exec(start, log[..at]), c.ns, c.uid)
    ensures Knows(start, log + [step], seen)
  {
    var s, t := Exec(start, log), Next(Exec(start, log), step);
    RunKeepsInv(start, log);
    ExecSnoc(start, log, step);
    forall ns | Started(t, ns)
      ensures ShownSince(start, log + [step], seen, ns, t.clusters[ns].uid)
    {
      if ns == c.ns {
        assert Holds(s, ns, c.uid);
        forall i | seen <= i <= |log|
          ensures ShownAt(start, log, i, ns, c.uid)
        {
          HeldBetween(start, log, at, i, ns, c.uid);
        }
      } else {
        assert Started(s, ns) && s.clusters[ns] == t.clusters[ns];
      }
      ShownOneMore(start, log, step, seen, ns, t.clusters[ns].uid);
    }
  }

  /** What others cannot do: delete secrets and start clusters. */
  ghost predicate Drifts(s: State, t: State) {
    && (forall ns :: ns in s.secrets ==> ns in t.secrets)
    && (forall ns :: !Started(s, ns) ==> !Started(t, ns))
  }

  lemma OthersOnlyDrift(s: State, step: Step)
    requires Inv(s) && step.actor != ClusterController
    ensures Drifts(s, Next(s, step))
    ensures Enabled(s, step) ==> forall c :: step.event == WriteCluster(c) ==> c.phase == s.clusters[c.ns].phase
  {
  }

  /** Own steps of the controller from position `from` on. */
  ghost predicate NoRemoval(log: seq<Step>, from: nat) {
    forall i :: from <= i < |log| ==> !(log[i].actor == ClusterController && log[i].event.DeleteSecret?)
  }

  /** The phases are as they were, as far as this controller is concerned. */
  ghost predicate Silent(a: seq<Step>, b: seq<Step>) {
    a <= b && forall i :: |a| <= i < |b| ==> b[i].actor != ClusterController
  }

  /** A call of the controller and what it was answered. */
  datatype Call =
    | ClusterGot(ns: string, got: Result<Cluster, ApiError>)
    | SecretGot(ns: string, secret: Result<Secret, ApiError>)
    | SecretCreated(ns: string, data: map<string, Bytes>, created: Result<(), ApiError>)
    | SecretDeleted(ns: string, deleted: Result<(), ApiError>)
    | ClusterUpdated(c: Cluster, updated: Result<(), ApiError>)

  class Plane {
    const start: State
    var log: seq<Step>
    var state: State
    var seen: nat
    /** The calls that were made here, with all their answers so far, oldest first. */
    var calls: seq<Call>

    ghost predicate Valid()
      reads this
    {
      Initial(start) && state == Exec(start, log) && seen <= |log| && Knows(start, log, seen)
    }

    constructor (revision: nat)
      ensures Valid() && log == [] && calls == []
    {
      start := State(map[], map[], revision, 0);
      log, seen, calls := [], 0, [];
      state := State(map[], map[], revision, 0);
    }

    method Others()
      requires Valid()
      modifies this`log, this`state, this`seen
      ensures Valid() && Silent(old(log), log) && old(seen) <= seen && Drifts(old(state), state)
    {
      var rounds: nat := *;
      while rounds > 0
        invariant Valid() && Silent(old(log), log) && old(seen) <= seen && Drifts(old(state), state)
      {
        var step: Step := *;
        if step.actor != ClusterController && Enabled(state, step) {
          RunKeepsInv(start, log);
          OthersOnlyDrift(state, step);
          KnowsOneMore(start, log, step, seen);
          ExecSnoc(start, log, step);
          log, state := log + [step], Next(state, step);
        }
        var caught: nat := *;
        if seen <= caught <= |log| {
          seen := caught;
        }
        rounds := rounds - 1;
      }
    }

    /** client.Get of the cluster, from the cache. A cluster that the cache does
        not show was not started. `at` is the moment the cache shows. */
    method GetCluster(ns: string) returns (r: Result<Cluster, ApiError>, ghost at: nat)
      requires Valid()
      modifies this
      ensures calls == old(calls) + [ClusterGot(ns, r)]
      ensures Valid() && Silent(old(log), log) && Drifts(old(state), state)
      ensures old(seen) <= at == seen
      ensures r.Ok? ==>
                && ns in Exec(start, log[..at]).clusters
                && r.value == Exec(start, log[..at]).clusters[ns] && r.value.ns == ns
      ensures r == Err(NotFound) ==> ns !in Exec(start, log[..at]).clusters && !Started(state, ns)
    {
      Others();
      at := seen;
      var fails: bool := *;
      var cache := Exec(start, log[..seen]);
      if fails {
        var failure := ControlPlane.Failure();
        r := Err(failure);
      } else if ns in cache.clusters {
        RunKeepsInv(start, log[..seen]);
        r := Ok(cache.clusters[ns]);
      } else {
        if Started(state, ns) {
          assert ShownAt(start, log, seen, ns, state.clusters[ns].uid);
        }
        r := Err(NotFound);
      }
      calls := calls + [ClusterGot(ns, r)];
    }

    method GetSecret(ns: string) returns (r: Result<Secret, ApiError>)
      requires Valid()
      modifies this
      ensures calls == old(calls) + [SecretGot(ns, r)]
      ensures Valid() && Silent(old(log), log) && Drifts(old(state), state) && old(seen) <= seen
      ensures r.Ok? ==> ns in Exec(start, log[..seen]).secrets && r.value == Exec(start, log[..seen]).secrets[ns]
      ensures r == Err(NotFound) ==> ns !in Exec(start, log[..seen]).secrets
    {
      Others();
      var fails: bool := *;
      var failure := ControlPlane.Failure();
      var cache := Exec(start, log[..seen]);
      r := if fails then Err(failure) else if ns in cache.secrets then Ok(cache.secrets[ns]) else Err(NotFound);
      calls := calls + [SecretGot(ns, r)];
    }

    method CreateSecret(ns: string, data: map<string, Bytes>) returns (r: Result<(), ApiError>)
      requires Valid() && HasAllKeys(data)
      modifies this
      ensures calls == old(calls) + [SecretCreated(ns, data, r)]
      ensures Valid() && old(log) <= log && NoRemoval(log, |old(log)|) && old(seen) <= seen
      ensures Drifts(old(state), state)
      ensures ns in old(state).secrets ==> r.Err? && Silent(old(log), log)
      ensures r.Ok? ==> ns in state.secrets && !Started(state, ns)
    {
      Others();
      var refused: bool := *;
      if refused {
        var failure := ControlPlane.Failure();
        r := Err(failure);
      } else if ns in state.secrets {
        r := Err(AlreadyExists);
      } else {
        var step := Step(ClusterController, ClusterWorld.CreateSecret(ns, data));
        RunKeepsInv(start, log);
        KnowsOneMore(start, log, step, seen);
        ExecSnoc(start, log, step);
        log, state := log + [step], Next(state, step);
        var lost: bool := *;
        r := if lost then Err(Transport) else Ok(());
      }
      calls := calls + [SecretCreated(ns, data, r)];
    }

    /** client.Delete of the secret. */
    method DeleteSecret(ns: string) returns (r: Result<(), ApiError>)
      requires Valid() && !Started(state, ns)
      modifies this
      ensures calls == old(calls) + [SecretDeleted(ns, r)]
      ensures Valid() && old(log) <= log && old(seen) <= seen
      ensures r.Ok? ==> ns !in state.secrets
    {
      Others();
      var refused: bool := *;
      if refused {
        var failure := ControlPlane.Failure();
        r := Err(failure);
      } else if ns !in state.secrets {
        r := Err(NotFound);
      } else {
        var step := Step(ClusterController, ClusterWorld.DeleteSecret(ns));
        KnowsOneMore(start, log, step, seen);
        ExecSnoc(start, log, step);
        log, state := log + [step], Next(state, step);
        var lost: bool := *;
        r := if lost then Err(Transport) else Ok(());
      }
      calls := calls + [SecretDeleted(ns, r)];
    }

    /** client.Update of `c`, derived from the copy the cache showed at `at`. */
    method Update(c: Cluster, ghost copy: Cluster, ghost at: nat) returns (r: Result<(), ApiError>)
      requires Valid() && at <= seen
      requires copy.ns in Exec(start, log[..at]).clusters && copy == Exec(start, log[..at]).clusters[copy.ns]
      requires c == copy.(phase := c.phase, endpoint := c.endpoint, finalizers := c.finalizers)
      requires || (c.phase == Reconciling && c.ns in state.secrets && !Started(state, c.ns))
               || (c.phase == Running && copy.phase == Reconciling)
      modifies this
      ensures calls == old(calls) + [ClusterUpdated(c, r)]
      ensures Valid() && old(log) <= log && NoRemoval(log, |old(log)|) && old(seen) <= seen
      ensures r.Ok? ==> log[|log| - 1] == Step(ClusterController, WriteCluster(c)) && !Silent(old(log), log)
      ensures forall ns :: ns in old(state).secrets ==> ns in state.secrets
    {
      ghost var l0 := log;
      Others();
      assert log[..at] == l0[..at];
      var refused: bool := *;
      if refused {
        var failure := ControlPlane.Failure();
        r := Err(failure);
      } else if c.ns !in state.clusters {
        r := Err(NotFound);
      } else if state.clusters[c.ns].version != c.version {
        r := Err(Conflict);
      } else {
        RunKeepsInv(start, log);
        VersionIdentifies(start, log, at, c.ns);
        var step := Step(ClusterController, WriteCluster(c));
        KnowsStarted(start, log, step, seen, at, c);
        ExecSnoc(start, log, step);
        log, state := log + [step], Next(state, step);
        var lost: bool := *;
        r := if lost then Err(Transport) else Ok(());
      }
      calls := calls + [ClusterUpdated(c, r)];
    }
  }

  // ---- Claiming machines ---------------------------------------------------------------

  datatype Outcome = Done | RequeueSoon | Failing

  /** The last step of the run, made after position `from`, is the controller's
      write of the phase. */
  predicate LastWrites(log: seq<Step>, from: nat, ns: string, phase: ClusterPhase) {
    && |log| > from && log[|log| - 1].actor == ClusterController && log[|log| - 1].event.WriteCluster?
    && log[|log| - 1].event.c.ns == ns && log[|log| - 1].event.c.phase == phase
  }

  /** What a successful pass over the cluster `read` did to it. */
  ghost predicate Advances(read: Cluster, a: seq<Step>, b: seq<Step>) {
    match read.phase
    case NoPhase => LastWrites(b, |a|, read.ns, Reconciling)
    case Reconciling => LastWrites(b, |a|, read.ns, Running)
    case Running => Silent(a, b)
  }

  ghost predicate NoSecretAt(start: State, log: seq<Step>, i: nat, ns: string)
    requires i <= |log|
  {
    ns !in Exec(start, log[..i]).secrets
  }

  /** At some moment since position `from` the namespace had no secret. */
  ghost predicate SecretGone(start: State, log: seq<Step>, from: nat, ns: string) {
    exists i {:trigger NoSecretAt(start, log, i, ns)} :: from <= i <= |log| && NoSecretAt(start, log, i, ns)
  }

  /** The machine was given to the cluster, for ever. */
  ghost predicate ClaimedBy(s: World.State, m: Machine, uid: nat) {
    exists p :: p in s.past && p.uid == m.uid && ControlledBy(p, uid)
  }

  ghost predicate NoMachines(s: World.State, ns: string) {
    forall k :: k in s.machines ==> k.ns != ns
  }

  /** What a pass saw before it removed a secret: at some moment, no older than
      the pass, neither the cluster nor any machine was in the namespace. */
  ghost predicate SawNothing(start: State, log: seq<Step>, from: nat,
                             mstart: World.State, mlog: seq<World.Step>, mfrom: nat, ns: string)
  {
    && (exists i {:trigger log[..i]} :: from <= i <= |log| && ns !in Exec(start, log[..i]).clusters)
    && (exists j {:trigger mlog[..j]} :: mfrom <= j <= |mlog| && NoMachines(World.Exec(mstart, mlog[..j]), ns))
  }

  // ---- What the parts of a pass do for each answer --------------------------------------

  /** The listed machines without a controller, in order. */
  function Unclaimed(list: seq<Machine>): seq<Machine> {
    if list == [] then []
    else
      Unclaimed(list[..|list| - 1]) +
      if Controllers(list[|list| - 1].owners) == [] then [list[|list| - 1]] else []
  }

  lemma UnclaimedSnoc(list: seq<Machine>, i: nat)
    requires i < |list|
    ensures Unclaimed(list[..i + 1]) ==
            Unclaimed(list[..i]) + if Controllers(list[i].owners) == [] then [list[i]] else []
  {
    assert list[..i + 1][..i] == list[..i];
  }

  lemma {:induction false} UnclaimedPrefix(list: seq<Machine>, i: nat)
    requires i <= |list|
    ensures Unclaimed(list[..i]) <= Unclaimed(list)
    decreases |list|
  {
    if i == |list| {
      assert list[..i] == list;
    } else {
      var front := list[..|list| - 1];
      assert list[..i] == front[..i];
      UnclaimedPrefix(front, i);
    }
  }

  /** Call i is the update that gives the i-th of these machines to the cluster. */
  predicate Claims(uid: nat, orphans: seq<Machine>, calls: seq<ControlPlane.Call>, i: nat)
    requires i < |calls|
  {
    && i < |orphans| && calls[i].UpdateCall?
    && calls[i].m == orphans[i].(owners := orphans[i].owners + [OwnerRef(ClusterOwner, uid, true)])
  }

  /** The machines are claimed in order, up to the first refusal. */
  ghost predicate ClaimTrace(uid: nat, orphans: seq<Machine>, calls: seq<ControlPlane.Call>, ok: bool) {
    && (forall i :: 0 <= i < |calls| ==> Claims(uid, orphans, calls, i))
    && (forall i :: 0 <= i < |calls| - 1 ==> Accepted(calls[i]))
    && if ok then |calls| == |orphans| && (calls != [] ==> Accepted(calls[|calls| - 1]))
       else calls != [] && !Accepted(calls[|calls| - 1])
  }

  predicate Accepted(call: ControlPlane.Call) {
    call.UpdateCall? && call.updated.Ok?
  }

  lemma OneMoreClaim(uid: nat, list: seq<Machine>, i: nat, calls: seq<ControlPlane.Call>,
                     made: seq<ControlPlane.Call>)
    requires i < |list| && ClaimTrace(uid, Unclaimed(list[..i]), calls, true)
    requires if Controllers(list[i].owners) != [] then made == []
             else |made| == 1 && Claims(uid, [list[i]], made, 0)
    ensures ClaimTrace(uid, Unclaimed(list[..i + 1]), calls + made, made == [] || Accepted(made[0]))
  {
    UnclaimedSnoc(list, i);
    if made == [] {
      assert calls + made == calls && Unclaimed(list[..i + 1]) == Unclaimed(list[..i]);
    } else {
      ClaimSnoc(uid, Unclaimed(list[..i]), calls, list[i], made[0]);
      assert made == [made[0]];
    }
  }

  lemma ClaimSnoc(uid: nat, orphans: seq<Machine>, calls: seq<ControlPlane.Call>, m: Machine,
                  call: ControlPlane.Call)
    requires ClaimTrace(uid, orphans, calls, true) && Claims(uid, [m], [call], 0)
    ensures ClaimTrace(uid, orphans + [m], calls + [call], Accepted(call))
  {
    var more, all := orphans + [m], calls + [call];
    forall j | 0 <= j < |all|
      ensures Claims(uid, more, all, j) && (j < |calls| ==> Accepted(all[j]))
    {
      if j < |calls| {
        assert Claims(uid, orphans, calls, j);
      } else {
        assert [call][0] == call && [m][0] == m;
      }
    }
  }

  lemma RefusedEarlier(uid: nat, list: seq<Machine>, i: nat, calls: seq<ControlPlane.Call>)
    requires i <= |list| && ClaimTrace(uid, Unclaimed(list[..i]), calls, false)
    ensures ClaimTrace(uid, Unclaimed(list), calls, false)
  {
    UnclaimedPrefix(list, i);
    forall j | 0 <= j < |calls|
      ensures Claims(uid, Unclaimed(list), calls, j)
    {
      assert Claims(uid, Unclaimed(list[..i]), calls, j);
    }
  }

  /** The first n machines without a controller were given to the cluster. */
  ghost predicate AllClaimed(s: World.State, list: seq<Machine>, n: nat, uid: nat)
    requires n <= |list|
  {
    forall j :: 0 <= j < n && Controllers(list[j].owners) == [] ==> ClaimedBy(s, list[j], uid)
  }

  lemma ClaimedLater(s: World.State, t: World.State, list: seq<Machine>, n: nat, uid: nat)
    requires n < |list| && AllClaimed(s, list, n, uid) && s.past <= t.past
    requires Controllers(list[n].owners) == [] ==> ClaimedBy(t, list[n], uid)
    ensures AllClaimed(t, list, n + 1, uid)
  {
    forall j | 0 <= j < n && Controllers(list[j].owners) == []
      ensures ClaimedBy(t, list[j], uid)
    {
      var p :| p in s.past && p.uid == list[j].uid && ControlledBy(p, uid);
      assert p in t.past;
    }
  }

  /** createClusterSecrets: the parts of a new bundle are stored as the secret. */
  ghost predicate SecretsTrace(ns: string, heard: seq<Outside.Answer>, calls: seq<Call>, ok: bool) {
    && |heard| == 1 && heard[0].BundleMade?
    && match heard[0].bundle
       case Err(_) => calls == [] && !ok
       case Ok(bundle) =>
         && |calls| == 1 && calls[0].SecretCreated? && calls[0].ns == ns
         && Agrees(bundle, calls[0].data) && (forall k :: k in calls[0].data ==> k in KEYS)
         && ok == calls[0].created.Ok?
  }

  /** updateStatus: what is written is the cluster as it was read, with the status
      and the finalizers of the older copy. */
  ghost predicate StatusTrace(cluster: Cluster, calls: seq<Call>, ok: bool) {
    && |calls| > 0 && calls[0].ClusterGot? && calls[0].ns == cluster.ns
    && match calls[0].got
       case Err(_) => |calls| == 1 && !ok
       case Ok(latest) =>
         && |calls| == 2 && calls[1].ClusterUpdated?
         && calls[1].c == latest.(phase := cluster.phase, endpoint := cluster.endpoint,
                                  finalizers := cluster.finalizers)
         && ok == calls[1].updated.Ok?
  }

  ghost predicate StartTrace(cluster: Cluster, heard: seq<Outside.Answer>, calls: seq<Call>, outcome: Outcome) {
    if SecretsTrace(cluster.ns, heard, calls, false) then outcome == Failing
    else
      && |calls| > 0 && SecretsTrace(cluster.ns, heard, calls[..1], true)
      && outcome in {Done, Failing}
      && StatusTrace(cluster.(phase := Reconciling), calls[1..], outcome == Done)
  }

  /** The cluster becomes Running exactly if it can be reached with the kubeconfig
      in the secret and has a cluster service. */
  ghost predicate CheckTrace(cluster: Cluster, heard: seq<Outside.Answer>, calls: seq<Call>, outcome: Outcome) {
    && |calls| > 0 && calls[0].SecretGot? && calls[0].ns == cluster.ns
    && if calls[0].secret.Err? || !HasKubeconfig(calls[0].secret.value.data) then
         |calls| == 1 && heard == [] && outcome == Failing
       else
         && |heard| > 0 && heard[0].ClientBuilt? && heard[0].config == KubeconfigOf(calls[0].secret.value.data)
         && if !heard[0].built then |heard| == 1 && |calls| == 1 && outcome == Failing
            else
              && |heard| == 2 && heard[1].ServicesListed?
              && RunningTrace(cluster, heard[1].services, calls[1..], outcome)
  }

  ghost predicate RunningTrace(cluster: Cluster, services: Result<nat, ApiError>, calls: seq<Call>, outcome: Outcome) {
    match services
    case Err(e) => calls == [] && outcome == if e == NotFound then RequeueSoon else Failing
    case Ok(n) =>
      if n == 0 then calls == [] && outcome == Failing
      else
        && |calls| == 1 && calls[0].ClusterUpdated? && calls[0].c == cluster.(phase := Running)
        && outcome == if calls[0].updated.Ok? then Done else Failing
  }

  /** Without the cluster: the secret goes exactly if no machine was listed. */
  ghost predicate TearDownTrace(ns: string, listing: seq<ControlPlane.Call>, calls: seq<Call>, outcome: Outcome) {
    && |listing| == 1 && listing[0].ListCall? && listing[0].ns == ns
    && match listing[0].listed
       case Err(_) => calls == [] && outcome == Failing
       case Ok(list) =>
         if list != [] then calls == [] && outcome == RequeueSoon else RemovalTrace(ns, calls, outcome)
  }

  ghost predicate RemovalTrace(ns: string, calls: seq<Call>, outcome: Outcome) {
    && |calls| > 0 && calls[0].SecretGot? && calls[0].ns == ns
    && match calls[0].secret
       case Err(e) => |calls| == 1 && outcome == if e == NotFound then Done else Failing
       case Ok(_) =>
         && |calls| == 2 && calls[1].SecretDeleted? && calls[1].ns == ns
         && outcome == if calls[1].deleted.Ok? then Done else Failing
  }

  /** The switch over the phase. */
  ghost predicate PhaseTrace(cluster: Cluster, heard: seq<Outside.Answer>, calls: seq<Call>, outcome: Outcome) {
    match cluster.phase
    case NoPhase => StartTrace(cluster, heard, calls, outcome)
    case Reconciling => CheckTrace(cluster, heard, calls, outcome)
    case Running => heard == [] && calls == [] && outcome == Done
  }

  /** The machines of the namespace are listed and claimed. */
  ghost predicate ListTrace(ns: string, uid: nat, claiming: seq<ControlPlane.Call>, listed: seq<Machine>, ok: bool) {
    && |claiming| > 0 && claiming[0].ListCall? && claiming[0].ns == ns
    && match claiming[0].listed
       case Err(_) => |claiming| == 1 && !ok
       case Ok(list) => listed == list && ClaimTrace(uid, Unclaimed(list), claiming[1..], ok)
  }

  /** The phase is handled exactly if all machines were listed and claimed. */
  ghost predicate ClusterTrace(cluster: Cluster, listed: seq<Machine>, claiming: seq<ControlPlane.Call>,
                               heard: seq<Outside.Answer>, calls: seq<Call>, outcome: Outcome)
  {
    if ListTrace(cluster.ns, cluster.uid, claiming, listed, true) then PhaseTrace(cluster, heard, calls, outcome)
    else
      && ListTrace(cluster.ns, cluster.uid, claiming, listed, false)
      && heard == [] && calls == [] && outcome == Failing
  }

  /** A whole pass, for all the answers it was given. */
  ghost predicate PassTrace(ns: string, listed: seq<Machine>, claiming: seq<ControlPlane.Call>,
                            heard: seq<Outside.Answer>, calls: seq<Call>, outcome: Outcome)
  {
    && |calls| > 0 && calls[0].ClusterGot? && calls[0].ns == ns
    && RestTrace(ns, calls[0].got, listed, claiming, heard, calls[1..], outcome)
  }

  /** From the answer to the read of the cluster on. */
  ghost predicate RestTrace(ns: string, got: Result<Cluster, ApiError>, listed: seq<Machine>,
                            claiming: seq<ControlPlane.Call>, heard: seq<Outside.Answer>, calls: seq<Call>,
                            outcome: Outcome)
  {
    match got
    case Err(e) =>
      && heard == []
      && if e == NotFound then TearDownTrace(ns, claiming, calls, outcome)
         else claiming == [] && calls == [] && outcome == Failing
    case Ok(cluster) =>
      cluster.ns == ns && ClusterTrace(cluster, listed, claiming, heard, calls, outcome)
  }

  /** What a pass did. */
  datatype Pass = Pass(listed: seq<Machine>, claiming: seq<ControlPlane.Call>, heard: seq<Outside.Answer>,
                       calls: seq<Call>, outcome: Outcome)

  /** All that was asked before and in these passes. */
  datatype Asked = Asked(claiming: seq<ControlPlane.Call>, heard: seq<Outside.Answer>, calls: seq<Call>)

  function AllAsked(first: Asked, passes: seq<Pass>): Asked {
    if passes == [] then first
    else
      var before, last := AllAsked(first, passes[..|passes| - 1]), passes[|passes| - 1];
      Asked(before.claiming + last.claiming, before.heard + last.heard, before.calls + last.calls)
  }

  /** The passes over these namespaces went as PassTrace says, and nothing else was
      asked. */
  ghost predicate PassesMade(namespaces: seq<string>, passes: seq<Pass>, first: Asked, asked: Asked) {
    && |passes| == |namespaces|
    && (forall p :: 0 <= p < |passes| ==> MadeBy(namespaces[p], passes[p]))
    && asked == AllAsked(first, passes)
  }

  ghost predicate MadeBy(ns: string, pass: Pass) {
    PassTrace(ns, pass.listed, pass.claiming, pass.heard, pass.calls, pass.outcome)
  }

  lemma OnePassMade(namespaces: seq<string>, i: nat, passes: seq<Pass>, first: Asked, asked: Asked, pass: Pass)
    requires i < |namespaces| && PassesMade(namespaces[..i], passes, first, asked) && MadeBy(namespaces[i], pass)
    ensures PassesMade(namespaces[..i + 1], passes + [pass], first,
                       Asked(asked.claiming + pass.claiming, asked.heard + pass.heard, asked.calls + pass.calls))
  {
    assert (passes + [pass])[..|passes|] == passes;
    forall p | 0 <= p < i
      ensures MadeBy(namespaces[p], passes[p])
    {
      assert namespaces[..i][p] == namespaces[p];
    }
  }

  class ReconcileCluster {
    const plane: Plane
    const machines: ControlPlane.Plane
    const remote: Outside.Remote

    constructor (plane: Plane, machines: ControlPlane.Plane, remote: Outside.Remote)
      ensures this.plane == plane && this.machines == machines && this.remote == remote
    {
      this.plane, this.machines, this.remote := plane, machines, remote;
    }

    ghost predicate Valid()
      reads this, plane, machines
    {
      plane.Valid() && machines.Valid()
    }

    /** canClaim. */
    method CanClaim(m: Machine) returns (free: bool)
      ensures free <==> Controllers(m.owners) == []
    {
      for i := 0 to |m.owners|
        invariant Controllers(m.owners) == Controllers(m.owners[i..])
      {
        if m.owners[i].controller {
          return false;
        }
        assert m.owners[i..][1..] == m.owners[i + 1..];
      }
      return true;
    }

    /** Appends the controller reference and updates the machine. */
    method Claim(uid: nat, machine: Machine) returns (r: Result<Machine, ApiError>)
      requires machines.Valid() && machine in machines.state.past && Controllers(machine.owners) == []
      modifies machines
      ensures machines.calls == old(machines.calls) + [ControlPlane.UpdateCall(
                machine.(owners := machine.owners + [OwnerRef(ClusterOwner, uid, true)]), r)]
      ensures machines.Valid() && old(machines.state).past <= machines.state.past && old(machines.seen) <= machines.seen
      ensures r.Ok? ==> r.value.uid == machine.uid && ControlledBy(r.value, uid) && r.value in machines.state.past
    {
      Lifecycle.RunKeepsInv(machines.start, machines.log);
      assert Lifecycle.MachineOk(machine);
      var ref := OwnerRef(ClusterOwner, uid, true);
      ControllersAppend(machine.owners, ref);
      var m := machine.(owners := machine.owners + [ref]);
      assert |m.owners| == |machine.owners| + 1;
      ghost var applied;
      r, applied := machines.Update(World.ClusterController, m, machine);
    }

    /** claimMachines: stops at the first update that fails. On success every
        listed machine without a controller was given to the cluster. */
    method ClaimMachines(uid: nat, list: seq<Machine>) returns (ok: bool, ghost calls: seq<ControlPlane.Call>)
      requires machines.Valid() && forall m :: m in list ==> m in machines.state.past
      modifies machines
      ensures machines.Valid() && old(machines.state).past <= machines.state.past && old(machines.seen) <= machines.seen
      ensures machines.calls == old(machines.calls) + calls && ClaimTrace(uid, Unclaimed(list), calls, ok)
      ensures ok ==> forall m :: m in list && Controllers(m.owners) == [] ==> ClaimedBy(machines.state, m, uid)
    {
      ghost var c0 := machines.calls;
      calls := [];
      for i := 0 to |list|
        invariant machines.Valid() && old(machines.state).past <= machines.state.past
            && old(machines.seen) <= machines.seen
        invariant machines.calls == c0 + calls && ClaimTrace(uid, Unclaimed(list[..i]), calls, true)
        invariant AllClaimed(machines.state, list, i, uid)
      {
        assert list[i] in list;
        var ok;
        ok, calls := ClaimNext(uid, list, i, c0, calls);
        if !ok {
          return false, calls;
        }
      }
      assert list[..|list|] == list;
      ListClaimed(machines.state, list, uid);
      return true, calls;
    }

    lemma ListClaimed(s: World.State, list: seq<Machine>, uid: nat)
      requires AllClaimed(s, list, |list|, uid)
      ensures forall m :: m in list && Controllers(m.owners) == [] ==> ClaimedBy(s, m, uid)
    {
    }

    /** The body of the loop of claimMachines. */
    method ClaimNext(uid: nat, list: seq<Machine>, i: nat, ghost c0: seq<ControlPlane.Call>,
                     ghost calls: seq<ControlPlane.Call>)
      returns (ok: bool, ghost more: seq<ControlPlane.Call>)
      requires machines.Valid() && i < |list| && list[i] in machines.state.past && machines.calls == c0 + calls
      requires ClaimTrace(uid, Unclaimed(list[..i]), calls, true) && AllClaimed(machines.state, list, i, uid)
      modifies machines
      ensures machines.Valid() && old(machines.state).past <= machines.state.past && old(machines.seen) <= machines.seen
      ensures machines.calls == c0 + more
      ensures if ok then
                ClaimTrace(uid, Unclaimed(list[..i + 1]), more, true) && AllClaimed(machines.state, list, i + 1, uid)
              else ClaimTrace(uid, Unclaimed(list), more, false)
    {
      ghost var s := machines.state;
      ghost var made;
      ok, made := ClaimOne(uid, list[i]);
      OneMoreClaim(uid, list, i, calls, made);
      assert c0 + calls + made == c0 + (calls + made);
      more := calls + made;
      if ok {
        ClaimedLater(s, machines.state, list, i, uid);
      } else {
        RefusedEarlier(uid, list, i + 1, more);
      }
    }

    method ClaimOne(uid: nat, m: Machine) returns (ok: bool, ghost made: seq<ControlPlane.Call>)
      requires machines.Valid() && m in machines.state.past
      modifies machines
      ensures machines.Valid() && old(machines.state).past <= machines.state.past && old(machines.seen) <= machines.seen
      ensures machines.calls == old(machines.calls) + made
      ensures if Controllers(m.owners) != [] then made == [] && ok
              else |made| == 1 && Claims(uid, [m], made, 0) && ok == Accepted(made[0])
      ensures ok && Controllers(m.owners) == [] ==> ClaimedBy(machines.state, m, uid)
    {
      var free := CanClaim(m);
      if !free {
        return true, [];
      }
      var r := Claim(uid, m);
      made := [ControlPlane.UpdateCall(m.(owners := m.owners + [OwnerRef(ClusterOwner, uid, true)]), r)];
      return r.Ok?, made;
    }

    // ---- Phases ------------------------------------------------------------------------

    /** createClusterSecrets. It cannot succeed while the namespace has a secret. */
    method CreateClusterSecrets(ns: string)
        returns (ok: bool, ghost heard: seq<Outside.Answer>, ghost calls: seq<Call>)
      requires plane.Valid()
      modifies plane, remote
      ensures plane.Valid() && old(plane.log) <= plane.log && old(plane.seen) <= plane.seen
      ensures remote.answers == old(remote.answers) + heard && plane.calls == old(plane.calls) + calls
      ensures SecretsTrace(ns, heard, calls, ok)
      ensures NoRemoval(plane.log, |old(plane.log)|)
      ensures Drifts(old(plane.state), plane.state)
      ensures ns in old(plane.state).secrets ==> !ok && Silent(old(plane.log), plane.log)
      ensures ok ==> ns in plane.state.secrets && !Started(plane.state, ns)
    {
      var generated := remote.MakeBundle();
      heard, calls := [Outside.BundleMade(generated)], [];
      if generated.Err? {
        return false, heard, calls;
      }
      var secret := new SecretData(map[]);
      secret.MergeBundle(generated.value);
      var r := plane.CreateSecret(ns, secret.data);
      calls := [SecretCreated(ns, secret.data, r)];
      return r.Ok?, heard, calls;
    }

    /** updateStatus: the phase, the endpoint and the finalizers of an older copy
        are written into a fresh one. */
    method UpdateStatus(cluster: Cluster) returns (ok: bool, ghost calls: seq<Call>)
      requires plane.Valid() && cluster.phase == Reconciling
      requires cluster.ns in plane.state.secrets && !Started(plane.state, cluster.ns)
      modifies plane
      ensures plane.Valid() && old(plane.log) <= plane.log && old(plane.seen) <= plane.seen
      ensures plane.calls == old(plane.calls) + calls && StatusTrace(cluster, calls, ok)
      ensures NoRemoval(plane.log, |old(plane.log)|)
      ensures ok ==> LastWrites(plane.log, |old(plane.log)|, cluster.ns, Reconciling)
                     && plane.log[|plane.log| - 1].event.c.endpoint == cluster.endpoint
                     && plane.log[|plane.log| - 1].event.c.finalizers == cluster.finalizers
    {
      var r, at := plane.GetCluster(cluster.ns);
      calls := [ClusterGot(cluster.ns, r)];
      if r.Err? {
        return false, calls;
      }
      var latest := r.value;
      var c := latest.(phase := cluster.phase, endpoint := cluster.endpoint, finalizers := cluster.finalizers);
      var updated := plane.Update(c, latest, at);
      calls := calls + [ClusterUpdated(c, updated)];
      return updated.Ok?, calls;
    }

    /** Phase "": first the secret, then the phase. */
    method StartCluster(cluster: Cluster)
        returns (outcome: Outcome, ghost heard: seq<Outside.Answer>, ghost calls: seq<Call>)
      requires plane.Valid() && cluster.phase == NoPhase
      modifies plane, remote
      ensures plane.Valid() && old(plane.log) <= plane.log && old(plane.seen) <= plane.seen
      ensures remote.answers == old(remote.answers) + heard && plane.calls == old(plane.calls) + calls
      ensures StartTrace(cluster, heard, calls, outcome)
      ensures NoRemoval(plane.log, |old(plane.log)|)
      ensures cluster.ns in old(plane.state).secrets ==> outcome == Failing && Silent(old(plane.log), plane.log)
      ensures outcome == Done ==> LastWrites(plane.log, |old(plane.log)|, cluster.ns, Reconciling)
      ensures outcome != RequeueSoon
    {
      var created;
      created, heard, calls := CreateClusterSecrets(cluster.ns);
      if !created {
        return Failing, heard, calls;
      }
      var ok, more := UpdateStatus(cluster.(phase := Reconciling));
      assert (calls + more)[..1] == calls && (calls + more)[1..] == more;
      return if ok then Done else Failing, heard, calls + more;
    }

    /** Phase Reconciling: the cluster runs once its services answer. */
    method CheckServices(cluster: Cluster, ghost at: nat)
        returns (outcome: Outcome, ghost heard: seq<Outside.Answer>, ghost calls: seq<Call>)
      requires plane.Valid() && at <= plane.seen && cluster.phase == Reconciling
      requires cluster.ns in Exec(plane.start, plane.log[..at]).clusters
               && cluster == Exec(plane.start, plane.log[..at]).clusters[cluster.ns]
      modifies plane, remote
      ensures plane.Valid() && old(plane.log) <= plane.log && old(plane.seen) <= plane.seen
      ensures remote.answers == old(remote.answers) + heard && plane.calls == old(plane.calls) + calls
      ensures CheckTrace(cluster, heard, calls, outcome)
      ensures NoRemoval(plane.log, |old(plane.log)|)
      ensures outcome == Done ==> LastWrites(plane.log, |old(plane.log)|, cluster.ns, Running)
                                  && plane.log[|plane.log| - 1].event.c == cluster.(phase := Running)
    {
      ghost var l0 := plane.log;
      var secret := plane.GetSecret(cluster.ns);
      calls, heard := [SecretGot(cluster.ns, secret)], [];
      assert plane.log[..at] == l0[..at];
      var data: map<string, Bytes> := if secret.Ok? then secret.value.data else map[];
      if KUBECONFIG_KEY !in data || data[KUBECONFIG_KEY] == [] {
        return Failing, heard, calls;
      }
      var config := data[KUBECONFIG_KEY];
      var built := remote.BuildClient(config);
      heard := [Outside.ClientBuilt(config, built)];
      if !built {
        return Failing, heard, calls;
      }
      var services := remote.ListServices();
      heard := heard + [Outside.ServicesListed(services)];
      if services == Err(NotFound) {
        return RequeueSoon, heard, calls;
      } else if services.Err? {
        return Failing, heard, calls;
      }
      if services.value > 0 {
        var r := plane.Update(cluster.(phase := Running), cluster, at);
        calls := calls + [ClusterUpdated(cluster.(phase := Running), r)];
        return if r.Ok? then Done else Failing, heard, calls;
      }
      return Failing, heard, calls;
    }

    /** The cluster is gone: once its machines are gone too, the secret goes. */
    method TearDown(ns: string, ghost from: nat, ghost at: nat)
        returns (outcome: Outcome, ghost listing: seq<ControlPlane.Call>, ghost calls: seq<Call>)
      requires Valid() && !Started(plane.state, ns)
      requires from <= at <= plane.seen && ns !in Exec(plane.start, plane.log[..at]).clusters
      modifies plane, machines
      ensures Valid() && old(plane.log) <= plane.log && old(plane.seen) <= plane.seen
      ensures old(machines.log) <= machines.log && old(machines.seen) <= machines.seen
      ensures machines.calls == old(machines.calls) + listing && plane.calls == old(plane.calls) + calls
      ensures TearDownTrace(ns, listing, calls, outcome)
      ensures NoRemoval(plane.log, |old(plane.log)|)
              || SawNothing(plane.start, plane.log, from, machines.start, machines.log, old(machines.seen), ns)
      ensures outcome == Done ==> SecretGone(plane.start, plane.log, old(plane.seen), ns)
    {
      ghost var l0 := plane.log;
      var listed := machines.List(World.ClusterController, ns);
      listing, calls := [ControlPlane.ListCall(ns, listed)], [];
      if listed.Err? {
        return Failing, listing, calls;
      }
      if |listed.value| != 0 {
        return RequeueSoon, listing, calls;
      }
      Lifecycle.RunKeepsInv(machines.start, machines.log[..machines.seen]);
      EmptyListMeansNone(machines.Cached(), ns, listed.value);
      assert machines.log[..machines.seen] == machines.log[..machines.seen];
      outcome, calls := RemoveSecret(ns);
      assert plane.log[..at] == l0[..at];
    }

    method RemoveSecret(ns: string) returns (outcome: Outcome, ghost calls: seq<Call>)
      requires plane.Valid() && !Started(plane.state, ns)
      modifies plane
      ensures plane.Valid() && old(plane.log) <= plane.log && old(plane.seen) <= plane.seen
      ensures plane.calls == old(plane.calls) + calls && RemovalTrace(ns, calls, outcome)
      ensures outcome == Done ==> SecretGone(plane.start, plane.log, old(plane.seen), ns)
    {
      var secret := plane.GetSecret(ns);
      calls := [SecretGot(ns, secret)];
      if secret == Err(NotFound) {
        assert NoSecretAt(plane.start, plane.log, plane.seen, ns);
        return Done, calls;
      } else if secret.Err? {
        return Failing, calls;
      }
      var r := plane.DeleteSecret(ns);
      calls := calls + [SecretDeleted(ns, r)];
      assert plane.log[..|plane.log|] == plane.log;
      assert r.Ok? ==> NoSecretAt(plane.start, plane.log, |plane.log|, ns);
      return if r.Ok? then Done else Failing, calls;
    }

    lemma EmptyListMeansNone(s: World.State, ns: string, list: seq<Machine>)
      requires forall m :: m in list <==> m in s.machines.Values && m.key.ns == ns
      requires list == [] && forall k :: k in s.machines ==> s.machines[k].key == k
      ensures NoMachines(s, ns)
    {
      forall k | k in s.machines
        ensures k.ns != ns
      {
        assert s.machines[k] in s.machines.Values;
        assert s.machines[k] !in list;
      }
    }

    /** One pass. It removes a secret only if it saw neither the cluster nor a
        machine in the namespace; otherwise a successful pass has claimed the
        listed machines and taken the cluster, as it was read, one phase further. */
    method Reconcile(ns: string)
      returns (outcome: Outcome, ghost read: Option<Cluster>, ghost listed: seq<Machine>,
               ghost claiming: seq<ControlPlane.Call>, ghost heard: seq<Outside.Answer>, ghost calls: seq<Call>)
      requires Valid()
      modifies plane, machines, remote
      ensures Valid() && old(plane.log) <= plane.log && old(plane.seen) <= plane.seen
      ensures machines.calls == old(machines.calls) + claiming && plane.calls == old(plane.calls) + calls
      ensures remote.answers == old(remote.answers) + heard
      ensures PassTrace(ns, listed, claiming, heard, calls, outcome)
      ensures NoRemoval(plane.log, |old(plane.log)|)
              || SawNothing(plane.start, plane.log, old(plane.seen), machines.start, machines.log, old(machines.seen),
                  ns)
      ensures read.Some? ==> NoRemoval(plane.log, |old(plane.log)|)
      ensures outcome == Done && read.None? ==> SecretGone(plane.start, plane.log, old(plane.seen), ns)
      ensures outcome == Done && read.Some? ==> read.value.ns == ns && Advances(read.value, old(plane.log), plane.log)
      ensures outcome == Done && read.Some? ==>
                forall m :: m in listed && Controllers(m.owners) == [] ==> ClaimedBy(machines.state, m, read.value.uid)
    {
      ghost var seen0 := plane.seen;
      var got, at := plane.GetCluster(ns);
      read := if got.Ok? then Some(got.value) else None;
      ghost var more;
      outcome, listed, claiming, heard, more := Continue(ns, got, seen0, at);
      calls := [ClusterGot(ns, got)] + more;
      assert calls[1..] == more;
      SecretGoneSince(plane.start, plane.log, seen0, at, ns);
    }

    /** The pass from the answer to the read of the cluster on. */
    method Continue(ns: string, got: Result<Cluster, ApiError>, ghost from: nat, ghost at: nat)
      returns (outcome: Outcome, ghost listed: seq<Machine>, ghost claiming: seq<ControlPlane.Call>,
               ghost heard: seq<Outside.Answer>, ghost calls: seq<Call>)
      requires Valid() && from <= at == plane.seen
      requires got.Ok? ==>
                 && got.value.ns == ns && ns in Exec(plane.start, plane.log[..at]).clusters
                 && got.value == Exec(plane.start, plane.log[..at]).clusters[ns]
      requires got == Err(NotFound) ==> ns !in Exec(plane.start, plane.log[..at]).clusters && !Started(plane.state, ns)
      modifies plane, machines, remote
      ensures Valid() && old(plane.log) <= plane.log && old(plane.seen) <= plane.seen
      ensures machines.calls == old(machines.calls) + claiming && plane.calls == old(plane.calls) + calls
      ensures remote.answers == old(remote.answers) + heard
      ensures RestTrace(ns, got, listed, claiming, heard, calls, outcome)
      ensures NoRemoval(plane.log, |old(plane.log)|)
              || SawNothing(plane.start, plane.log, from, machines.start, machines.log, old(machines.seen), ns)
      ensures got.Ok? ==> NoRemoval(plane.log, |old(plane.log)|)
      ensures outcome == Done && got.Err? ==> SecretGone(plane.start, plane.log, at, ns)
      ensures outcome == Done && got.Ok? ==> Advances(got.value, old(plane.log), plane.log)
      ensures outcome == Done && got.Ok? ==>
                forall m :: m in listed && Controllers(m.owners) == [] ==> ClaimedBy(machines.state, m, got.value.uid)
    {
      match got
      case Ok(cluster) =>
        outcome, listed, claiming, heard, calls := HandleCluster(cluster, at);
      case Err(NotFound) =>
        listed, heard := [], [];
        outcome, claiming, calls := TearDown(ns, from, at);
      case Err(_) =>
        outcome, listed, claiming, heard, calls := Failing, [], [], [], [];
    }

    /** The pass over a cluster: its machines are claimed before its phase is
        looked at. */
    method HandleCluster(cluster: Cluster, ghost at: nat)
      returns (outcome: Outcome, ghost listed: seq<Machine>, ghost claiming: seq<ControlPlane.Call>,
               ghost heard: seq<Outside.Answer>, ghost calls: seq<Call>)
      requires Valid() && at <= plane.seen
      requires cluster.ns in Exec(plane.start, plane.log[..at]).clusters
               && cluster == Exec(plane.start, plane.log[..at]).clusters[cluster.ns]
      modifies plane, machines, remote
      ensures Valid() && old(plane.log) <= plane.log && old(plane.seen) <= plane.seen
      ensures machines.calls == old(machines.calls) + claiming && plane.calls == old(plane.calls) + calls
      ensures remote.answers == old(remote.answers) + heard
      ensures ClusterTrace(cluster, listed, claiming, heard, calls, outcome)
      ensures NoRemoval(plane.log, |old(plane.log)|)
      ensures outcome == Done ==> Advances(cluster, old(plane.log), plane.log)
      ensures outcome == Done ==>
                forall m :: m in listed && Controllers(m.owners) == [] ==> ClaimedBy(machines.state, m, cluster.uid)
    {
      var ok;
      ok, listed, claiming := ListAndClaim(cluster.ns, cluster.uid);
      if !ok {
        return Failing, listed, claiming, [], [];
      }
      outcome, heard, calls := HandlePhase(cluster, at);
    }

    /** Lists the machines of the namespace and claims those without a controller. */
    method ListAndClaim(ns: string, uid: nat)
        returns (ok: bool, ghost listed: seq<Machine>, ghost claiming: seq<ControlPlane.Call>)
      requires machines.Valid()
      modifies machines
      ensures machines.Valid() && machines.calls == old(machines.calls) + claiming
      ensures ListTrace(ns, uid, claiming, listed, ok) && (!ok ==> !ListTrace(ns, uid, claiming, listed, true))
      ensures ok ==> forall m :: m in listed && Controllers(m.owners) == [] ==> ClaimedBy(machines.state, m, uid)
    {
      var list := machines.List(World.ClusterController, ns);
      listed, claiming := [], [ControlPlane.ListCall(ns, list)];
      if list.Err? {
        return false, listed, claiming;
      }
      listed := list.value;
      ghost var more;
      ok, more := ClaimMachines(uid, list.value);
      claiming := claiming + more;
      assert claiming[1..] == more;
    }

    /** The switch over the phase of the cluster. */
    method HandlePhase(cluster: Cluster, ghost at: nat)
        returns (outcome: Outcome, ghost heard: seq<Outside.Answer>, ghost calls: seq<Call>)
      requires plane.Valid() && at <= plane.seen
      requires cluster.ns in Exec(plane.start, plane.log[..at]).clusters
               && cluster == Exec(plane.start, plane.log[..at]).clusters[cluster.ns]
      modifies plane, remote
      ensures plane.Valid() && old(plane.log) <= plane.log && old(plane.seen) <= plane.seen
      ensures remote.answers == old(remote.answers) + heard && plane.calls == old(plane.calls) + calls
      ensures PhaseTrace(cluster, heard, calls, outcome)
      ensures NoRemoval(plane.log, |old(plane.log)|)
      ensures outcome == Done ==> Advances(cluster, old(plane.log), plane.log)
    {
      match cluster.phase
      case NoPhase =>
        outcome, heard, calls := StartCluster(cluster);
      case Reconciling =>
        outcome, heard, calls := CheckServices(cluster, at);
      case Running =>
        outcome, heard, calls := Done, [], [];
    }

    lemma SecretGoneSince(start: State, log: seq<Step>, early: nat, late: nat, ns: string)
      requires early <= late
      ensures SecretGone(start, log, late, ns) ==> SecretGone(start, log, early, ns)
    {
    }

    /** Any number of passes over any namespaces, with everybody else running in
        between. At every moment of the run a cluster in a non-empty phase has its
        secret, from which the whole certificate bundle can be read. */
    method RunPasses(namespaces: seq<string>) returns (ghost passes: seq<Pass>)
      requires Valid() && plane.log == []
      modifies plane, machines, remote
      ensures Valid()
      ensures PassesMade(namespaces, passes, old(Asked(machines.calls, remote.answers, plane.calls)),
                         Asked(machines.calls, remote.answers, plane.calls))
      ensures forall i, ns {:trigger Started(Exec(plane.start, plane.log[..i]), ns)} ::
                0 <= i <= |plane.log| && Started(Exec(plane.start, plane.log[..i]), ns) ==>
                  ns in Exec(plane.start, plane.log[..i]).secrets
                      && HasAllKeys(Exec(plane.start, plane.log[..i]).secrets[ns].data)
    {
      ghost var first := Asked(machines.calls, remote.answers, plane.calls);
      passes := [];
      for i := 0 to |namespaces|
        invariant Valid()
        invariant PassesMade(namespaces[..i], passes, first, Asked(machines.calls, remote.answers, plane.calls))
      {
        ghost var asked := Asked(machines.calls, remote.answers, plane.calls);
        var outcome, _, listed, claiming, heard, calls := Reconcile(namespaces[i]);
        ghost var pass := Pass(listed, claiming, heard, calls, outcome);
        OnePassMade(namespaces, i, passes, first, asked, pass);
        passes := passes + [pass];
      }
      assert namespaces[..|namespaces|] == namespaces;
      forall i, ns {:trigger Started(Exec(plane.start, plane.log[..i]), ns)} |
        0 <= i <= |plane.log| && Started(Exec(plane.start, plane.log[..i]), ns)
        ensures ns in Exec(plane.start, plane.log[..i]).secrets
            && HasAllKeys(Exec(plane.start, plane.log[..i]).secrets[ns].data)
      {
        StartedMeansSecret(plane.start, plane.log, i, ns);
      }
    }
  }
}
