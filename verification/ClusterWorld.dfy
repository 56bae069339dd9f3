/** Cluster objects and their certificate secrets, changed one accepted call at
    a time. Every namespace holds at most one cluster, under the namespace's name,
    and one secret `cluster-private-key`. */
module ClusterWorld {
  import opened CertBundle

  datatype ClusterPhase = NoPhase | Reconciling | Running

  datatype Cluster = Cluster(
    ns: string,
    uid: nat,
    version: nat,
    phase: ClusterPhase,
    endpoint: string,
    finalizers: seq<string>,
    deleting: bool)

  const NO_CLUSTER := Cluster("", 0, 0, NoPhase, "", [], false)

  datatype Secret = Secret(uid: nat, data: map<string, Bytes>)

  datatype State = State(clusters: map<string, Cluster>, secrets: map<string, Secret>, revision: nat, nextUid: nat)

  /** `User` also stands for the garbage collector and the API front end. */
  datatype Actor = User | MachineController | ClusterController

  datatype Event =
    | CreateCluster(c: Cluster)
    | WriteCluster(c: Cluster)
    | RemoveCluster(ns: string)
    | CreateSecret(ns: string, data: map<string, Bytes>)
    | WriteSecret(ns: string, data: map<string, Bytes>)
    | DeleteSecret(ns: string)

  datatype Step = Step(actor: Actor, event: Event)

  predicate Initial(s: State) {
    s.clusters == map[] && s.secrets == map[]
  }

  /** The cluster has left the empty phase. */
  predicate Started(s: State, ns: string) {
    ns in s.clusters && s.clusters[ns].phase != NoPhase
  }

  predicate PhaseStep(p: ClusterPhase, q: ClusterPhase) {
    p == q || (p == NoPhase && q == Reconciling) || (p == Reconciling && q == Running)
  }

  /** How the machine controller may change a cluster. */
  predicate WritesEndpoint(o: Cluster, c: Cluster) {
    c == o.(endpoint := c.endpoint)
  }

  /** How the machine controller may change the data of a secret. */
  predicate AddsKubeconfig(before: map<string, Bytes>, after: map<string, Bytes>) {
    KUBECONFIG_KEY in after && after == before[KUBECONFIG_KEY := after[KUBECONFIG_KEY]]
  }

  predicate Permitted(actor: Actor, s: State, o: Cluster, c: Cluster) {
    match actor
    case User => c == o.(finalizers := c.finalizers, deleting := c.deleting)
    case MachineController => WritesEndpoint(o, c)
    case ClusterController =>
      && c == o.(phase := c.phase, endpoint := c.endpoint, finalizers := c.finalizers)
      && PhaseStep(o.phase, c.phase)
      && (o.phase != c.phase ==> c.ns in s.secrets)
  }

  /** Steps as users and controllers take them. That the cluster controller
      deletes no secret of a started cluster, and starts none without a secret,
      is proved of its code in ClusterControl; that the machine controller writes
      no more than the endpoint and the kubeconfig is proved in Creator. */
  predicate Enabled(s: State, step: Step) {
    match step.event
    case CreateCluster(c) =>
      && step.actor == User && c.ns !in s.clusters
      && c.phase == NoPhase && c.uid == s.nextUid && c.version == s.revision + 1
    case WriteCluster(c) =>
      c.ns in s.clusters && c.version == s.clusters[c.ns].version && Permitted(step.actor, s, s.clusters[c.ns], c)
    case RemoveCluster(ns) => step.actor == User && ns in s.clusters
    case CreateSecret(ns, data) => step.actor == ClusterController && ns !in s.secrets && HasAllKeys(data)
    case WriteSecret(ns, data) =>
      step.actor == MachineController && ns in s.secrets && AddsKubeconfig(s.secrets[ns].data, data)
    case DeleteSecret(ns) => step.actor == ClusterController && ns in s.secrets && !Started(s, ns)
  }

  function Apply(s: State, step: Step): State
    requires Enabled(s, step)
  {
    match step.event
    case CreateCluster(c) => s.(clusters := s.clusters[c.ns := c], revision := s.revision + 1, nextUid := s.nextUid + 1)
    case WriteCluster(c) =>
      if c.deleting && c.finalizers == [] then s.(clusters := s.clusters - {c.ns}, revision := s.revision + 1)
      else s.(clusters := s.clusters[c.ns := c.(version := s.revision + 1)], revision := s.revision + 1)
    case RemoveCluster(ns) => s.(clusters := s.clusters - {ns}, revision := s.revision + 1)
    case CreateSecret(ns, data) => s.(secrets := s.secrets[ns := Secret(s.nextUid, data)], nextUid := s.nextUid + 1)
    case WriteSecret(ns, data) => s.(secrets := s.secrets[ns := s.secrets[ns].(data := data)])
    case DeleteSecret(ns) => s.(secrets := s.secrets - {ns})
  }

  function Next(s: State, step: Step): State {
    if Enabled(s, step) then Apply(s, step) else s
  }

  function Exec(s: State, log: seq<Step>): State {
    if log == [] then s else Next(Exec(s, log[..|log| - 1]), log[|log| - 1])
  }

  lemma ExecSnoc(s: State, log: seq<Step>, step: Step)
    ensures Exec(s, log + [step]) == Next(Exec(s, log), step)
  {
    assert (log + [step])[..|log|] == log;
  }

  // ---- What every run keeps -----------------------------------------------------------

  /** A started cluster has its secret, and every secret holds a whole bundle. */
  ghost predicate Inv(s: State) {
    && (forall ns :: ns in s.clusters ==>
          s.clusters[ns].ns == ns && s.clusters[ns].uid < s.nextUid && s.clusters[ns].version <= s.revision)
    && (forall ns :: ns in s.secrets ==> s.secrets[ns].uid < s.nextUid && HasAllKeys(s.secrets[ns].data))
    && (forall ns :: Started(s, ns) ==> ns in s.secrets)
  }

  lemma StepKeepsInv(s: State, step: Step)
    requires Inv(s)
    ensures Inv(Next(s, step))
    ensures s.revision <= Next(s, step).revision && s.nextUid <= Next(s, step).nextUid
  {
    if Enabled(s, step) {
      var t := Apply(s, step);
      forall ns | Started(t, ns) && !step.event.DeleteSecret?
        ensures ns in t.secrets
      {
        assert Started(s, ns) || ns in s.secrets;
      }
    }
  }

  lemma {:induction false} RunKeepsInv(s: State, log: seq<Step>)
    requires Initial(s)
    ensures Inv(Exec(s, log))
    ensures s.revision <= Exec(s, log).revision && s.nextUid <= Exec(s, log).nextUid
  {
    if log != [] {
      RunKeepsInv(s, log[..|log| - 1]);
      StepKeepsInv(Exec(s, log[..|log| - 1]), log[|log| - 1]);
    }
  }

  /** In every state of every run: a cluster in a non-empty phase has a secret,
      and a certificate bundle can be read from it. */
  lemma StartedMeansSecret(s: State, log: seq<Step>, i: nat, ns: string)
    requires Initial(s) && i <= |log| && Started(Exec(s, log[..i]), ns)
    ensures ns in Exec(s, log[..i]).secrets && HasAllKeys(Exec(s, log[..i]).secrets[ns].data)
  {
    RunKeepsInv(s, log[..i]);
  }

  // ---- One object over time -------------------------------------------------------------

  /** The namespace holds the cluster with this uid. */
  predicate Holds(s: State, ns: string, uid: nat) {
    ns in s.clusters && s.clusters[ns].uid == uid
  }

  lemma StepKeepsAbsent(s: State, step: Step, ns: string, uid: nat)
    requires Inv(s) && uid < s.nextUid && !Holds(s, ns, uid)
    ensures !Holds(Next(s, step), ns, uid)
  {
  }

  /** A cluster that was there at two moments was there all the time between. */
  lemma {:induction false} HeldBetween(s: State, log: seq<Step>, i: nat, k: nat, ns: string, uid: nat)
    requires Initial(s) && i <= k <= |log|
    requires Holds(Exec(s, log[..i]), ns, uid) && Holds(Exec(s, log), ns, uid)
    ensures Holds(Exec(s, log[..k]), ns, uid)
    decreases |log|
  {
    if k == |log| {
      assert log[..k] == log;
    } else {
      var front := log[..|log| - 1];
      assert front[..i] == log[..i] && front[..k] == log[..k];
      RunKeepsInv(s, front);
      UidKnown(s, front, i, ns);
      if !Holds(Exec(s, front), ns, uid) {
        StepKeepsAbsent(Exec(s, front), log[|log| - 1], ns, uid);
      }
      HeldBetween(s, front, i, k, ns, uid);
    }
  }

  lemma {:induction false} UidKnown(s: State, log: seq<Step>, i: nat, ns: string)
    requires Initial(s) && i <= |log| && ns in Exec(s, log[..i]).clusters
    ensures Exec(s, log[..i]).clusters[ns].uid < Exec(s, log).nextUid
    ensures Exec(s, log[..i]).revision <= Exec(s, log).revision
    decreases |log|
  {
    if i == |log| {
      assert log[..i] == log;
      RunKeepsInv(s, log);
    } else {
      var front := log[..|log| - 1];
      assert front[..i] == log[..i];
      UidKnown(s, front, i, ns);
      RunKeepsInv(s, front);
      StepKeepsInv(Exec(s, front), log[|log| - 1]);
    }
  }

  predicate PhaseReaches(p: ClusterPhase, q: ClusterPhase) {
    p == q || p == NoPhase || (p == Reconciling && q == Running)
  }

  lemma StepMovesPhase(s: State, step: Step, ns: string, uid: nat)
    requires Inv(s) && Holds(s, ns, uid) && Holds(Next(s, step), ns, uid)
    ensures PhaseStep(s.clusters[ns].phase, Next(s, step).clusters[ns].phase)
  {
  }

  /** Over a whole run the phase of one cluster only moves from empty to
      Reconciling to Running. */
  lemma {:induction false} PhaseOnlyMovesForward(s: State, log: seq<Step>, i: nat, ns: string, uid: nat)
    requires Initial(s) && i <= |log|
    requires Holds(Exec(s, log[..i]), ns, uid) && Holds(Exec(s, log), ns, uid)
    ensures PhaseReaches(Exec(s, log[..i]).clusters[ns].phase, Exec(s, log).clusters[ns].phase)
    decreases |log|
  {
    if i == |log| {
      assert log[..i] == log;
    } else {
      var front := log[..|log| - 1];
      assert front[..i] == log[..i];
      HeldBetween(s, log, i, |log| - 1, ns, uid);
      PhaseOnlyMovesForward(s, front, i, ns, uid);
      RunKeepsInv(s, front);
      StepMovesPhase(Exec(s, front), log[|log| - 1], ns, uid);
    }
  }

  /** A copy with the stored version is the stored cluster. */
  lemma {:induction false} VersionIdentifies(s: State, log: seq<Step>, i: nat, ns: string)
    requires Initial(s) && i <= |log|
    requires ns in Exec(s, log[..i]).clusters && ns in Exec(s, log).clusters
    requires Exec(s, log[..i]).clusters[ns].version == Exec(s, log).clusters[ns].version
    ensures Exec(s, log[..i]).clusters[ns] == Exec(s, log).clusters[ns]
    decreases |log|
  {
    if i == |log| {
      assert log[..i] == log;
    } else {
      var front := log[..|log| - 1];
      assert front[..i] == log[..i];
      RunKeepsInv(s, log[..i]);
      RunKeepsInv(s, front);
      UidKnown(s, front, i, ns);
      Unwritten(Exec(s, front), log[|log| - 1], ns);
      VersionIdentifies(s, front, i, ns);
    }
  }

  /** A step that leaves a version at or below the old revision leaves the cluster. */
  lemma Unwritten(s: State, step: Step, ns: string)
    requires Inv(s) && ns in Next(s, step).clusters && Next(s, step).clusters[ns].version <= s.revision
    ensures ns in s.clusters && s.clusters[ns] == Next(s, step).clusters[ns]
  {
  }

  lemma StepKeepsSecret(s: State, step: Step, ns: string, b: Bundle)
    requires Inv(s) && ns in s.secrets && Agrees(b, s.secrets[ns].data)
    requires ns in Next(s, step).secrets && Next(s, step).secrets[ns].uid == s.secrets[ns].uid
    ensures Agrees(b, Next(s, step).secrets[ns].data)
  {
    DistinctKeys();
  }

  lemma StepKeepsSecretGone(s: State, step: Step, ns: string, uid: nat)
    requires Inv(s) && uid < s.nextUid && (ns in s.secrets ==> s.secrets[ns].uid != uid)
    ensures ns in Next(s, step).secrets ==> Next(s, step).secrets[ns].uid != uid
  {
  }

  lemma {:induction false} SecretUidKnown(s: State, log: seq<Step>, i: nat, ns: string)
    requires Initial(s) && i <= |log| && ns in Exec(s, log[..i]).secrets
    ensures Exec(s, log[..i]).secrets[ns].uid < Exec(s, log).nextUid
    decreases |log|
  {
    if i == |log| {
      assert log[..i] == log;
      RunKeepsInv(s, log);
    } else {
      var front := log[..|log| - 1];
      assert front[..i] == log[..i];
      SecretUidKnown(s, front, i, ns);
      RunKeepsInv(s, front);
      StepKeepsInv(Exec(s, front), log[|log| - 1]);
    }
  }

  /** As long as a secret lives it yields the bundle it was created with. */
  lemma {:induction false} SecretKeepsBundle(s: State, log: seq<Step>, i: nat, ns: string, b: Bundle)
    requires Initial(s) && i <= |log|
    requires ns in Exec(s, log[..i]).secrets && ns in Exec(s, log).secrets
    requires Exec(s, log[..i]).secrets[ns].uid == Exec(s, log).secrets[ns].uid
    requires Agrees(b, Exec(s, log[..i]).secrets[ns].data)
    ensures Agrees(b, Exec(s, log).secrets[ns].data)
    decreases |log|
  {
    if i == |log| {
      assert log[..i] == log;
    } else {
      var front := log[..|log| - 1];
      assert front[..i] == log[..i];
      var uid := Exec(s, log).secrets[ns].uid;
      RunKeepsInv(s, front);
      SecretUidKnown(s, front, i, ns);
      if !(ns in Exec(s, front).secrets && Exec(s, front).secrets[ns].uid == uid) {
        StepKeepsSecretGone(Exec(s, front), log[|log| - 1], ns, uid);
      }
      SecretKeepsBundle(s, front, i, ns, b);
      StepKeepsSecret(Exec(s, front), log[|log| - 1], ns, b);
    }
  }
}
