/** The API front end's handling of node pools: every worker pool becomes a
    machine set (internal/apiserver/pool.go, internal/apiserver/cluster.go). */
module NodePools {
  import opened Objects
  import opened MachineSets
  import opened Selectors

  const POOL_LABEL := "node-pool"
  const TOOLS_LABEL := "controller-tools.k8s.io"
  const TOOLS_VERSION := "1.0"
  const ROLE_WORKER := "worker"

  datatype Label = Label(name: string, value: string)

  datatype PoolConfig = PoolConfig(name: string, labels: seq<Label>, instanceType: string, count: int)

  datatype Code = NotFoundCode | InternalCode

  datatype Reply = Accepted | Refused(code: Code)

  /** The requested labels; of several with one name the last one counts. */
  function Requested(labels: seq<Label>): map<string, string> {
    if labels == [] then map[]
    else Requested(labels[..|labels| - 1])[labels[|labels| - 1].name := labels[|labels| - 1].value]
  }

  lemma {:induction false} RequestedLast(labels: seq<Label>, i: nat)
    requires i < |labels| && forall j :: i < j < |labels| ==> labels[j].name != labels[i].name
    ensures labels[i].name in Requested(labels) && Requested(labels)[labels[i].name] == labels[i].value
  {
    if i < |labels| - 1 {
      RequestedLast(labels[..|labels| - 1], i);
    }
  }

  function PoolLabels(config: PoolConfig): map<string, string> {
    Requested(config.labels)[TOOLS_LABEL := TOOLS_VERSION][POOL_LABEL := config.name]
  }

  /** Every label of a request is set, the last one of each name, except under the
      two names that the front end sets itself; and there are no others. */
  lemma PoolLabelsAre(config: PoolConfig, k: string)
    ensures POOL_LABEL in PoolLabels(config) && PoolLabels(config)[POOL_LABEL] == config.name
    ensures TOOLS_LABEL in PoolLabels(config) && PoolLabels(config)[TOOLS_LABEL] == TOOLS_VERSION
    ensures k != POOL_LABEL && k != TOOLS_LABEL ==>
              (k in PoolLabels(config) <==> exists i :: 0 <= i < |config.labels| && config.labels[i].name == k)
    ensures k != POOL_LABEL && k != TOOLS_LABEL && k in PoolLabels(config) ==>
              exists i :: 0 <= i < |config.labels| && config.labels[i] == Label(k, PoolLabels(config)[k])
                          && forall j :: i < j < |config.labels| ==> config.labels[j].name != k
  {
    RequestedKeys(config.labels, k);
    assert POOL_LABEL[0] == 'n' && TOOLS_LABEL[0] == 'c';
  }

  lemma {:induction false} RequestedKeys(labels: seq<Label>, k: string)
    ensures k in Requested(labels) <==> exists i :: 0 <= i < |labels| && labels[i].name == k
    ensures k in Requested(labels) ==>
              exists i :: 0 <= i < |labels| && labels[i] == Label(k, Requested(labels)[k])
                          && forall j :: i < j < |labels| ==> labels[j].name != k
  {
    if labels != [] {
      var front, last := labels[..|labels| - 1], labels[|labels| - 1];
      RequestedKeys(front, k);
      if last.name == k {
        assert labels[|labels| - 1] == Label(k, Requested(labels)[k]);
      } else {
        if k in Requested(front) {
          var i :| 0 <= i < |front| && front[i] == Label(k, Requested(front)[k])
                   && forall j :: i < j < |front| ==> front[j].name != k;
          assert labels[i] == Label(k, Requested(labels)[k]);
        }
        if i :| 0 <= i < |labels| && labels[i].name == k {
          assert front[i].name == k;
        }
      }
    }
  }

  /** The set that is built for a pool. */
  function PoolSet(ns: string, config: PoolConfig): MachineSet {
    MachineSet(Key(ns, config.name), 0, PoolLabels(config), false, [], false, config.count,
               Selector(map[POOL_LABEL := config.name], []),
               Template(PoolLabels(config), map[], [], [ROLE_WORKER], config.instanceType),
               SetStatus(NoPhase, 0, 0))
  }

  lemma PoolLabelShape(k: string)
    requires k == POOL_LABEL
    ensures NameShape(k) && |k| <= 63 && '/' !in k
  {
    assert k[0] == 'n' && k[8] == 'l' && k[4] == '-';
  }

  /** A selector for one label with a plain key can be converted exactly if the
      wanted value is a label value. */
  lemma OneLabelSelector(ms: MachineSet, key: string, value: string)
    requires ms.selector == Selector(map[key := value], [])
    requires NameShape(key) && |key| <= 63 && '/' !in key
    requires key in ms.template.labels && ms.template.labels[key] == value
    ensures ValidSet(ms) <==> ValidLabelValue(value)
    ensures !Empty(ms.selector)
  {
    PlainNameIsKey(key);
    assert key in ms.selector.matchLabels;
  }

  /** The set of a pool passes validation exactly if the pool's name may be used
      as a label value; its selector is never empty. The labels of the request,
      even one called node-pool, play no part. */
  lemma PoolSetIsValidIff(ns: string, config: PoolConfig)
    ensures ValidSet(PoolSet(ns, config)) <==> ValidLabelValue(config.name)
    ensures !Empty(PoolSet(ns, config).selector)
  {
    var key := POOL_LABEL;
    PoolLabelShape(key);
    OneLabelSelector(PoolSet(ns, config), key, config.name);
  }

  /** A stored set that was built for this pool; only its uid and its number of
      replicas may have changed. */
  predicate FromPool(ms: MachineSet, ns: string, config: PoolConfig) {
    && ms.key == Key(ns, config.name) && ms.labels == PoolLabels(config)
    && ms.selector == PoolSet(ns, config).selector && ms.template == PoolSet(ns, config).template
  }

  /** Every machine created from the template of a pool's set is counted by the
      passes over that set, and by no other pool's set in the namespace. */
  lemma PoolMachinesAreKept(ms: MachineSet, ns: string, config: PoolConfig, m: Machine)
    requires FromPool(ms, ns, config) && ValidLabelValue(config.name)
    requires m.labels == ms.template.labels && m.owners == [ControllerRef(ms)] && !m.deleting
    ensures !ShouldExclude(ms, m)
    ensures forall other, config2 :: FromPool(other, ns, config2) && config2.name != config.name ==>
        !HasMatchingLabels(other, m)
  {
    PoolSetIsValidIff(ns, config);
    assert Controllers(m.owners) == [ControllerRef(ms)] by {
      assert Controllers(m.owners[1..]) == [];
    }
    assert m.labels[POOL_LABEL] == config.name;
    forall other, config2 | FromPool(other, ns, config2) && config2.name != config.name
      ensures !HasMatchingLabels(other, m)
    {
      assert POOL_LABEL in other.selector.matchLabels && other.selector.matchLabels[POOL_LABEL] == config2.name;
    }
  }

  /** What is stored for a pool. */
  predicate StoredFor(sets: map<Key, MachineSet>, ns: string, config: PoolConfig) {
    && Key(ns, config.name) in sets
    && FromPool(sets[Key(ns, config.name)], ns, config)
    && sets[Key(ns, config.name)].replicas == config.count
    && ValidLabelValue(config.name)
  }

  /** The names under which the sets of the pools are stored. */
  function Names(ns: string, pools: seq<PoolConfig>): set<Key> {
    set i | 0 <= i < |pools| :: Key(ns, pools[i].name)
  }

  lemma NamesSnoc(ns: string, front: seq<PoolConfig>, config: PoolConfig)
    ensures Names(ns, front + [config]) == Names(ns, front) + {Key(ns, config.name)}
  {
    var all := front + [config];
    assert all[|front|] == config;
    forall k | k in Names(ns, front)
      ensures k in Names(ns, all)
    {
      var i :| 0 <= i < |front| && k == Key(ns, front[i].name);
      assert all[i] == front[i];
    }
  }

  /** Every pool has got its set, and each of them another one. */
  ghost predicate AllStored(sets: map<Key, MachineSet>, ns: string, pools: seq<PoolConfig>) {
    && (forall i :: 0 <= i < |pools| ==> StoredFor(sets, ns, pools[i]))
    && (forall i, j :: 0 <= i < j < |pools| ==> pools[i].name != pools[j].name)
  }

  /** Adding pools to `before` gave `after`: exactly one new set for each pool,
      and nothing else changed. */
  ghost predicate Added(before: map<Key, MachineSet>, after: map<Key, MachineSet>, ns: string, pools: seq<PoolConfig>) {
    && after.Keys == before.Keys + Names(ns, pools) && before.Keys !! Names(ns, pools)
    && (forall k :: k in before ==> after[k] == before[k])
    && AllStored(after, ns, pools)
  }

  lemma NothingAdded(before: map<Key, MachineSet>, ns: string, pools: seq<PoolConfig>)
    ensures Added(before, before, ns, pools[..0])
  {
    assert Names(ns, pools[..0]) == {};
  }

  lemma AddedOneMore(before: map<Key, MachineSet>, sets: map<Key, MachineSet>, after: map<Key, MachineSet>, ns: string,
                     pools: seq<PoolConfig>, n: nat)
    requires n < |pools| && Added(before, sets, ns, pools[..n]) && Key(ns, pools[n].name) !in sets
    requires StoredFor(after, ns, pools[n])
    requires after == sets[Key(ns, pools[n].name) := after[Key(ns, pools[n].name)]]
    ensures Added(before, after, ns, pools[..n + 1])
  {
    assert pools[..n + 1] == pools[..n] + [pools[n]];
    NamesSnoc(ns, pools[..n], pools[n]);
    StoredOneMore(sets, after, ns, pools[..n], pools[n]);
  }

  lemma StoredOneMore(sets: map<Key, MachineSet>, after: map<Key, MachineSet>, ns: string, front: seq<PoolConfig>,
                      config: PoolConfig)
    requires AllStored(sets, ns, front) && StoredFor(after, ns, config) && Key(ns, config.name) !in sets
    requires after == sets[Key(ns, config.name) := after[Key(ns, config.name)]]
    ensures AllStored(after, ns, front + [config])
  {
    forall i | 0 <= i < |front|
      ensures StoredFor(after, ns, front[i]) && front[i].name != config.name
    {
      assert StoredFor(sets, ns, front[i]);
    }
  }

  predicate HasCount(sets: map<Key, MachineSet>, ns: string, config: PoolConfig) {
    Key(ns, config.name) in sets && sets[Key(ns, config.name)].replicas == config.count
  }

  function WithCount(sets: map<Key, MachineSet>, k: Key, count: int): map<Key, MachineSet>
    requires k in sets
  {
    sets[k := sets[k].(replicas := count)]
  }

  predicate LastFor(pools: seq<PoolConfig>, i: nat)
    requires i < |pools|
  {
    forall j :: i < j < |pools| ==> pools[j].name != pools[i].name
  }

  /** Each named set has the last count given for it. */
  ghost predicate LastCounts(sets: map<Key, MachineSet>, ns: string, pools: seq<PoolConfig>) {
    forall i :: 0 <= i < |pools| && LastFor(pools, i) ==> HasCount(sets, ns, pools[i])
  }

  predicate SameButCount(a: MachineSet, b: MachineSet) {
    b == a.(replicas := b.replicas)
  }

  /** Nothing differs but the counts of the sets with these names. */
  ghost predicate OnlyCounts(before: map<Key, MachineSet>, after: map<Key, MachineSet>, names: set<Key>) {
    && after.Keys == before.Keys
    && (forall k :: k in before ==> SameButCount(before[k], after[k]))
    && (forall k :: k in before && k !in names ==> after[k] == before[k])
  }

  lemma OneCountMore(before: map<Key, MachineSet>, sets: map<Key, MachineSet>, k: Key, count: int, names: set<Key>)
    requires OnlyCounts(before, sets, names) && k in sets
    ensures OnlyCounts(before, WithCount(sets, k, count), names + {k})
  {
    assert SameButCount(before[k], sets[k]);
  }

  /** All the named sets exist, and scaling the pools in order turned `before`
      into `after`: each of them has the last count given for it, and nothing else
      has changed. */
  ghost predicate Scaled(before: map<Key, MachineSet>, after: map<Key, MachineSet>, ns: string,
                         pools: seq<PoolConfig>)
  {
    Names(ns, pools) <= before.Keys && OnlyCounts(before, after, Names(ns, pools)) && LastCounts(after, ns, pools)
  }

  lemma NothingScaled(before: map<Key, MachineSet>, ns: string, pools: seq<PoolConfig>)
    ensures Scaled(before, before, ns, pools[..0])
  {
    assert Names(ns, pools[..0]) == {};
  }

  lemma ScaledOneMore(before: map<Key, MachineSet>, sets: map<Key, MachineSet>, after: map<Key, MachineSet>, ns: string,
                      pools: seq<PoolConfig>, n: nat)
    requires n < |pools| && Scaled(before, sets, ns, pools[..n])
    requires Key(ns, pools[n].name) in sets
    requires after == WithCount(sets, Key(ns, pools[n].name), pools[n].count)
    ensures Scaled(before, after, ns, pools[..n + 1])
  {
    assert pools[..n + 1] == pools[..n] + [pools[n]];
    NamesSnoc(ns, pools[..n], pools[n]);
    OneCountMore(before, sets, Key(ns, pools[n].name), pools[n].count, Names(ns, pools[..n]));
    CountsOneMore(sets, after, ns, pools[..n], pools[n]);
  }

  lemma CountsOneMore(sets: map<Key, MachineSet>, after: map<Key, MachineSet>, ns: string, front: seq<PoolConfig>,
                      config: PoolConfig)
    requires LastCounts(sets, ns, front) && Key(ns, config.name) in sets
    requires after == WithCount(sets, Key(ns, config.name), config.count)
    ensures LastCounts(after, ns, front + [config])
  {
    var all := front + [config];
    forall i | 0 <= i < |all| && LastFor(all, i)
      ensures HasCount(after, ns, all[i])
    {
      if i < |front| {
        assert all[|front|].name != all[i].name;
        LastInFront(front, config, i);
        assert HasCount(sets, ns, front[i]);
      }
    }
  }

  lemma LastInFront(front: seq<PoolConfig>, config: PoolConfig, i: nat)
    requires i < |front| && LastFor(front + [config], i)
    ensures LastFor(front, i)
  {
    var all := front + [config];
    forall j | i < j < |front|
      ensures front[j].name != front[i].name
    {
      assert all[j].name != all[i].name;
    }
  }

  // ---- What the front end asks ----------------------------------------------------------

  /** A call and what it was answered. */
  datatype PoolCall =
    | NamespaceMade(name: string, namespace: Result<(), ApiError>)
    | ClusterMade(name: string, cluster: Result<(), ApiError>)
    | ControlPlaneMade(ns: string, controlPlane: Result<(), ApiError>)
    | BundleMade(ns: string, bundle: Result<(), ApiError>)
    | ClusterRead(name: string, found: Result<(), ApiError>)
    | SetStored(ms: MachineSet, stored: Result<(), ApiError>)
    | SetRead(key: Key, read: Result<MachineSet, ApiError>)
    | SetUpdated(ms: MachineSet, updated: Result<(), ApiError>)

  /** The i-th call stores the set of the i-th pool, without an error. */
  predicate StoresPool(ns: string, pools: seq<PoolConfig>, made: seq<PoolCall>, i: nat)
    requires i < |pools| && i < |made|
  {
    made[i].SetStored? && made[i].ms == PoolSet(ns, pools[i]) && made[i].stored.Ok?
  }

  /** The sets are stored in order, up to the first pool whose name is no label value
      or whose set is refused. */
  ghost predicate AddTrace(ns: string, pools: seq<PoolConfig>, made: seq<PoolCall>, reply: Reply, added: nat) {
    && added <= |pools| && added <= |made|
    && (forall i :: 0 <= i < added ==> StoresPool(ns, pools, made, i))
    && if reply == Accepted then |made| == |pools| == added
       else
         && reply == Refused(InternalCode) && added < |pools|
         && if ValidLabelValue(pools[added].name) then
              && |made| == added + 1 && made[added].SetStored? && made[added].ms == PoolSet(ns, pools[added])
              && made[added].stored.Err?
            else |made| == added
  }

  lemma OneMoreAdded(ns: string, pools: seq<PoolConfig>, made: seq<PoolCall>, i: nat, more: seq<PoolCall>, ok: bool)
    requires i < |pools| && |made| == i && forall j :: 0 <= j < i ==> StoresPool(ns, pools, made, j)
    requires PoolTrace(ns, pools[i], more, ok)
    ensures !ok ==> AddTrace(ns, pools, made + more, Refused(InternalCode), i)
    ensures ok ==> |made + more| == i + 1 && forall j :: 0 <= j < i + 1 ==> StoresPool(ns, pools, made + more, j)
  {
    forall j | 0 <= j < i
      ensures StoresPool(ns, pools, made + more, j)
    {
      assert StoresPool(ns, pools, made, j);
    }
  }

  predicate PoolTrace(ns: string, config: PoolConfig, made: seq<PoolCall>, ok: bool) {
    if ValidLabelValue(config.name) then
      |made| == 1 && made[0].SetStored? && made[0].ms == PoolSet(ns, config) && ok == made[0].stored.Ok?
    else made == [] && !ok
  }

  /** Only a cluster that is found gets pools. */
  ghost predicate AddNodePoolTrace(name: string, pools: seq<PoolConfig>, made: seq<PoolCall>, reply: Reply,
                                   added: nat)
  {
    && |made| > 0 && made[0].ClusterRead? && made[0].name == name
    && match made[0].found
       case Err(e) =>
         |made| == 1 && added == 0 && reply == Refused(if e == NotFound then NotFoundCode else InternalCode)
       case Ok(_) => AddTrace(name, pools, made[1..], reply, added)
  }

  /** Namespace, cluster and control plane come first, and each of them must be
      made; the app bundle comes last, and its answer does not matter. */
  ghost predicate CreateTrace(name: string, pools: seq<PoolConfig>, made: seq<PoolCall>, reply: Reply, added: nat) {
    && |made| > 0 && made[0].NamespaceMade? && made[0].name == name
    && if made[0].namespace.Err? then |made| == 1 && NoneAdded(reply, added)
       else
         && |made| > 1 && made[1].ClusterMade? && made[1].name == name
         && if made[1].cluster.Err? then |made| == 2 && NoneAdded(reply, added)
            else
              && |made| > 2 && made[2].ControlPlaneMade? && made[2].ns == name
              && if made[2].controlPlane.Err? then |made| == 3 && NoneAdded(reply, added)
                 else PoolsThenBundle(name, pools, made[3..], reply, added)
  }

  predicate NoneAdded(reply: Reply, added: nat) {
    reply == Refused(InternalCode) && added == 0
  }

  ghost predicate PoolsThenBundle(name: string, pools: seq<PoolConfig>, made: seq<PoolCall>, reply: Reply,
                                  added: nat)
  {
    if reply == Accepted then
      && made != [] && AddTrace(name, pools, made[..|made| - 1], reply, added)
      && made[|made| - 1].BundleMade? && made[|made| - 1].ns == name
    else AddTrace(name, pools, made, reply, added)
  }

  /** One set is read and stored with the new count; a missing set is told from
      other failures. */
  ghost predicate ScalePoolTrace(ns: string, config: PoolConfig, made: seq<PoolCall>, failure: Option<Code>) {
    && |made| > 0 && made[0].SetRead? && made[0].key == Key(ns, config.name)
    && match made[0].read
       case Err(e) => |made| == 1 && failure == Some(if e == NotFound then NotFoundCode else InternalCode)
       case Ok(ms) =>
         && |made| == 2 && made[1].SetUpdated? && made[1].ms == ms.(replicas := config.count)
         && failure == if made[1].updated.Ok? then None else Some(InternalCode)
  }

  /** The pools are scaled in order, up to the first failure; parts[i] are the calls
      for the i-th pool. */
  ghost predicate ScaleTrace(ns: string, pools: seq<PoolConfig>, parts: seq<seq<PoolCall>>, reply: Reply, scaled: nat) {
    && scaled <= |pools| && scaled <= |parts|
    && (forall i :: 0 <= i < scaled ==> ScalePoolTrace(ns, pools[i], parts[i], None))
    && if reply == Accepted then |parts| == |pools| == scaled
       else
         && scaled < |pools| && |parts| == scaled + 1
         && ScalePoolTrace(ns, pools[scaled], parts[scaled], Some(reply.code))
  }

  /** These pools were scaled without a failure. */
  ghost predicate AllScaled(ns: string, pools: seq<PoolConfig>, parts: seq<seq<PoolCall>>) {
    |parts| <= |pools| && forall i :: 0 <= i < |parts| ==> ScalePoolTrace(ns, pools[i], parts[i], None)
  }

  lemma OneMoreScaled(ns: string, pools: seq<PoolConfig>, parts: seq<seq<PoolCall>>, made: seq<PoolCall>,
                      failure: Option<Code>)
    requires AllScaled(ns, pools, parts) && |parts| < |pools|
    requires ScalePoolTrace(ns, pools[|parts|], made, failure)
    ensures if failure.None? then AllScaled(ns, pools, parts + [made])
            else ScaleTrace(ns, pools, parts + [made], Refused(failure.value), |parts|)
  {
    forall i | 0 <= i < |parts|
      ensures ScalePoolTrace(ns, pools[i], (parts + [made])[i], None)
    {
      assert (parts + [made])[i] == parts[i];
    }
  }

  /** The first calls, and then those of the parts. */
  function Flat(first: seq<PoolCall>, parts: seq<seq<PoolCall>>): seq<PoolCall> {
    if parts == [] then first else Flat(first, parts[..|parts| - 1]) + parts[|parts| - 1]
  }

  lemma FlatSnoc(first: seq<PoolCall>, parts: seq<seq<PoolCall>>, last: seq<PoolCall>)
    ensures Flat(first, parts + [last]) == Flat(first, parts) + last
  {
    assert (parts + [last])[..|parts|] == parts;
  }

  /** An answer of the API server. */
  method Answer() returns (r: Result<(), ApiError>) {
    r := *;
  }

  // ---- The front end ---------------------------------------------------------------

  class Server {
    /** The stored machine sets. */
    var sets: map<Key, MachineSet>
    var nextUid: nat
    /** The calls so far, oldest first. */
    var calls: seq<PoolCall>

    constructor ()
      ensures sets == map[] && calls == []
    {
      sets, nextUid, calls := map[], 0, [];
    }

    method BuildMachineSet(ns: string, config: PoolConfig) returns (ms: MachineSet)
      ensures ms == PoolSet(ns, config)
    {
      var machineLabels: map<string, string> := map[];
      for i := 0 to |config.labels|
        invariant machineLabels == Requested(config.labels[..i])
      {
        assert config.labels[..i + 1][..i] == config.labels[..i];
        machineLabels := machineLabels[config.labels[i].name := config.labels[i].value];
      }
      assert config.labels[..|config.labels|] == config.labels;
      machineLabels := machineLabels[TOOLS_LABEL := TOOLS_VERSION];
      machineLabels := machineLabels[POOL_LABEL := config.name];
      return MachineSet(Key(ns, config.name), 0, machineLabels, false, [], false, config.count,
                        Selector(map[POOL_LABEL := config.name], []),
                        Template(machineLabels, map[], [], [ROLE_WORKER], config.instanceType),
                        SetStatus(NoPhase, 0, 0));
    }

    /** client.Create of a machine set; any call may fail. */
    method Store(ms: MachineSet) returns (r: Result<(), ApiError>)
      modifies this
      ensures calls == old(calls) + [SetStored(ms, r)]
      ensures r.Ok? ==> ms.key !in old(sets) && exists u :: sets == old(sets)[ms.key := ms.(uid := u)]
      ensures r.Err? ==> sets == old(sets)
    {
      var fails: bool := *;
      if fails {
        r := Err(Timeout);
      } else if ms.key in sets {
        r := Err(AlreadyExists);
      } else {
        sets, nextUid := sets[ms.key := ms.(uid := nextUid)], nextUid + 1;
        r := Ok(());
      }
      calls := calls + [SetStored(ms, r)];
    }

    /** Builds, validates and stores the set of one pool. */
    method AddPool(ns: string, config: PoolConfig) returns (ok: bool, ghost made: seq<PoolCall>)
      modifies this
      ensures calls == old(calls) + made && PoolTrace(ns, config, made, ok)
      ensures ok ==> Key(ns, config.name) !in old(sets) && StoredFor(sets, ns, config)
                     && sets == old(sets)[Key(ns, config.name) := sets[Key(ns, config.name)]]
      ensures !ok ==> sets == old(sets)
      ensures ok ==> ValidLabelValue(config.name)
    {
      var ms := BuildMachineSet(ns, config);
      PoolSetIsValidIff(ns, config);
      if !ValidSet(ms) {
        return false, [];
      }
      var r := Store(ms);
      return r.Ok?, [SetStored(ms, r)];
    }

    /** The loop over the worker pools of AddNodePool and CreateCluster. It stops
        at the first pool that is invalid or cannot be stored; what was stored
        before stays. */
    method AddPools(ns: string, pools: seq<PoolConfig>) returns (reply: Reply, added: nat, ghost made: seq<PoolCall>)
      modifies this
      ensures calls == old(calls) + made && AddTrace(ns, pools, made, reply, added)
      ensures added <= |pools| && Added(old(sets), sets, ns, pools[..added])
      ensures reply == Accepted <==> added == |pools|
    {
      ghost var c0 := calls;
      NothingAdded(sets, ns, pools);
      made := [];
      for i := 0 to |pools|
        invariant calls == c0 + made && |made| == i && forall j :: 0 <= j < i ==> StoresPool(ns, pools, made, j)
        invariant Added(old(sets), sets, ns, pools[..i])
      {
        ghost var before := sets;
        var ok, more := AddPool(ns, pools[i]);
        OneMoreAdded(ns, pools, made, i, more, ok);
        assert c0 + made + more == c0 + (made + more);
        made := made + more;
        if !ok {
          return Refused(InternalCode), i, made;
        }
        AddedOneMore(old(sets), before, sets, ns, pools, i);
      }
      return Accepted, |pools|, made;
    }

    method AddNodePool(clusterName: string, pools: seq<PoolConfig>)
        returns (reply: Reply, added: nat, ghost made: seq<PoolCall>)
      modifies this
      ensures calls == old(calls) + made && AddNodePoolTrace(clusterName, pools, made, reply, added)
      ensures added <= |pools| && Added(old(sets), sets, clusterName, pools[..added])
      ensures reply == Accepted ==> added == |pools|
    {
      var cluster := Answer();
      calls := calls + [ClusterRead(clusterName, cluster)];
      made := [ClusterRead(clusterName, cluster)];
      if cluster.Err? {
        NothingAdded(sets, clusterName, pools);
        return Refused(if cluster.error == NotFound then NotFoundCode else InternalCode), 0, made;
      }
      ghost var more;
      reply, added, more := AddPools(clusterName, pools);
      made := made + more;
      assert made[1..] == more;
    }

    /** CreateCluster: namespace, cluster and control-plane machine come first. */
    method CreateCluster(name: string, pools: seq<PoolConfig>)
        returns (reply: Reply, added: nat, ghost made: seq<PoolCall>)
      modifies this
      ensures calls == old(calls) + made && CreateTrace(name, pools, made, reply, added)
      ensures added <= |pools| && Added(old(sets), sets, name, pools[..added])
      ensures reply == Accepted ==> added == |pools|
      ensures |pools| > 0 ==> (reply == Accepted <==> added == |pools|)
    {
      NothingAdded(sets, name, pools);
      var namespace := Answer();
      made := [NamespaceMade(name, namespace)];
      calls := calls + [NamespaceMade(name, namespace)];
      if namespace.Err? {
        return Refused(InternalCode), 0, made;
      }
      var cluster := Answer();
      made := made + [ClusterMade(name, cluster)];
      calls := calls + [ClusterMade(name, cluster)];
      if cluster.Err? {
        return Refused(InternalCode), 0, made;
      }
      var controlPlane := Answer();
      made := made + [ControlPlaneMade(name, controlPlane)];
      calls := calls + [ControlPlaneMade(name, controlPlane)];
      if controlPlane.Err? {
        return Refused(InternalCode), 0, made;
      }
      ghost var more;
      reply, added, more := AddPoolsAndBundle(name, pools);
      made := made + more;
      assert made[3..] == more;
    }

    /** The app bundle for the addons is created last; its failure is only logged. */
    method AddPoolsAndBundle(name: string, pools: seq<PoolConfig>)
        returns (reply: Reply, added: nat, ghost made: seq<PoolCall>)
      modifies this
      ensures calls == old(calls) + made && PoolsThenBundle(name, pools, made, reply, added)
      ensures added <= |pools| && Added(old(sets), sets, name, pools[..added])
      ensures reply == Accepted <==> added == |pools|
    {
      reply, added, made := AddPools(name, pools);
      if reply != Accepted {
        return;
      }
      var bundle := Answer();
      calls := calls + [BundleMade(name, bundle)];
      ghost var stored := made;
      made := made + [BundleMade(name, bundle)];
      assert made[..|made| - 1] == stored;
    }

    // ---- Scaling ------------------------------------------------------------------

    /** client.Get and client.Update of a machine set. */
    method Read(k: Key) returns (r: Result<MachineSet, ApiError>)
      modifies this`calls
      ensures calls == old(calls) + [SetRead(k, r)]
      ensures r.Ok? ==> k in sets && r.value == sets[k]
      ensures r == Err(NotFound) ==> k !in sets
    {
      var fails: bool := *;
      r := if fails then Err(Timeout) else if k in sets then Ok(sets[k]) else Err(NotFound);
      calls := calls + [SetRead(k, r)];
    }

    method Update(k: Key, ms: MachineSet) returns (r: Result<(), ApiError>)
      requires k in sets
      modifies this`calls, this`sets
      ensures calls == old(calls) + [SetUpdated(ms, r)]
      ensures sets == if r.Ok? then old(sets)[k := ms] else old(sets)
    {
      var fails: bool := *;
      r := if fails then Err(Timeout) else Ok(());
      if r.Ok? {
        sets := sets[k := ms];
      }
      calls := calls + [SetUpdated(ms, r)];
    }

    /** Reads one set and stores it with the new count. */
    method ScalePool(ns: string, config: PoolConfig) returns (failure: Option<Code>, ghost made: seq<PoolCall>)
      modifies this
      ensures calls == old(calls) + made && ScalePoolTrace(ns, config, made, failure)
      ensures failure.None? ==> Key(ns, config.name) in old(sets)
                                && sets == WithCount(old(sets), Key(ns, config.name), config.count)
      ensures failure.Some? ==> sets == old(sets)
    {
      var k := Key(ns, config.name);
      var machineSet := Read(k);
      made := [SetRead(k, machineSet)];
      if machineSet.Err? {
        return Some(if machineSet.error == NotFound then NotFoundCode else InternalCode), made;
      }
      var scaled := machineSet.value.(replicas := config.count);
      var updated := Update(k, scaled);
      made := made + [SetUpdated(scaled, updated)];
      return if updated.Err? then Some(InternalCode) else None, made;
    }

    method ScaleNodePool(clusterName: string, pools: seq<PoolConfig>)
        returns (reply: Reply, scaled: nat, ghost cluster: Result<(), ApiError>, ghost parts: seq<seq<PoolCall>>)
      modifies this
      ensures calls == Flat(old(calls) + [ClusterRead(clusterName, cluster)], parts)
      ensures match cluster
              case Err(e) => parts == [] && scaled == 0
                             && reply == Refused(if e == NotFound then NotFoundCode else InternalCode)
              case Ok(_) => ScaleTrace(clusterName, pools, parts, reply, scaled)
      ensures scaled <= |pools| && Scaled(old(sets), sets, clusterName, pools[..scaled])
      ensures reply == Accepted ==> scaled == |pools|
    {
      var found := Answer();
      cluster, parts := found, [];
      calls := calls + [ClusterRead(clusterName, found)];
      if found.Err? {
        NothingScaled(sets, clusterName, pools);
        return Refused(if found.error == NotFound then NotFoundCode else InternalCode), 0, cluster, parts;
      }
      reply, scaled, parts := ScalePools(clusterName, pools);
    }

    method ScalePools(ns: string, pools: seq<PoolConfig>)
        returns (reply: Reply, scaled: nat, ghost parts: seq<seq<PoolCall>>)
      modifies this
      ensures calls == Flat(old(calls), parts) && ScaleTrace(ns, pools, parts, reply, scaled)
      ensures scaled <= |pools| && Scaled(old(sets), sets, ns, pools[..scaled])
    {
      ghost var c0 := calls;
      NothingScaled(sets, ns, pools);
      parts := [];
      for i := 0 to |pools|
        invariant calls == Flat(c0, parts) && |parts| == i && AllScaled(ns, pools, parts)
        invariant Scaled(old(sets), sets, ns, pools[..i])
      {
        var failure;
        failure, parts := ScaleNext(ns, pools, i, old(sets), c0, parts);
        if failure.Some? {
          return Refused(failure.value), i, parts;
        }
      }
      return Accepted, |pools|, parts;
    }

    /** The body of the loop of ScaleNodePool. */
    method ScaleNext(ns: string, pools: seq<PoolConfig>, i: nat, ghost first: map<Key, MachineSet>,
                     ghost c0: seq<PoolCall>, ghost parts: seq<seq<PoolCall>>)
      returns (failure: Option<Code>, ghost more: seq<seq<PoolCall>>)
      requires i < |pools| && calls == Flat(c0, parts) && |parts| == i && AllScaled(ns, pools, parts)
      requires Scaled(first, sets, ns, pools[..i])
      modifies this
      ensures calls == Flat(c0, more) && |more| == i + 1
      ensures if failure.None? then AllScaled(ns, pools, more) && Scaled(first, sets, ns, pools[..i + 1])
              else ScaleTrace(ns, pools, more, Refused(failure.value), i) && Scaled(first, sets, ns, pools[..i])
    {
      ghost var before := sets;
      ghost var made;
      failure, made := ScalePool(ns, pools[i]);
      FlatSnoc(c0, parts, made);
      OneMoreScaled(ns, pools, parts, made, failure);
      more := parts + [made];
      if failure.None? {
        ScaledOneMore(first, before, sets, ns, pools, i);
      }
    }
  }
}
