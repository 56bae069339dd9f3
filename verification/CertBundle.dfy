/** The certificate bundle kept in the cluster secret (pkg/cert/gen_cert.go). */
module CertBundle {
  import opened Objects

  type Bytes = seq<bv8>

  datatype Bundle = Bundle(
    root: Bytes, rootKey: Bytes,
    k8s: Bytes, k8sKey: Bytes,
    etcd: Bytes, etcdKey: Bytes,
    frontProxy: Bytes, frontProxyKey: Bytes,
    k8sClient: Bytes, k8sClientKey: Bytes)

  const EMPTY_BUNDLE := Bundle([], [], [], [], [], [], [], [], [], [])

  const KEYS: seq<string> := [
    "root.crt", "root.key",
    "ca.crt", "ca.key",
    "etcd.crt", "etcd.key",
    "front-proxy.crt", "front-proxy.key",
    "k8s-client.crt", "k8s-client.key"]

  /** Where createKubeconfig puts the admin configuration. */
  const KUBECONFIG_KEY := "kubernetes.kubeconfig"

  predicate HasAllKeys(m: map<string, Bytes>) {
    forall i :: 0 <= i < |KEYS| ==> KEYS[i] in m
  }

  /** The managed cluster can be reached. */
  predicate HasKubeconfig(m: map<string, Bytes>) {
    KUBECONFIG_KEY in m && m[KUBECONFIG_KEY] != []
  }

  function KubeconfigOf(m: map<string, Bytes>): Bytes
    requires HasKubeconfig(m)
  {
    m[KUBECONFIG_KEY]
  }

  /** The part of a bundle that belongs under the i-th key. */
  function Part(b: Bundle, i: nat): Bytes
    requires i < |KEYS|
  {
    [b.root, b.rootKey, b.k8s, b.k8sKey, b.etcd, b.etcdKey,
     b.frontProxy, b.frontProxyKey, b.k8sClient, b.k8sClientKey][i]
  }

  /** The bundle says what the map says. */
  predicate Agrees(b: Bundle, m: map<string, Bytes>) {
    HasAllKeys(m) && forall i :: 0 <= i < |KEYS| ==> Part(b, i) == m[KEYS[i]]
  }

  /** Which part belongs under which name. */
  lemma PartsByName(b: Bundle, m: map<string, Bytes>)
    requires Agrees(b, m)
    ensures "root.crt" in m && m["root.crt"] == b.root
    ensures "root.key" in m && m["root.key"] == b.rootKey
    ensures "ca.crt" in m && m["ca.crt"] == b.k8s
    ensures "ca.key" in m && m["ca.key"] == b.k8sKey
    ensures "etcd.crt" in m && m["etcd.crt"] == b.etcd
    ensures "etcd.key" in m && m["etcd.key"] == b.etcdKey
    ensures "front-proxy.crt" in m && m["front-proxy.crt"] == b.frontProxy
    ensures "front-proxy.key" in m && m["front-proxy.key"] == b.frontProxyKey
    ensures "k8s-client.crt" in m && m["k8s-client.crt"] == b.k8sClient
    ensures "k8s-client.key" in m && m["k8s-client.key"] == b.k8sClientKey
  {
    assert KEYS[0] in m && Part(b, 0) == m[KEYS[0]] && KEYS[1] in m && Part(b, 1) == m[KEYS[1]];
    assert KEYS[2] in m && Part(b, 2) == m[KEYS[2]] && KEYS[3] in m && Part(b, 3) == m[KEYS[3]];
    assert KEYS[4] in m && Part(b, 4) == m[KEYS[4]] && KEYS[5] in m && Part(b, 5) == m[KEYS[5]];
    assert KEYS[6] in m && Part(b, 6) == m[KEYS[6]] && KEYS[7] in m && Part(b, 7) == m[KEYS[7]];
    assert KEYS[8] in m && Part(b, 8) == m[KEYS[8]] && KEYS[9] in m && Part(b, 9) == m[KEYS[9]];
  }

  /** CABundle, which Set changes in place. */
  class CABundle {
    var b: Bundle

    constructor ()
      ensures b == EMPTY_BUNDLE
    {
      b := EMPTY_BUNDLE;
    }

    /** Writes the part that belongs to `key` and no other. */
    method Set(key: string, value: Bytes)
      modifies this
      ensures forall i :: 0 <= i < |KEYS| ==> Part(b, i) == if KEYS[i] == key then value else Part(old(b), i)
    {
      DistinctKeys();
      match key
      case "root.crt" => b := b.(root := value);
      case "root.key" => b := b.(rootKey := value);
      case "ca.crt" => b := b.(k8s := value);
      case "ca.key" => b := b.(k8sKey := value);
      case "etcd.crt" => b := b.(etcd := value);
      case "etcd.key" => b := b.(etcdKey := value);
      case "front-proxy.crt" => b := b.(frontProxy := value);
      case "front-proxy.key" => b := b.(frontProxyKey := value);
      case "k8s-client.crt" => b := b.(k8sClient := value);
      case "k8s-client.key" => b := b.(k8sClientKey := value);
      case _ =>
    }
  }

  /** The ten keys are distinct, and none is the kubeconfig key. */
  lemma DistinctKeys()
    ensures forall i, j :: 0 <= i < j < |KEYS| ==> KEYS[i] != KEYS[j]
    ensures forall i :: 0 <= i < |KEYS| ==> KEYS[i] != KUBECONFIG_KEY
  {
    assert |KEYS[0]| == 8 && |KEYS[1]| == 8 && |KEYS[2]| == 6 && |KEYS[3]| == 6 && |KEYS[4]| == 8;
    assert |KEYS[5]| == 8 && |KEYS[6]| == 15 && |KEYS[7]| == 15 && |KEYS[8]| == 14 && |KEYS[9]| == 14;
    assert KEYS[0][0] == 'r' && KEYS[1][0] == 'r' && KEYS[4][0] == 'e' && KEYS[5][0] == 'e';
    assert KEYS[0][5] == 'c' && KEYS[1][5] == 'k' && KEYS[2][3] == 'c' && KEYS[3][3] == 'k';
    assert KEYS[4][5] == 'c' && KEYS[5][5] == 'k' && KEYS[6][12] == 'c' && KEYS[7][12] == 'k';
    assert KEYS[8][11] == 'c' && KEYS[9][11] == 'k';
    assert |KUBECONFIG_KEY| == 21;
  }

  /** CABundleFromMap fails exactly if a key is missing, and otherwise returns
      what the map says. */
  method CABundleFromMap(m: map<string, Bytes>) returns (r: Result<Bundle, string>)
    ensures r.Ok? <==> HasAllKeys(m)
    ensures r.Ok? ==> Agrees(r.value, m)
    ensures r.Err? ==> r.error in KEYS && r.error !in m
  {
    DistinctKeys();
    var bundle := new CABundle();
    for i := 0 to |KEYS|
      invariant forall j :: 0 <= j < i ==> KEYS[j] in m && Part(bundle.b, j) == m[KEYS[j]]
    {
      if KEYS[i] !in m {
        return Err(KEYS[i]);
      }
      bundle.Set(KEYS[i], m[KEYS[i]]);
    }
    return Ok(bundle.b);
  }

  /** The first n parts of b were written over `before`, and nothing else. */
  predicate MergedUpTo(data: map<string, Bytes>, before: map<string, Bytes>, b: Bundle, n: nat)
    requires n <= |KEYS|
  {
    && (forall i :: 0 <= i < n ==> KEYS[i] in data && data[KEYS[i]] == Part(b, i))
    && (forall k :: k in before ==> k in data)
    && (forall k :: k in before && k !in KEYS ==> data[k] == before[k])
    && (forall k :: k in data ==> k in before || k in KEYS[..n])
  }

  lemma MergeOne(data: map<string, Bytes>, before: map<string, Bytes>, b: Bundle, n: nat)
    requires n < |KEYS| && MergedUpTo(data, before, b, n)
    ensures MergedUpTo(data[KEYS[n] := Part(b, n)], before, b, n + 1)
  {
    DistinctKeys();
    assert KEYS[..n + 1] == KEYS[..n] + [KEYS[n]];
  }

  lemma MergedAll(data: map<string, Bytes>, before: map<string, Bytes>, b: Bundle)
    requires MergedUpTo(data, before, b, |KEYS|)
    ensures Agrees(b, data)
    ensures forall k :: k in data <==> k in before || k in KEYS
    ensures forall k :: k in before && k !in KEYS ==> data[k] == before[k]
  {
    assert KEYS[..|KEYS|] == KEYS;
  }

  /** A secret's data map, which MergeWithMap and createKubeconfig write into. */
  class SecretData {
    var data: map<string, Bytes>

    constructor (data: map<string, Bytes>)
      ensures this.data == data
    {
      this.data := data;
    }

    method Put(ghost n: nat, key: string, value: Bytes, ghost before: map<string, Bytes>, ghost b: Bundle)
      requires n < |KEYS| && key == KEYS[n] && value == Part(b, n) && MergedUpTo(data, before, b, n)
      modifies this
      ensures MergedUpTo(data, before, b, n + 1)
    {
      MergeOne(data, before, b, n);
      data := data[key := value];
    }

    /** A certificate and its key, the parts n and n + 1. */
    method PutPair(ghost n: nat, certKey: string, cert: Bytes, keyKey: string, key: Bytes,
                   ghost before: map<string, Bytes>, ghost b: Bundle)
      requires n + 1 < |KEYS| && MergedUpTo(data, before, b, n)
      requires certKey == KEYS[n] && cert == Part(b, n) && keyKey == KEYS[n + 1] && key == Part(b, n + 1)
      modifies this
      ensures MergedUpTo(data, before, b, n + 2)
    {
      Put(n, certKey, cert, before, b);
      Put(n + 1, keyKey, key, before, b);
    }

    method MergeRoot(b: Bundle, ghost before: map<string, Bytes>)
      requires MergedUpTo(data, before, b, 0)
      modifies this
      ensures MergedUpTo(data, before, b, 2)
    {
      PutPair(0, "root.crt", b.root, "root.key", b.rootKey, before, b);
    }

    method MergeKubernetes(b: Bundle, ghost before: map<string, Bytes>)
      requires MergedUpTo(data, before, b, 2)
      modifies this
      ensures MergedUpTo(data, before, b, 4)
    {
      PutPair(2, "ca.crt", b.k8s, "ca.key", b.k8sKey, before, b);
    }

    method MergeEtcd(b: Bundle, ghost before: map<string, Bytes>)
      requires MergedUpTo(data, before, b, 4)
      modifies this
      ensures MergedUpTo(data, before, b, 6)
    {
      PutPair(4, "etcd.crt", b.etcd, "etcd.key", b.etcdKey, before, b);
    }

    method MergeFrontProxy(b: Bundle, ghost before: map<string, Bytes>)
      requires MergedUpTo(data, before, b, 6)
      modifies this
      ensures MergedUpTo(data, before, b, 8)
    {
      PutPair(6, "front-proxy.crt", b.frontProxy, "front-proxy.key", b.frontProxyKey, before, b);
    }

    /** CABundle.MergeWithMap. Other keys of the map stay as they are. */
    method MergeBundle(b: Bundle)
      modifies this
      ensures Agrees(b, data)
      ensures forall k :: k in data <==> k in old(data) || k in KEYS
      ensures forall k :: k in old(data) && k !in KEYS ==> data[k] == old(data)[k]
    {
      ghost var before := data;
      MergeRoot(b, before);
      MergeKubernetes(b, before);
      MergeEtcd(b, before);
      MergeFrontProxy(b, before);
      PutPair(8, "k8s-client.crt", b.k8sClient, "k8s-client.key", b.k8sClientKey, before, b);
      MergedAll(data, before, b);
    }

    method AddKubeconfig(kubeconfig: Bytes)
      modifies this
      ensures data == old(data)[KUBECONFIG_KEY := kubeconfig]
      ensures forall b :: Agrees(b, old(data)) ==> Agrees(b, data)
    {
      DistinctKeys();
      data := data[KUBECONFIG_KEY := kubeconfig];
    }
  }

  /** Only one bundle agrees with a map, so what was merged is what is read. */
  lemma AgreesIsUnique(a: Bundle, b: Bundle, m: map<string, Bytes>)
    requires Agrees(a, m) && Agrees(b, m)
    ensures a == b
  {
    assert Part(a, 0) == Part(b, 0) && Part(a, 1) == Part(b, 1) && Part(a, 2) == Part(b, 2);
    assert Part(a, 3) == Part(b, 3) && Part(a, 4) == Part(b, 4) && Part(a, 5) == Part(b, 5);
    assert Part(a, 6) == Part(b, 6) && Part(a, 7) == Part(b, 7) && Part(a, 8) == Part(b, 8);
    assert Part(a, 9) == Part(b, 9);
  }

  /** A bundle merged into any map comes back unchanged, also after the
      kubeconfig was added beside it. */
  method RoundTrip(b: Bundle, data: map<string, Bytes>, kubeconfig: Bytes) returns (r: Result<Bundle, string>)
    ensures r == Ok(b)
  {
    var secret := new SecretData(data);
    secret.MergeBundle(b);
    secret.AddKubeconfig(kubeconfig);
    r := CABundleFromMap(secret.data);
    AgreesIsUnique(r.value, b, secret.data);
  }
}
