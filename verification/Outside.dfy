/** Calls whose answers the controllers take as they come: clusters, secrets, the
    managed cluster, templates. Any answer is possible, and all of them are kept. */
module Outside {
  import opened Objects
  import CertBundle
  import ClusterWorld
  import Images
  import Tokens

  /** The parts of a cluster object the machine controller looks at. */
  datatype ClusterInfo = ClusterInfo(name: string, endpoint: string, k8sVersion: string, deleting: bool)

  /** A node condition as reported by the managed cluster. */
  datatype Condition = Condition(reason: string, status: string)

  /** Why a pass stopped: what errors.Cause finds in the returned error. */
  datatype PassError =
    | Api(error: ApiError)
    | NotReady
    | NeedsRelease(systemId: string)
    | Unrecoverable
    | Other
    | Crashed

  /** Only status errors are recognised as API errors. */
  function FromApi(e: ApiError): (r: PassError)
    ensures r.Api? <==> e != Transport
    ensures r == Api(NotFound) <==> e == NotFound
    ensures r == Other <==> e == Transport
  {
    if e == Transport then Other else Api(e)
  }

  /** What the user data of a machine is made from; a worker joins with a token at
      the address of the API server. */
  datatype UserdataInput = UserdataInput(
    name: string,
    labels: map<string, string>,
    instanceType: string,
    bundle: CertBundle.Bundle,
    join: Option<Join>)

  datatype Join = Join(token: string, endpoint: string)

  /** The id and the secret of a token. */
  datatype Random = Random(id: string, secret: string)

  /** A call and what it was answered. */
  datatype Answer =
    | ClustersListed(ns: string, clusters: Result<seq<ClusterInfo>, ApiError>)
    | SecretRead(ns: string, secret: Result<map<string, CertBundle.Bytes>, ApiError>)
    | ClientBuilt(config: CertBundle.Bytes, built: bool)
    | TokensListed(tokens: Result<seq<Tokens.TokenSecret>, ApiError>)
    | RandomRead(random: Option<Random>)
    | TokenStored(token: Tokens.TokenSecret, stored: Result<(), ApiError>)
    | UserdataMade(input: UserdataInput, userdata: Result<string, PassError>)
    | ResourcesRead(resources: Result<seq<Images.BootResource>, ()>)
    | NodeRead(name: string, node: Result<seq<Condition>, ApiError>)
    | NodeDrained(name: string, drained: Result<(), ApiError>)
    | NodeRemoved(name: string, removed: Result<(), ApiError>)
    | ServicesListed(services: Result<nat, ApiError>)
    | BundleMade(bundle: Result<CertBundle.Bundle, ()>)

  /** All that is asked so far, oldest first. */
  class Remote {
    var answers: seq<Answer>

    constructor ()
      ensures answers == []
    {
      answers := [];
    }

    method ListClusters(ns: string) returns (r: Result<seq<ClusterInfo>, ApiError>)
      modifies this
      ensures answers == old(answers) + [ClustersListed(ns, r)]
    {
      r := *;
      answers := answers + [ClustersListed(ns, r)];
    }

    method GetSecret(ns: string) returns (r: Result<map<string, CertBundle.Bytes>, ApiError>)
      modifies this
      ensures answers == old(answers) + [SecretRead(ns, r)]
    {
      r := *;
      answers := answers + [SecretRead(ns, r)];
    }

    /** A client of the managed cluster from its kubeconfig. */
    method BuildClient(config: CertBundle.Bytes) returns (ok: bool)
      modifies this
      ensures answers == old(answers) + [ClientBuilt(config, ok)]
    {
      ok := *;
      answers := answers + [ClientBuilt(config, ok)];
    }

    method ListTokens() returns (r: Result<seq<Tokens.TokenSecret>, ApiError>)
      modifies this
      ensures answers == old(answers) + [TokensListed(r)]
    {
      r := *;
      answers := answers + [TokensListed(r)];
    }

    method ReadRandom() returns (r: Option<Random>)
      modifies this
      ensures answers == old(answers) + [RandomRead(r)]
    {
      r := *;
      answers := answers + [RandomRead(r)];
    }

    method StoreToken(t: Tokens.TokenSecret) returns (r: Result<(), ApiError>)
      modifies this
      ensures answers == old(answers) + [TokenStored(t, r)]
    {
      r := *;
      answers := answers + [TokenStored(t, r)];
    }

    /** Fails, or ends the pass, if the templates or a certificate are not as
        expected. */
    method MakeUserdata(input: UserdataInput) returns (r: Result<string, PassError>)
      modifies this
      ensures answers == old(answers) + [UserdataMade(input, r)]
      ensures r.Err? ==> r.error == Other || r.error == Crashed
    {
      r := *;
      if r.Err? {
        var crash: bool := *;
        r := Err(if crash then Crashed else Other);
      }
      answers := answers + [UserdataMade(input, r)];
    }

    method BootResources() returns (r: Result<seq<Images.BootResource>, ()>)
      modifies this
      ensures answers == old(answers) + [ResourcesRead(r)]
    {
      r := *;
      answers := answers + [ResourcesRead(r)];
    }

    method ReadNode(name: string) returns (r: Result<seq<Condition>, ApiError>)
      modifies this
      ensures answers == old(answers) + [NodeRead(name, r)]
    {
      r := *;
      answers := answers + [NodeRead(name, r)];
    }

    /** Cordons the node and drives its pods away. */
    method DrainNode(name: string) returns (r: Result<(), ApiError>)
      modifies this
      ensures answers == old(answers) + [NodeDrained(name, r)]
    {
      r := *;
      answers := answers + [NodeDrained(name, r)];
    }

    method RemoveNode(name: string) returns (r: Result<(), ApiError>)
      modifies this
      ensures answers == old(answers) + [NodeRemoved(name, r)]
    {
      r := *;
      answers := answers + [NodeRemoved(name, r)];
    }

    /** How many cluster services the managed cluster has. */
    method ListServices() returns (r: Result<nat, ApiError>)
      modifies this
      ensures answers == old(answers) + [ServicesListed(r)]
    {
      var fails: bool := *;
      var e: ApiError := *;
      var n: nat := *;
      r := if fails then Err(e) else Ok(n);
      answers := answers + [ServicesListed(r)];
    }

    /** cert.NewCABundle. */
    method MakeBundle() returns (r: Result<CertBundle.Bundle, ()>)
      modifies this
      ensures answers == old(answers) + [BundleMade(r)]
    {
      r := *;
      answers := answers + [BundleMade(r)];
    }
  }

  /** One of the calls by which a new master publishes the kubeconfig and its
      address, and its answer. */
  datatype Published =
    | Encoded(bundle: CertBundle.Bundle, name: string, address: string, kubeconfig: Result<CertBundle.Bytes, ()>)
    | Stored(data: map<string, CertBundle.Bytes>, stored: Result<(), ApiError>)
    | ClusterRead(cluster: Result<ClusterWorld.Cluster, ApiError>)
    | ClusterWritten(c: ClusterWorld.Cluster, written: Result<(), ApiError>)

  /** Those calls with all their answers so far, oldest first. */
  class Publisher {
    var answers: seq<Published>

    constructor ()
      ensures answers == []
    {
      answers := [];
    }

    /** CABundle.Kubeconfig for the cluster of this name at this address. */
    method Encode(bundle: CertBundle.Bundle, name: string, address: string) returns (r: Result<CertBundle.Bytes, ()>)
      modifies this
      ensures answers == old(answers) + [Encoded(bundle, name, address, r)]
    {
      r := *;
      answers := answers + [Encoded(bundle, name, address, r)];
    }

    /** client.Update of a secret whose data was derived from `copy`. */
    method Store(ghost copy: map<string, CertBundle.Bytes>, data: map<string, CertBundle.Bytes>)
      returns (r: Result<(), ApiError>)
      requires ClusterWorld.AddsKubeconfig(copy, data)
      modifies this
      ensures answers == old(answers) + [Stored(data, r)]
    {
      r := *;
      answers := answers + [Stored(data, r)];
    }

    method GetCluster() returns (r: Result<ClusterWorld.Cluster, ApiError>)
      modifies this
      ensures answers == old(answers) + [ClusterRead(r)]
    {
      r := *;
      answers := answers + [ClusterRead(r)];
    }

    /** client.Update of a cluster that was derived from `copy`. */
    method UpdateCluster(ghost copy: ClusterWorld.Cluster, c: ClusterWorld.Cluster) returns (r: Result<(), ApiError>)
      requires ClusterWorld.WritesEndpoint(copy, c)
      modifies this
      ensures answers == old(answers) + [ClusterWritten(c, r)]
    {
      r := *;
      answers := answers + [ClusterWritten(c, r)];
    }
  }
}
