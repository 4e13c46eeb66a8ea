/** Peering two storage clients from the hub: each provider gets a ManifestWork that carries a
    StorageClusterPeer wired to the other side, and one shared ManifestWork, `storage-client-mapping`,
    whose ConfigMap maps each peered client of the provider to its partner. */
module Pairing {
  import opened Options
  import Hash

  const MAPPING := "storage-client-mapping"

  // ---------- clients ----------

  datatype TlsInfo = TlsInfo(serverSAN: string, serverCA: string, clientSAN: string, clientCA: string, clientCertName: string)

  datatype Provider = Provider(cluster: string, namespace: string, endpoint: string, publicEndpoint: string, tls: TlsInfo)

  datatype Client = Client(id: string, provider: Provider)

  datatype PeerRef = PeerRef(clusterName: string, clientName: string)

  datatype MirrorPeer = MirrorPeer(name: string, uid: string, items: seq<PeerRef>)

  function Lookup(info: map<string, Client>, item: PeerRef): Option<Client> {
    var key := Hash.GetKey(item.clusterName, item.clientName);
    if key in info then Some(info[key]) else None
  }

  // ---------- ManifestWorks ----------

  /** A serialized manifest. A ConfigMap's `data` is not written when it is empty. */
  datatype Manifest =
    | PairingMap(namespace: string, peerName: string, data: map<string, string>)
    | CaBundle(name: string, namespace: string, content: string)
    | StorageClusterPeer(
        name: string, namespace: string, onboardingToken: string, apiEndpoint: string,
        serverCA: string, serverSAN: string, clientCert: string, clientCA: string, clientSAN: string)

  /** The decoded ConfigMap; `None` is Go's nil map. */
  datatype ConfigMap = ConfigMap(namespace: string, peerName: string, data: Option<map<string, string>>)

  datatype Work = Work(owner: string, manifests: seq<Manifest>, feedbackFor: Option<string>)

  type Works = map<(string, string), Work>

  function Marshal(cm: ConfigMap): Manifest {
    PairingMap(cm.namespace, cm.peerName, if cm.data == None then map[] else cm.data.value)
  }

  function Decode(m: Manifest): Option<ConfigMap> {
    if !m.PairingMap? then None
    else Some(ConfigMap(m.namespace, m.peerName, if m.data == map[] then None else Some(m.data)))
  }

  /** Create or update: the manifests are always replaced, the feedback rule if there is one to set,
      and the owner is set only on creation. */
  function Put(works: Works, key: (string, string), owner: string, feedbackFor: Option<string>, manifests: seq<Manifest>): Works {
    works[key := Work(if key in works then works[key].owner else owner, manifests, feedbackFor)]
  }

  datatype Result = Done | Failed | Panicked

  // ---------- the pairing map ----------

  function PeerName(providerCluster: string): string {
    providerCluster + "-peer"
  }

  /** Enter `paired` as the partner of `client` in the map of the client's provider. Assigning to a nil
      map panics. */
  function Pair(works: Works, owner: string, client: Client, paired: Client): (Works, Result) {
    var key := (MAPPING, client.provider.cluster);
    if key in works && works[key].manifests == [] then (works, Failed)
    else
      var cm := if key in works then Decode(works[key].manifests[0])
                else Some(ConfigMap(client.provider.namespace, PeerName(paired.provider.cluster), Some(map[])));
      if cm == None then (works, Failed)
      else if cm.value.data == None then (works, Panicked)
      else
        var updated := cm.value.(data := Some(cm.value.data.value[client.id := paired.id]));
        (Put(works, key, owner, None, [Marshal(updated)]), Done)
  }

  function PairBoth(works: Works, owner: string, a: Client, b: Client): (Works, Result) {
    var (w, r) := Pair(works, owner, a, b);
    if r == Done then Pair(w, owner, b, a) else (w, r)
  }

  /** Take the client out of its provider's map; deleting from a nil map does nothing. */
  function Unpair(works: Works, owner: string, client: Client): (Works, Result) {
    var key := (MAPPING, client.provider.cluster);
    if key !in works || works[key].manifests == [] then (works, Done)
    else
      var cm := Decode(works[key].manifests[0]);
      if cm == None then (works, Failed)
      else
        var data := if cm.value.data == None then None else Some(cm.value.data.value - {client.id});
        (Put(works, key, owner, None, [Marshal(cm.value.(data := data))]), Done)
  }

  function UnpairBoth(works: Works, owner: string, a: Client, b: Client): (Works, Result) {
    var (w, r) := Unpair(works, owner, a);
    if r == Done then Unpair(w, owner, b) else (w, r)
  }

  // ---------- the StorageClusterPeer ----------

  function PeerKey(client: Client): (string, string) {
    ("storageclusterpeer-" + client.provider.cluster, client.provider.cluster)
  }

  function Endpoint(p: Provider): string {
    if p.publicEndpoint == "" then p.endpoint else p.publicEndpoint
  }

  /** What the current client's provider is to apply: the opposite side's certificates and a peer
      that points at the opposite side with the opposite side's token. */
  function PeerManifests(current: Client, opposite: Client, token: string): seq<Manifest> {
    var name := PeerName(opposite.provider.cluster);
    var ns := current.provider.namespace;
    var tls := opposite.provider.tls;
    [ CaBundle(name + "-server-ca", ns, tls.serverCA),
      CaBundle(name + "-client-ca", ns, tls.clientCA),
      StorageClusterPeer(name, ns, token, Endpoint(opposite.provider),
        name + "-server-ca", tls.serverSAN, current.provider.tls.clientCertName, name + "-client-ca", tls.clientSAN) ]
  }

  /** Onboarding tokens by the MirrorPeer's UID and the cluster of the provider that issued them. */
  type Tokens = map<(string, string), string>

  function Wire(works: Works, tokens: Tokens, mp: MirrorPeer, current: Client, opposite: Client): (Works, Result) {
    var secret := (mp.uid, opposite.provider.cluster);
    if secret !in tokens then (works, Failed)
    else (Put(works, PeerKey(current), mp.name, Some(PeerName(opposite.provider.cluster)),
              PeerManifests(current, opposite, tokens[secret])), Done)
  }

  function WireBoth(works: Works, tokens: Tokens, mp: MirrorPeer, a: Client, b: Client): (Works, Result) {
    var (w, r) := Wire(works, tokens, mp, a, b);
    if r == Done then Wire(w, tokens, mp, b, a) else (w, r)
  }

  function Configure(works: Works, tokens: Tokens, mp: MirrorPeer, a: Client, b: Client): (Works, Result) {
    var (w, r) := WireBoth(works, tokens, mp, a, b);
    if r == Done then PairBoth(w, mp.name, a, b) else (w, r)
  }

  // ---------- the vendor ----------

  class ODFVendor {
    var works: Works
    const tokens: Tokens
    const info: map<string, Client>

    constructor (works: Works, tokens: Tokens, info: map<string, Client>)
      ensures this.works == works && this.tokens == tokens && this.info == info
    {
      this.works := works;
      this.tokens := tokens;
      this.info := info;
    }

    method CreateOrUpdateManifestWork(name: string, namespace: string, feedbackFor: Option<string>, owner: string, manifests: seq<Manifest>)
      modifies this`works
      ensures works == Put(old(works), (name, namespace), owner, feedbackFor, manifests)
    {
      var mw := Work(owner, [], None);
      if (name, namespace) in works {
        mw := works[(name, namespace)];
      }
      mw := mw.(manifests := manifests, feedbackFor := None);
      if feedbackFor.Some? {
        mw := mw.(feedbackFor := feedbackFor);
      }
      works := works[(name, namespace) := mw];
    }

    method UpdateProviderConfigMap(mp: MirrorPeer, client: Client, paired: Client) returns (r: Result)
      modifies this`works
      ensures (works, r) == Pair(old(works), mp.name, client, paired)
      ensures (MAPPING, client.provider.cluster) !in old(works) ==>
        r == Done && works == old(works)[(MAPPING, client.provider.cluster) := Work(mp.name,
          [PairingMap(client.provider.namespace, paired.provider.cluster + "-peer", map[client.id := paired.id])], None)]
    {
      var key := (MAPPING, client.provider.cluster);
      var cm;
      if key !in works {
        cm := ConfigMap(client.provider.namespace, PeerName(paired.provider.cluster), Some(map[]));
      } else {
        if |works[key].manifests| == 0 {
          return Failed;
        }
        var decoded := Decode(works[key].manifests[0]);
        if decoded.None? {
          return Failed;
        }
        cm := decoded.value;
      }
      if cm.data.None? {
        return Panicked;
      }
      cm := cm.(data := Some(cm.data.value[client.id := paired.id]));
      CreateOrUpdateManifestWork(MAPPING, client.provider.cluster, None, mp.name, [Marshal(cm)]);
      return Done;
    }

    method CreateManifestWorkForClusterPairingConfigMap(mp: MirrorPeer) returns (r: Result)
      requires |mp.items| == 2
      modifies this`works
      ensures var (a, b) := (Lookup(info, mp.items[0]), Lookup(info, mp.items[1]));
        if a == None || b == None then works == old(works) && r == Failed
        else (works, r) == PairBoth(old(works), mp.name, a.value, b.value)
    {
      var ci1, ci2 := Lookup(info, mp.items[0]), Lookup(info, mp.items[1]);
      if ci1.None? || ci2.None? {
        return Failed;
      }
      r := UpdateProviderConfigMap(mp, ci1.value, ci2.value);
      if r != Done {
        return;
      }
      r := UpdateProviderConfigMap(mp, ci2.value, ci1.value);
    }

    method RemoveClientIDFromClusterPairingConfigMap(mp: MirrorPeer) returns (r: Result)
      requires |mp.items| == 2
      modifies this`works
      ensures var (a, b) := (Lookup(info, mp.items[0]), Lookup(info, mp.items[1]));
        if a == None then works == old(works) && r == Failed
        else if b == None then works == Unpair(old(works), mp.name, a.value).0 && r == Failed
        else (works, r) == UnpairBoth(old(works), mp.name, a.value, b.value)
    {
      for i := 0 to 2
        invariant i > 0 ==> Lookup(info, mp.items[0]).Some?
        invariant i == 0 ==> works == old(works)
        invariant i == 1 ==> (works, Done) == Unpair(old(works), mp.name, Lookup(info, mp.items[0]).value)
        invariant i == 2 ==> Lookup(info, mp.items[1]).Some?
        invariant i == 2 ==>
          (works, Done) == UnpairBoth(old(works), mp.name, Lookup(info, mp.items[0]).value, Lookup(info, mp.items[1]).value)
      {
        var ci := Lookup(info, mp.items[i]);
        if ci.None? {
          return Failed;
        }
        var key := (MAPPING, ci.value.provider.cluster);
        if key !in works {
          continue;
        }
        if |works[key].manifests| == 0 {
          continue;
        }
        var cm := Decode(works[key].manifests[0]);
        if cm.None? {
          return Failed;
        }
        var data := cm.value.data;
        if data.Some? {
          data := Some(data.value - {ci.value.id});
        }
        CreateOrUpdateManifestWork(MAPPING, ci.value.provider.cluster, None, mp.name, [Marshal(cm.value.(data := data))]);
      }
      return Done;
    }

    method CreateStorageClusterPeer(mp: MirrorPeer) returns (r: Result)
      requires |mp.items| == 2
      modifies this`works
      ensures var (a, b) := (Lookup(info, mp.items[0]), Lookup(info, mp.items[1]));
        if a == None || b == None then works == old(works) && r == Failed
        else (works, r) == WireBoth(old(works), tokens, mp, a.value, b.value)
    {
      var clients: seq<Client> := [];
      for i := 0 to 2
        invariant |clients| == i
        invariant forall k :: 0 <= k < i ==> Lookup(info, mp.items[k]) == Some(clients[k])
      {
        var ci := Lookup(info, mp.items[i]);
        if ci.None? {
          return Failed;
        }
        clients := clients + [ci.value];
      }
      for i := 0 to 2
        invariant i == 0 ==> works == old(works)
        invariant i == 1 ==> (works, Done) == Wire(old(works), tokens, mp, clients[0], clients[1])
        invariant i == 2 ==> (works, Done) == WireBoth(old(works), tokens, mp, clients[0], clients[1])
      {
        var current := clients[i];
        var opposite := if i == 0 then clients[1] else clients[0];
        var secret := (mp.uid, opposite.provider.cluster);
        if secret !in tokens {
          return Failed;
        }
        var name := PeerName(opposite.provider.cluster);
        var endpoint := opposite.provider.publicEndpoint;
        if endpoint == "" {
          endpoint := opposite.provider.endpoint;
        }
        var manifests := [CaBundle(name + "-server-ca", current.provider.namespace, opposite.provider.tls.serverCA)];
        manifests := manifests + [CaBundle(name + "-client-ca", current.provider.namespace, opposite.provider.tls.clientCA)];
        manifests := manifests + [StorageClusterPeer(
          name, current.provider.namespace, tokens[secret], endpoint,
          name + "-server-ca", opposite.provider.tls.serverSAN, current.provider.tls.clientCertName,
          name + "-client-ca", opposite.provider.tls.clientSAN)];
        assert manifests == PeerManifests(current, opposite, tokens[secret]);
        CreateOrUpdateManifestWork(
          "storageclusterpeer-" + current.provider.cluster, current.provider.cluster, Some(name), mp.name, manifests);
      }
      return Done;
    }

    /** The two steps of configuring an asynchronous MirrorPeer that write ManifestWorks. */
    method ConfigurePeering(mp: MirrorPeer) returns (r: Result)
      requires |mp.items| == 2
      modifies this`works
      ensures var (a, b) := (Lookup(info, mp.items[0]), Lookup(info, mp.items[1]));
        if a == None || b == None then works == old(works) && r == Failed
        else (works, r) == Configure(old(works), tokens, mp, a.value, b.value)
    {
      r := CreateStorageClusterPeer(mp);
      if r != Done {
        return;
      }
      r := CreateManifestWorkForClusterPairingConfigMap(mp);
    }
  }
}
