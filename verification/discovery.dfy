/** Website discovery over the paged listings of GoEdge. */
module Discovery {
  import opened Outcomes
  import opened Environments
  import opened GoEdge
  import opened Lexicographic

  datatype ServerName = ServerName(name: string, kind: string, subNames: seq<string>)
  datatype PolicyRef = PolicyRef(isOn: bool, policyID: int)
  datatype Https = Https(isOn: bool, policyRef: Option<PolicyRef>)
  datatype Cluster = Cluster(id: int, name: string)
  datatype Node = Node(isInstalled: bool, isOn: bool, isUp: bool)

  /** A listed server; `names` and `https` are `None` when their JSON cannot be parsed. */
  datatype Server = Server(id: int, userID: int, name: string, names: Option<seq<ServerName>>, https: Option<Https>,
                           cluster: Option<Cluster>)

  datatype Website = Website(serverID: int, userID: int, name: string, ipv4: string, policyID: int, clusterID: int,
                             cluster: string, nodeOnline: bool)

  datatype Candidate = Candidate(target: ServerTarget, httpsIsOn: bool)

  const PAGE_SIZE := 100
  const MAX_SERVERS := 10_000

  predicate IsFull(kind: string) { kind == "" || kind == "full" }

  // ---------------------------------------------------------------- which servers count

  /** `containsExactName`, without its loops. */
  predicate NamesExactly(names: seq<ServerName>, ip: string)
  {
    exists i :: 0 <= i < |names|
                && (|| (names[i].name == ip && (names[i].kind == "" || names[i].kind == "full"))
                    || ip in names[i].subNames)
  }

  predicate Serving(nodes: seq<Node>)
  {
    exists i :: 0 <= i < |nodes| && nodes[i].isInstalled && nodes[i].isOn
  }

  predicate Online(nodes: seq<Node>)
  {
    exists i :: 0 <= i < |nodes| && nodes[i].isInstalled && nodes[i].isOn && nodes[i].isUp
  }

  /** What a website needs before the cluster and the policy are looked up. */
  predicate Qualifies(server: Server, isPublic: string -> bool)
  {
    && server.names.Some? && |server.names.value| == 1
    && server.names.value[0].name != "" && server.names.value[0].subNames == [] && IsFull(server.names.value[0].kind)
    && isPublic(server.names.value[0].name)
    && server.https.Some? && server.https.value.isOn && server.https.value.policyRef.Some?
    && server.https.value.policyRef.value.isOn && server.https.value.policyRef.value.policyID > 0
    && server.cluster.Some? && server.cluster.value.id > 0
  }

  /** One public address and nothing else as its name, HTTPS with a policy in use, and a cluster with a working node. */
  predicate Eligible(server: Server, view: View)
  {
    && server.names.Some? && |server.names.value| == 1
    && var name := server.names.value[0];
    && name.name != "" && name.subNames == [] && (name.kind == "" || name.kind == "full") && view.isPublic(name.name)
    && HasPolicy(server) && server.https.value.policyRef.value.policyID in view.policies
    && view.policies[server.https.value.policyRef.value.policyID]
    && server.cluster.Some? && server.cluster.value.id > 0 && Serving(view.NodesOf(server.cluster.value.id))
  }

  /** HTTPS is on, and refers to a policy that is referred to as enabled. */
  predicate HasPolicy(server: Server)
  {
    && server.https.Some? && server.https.value.isOn && server.https.value.policyRef.Some?
    && server.https.value.policyRef.value.isOn && server.https.value.policyRef.value.policyID > 0
  }

  /** What the listing says of a server. */
  predicate Describes(site: Website, server: Server, view: View)
  {
    && server.names.Some? && |server.names.value| == 1 && server.https.Some? && server.https.value.policyRef.Some?
    && server.cluster.Some?
    && site.serverID == server.id && site.userID == server.userID
    && site.ipv4 == server.names.value[0].name
    && (server.name != "" ==> site.name == view.redact(server.name))
    && (server.name == "" ==> site.name == view.redact(site.ipv4))
    && site.policyID == server.https.value.policyRef.value.policyID
    && site.clusterID == server.cluster.value.id && site.cluster == view.redact(server.cluster.value.name)
    && (site.nodeOnline <==> Online(view.NodesOf(server.cluster.value.id)))
  }

  function SiteOf(server: Server, view: View): Website
    requires Eligible(server, view)
  {
    var ip := server.names.value[0].name;
    Website(server.id, server.userID, view.redact(if server.name == "" then ip else server.name), ip,
            server.https.value.policyRef.value.policyID, server.cluster.value.id,
            view.redact(server.cluster.value.name),
            Online(view.NodesOf(server.cluster.value.id)))
  }

  /** The state of GoEdge during one listing, and the parts of the service it depends on: the address parser, the
      keyword search and the redaction of names. */
  datatype View = View(servers: seq<Server>, nodes: map<int, seq<Node>>, policies: map<int, bool>,
                       isPublic: string -> bool, matches: (string, Server) -> bool, redact: string -> string) {
    function NodesOf(cluster: int): seq<Node> { if cluster in nodes then nodes[cluster] else [] }
  }

  function Sites(servers: seq<Server>, view: View): seq<Website>
  {
    if servers == [] then []
    else
      var n := |servers| - 1;
      Sites(servers[..n], view) + (if Eligible(servers[n], view) then [SiteOf(servers[n], view)] else [])
  }

  function Occurs(sites: seq<Website>, ip: string): nat
  {
    if sites == [] then 0
    else Occurs(sites[..|sites| - 1], ip) + (if sites[|sites| - 1].ipv4 == ip then 1 else 0)
  }

  /** The first `n` sites without those whose address another site shares. */
  function KeepAlone(sites: seq<Website>, n: nat): seq<Website>
    requires n <= |sites|
  {
    if n == 0 then []
    else
      var kept := KeepAlone(sites, n - 1);
      if Occurs(sites, sites[n - 1].ipv4) == 1 then kept + [sites[n - 1]] else kept
  }

  // ---------------------------------------------------------------- an address that nobody shares

  predicate Alone(sites: seq<Website>, p: nat)
    requires p < |sites|
  {
    forall q :: 0 <= q < |sites| && q != p ==> sites[q].ipv4 != sites[p].ipv4
  }

  lemma {:induction false} OccursAt(sites: seq<Website>, p: nat)
    requires p < |sites|
    ensures Occurs(sites, sites[p].ipv4) >= 1
  {
    var n := |sites| - 1;
    if p < n {
      OccursAt(sites[..n], p);
    }
  }

  lemma {:induction false} OccursTwice(sites: seq<Website>, p: nat, q: nat)
    requires p < q < |sites| && sites[p].ipv4 == sites[q].ipv4
    ensures Occurs(sites, sites[p].ipv4) >= 2
  {
    var n := |sites| - 1;
    if q < n {
      OccursTwice(sites[..n], p, q);
    } else {
      OccursAt(sites[..n], p);
    }
  }

  lemma {:induction false} NeverOccurs(sites: seq<Website>, ip: string)
    requires forall q :: 0 <= q < |sites| ==> sites[q].ipv4 != ip
    ensures Occurs(sites, ip) == 0
  {
    if sites != [] {
      NeverOccurs(sites[..|sites| - 1], ip);
    }
  }

  /** The counter is one exactly for an address that nobody shares. */
  lemma {:induction false} CountsAlone(sites: seq<Website>, p: nat)
    requires p < |sites|
    ensures Occurs(sites, sites[p].ipv4) == 1 <==> Alone(sites, p)
  {
    OccursAt(sites, p);
    if Alone(sites, p) {
      AloneOccursOnce(sites, p);
    } else {
      var q :| 0 <= q < |sites| && q != p && sites[q].ipv4 == sites[p].ipv4;
      OccursTwice(sites, if p < q then p else q, if p < q then q else p);
    }
  }

  lemma {:induction false} AloneOccursOnce(sites: seq<Website>, p: nat)
    requires p < |sites| && Alone(sites, p)
    ensures Occurs(sites, sites[p].ipv4) == 1
  {
    var n := |sites| - 1;
    if p < n {
      AloneOccursOnce(sites[..n], p);
    } else {
      NeverOccurs(sites[..n], sites[p].ipv4);
    }
  }

  /** The kept sites are exactly those whose address nobody shares. */
  lemma {:induction false} KeepsExactlyAlone(sites: seq<Website>, n: nat, site: Website)
    requires n <= |sites|
    ensures site in KeepAlone(sites, n) <==> exists p :: 0 <= p < n && sites[p] == site && Alone(sites, p)
  {
    if n > 0 {
      KeepsExactlyAlone(sites, n - 1, site);
      CountsAlone(sites, n - 1);
    }
  }

  lemma {:induction false} KeptAddressesDiffer(sites: seq<Website>, n: nat, i: nat, j: nat)
    requires n <= |sites| && i < j < |KeepAlone(sites, n)|
    ensures KeepAlone(sites, n)[i].ipv4 != KeepAlone(sites, n)[j].ipv4
  {
    var kept := KeepAlone(sites, n - 1);
    if j < |kept| {
      KeptAddressesDiffer(sites, n - 1, i, j);
    } else {
      KeepsExactlyAlone(sites, n - 1, kept[i]);
      CountsAlone(sites, n - 1);
    }
  }

  // ---------------------------------------------------------------- counting, compaction and order

  method CountAddresses(sites: seq<Website>) returns (counts: map<string, int>)
    ensures forall p :: 0 <= p < |sites| ==>
            sites[p].ipv4 in counts && counts[sites[p].ipv4] == Occurs(sites, sites[p].ipv4)
  {
    counts := map[];
    for n := 0 to |sites|
      invariant forall p :: 0 <= p < n ==> sites[p].ipv4 in counts
      invariant forall ip <- counts :: counts[ip] == Occurs(sites[..n], ip)
      invariant forall ip :: ip !in counts ==> Occurs(sites[..n], ip) == 0
    {
      var ip := sites[n].ipv4;
      assert sites[..n + 1][..n] == sites[..n];
      counts := counts[ip := (if ip in counts then counts[ip] else 0) + 1];
    }
    assert sites[..|sites|] == sites;
  }

  /** Compacts in place: the write index never overtakes the read index, so overwriting the array that is being
      read gives the same as filtering its original contents. */
  method Compact(buffer: array<Website>, counts: map<string, int>) returns (kept: nat)
    requires forall p :: 0 <= p < buffer.Length ==>
                           buffer[p].ipv4 in counts && counts[buffer[p].ipv4] == Occurs(buffer[..], buffer[p].ipv4)
    modifies buffer
    ensures kept <= buffer.Length && buffer[..kept] == KeepAlone(old(buffer[..]), buffer.Length)
  {
    kept := 0;
    ghost var sites := buffer[..];
    for n := 0 to buffer.Length
      invariant kept <= n
      invariant buffer[..kept] == KeepAlone(sites, n)
      invariant forall p :: n <= p < buffer.Length ==> buffer[p] == sites[p]
    {
      var site := buffer[n];
      assert site == sites[n];
      if counts[site.ipv4] == 1 {
        buffer[kept] := site;
        kept := kept + 1;
      }
    }
  }

  /** What the listing promises: strictly by address, and exactly the sites whose address nobody shares. */
  ghost predicate ListsAlone(sites: seq<Website>, list: seq<Website>)
  {
    && (forall i, j :: 0 <= i < j < |list| ==> Less(list[i].ipv4, list[j].ipv4))
    && (forall site :: site in list <==> exists p :: 0 <= p < |sites| && sites[p] == site && Alone(sites, p))
  }

  /** What the listing is sorted by. */
  function Address(site: Website): string { site.ipv4 }

  predicate Distinct(sites: seq<Website>)
  {
    forall i, j :: 0 <= i < j < |sites| ==> sites[i].ipv4 != sites[j].ipv4
  }

  lemma KeptAreDistinct(sites: seq<Website>)
    ensures Distinct(KeepAlone(sites, |sites|))
  {
    hide KeepAlone;
    var kept := KeepAlone(sites, |sites|);
    forall i, j | 0 <= i < j < |kept|
      ensures kept[i].ipv4 != kept[j].ipv4
    {
      KeptAddressesDiffer(sites, |sites|, i, j);
    }
  }

  lemma SameMembers<T(!new)>(xs: seq<T>, ys: seq<T>, x: T)
    requires multiset(xs) == multiset(ys)
    ensures x in xs <==> x in ys
  {
    assert x in xs <==> x in multiset(xs);
    assert x in ys <==> x in multiset(ys);
  }

  /** Sorting sites with distinct addresses sorts them strictly. */
  lemma SortedStrictly(kept: seq<Website>, list: seq<Website>, i: nat, j: nat)
    requires multiset(list) == multiset(kept) && Distinct(kept) && Ascending(list, Address) && i < j < |list|
    ensures Less(list[i].ipv4, list[j].ipv4)
  {
    hide Less;
    PermutationKeepsDistinct(kept, list, i, j);
    SameMembers(list, kept, list[i]);
    SameMembers(list, kept, list[j]);
    assert !Less(Address(list[j]), Address(list[i]));
    LessIsTotal(list[i].ipv4, list[j].ipv4);
  }

  lemma SortedListsAlone(sites: seq<Website>, list: seq<Website>)
    requires multiset(list) == multiset(KeepAlone(sites, |sites|)) && Ascending(list, Address)
    ensures ListsAlone(sites, list)
  {
    hide KeepAlone, Alone, Less, Ascending, Distinct;
    var kept := KeepAlone(sites, |sites|);
    KeptAreDistinct(sites);
    forall i, j | 0 <= i < j < |list|
      ensures Less(list[i].ipv4, list[j].ipv4)
    {
      SortedStrictly(kept, list, i, j);
    }
    forall site
      ensures site in list <==> exists p :: 0 <= p < |sites| && sites[p] == site && Alone(sites, p)
    {
      SameMembers(list, kept, site);
      KeepsExactlyAlone(sites, |sites|, site);
    }
  }

  /** The tail of the listing: count, compact in place, sort. */
  method KeepUnshared(sites: seq<Website>) returns (list: seq<Website>)
    ensures ListsAlone(sites, list)
  {
    var counts := CountAddresses(sites);
    var buffer := new Website[|sites|](i requires 0 <= i < |sites| => sites[i]);
    assert buffer[..] == sites;
    var kept := Compact(buffer, counts);
    list := SortBy(buffer[..kept], Address);
    SortedListsAlone(sites, list);
  }

  // ---------------------------------------------------------------- the one server that names an address

  /** The positions of the servers that name the address exactly. */
  function ExactAt(servers: seq<Server>, ip: string, n: nat): seq<nat>
    requires n <= |servers|
  {
    if n == 0 then []
    else
      var found := ExactAt(servers, ip, n - 1);
      if Exact(servers[n - 1], ip) then found + [n - 1] else found
  }

  predicate Exact(server: Server, ip: string)
  {
    server.names.Some? && NamesExactly(server.names.value, ip)
  }

  function CandidateOf(server: Server): Candidate
    requires server.https.Some?
  {
    var ref := server.https.value.policyRef;
    Candidate(ServerTarget(server.id, server.userID, if ref.Some? && ref.value.isOn then ref.value.policyID else 0),
              server.https.value.isOn)
  }

  lemma {:induction false} ExactAtFinds(servers: seq<Server>, ip: string, n: nat, p: nat)
    requires n <= |servers|
    ensures p in ExactAt(servers, ip, n) <==> p < n && Exact(servers[p], ip)
    ensures forall i, j :: 0 <= i < j < |ExactAt(servers, ip, n)| ==>
            ExactAt(servers, ip, n)[i] < ExactAt(servers, ip, n)[j] < n
    ensures forall i :: 0 <= i < |ExactAt(servers, ip, n)| ==>
            ExactAt(servers, ip, n)[i] < n && Exact(servers[ExactAt(servers, ip, n)[i]], ip)
  {
    if n > 0 {
      ExactAtFinds(servers, ip, n - 1, p);
    }
  }

  /** A candidate is usable exactly when its server has a policy, and then it is that server's target. */
  lemma CandidateTargets(server: Server)
    requires server.https.Some?
    ensures var c := CandidateOf(server);
            && (c.httpsIsOn && c.target.policyID > 0 <==> HasPolicy(server))
            && (HasPolicy(server) ==> Targets(c.target, server))
  {
  }

  predicate SoleExact(servers: seq<Server>, ip: string, p: nat)
  {
    p < |servers| && Exact(servers[p], ip) && forall q :: 0 <= q < |servers| && Exact(servers[q], ip) ==> q == p
  }

  /** The target is this server, of this user, with the policy that its HTTPS uses. */
  predicate Targets(target: ServerTarget, server: Server)
  {
    && HasPolicy(server) && target.id == server.id && target.userID == server.userID
    && target.policyID == server.https.value.policyRef.value.policyID
  }

  /** How a search ends: with the one server that names the address, or with why there is none to use. */
  ghost predicate Found(servers: seq<Server>, ip: string, r: Result<ServerTarget>)
  {
    match r
    case Success(target) => exists p: nat :: SoleExact(servers, ip, p) && Targets(target, servers[p])
    case Failure(ServerNotFound) => forall p :: 0 <= p < |servers| ==> !Exact(servers[p], ip)
    case Failure(MultipleServers) =>
      exists p, q :: 0 <= p < q < |servers| && Exact(servers[p], ip) && Exact(servers[q], ip)
    case Failure(Rejected) =>
      || |servers| > MAX_SERVERS
      || exists p :: 0 <= p < |servers| && Exact(servers[p], ip) && !HasPolicy(servers[p])
    case Failure(_) => true
  }

  function Matching(servers: seq<Server>, ip: string, view: View): seq<Server>
  {
    if servers == [] then []
    else
      var n := |servers| - 1;
      Matching(servers[..n], ip, view) + (if view.matches(ip, servers[n]) then [servers[n]] else [])
  }

  /** When the keyword search misses no server that names the address, a target found among its hits is the only
      such server GoEdge has. */
  lemma {:induction false} SearchMissesNothing(servers: seq<Server>, ip: string, view: View, server: Server)
    requires forall s <- servers :: Exact(s, ip) ==> view.matches(ip, s)
    requires server in servers && Exact(server, ip)
    ensures server in Matching(servers, ip, view)
  {
    var n := |servers| - 1;
    if server != servers[n] {
      assert server in servers[..n];
      SearchMissesNothing(servers[..n], ip, view, server);
    }
  }

  /** A target found by an honest search belongs to the only server that names the address. */
  lemma FoundIsTheOnlyOne(servers: seq<Server>, ip: string, view: View, target: ServerTarget, a: Server)
    requires forall s <- servers :: Exact(s, ip) ==> view.matches(ip, s)
    requires Found(Matching(servers, ip, view), ip, Success(target)) && a in servers && Exact(a, ip)
    ensures Targets(target, a)
  {
    hide Exact, Matching, Targets;
    SearchMissesNothing(servers, ip, view, a);
  }

  /** The server is eligible, and this is its site. */
  predicate HasSite(server: Server, view: View, site: Website)
  {
    Eligible(server, view) && Describes(site, server, view)
  }

  lemma OneDescription(server: Server, view: View, site: Website)
    requires Eligible(server, view)
    ensures Describes(site, server, view) <==> site == SiteOf(server, view)
  {
    hide Serving, Online;
  }

  lemma LastSite(servers: seq<Server>, view: View, site: Website)
    requires servers != []
    ensures var n := |servers| - 1;
            site in Sites(servers, view) <==> site in Sites(servers[..n], view) || HasSite(servers[n], view, site)
  {
    hide Eligible, SiteOf, Describes;
    var n := |servers| - 1;
    if Eligible(servers[n], view) {
      OneDescription(servers[n], view, site);
    }
  }

  /** A site is listed for a server exactly when the server is eligible. */
  lemma {:induction false} SitesAreEligible(servers: seq<Server>, view: View, site: Website)
    ensures site in Sites(servers, view) <==> exists s :: s in servers && HasSite(s, view, site)
  {
    if servers == [] {
      assert Sites(servers, view) == [];
    } else {
      hide HasSite, Sites;
      var n := |servers| - 1;
      LastSite(servers, view, site);
      SitesAreEligible(servers[..n], view, site);
      if HasSite(servers[n], view, site) {
        assert servers[n] in servers;
      } else if s :| s in servers && HasSite(s, view, site) {
        assert s in servers[..n];
      }
    }
  }

  // ---------------------------------------------------------------- the listings

  class Directory {
    const env: Environment
    const view: View

    constructor (env: Environment, view: View)
      ensures this.env == env && this.view == view
    {
      this.env, this.view := env, view;
    }

    /** The servers a listing with this keyword runs over. */
    function Listed(keyword: Option<string>): seq<Server>
    {
      if keyword.None? then view.servers else Matching(view.servers, keyword.value, view)
    }

    method Count(keyword: Option<string>) returns (r: Result<int>)
      modifies env`now
      ensures r.Success? ==> r.value == |Listed(keyword)|
      ensures r.Failure? ==> r.error == Crashed || External(r.error)
      ensures env.calm ==> r.Success?
    {
      var fate := env.Draw();
      var o := env.Report(fate);
      r := if o.Ok? then Success(|Listed(keyword)|) else Failure(o.error);
    }

    /** An honest page: the next `PAGE_SIZE` servers, or fewer at the end. */
    method Page(keyword: Option<string>, offset: nat) returns (r: Result<seq<Server>>)
      requires offset <= |Listed(keyword)|
      modifies env`now
      ensures var all := Listed(keyword);
              r.Success? ==> r.value == all[offset..if offset + PAGE_SIZE <= |all| then offset + PAGE_SIZE else |all|]
      ensures r.Failure? ==> r.error == Crashed || External(r.error)
      ensures env.calm ==> r.Success?
    {
      var fate := env.Draw();
      var o := env.Report(fate);
      if o.Err? {
        return Failure(o.error);
      }
      var all := Listed(keyword);
      return Success(all[offset..if offset + PAGE_SIZE <= |all| then offset + PAGE_SIZE else |all|]);
    }

    /** Everything the listing needs of a server can be read. */
    predicate Readable(server: Server)
    {
      && server.names.Some?
      && (Qualifies(server, view.isPublic) && Serving(view.NodesOf(server.cluster.value.id)) ==>
            server.https.value.policyRef.value.policyID in view.policies)
    }

    method ClusterNodeState(cluster: int) returns (r: Result<(bool, bool)>)
      modifies env`now
      ensures r.Success? ==> r.value == (Online(view.NodesOf(cluster)), Serving(view.NodesOf(cluster)))
      ensures r.Failure? ==> r.error == Crashed || External(r.error)
      ensures env.calm ==> r.Success?
    {
      var fate := env.Draw();
      var o := env.Report(fate);
      if o.Err? {
        return Failure(o.error);
      }
      var nodes := view.NodesOf(cluster);
      var online, valid := false, false;
      for i := 0 to |nodes|
        invariant online == Online(nodes[..i]) && valid == Serving(nodes[..i])
      {
        assert nodes[..i + 1] == nodes[..i] + [nodes[i]];
        NodeScan(nodes, i);
        if nodes[i].isInstalled && nodes[i].isOn {
          valid := true;
          if nodes[i].isUp {
            online := true;
          }
        }
      }
      assert nodes[..|nodes|] == nodes;
      return Success((online, valid));
    }

    lemma NodeScan(nodes: seq<Node>, n: nat)
      requires n < |nodes|
      ensures Serving(nodes[..n + 1]) <==> Serving(nodes[..n]) || (nodes[n].isInstalled && nodes[n].isOn)
      ensures Online(nodes[..n + 1]) <==> Online(nodes[..n]) || (nodes[n].isInstalled && nodes[n].isOn && nodes[n].isUp)
    {
      var longer := nodes[..n + 1];
      assert longer[n] == nodes[n];
      assert forall i :: 0 <= i < n ==> longer[i] == nodes[..n][i];
    }

    method PolicyIsOn(id: int) returns (r: Result<bool>)
      modifies env`now
      ensures r.Success? ==> id in view.policies && r.value == view.policies[id]
      ensures r.Failure? ==> r.error in {Crashed, Unexpected} || External(r.error)
      ensures env.calm && id in view.policies ==> r.Success?
    {
      var fate := env.Draw();
      var o := env.Report(fate);
      if o.Err? {
        return Failure(o.error);
      }
      r := if id in view.policies then Success(view.policies[id]) else Failure(Unexpected);
    }

    method EligibleWebsite(server: Server) returns (r: Result<Option<Website>>)
      modifies env`now
      ensures r.Success? ==> server.names.Some?
                             && r.value == if Eligible(server, view) then Some(SiteOf(server, view)) else None
      ensures r.Success? ==> if r.value.Some? then HasSite(server, view, r.value.value) else !Eligible(server, view)
      ensures r.Failure? ==> r.error in {Crashed, Unexpected} || External(r.error)
      ensures env.calm && Readable(server) ==> r.Success?
    {
      if server.names.None? {
        return Failure(Unexpected);
      }
      if !Qualifies(server, view.isPublic) {
        return Success(None);
      }
      var ip, policyID := server.names.value[0].name, server.https.value.policyRef.value.policyID;
      var nodes := ClusterNodeState(server.cluster.value.id);
      if nodes.Failure? {
        return Failure(nodes.error);
      }
      if !nodes.value.1 {
        return Success(None);
      }
      var policy := PolicyIsOn(policyID);
      if policy.Failure? {
        return Failure(policy.error);
      }
      if !policy.value {
        return Success(None);
      }
      var name := if server.name == "" then ip else server.name;
      return Success(Some(Website(server.id, server.userID, view.redact(name), ip, policyID, server.cluster.value.id,
                                  view.redact(server.cluster.value.name), nodes.value.0)));
    }

    /** Every eligible website whose address no other eligible website shares, strictly by address. */
    method ListEligibleWebsites() returns (r: Result<seq<Website>>)
      modifies env`now
      ensures r.Success? ==> && ListsAlone(Sites(view.servers, view), r.value) && |view.servers| <= MAX_SERVERS
                             && forall s <- view.servers :: s.names.Some?
      ensures env.calm && |view.servers| <= MAX_SERVERS && (forall s <- view.servers :: Readable(s)) ==> r.Success?
    {
      hide ListsAlone, Eligible, SiteOf, Readable;
      var count := Count(None);
      if count.Failure? {
        return Failure(count.error);
      }
      if count.value < 0 || count.value > MAX_SERVERS {
        return Failure(Rejected);
      }
      var sites: seq<Website> := [];
      var offset := 0;
      var done := false;
      while offset < count.value && !done
        invariant 0 <= offset && (!done && offset < count.value ==> offset <= |view.servers|)
        invariant var seen := if done || offset > |view.servers| then |view.servers| else offset;
                  sites == Sites(view.servers[..seen], view) && forall s <- view.servers[..seen] :: s.names.Some?
        decreases count.value - offset, !done
      {
        var page := Page(None, offset);
        if page.Failure? {
          return Failure(page.error);
        }
        var scanned := ScanPage(offset, page.value, sites);
        if scanned.Failure? {
          return Failure(scanned.error);
        }
        sites := scanned.value;
        if |page.value| < PAGE_SIZE {
          done := true;
        } else {
          offset := offset + PAGE_SIZE;
        }
      }
      assert view.servers[..|view.servers|] == view.servers;
      var list := KeepUnshared(sites);
      return Success(list);
    }

    method ScanPage(offset: nat, page: seq<Server>, before: seq<Website>) returns (r: Result<seq<Website>>)
      requires offset + |page| <= |view.servers| && page == view.servers[offset..offset + |page|]
      requires before == Sites(view.servers[..offset], view)
      modifies env`now
      ensures r.Success? ==> && r.value == Sites(view.servers[..offset + |page|], view)
                             && forall s <- page :: s.names.Some?
      ensures env.calm && (forall s <- view.servers :: Readable(s)) ==> r.Success?
    {
      hide Eligible, SiteOf, Readable;
      var sites := before;
      for i := 0 to |page|
        invariant sites == Sites(view.servers[..offset + i], view)
        invariant forall j :: 0 <= j < i ==> page[j].names.Some?
      {
        assert page[i] == view.servers[offset + i];
        assert view.servers[..offset + i + 1][..offset + i] == view.servers[..offset + i];
        var site := EligibleWebsite(page[i]);
        if site.Failure? {
          return Failure(site.error);
        }
        if site.value.Some? {
          sites := sites + [site.value.value];
        }
      }
      return Success(sites);
    }

    /** `containsExactName`, with its loops. */
    method ContainsExactName(names: seq<ServerName>, ip: string) returns (r: bool)
      ensures r == NamesExactly(names, ip)
    {
      for i := 0 to |names|
        invariant !NamesExactly(names[..i], ip)
      {
        var name := names[i];
        if name.name == ip && IsFull(name.kind) {
          return true;
        }
        for j := 0 to |name.subNames|
          invariant ip !in name.subNames[..j]
        {
          if name.subNames[j] == ip {
            return true;
          }
        }
        assert name.subNames[..|name.subNames|] == name.subNames;
        assert forall k :: 0 <= k < i ==> names[..i + 1][k] == names[..i][k];
      }
      assert names[..|names|] == names;
      return false;
    }

    /** The only server that names the address, with HTTPS and a policy in use. */
    method DiscoverServer(ip: string) returns (r: Result<ServerTarget>)
      modifies env`now
      ensures Found(Listed(Some(ip)), ip, r)
    {
      var count := Count(Some(ip));
      if count.Failure? {
        return Failure(count.error);
      }
      var servers := Listed(Some(ip));
      if count.value <= 0 {
        return Failure(ServerNotFound);
      }
      if count.value > MAX_SERVERS {
        return Failure(Rejected);
      }
      var exact: seq<Candidate> := [];
      var offset := 0;
      var done := false;
      while offset < count.value && !done
        invariant 0 <= offset && (!done && offset < count.value ==> offset <= |servers|)
        invariant CandidatesUpTo(servers, ip, if done || offset > |servers| then |servers| else offset, exact)
        decreases count.value - offset, !done
      {
        var page := Page(Some(ip), offset);
        if page.Failure? {
          return Failure(page.error);
        }
        var scanned := ScanExact(ip, servers, offset, page.value, exact);
        if scanned.Failure? {
          return Failure(scanned.error);
        }
        exact := scanned.value;
        if |page.value| == 0 || |page.value| < PAGE_SIZE {
          done := true;
        } else {
          offset := offset + PAGE_SIZE;
        }
      }
      r := Choose(ip, servers, exact);
    }

    /** The candidates among the first `n` servers, in order, all with readable HTTPS settings. */
    ghost predicate CandidatesUpTo(servers: seq<Server>, ip: string, n: nat, exact: seq<Candidate>)
    {
      && n <= |servers| && |exact| == |ExactAt(servers, ip, n)|
      && forall i :: 0 <= i < |exact| ==>
                       var p := ExactAt(servers, ip, n)[i];
                       p < n && servers[p].https.Some? && exact[i] == CandidateOf(servers[p])
    }

    lemma CandidatesGrow(servers: seq<Server>, ip: string, n: nat, exact: seq<Candidate>)
      requires CandidatesUpTo(servers, ip, n, exact) && n < |servers|
      ensures !Exact(servers[n], ip) ==> CandidatesUpTo(servers, ip, n + 1, exact)
      ensures Exact(servers[n], ip) && servers[n].https.Some? ==>
                CandidatesUpTo(servers, ip, n + 1, exact + [CandidateOf(servers[n])])
    {
      hide Exact, CandidateOf;
      ExactAtFinds(servers, ip, n, 0);
    }

    method ScanExact(ip: string, ghost servers: seq<Server>, offset: nat, page: seq<Server>, before: seq<Candidate>)
      returns (r: Result<seq<Candidate>>)
      requires offset + |page| <= |servers| && page == servers[offset..offset + |page|]
      requires CandidatesUpTo(servers, ip, offset, before)
      ensures r.Success? ==> CandidatesUpTo(servers, ip, offset + |page|, r.value)
      ensures r == Failure(Rejected) ==>
              exists p :: 0 <= p < |servers| && Exact(servers[p], ip) && servers[p].https.None?
      ensures r.Failure? ==> r.error in {Unexpected, Rejected}
    {
      hide NamesExactly, CandidatesUpTo, CandidateOf;
      var exact := before;
      for i := 0 to |page|
        invariant CandidatesUpTo(servers, ip, offset + i, exact)
      {
        assert page[i] == servers[offset + i];
        if page[i].names.None? {
          return Failure(Unexpected);
        }
        CandidatesGrow(servers, ip, offset + i, exact);
        var named := ContainsExactName(page[i].names.value, ip);
        if named {
          assert Exact(servers[offset + i], ip);
          if page[i].https.None? {
            return Failure(Rejected);
          }
          exact := exact + [CandidateOf(page[i])];
        }
      }
      return Success(exact);
    }

    method Choose(ip: string, ghost servers: seq<Server>, exact: seq<Candidate>) returns (r: Result<ServerTarget>)
      requires CandidatesUpTo(servers, ip, |servers|, exact)
      ensures Found(servers, ip, r)
    {
      hide Exact, NamesExactly;
      forall p: nat
        ensures p in ExactAt(servers, ip, |servers|) <==> p < |servers| && Exact(servers[p], ip)
      {
        ExactAtFinds(servers, ip, |servers|, p);
      }
      ghost var at := ExactAt(servers, ip, |servers|);
      ExactAtFinds(servers, ip, |servers|, 0);
      if |exact| == 0 {
        return Failure(ServerNotFound);
      }
      assert at[0] in at;
      if |exact| != 1 {
        assert at[1] in at && at[0] < at[1];
        return Failure(MultipleServers);
      }
      assert SoleExact(servers, ip, at[0]);
      CandidateTargets(servers[at[0]]);
      if !exact[0].httpsIsOn || exact[0].target.policyID <= 0 {
        return Failure(Rejected);
      }
      return Success(exact[0].target);
    }
  }
}
