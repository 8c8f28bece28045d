/** The certificate authority as the service sees it: an order presents and cleans up challenges, and ends with a
    fresh leaf or an error. */
module Issuance {
  import opened Outcomes
  import opened Environments
  import opened GoEdge
  import opened Challenges

  /** What the checks read of one certificate of a chain. */
  datatype X509 = X509(isCA: bool, notBefore: int, notAfter: int, dnsNames: seq<string>, ips: seq<string>,
                       emails: seq<string>, uris: seq<string>, issuerName: string)

  /** What the authority sent: a chain with the fingerprint of its first certificate, and the key made for it. */
  datatype Issued = Issued(fingerprint: string, keyPEM: string, keyFits: bool, chain: seq<X509>)

  /** What `certificate.Verify` extracts from an issued chain and its key; times are instants. */
  datatype Verified = Verified(certPEM: CertBytes, keyPEM: string, notBefore: int, notAfter: int,
                               dnsNames: seq<string>, commonNames: seq<string>, fingerprint: string)

  /** Certificate `j` of the chain is an authority and signed the one before it. */
  predicate Links(chain: seq<X509>, j: int, signs: (X509, X509) -> bool)
  {
    0 < j < |chain| && chain[j].isCA && signs(chain[j], chain[j - 1])
  }

  predicate Chained(chain: seq<X509>, signs: (X509, X509) -> bool)
  {
    forall j :: 0 < j < |chain| ==> Links(chain, j, signs)
  }

  /** What an issued chain must be: complete, of a leaf that is valid now and names the address and nothing else. */
  predicate Acceptable(leaf: Issued, ip: string, now: int, signs: (X509, X509) -> bool)
  {
    && leaf.keyPEM != "" && leaf.keyFits && |leaf.chain| >= 2
    && var first := leaf.chain[0];
    && !first.isCA && first.notBefore <= now < first.notAfter
    && first.ips == [ip] && first.dnsNames == [] && first.emails == [] && first.uris == []
    && Chained(leaf.chain, signs)
  }

  function IssuerNames(chain: seq<X509>): seq<string>
  {
    if chain == [] then []
    else
      var n := |chain| - 1;
      IssuerNames(chain[..n]) + (if chain[n].issuerName != "" then [chain[n].issuerName] else [])
  }

  class Issuer {
    const env: Environment
    const table: ChallengeTable
    const journal: ChallengeJournal
    /** Whether the key of the first certificate made the signature on the second. */
    const signs: (X509, X509) -> bool
    /** Every leaf fingerprint in existence, other people's included. */
    var issued: set<string>
    /** The orders placed, by address. */
    ghost var calls: multiset<string>
    /** When each operation placed its order, and when the authority answered it with a failure. */
    ghost var placed: map<string, int>
    ghost var denied: map<string, int>

    constructor (table: ChallengeTable, journal: ChallengeJournal, signs: (X509, X509) -> bool, known: set<string>)
      ensures this.table == table && this.journal == journal && env == journal.env && issued == known
      ensures this.signs == signs && calls == multiset{} && placed == map[] && denied == map[]
    {
      this.env, this.table, this.journal, this.signs, this.issued := journal.env, table, journal, signs, known;
      this.calls, this.placed, this.denied := multiset{}, map[], map[];
    }

    /** One order. The authority chooses how many challenges it asks for and draws a new token for each. */
    method Obtain(operationID: string, ip: string) returns (r: Result<Issued>)
      requires Consistent(table, journal) && Isolated(table, journal) && env == journal.env
      modifies this`issued, this`calls, this`placed, this`denied, table, journal, env`now
      ensures calls == old(calls) + multiset{ip} && placed == old(placed)[operationID := old(env.now)]
      ensures denied == if r.Failure? && r.error != Crashed then old(denied)[operationID := env.now] else old(denied)
      ensures Consistent(table, journal) && Isolated(table, journal) && env.now >= old(env.now)
      ensures Foreign(table, journal) == old(Foreign(table, journal)) && table.checked == old(table.checked)
      ensures old(journal.orphans) <= journal.orphans
      ensures r.Success? ==> r.value.fingerprint != "" && r.value.fingerprint !in old(issued)
                             && issued == old(issued) + {r.value.fingerprint}
      ensures r.Failure? ==> issued == old(issued)
      ensures r.Failure? ==> r.error in {Crashed, InvalidArgument, Rejected} || External(r.error)
      ensures env.calm ==> r != Failure(Crashed)
    {
      hide Consistent, Isolated, Foreign;
      calls, placed := calls + multiset{ip}, placed[operationID := env.now];
      var provider := new Provider(operationID, table, journal);
      var steps: int := *;
      while steps > 0
        invariant Consistent(table, journal) && Isolated(table, journal) && env.now >= old(env.now)
        invariant Foreign(table, journal) == old(Foreign(table, journal)) && table.checked == old(table.checked)
        invariant old(journal.orphans) <= journal.orphans
        invariant issued == old(issued) && calls == old(calls) + multiset{ip} && denied == old(denied)
        invariant placed == old(placed)[operationID := old(env.now)]
      {
        steps := steps - 1;
        var step := Challenge(provider, ip);
        if step.IsCrash() {
          return Failure(Crashed);
        }
        var givesUp: bool := *;
        if step.Err? && givesUp {
          denied := denied[operationID := env.now];
          return Failure(Rejected);
        }
      }
      var leaf: Issued := *;
      if leaf.fingerprint == "" || leaf.fingerprint in issued {
        var e := env.Fault();
        denied := denied[operationID := env.now];
        return Failure(e);
      }
      issued := issued + {leaf.fingerprint};
      return Success(leaf);
    }

    /** One call of the challenge provider. */
    method Challenge(provider: Provider, ip: string) returns (r: Outcome)
      requires Consistent(table, journal) && Isolated(table, journal) && env == journal.env
      requires provider.table == table && provider.journal == journal
      modifies table, journal, env`now
      ensures Consistent(table, journal) && Isolated(table, journal) && env.now >= old(env.now)
      ensures Foreign(table, journal) == old(Foreign(table, journal)) && table.checked == old(table.checked)
      ensures old(journal.orphans) <= journal.orphans
      ensures env.calm ==> r != Err(Crashed)
    {
      hide Consistent, Isolated, Foreign, OneRowAtMost;
      var token: string, key: string, presents: bool := *, *, *;
      if !presents {
        r := provider.CleanUp(ip, token);
      } else if FreshToken(table.rows, journal.pending, ip, token) {
        ghost var inserted, dropped;
        r, inserted, dropped := provider.Present(ip, token, key);
      } else {
        r := Err(Rejected);
      }
    }

    /** The chain and key checks on what the authority sent. */
    method Verify(leaf: Issued, ip: string, now: int) returns (r: Result<Verified>)
      ensures r.Success? <==> Acceptable(leaf, ip, now, signs)
      ensures r.Success? ==> && r.value.fingerprint == leaf.fingerprint && r.value.certPEM == Leaf(leaf.fingerprint)
                             && r.value.keyPEM == leaf.keyPEM && r.value.dnsNames == [ip]
                             && r.value.notBefore == leaf.chain[0].notBefore
                             && r.value.notAfter == leaf.chain[0].notAfter
                             && r.value.commonNames == IssuerNames(leaf.chain)
      ensures r.Failure? ==> r.error == Rejected
    {
      var chain := leaf.chain;
      if leaf.keyPEM == "" || !leaf.keyFits || |chain| < 2 {
        return Failure(Rejected);
      }
      var first := chain[0];
      if first.isCA || now < first.notBefore || now >= first.notAfter {
        return Failure(Rejected);
      }
      if first.dnsNames != [] || |first.ips| != 1 || first.emails != [] || first.uris != [] || first.ips[0] != ip {
        return Failure(Rejected);
      }
      var holds := HoldsTogether(chain);
      if !holds {
        return Failure(Rejected);
      }
      var commonNames := CommonNames(chain);
      return Success(Verified(Leaf(leaf.fingerprint), leaf.keyPEM, first.notBefore, first.notAfter, [ip], commonNames,
                              leaf.fingerprint));
    }

    method HoldsTogether(chain: seq<X509>) returns (holds: bool)
      ensures holds <==> Chained(chain, signs)
    {
      var i := 0;
      while i < |chain| - 1
        invariant 0 <= i
        invariant forall j :: 0 < j <= i && j < |chain| ==> Links(chain, j, signs)
      {
        if !chain[i + 1].isCA || !signs(chain[i + 1], chain[i]) {
          assert !Links(chain, i + 1, signs);
          return false;
        }
        i := i + 1;
      }
      return true;
    }

    method CommonNames(chain: seq<X509>) returns (names: seq<string>)
      ensures names == IssuerNames(chain)
    {
      names := [];
      for i := 0 to |chain|
        invariant names == IssuerNames(chain[..i])
      {
        assert chain[..i + 1][..i] == chain[..i];
        if chain[i].issuerName != "" {
          names := names + [chain[i].issuerName];
        }
      }
      assert chain[..|chain|] == chain;
    }
  }
}
