/** The certificate records of GoEdge, the calls that read and write them, and the TLS check. */
module GoEdge {
  import opened Outcomes
  import opened Environments

  /** PEM data: nothing, bytes without a certificate, or a chain whose leaf has this fingerprint. */
  datatype CertBytes = Empty | Garbage | Leaf(fingerprint: string)

  function Fingerprint(data: CertBytes): string
  {
    if data.Leaf? then data.fingerprint else ""
  }

  datatype CertificateInput = CertificateInput(
    id: int, userID: int, isOn: bool, name: string, description: string, serverName: string, isCA: bool,
    certData: CertBytes, keyData: string, timeBeginAt: int, timeEndAt: int,
    dnsNames: seq<string>, commonNames: seq<string>)

  datatype CertificateConfig = CertificateConfig(
    id: int, isOn: bool, name: string, description: string, serverName: string, isCA: bool, isACME: bool,
    certData: CertBytes, keyData: string, timeBeginAt: int, timeEndAt: int,
    dnsNames: seq<string>, commonNames: seq<string>)

  datatype ServerTarget = ServerTarget(id: int, userID: int, policyID: int)

  datatype CertRef = CertRef(isOn: bool, certID: int)

  datatype SSLPolicy = SSLPolicy(id: int, isOn: bool, certRefs: seq<CertRef>)

  /** The record GoEdge keeps after storing an input; the ACME flag is not part of the input. */
  function Stored(input: CertificateInput, isACME: bool): CertificateConfig
  {
    CertificateConfig(input.id, input.isOn, input.name, input.description, input.serverName, input.isCA, isACME,
                      input.certData, input.keyData, input.timeBeginAt, input.timeEndAt,
                      input.dnsNames, input.commonNames)
  }

  /** The record says what the input says, under this ID and with this ACME flag. */
  predicate Repeats(cert: CertificateConfig, input: CertificateInput, id: int, isACME: bool)
  {
    && cert.id == id && cert.isACME == isACME && cert.isCA == input.isCA
    && cert.isOn == input.isOn && cert.name == input.name && cert.description == input.description
    && cert.serverName == input.serverName && cert.certData == input.certData && cert.keyData == input.keyData
    && cert.timeBeginAt == input.timeBeginAt && cert.timeEndAt == input.timeEndAt
    && cert.dnsNames == input.dnsNames && cert.commonNames == input.commonNames
  }

  function InputFromConfig(cert: CertificateConfig): CertificateInput
  {
    CertificateInput(cert.id, 0, cert.isOn, cert.name, cert.description, cert.serverName, cert.isCA,
                     cert.certData, cert.keyData, cert.timeBeginAt, cert.timeEndAt, cert.dnsNames, cert.commonNames)
  }

  /** Some record for this address carries this leaf. */
  predicate Serves(certs: map<int, CertificateConfig>, ip: string, fingerprint: string)
  {
    exists c <- certs :: certs[c].dnsNames == [ip] && Fingerprint(certs[c].certData) == fingerprint
  }

  /** `validateManagedCertificate`. */
  predicate Manageable(cert: CertificateConfig, ip: string)
  {
    cert.id > 0 && !cert.isCA && !cert.isACME && cert.dnsNames == [ip]
  }

  class EdgeClient {
    const env: Environment
    var certs: map<int, CertificateConfig>
    var nextID: int
    /** Which bindings a check has confirmed, at which instant, and which names create was called with, whatever came of
        the call. */
    ghost var bound: set<(int, int, int)>
    ghost var creations: multiset<string>
    /** The last record read under each ID, and when. */
    ghost var read: map<int, (CertificateConfig, int)>
    /** The input each record of this service was created with. */
    ghost var asked: map<int, CertificateInput>
    /** The target the last successful search for an address named. */
    ghost var discovered: map<string, ServerTarget>

    ghost predicate Valid()
      reads this`certs, this`nextID
    {
      nextID > 0 && forall c <- certs :: 0 < c < nextID && certs[c].id == c
    }

    constructor (env: Environment, certs: map<int, CertificateConfig>, nextID: int)
      requires nextID > 0 && forall c <- certs :: 0 < c < nextID && certs[c].id == c
      ensures this.env == env && this.certs == certs && bound == {} && creations == multiset{} && Valid()
    {
      this.env, this.certs, this.nextID := env, certs, nextID;
      bound, creations, read, asked, discovered := {}, multiset{}, map[], map[], map[];
    }

    /** The server the administrator configured for the address at this moment. */
    method DiscoverServer(ip: string) returns (r: Result<ServerTarget>)
      modifies this`discovered, env`now
      ensures env.now > old(env.now)
      ensures r.Success? ==> r.value.policyID > 0
      ensures discovered == if r.Success? then old(discovered)[ip := r.value] else old(discovered)
      ensures r.Failure? ==> r.error in {Crashed, ServerNotFound, MultipleServers, Rejected} || External(r.error)
    {
      var fate := env.Draw();
      var o := env.Report(fate);
      if o.Err? {
        return Failure(o.error);
      }
      var target: ServerTarget := *;
      if target.policyID > 0 {
        discovered := discovered[ip := target];
        return Success(target);
      }
      var ambiguous: bool, unfit: bool := *, *;
      return Failure(if unfit then Rejected else if ambiguous then MultipleServers else ServerNotFound);
    }

    method CreateCertificate(input: CertificateInput) returns (r: Result<int>)
      requires Valid()
      modifies this`certs, this`nextID, this`creations, this`asked, env`now
      ensures Valid() && env.now > old(env.now) && creations == old(creations) + multiset{input.name}
      ensures var created := old(certs)[old(nextID) := Stored(input.(id := old(nextID)), false)];
              && (certs == old(certs) || certs == created)
              && (r.Success? ==> r.value == old(nextID) && certs == created)
      ensures certs != old(certs) ==>
                && old(nextID) !in old(certs) && old(nextID) in certs
                && certs == old(certs)[old(nextID) := certs[old(nextID)]]
                && Repeats(certs[old(nextID)], input, old(nextID), false)
      ensures r.Success? ==>
                && r.value in certs && Repeats(certs[r.value], input, r.value, false)
                && r.value in asked && asked[r.value] == input
      ensures r.Failure? ==> r.error == Crashed || External(r.error)
      ensures env.calm ==> r.Success?
    {
      creations := creations + multiset{input.name};
      var fate := env.Draw();
      var id := nextID;
      if fate.TakesEffect() {
        certs := certs[id := Stored(input.(id := id), false)];
        asked := asked[id := input];
        nextID := nextID + 1;
      }
      var o := env.Report(fate);
      r := if o.Ok? then Success(id) else Failure(o.error);
    }

    method UpdateCertificate(input: CertificateInput) returns (r: Outcome)
      requires Valid()
      modifies this`certs, env`now
      ensures Valid() && env.now >= old(env.now)
      ensures var updated := input.id in old(certs)
                && certs == old(certs)[input.id := Stored(input, old(certs)[input.id].isACME)];
              && (certs == old(certs) || updated)
              && (r.Ok? ==> updated)
      ensures r.Ok? || certs != old(certs) ==>
                && input.id in old(certs) && input.id in certs && certs == old(certs)[input.id := certs[input.id]]
                && Repeats(certs[input.id], input, input.id, old(certs)[input.id].isACME)
      ensures r.Err? ==> r.error in {Crashed, InvalidArgument, CertificateNotFound} || External(r.error)
      ensures env.calm && input.id in old(certs) ==> r.Ok?
    {
      if input.id <= 0 {
        return Err(InvalidArgument);
      }
      var fate := env.Draw();
      if fate.TakesEffect() {
        if input.id !in certs {
          return Err(CertificateNotFound);
        }
        certs := certs[input.id := Stored(input, certs[input.id].isACME)];
      }
      r := env.Report(fate);
    }

    method Certificate(id: int) returns (r: Result<CertificateConfig>)
      modifies this`read, env`now
      ensures env.now > old(env.now)
      ensures r.Success? ==> id in certs && r.value == certs[id]
      ensures read == if r.Success? then old(read)[id := (r.value, env.now)] else old(read)
      ensures r.Failure? ==> r.error in {Crashed, CertificateNotFound} || External(r.error)
      ensures env.calm && id in certs ==> r.Success?
    {
      var fate := env.Draw();
      var o := env.Report(fate);
      if o.Err? {
        return Failure(o.error);
      }
      if id !in certs {
        return Failure(CertificateNotFound);
      }
      read := read[id := (certs[id], env.now)];
      return Success(certs[id]);
    }

    /** The records with exactly this name; more than one match is an error. */
    method FindCertificateByMarker(marker: string, userID: int) returns (r: Result<CertificateConfig>)
      modifies env`now
      ensures env.now > old(env.now)
      ensures r.Success? ==> exists c :: c in certs && certs[c] == r.value && r.value.name == marker
      ensures r == Failure(CertificateNotFound) ==> forall c <- certs :: certs[c].name != marker
      ensures r.Failure? ==> r.error in {Crashed, CertificateNotFound, MultipleCertificates} || External(r.error)
      ensures env.calm &&
              (forall c, d :: c in certs && d in certs && certs[c].name == certs[d].name == marker ==> c == d)
              ==> r.Success? || r == Failure(CertificateNotFound)
    {
      var fate := env.Draw();
      var o := env.Report(fate);
      if o.Err? {
        return Failure(o.error);
      }
      var matches: set<int> := set c | c in certs && certs[c].name == marker;
      if matches == {} {
        assert forall c <- certs :: certs[c].name == marker ==> c in matches;
        return Failure(CertificateNotFound);
      }
      var c, sole, other := PickOne(matches);
      if !sole {
        assert certs[other].name == certs[c].name == marker;
        return Failure(MultipleCertificates);
      }
      return Success(certs[c]);
    }

    static method PickOne<T(==)>(ids: set<T>) returns (one: T, sole: bool, ghost other: T)
      requires ids != {}
      ensures one in ids
      ensures !sole ==> other in ids && other != one
      ensures sole ==> ids == {one}
    {
      one :| one in ids;
      sole, other := ids == {one}, one;
      if !sole {
        assert ids - {one} != {};
        other :| other in ids - {one};
      }
    }

    /** The policy as the administrator keeps it; in a calm run it references the asked certificate. */
    method Policy(policyID: int, asked: int) returns (r: Result<SSLPolicy>)
      modifies env`now
      ensures env.now > old(env.now)
      ensures r.Failure? ==> r.error == Crashed || External(r.error)
      ensures env.calm ==> r.Success? && r.value.isOn && CertRef(true, asked) in r.value.certRefs
    {
      var fate := env.Draw();
      var o := env.Report(fate);
      if o.Err? {
        return Failure(o.error);
      }
      var policy: SSLPolicy := *;
      if env.calm {
        policy := policy.(isOn := true, certRefs := policy.certRefs + [CertRef(true, asked)]);
      }
      return Success(policy);
    }

    method VerifyCertificateBound(policyID: int, certID: int) returns (r: Outcome, ghost policy: Option<SSLPolicy>)
      modifies this`bound, env`now
      ensures env.now > old(env.now)
      ensures bound == if r.Ok? then old(bound) + {(policyID, certID, env.now)} else old(bound)
      ensures r.Ok? ==> policy.Some? && policy.value.isOn && CertRef(true, certID) in policy.value.certRefs
      ensures r == Err(CertificateNotBound) ==>
                policy.Some? && policy.value.isOn && CertRef(true, certID) !in policy.value.certRefs
      ensures r.Err? ==> r.error in {Crashed, Rejected, CertificateNotBound} || External(r.error)
      ensures env.calm ==> r.Ok?
    {
      var answer := Policy(policyID, certID);
      if answer.Failure? {
        return Err(answer.error), None;
      }
      var refs := answer.value.certRefs;
      if !answer.value.isOn {
        return Err(Rejected), Some(answer.value);
      }
      for i := 0 to |refs|
        invariant CertRef(true, certID) !in refs[..i]
      {
        if refs[i].certID == certID && refs[i].isOn {
          assert refs[i] == CertRef(true, certID);
          bound := bound + {(policyID, certID, env.now)};
          return Ok, Some(answer.value);
        }
      }
      return Err(CertificateNotBound), Some(answer.value);
    }
  }

  class TLSVerifier {
    const edge: EdgeClient
    /** Which leaf a check has found at which address, and when. */
    ghost var shown: set<(string, string, int)>
    /** Which leaf a check has not found, and when. */
    ghost var missed: set<(string, string, int)>

    constructor (edge: EdgeClient)
      ensures this.edge == edge && shown == {} && missed == {}
    {
      this.edge, shown, missed := edge, {}, {};
    }

    /** Succeeds only when the address is served with the expected leaf; it may fail for any other reason. */
    method Verify(ip: string, fingerprint: string) returns (r: Outcome)
      modifies this`shown, this`missed, edge.env`now
      ensures edge.env.now >= old(edge.env.now) && (fingerprint != "" ==> edge.env.now > old(edge.env.now))
      ensures shown == if r.Ok? then old(shown) + {(ip, fingerprint, edge.env.now)} else old(shown)
      ensures missed == if r.Err? && !r.IsCrash() && fingerprint != ""
                        then old(missed) + {(ip, fingerprint, edge.env.now)}
                        else old(missed)
      ensures r.Ok? ==> fingerprint != "" && Serves(edge.certs, ip, fingerprint)
      ensures r.Err? ==> r.error in {Crashed, InvalidArgument} || External(r.error)
      ensures edge.env.calm ==> (r.Ok? <==> fingerprint != "" && Serves(edge.certs, ip, fingerprint))
      ensures edge.env.calm ==> !r.IsCrash()
    {
      if fingerprint == "" {
        return Err(InvalidArgument);
      }
      var fate := edge.env.Draw();
      if fate.Done? && !Serves(edge.certs, ip, fingerprint) {
        r := Err(TlsMismatch);
      } else {
        r := edge.env.Report(fate);
      }
      if r.Ok? {
        shown := shown + {(ip, fingerprint, edge.env.now)};
      } else if !r.IsCrash() {
        missed := missed + {(ip, fingerprint, edge.env.now)};
      }
    }
  }

  /** A saved input says what the record said, for no particular user. */
  lemma SavedInputRepeats(cert: CertificateConfig)
    ensures Repeats(cert, InputFromConfig(cert), InputFromConfig(cert).id, cert.isACME)
    ensures InputFromConfig(cert).id == cert.id && InputFromConfig(cert).userID == 0
  {
  }

  /** Writing a saved input back restores the whole record, the flags included. */
  lemma RestoreIsExact(before: CertificateConfig, changed: CertificateConfig)
    requires before.isACME == changed.isACME
    ensures Stored(InputFromConfig(before), changed.isACME) == before
  {
  }
}
