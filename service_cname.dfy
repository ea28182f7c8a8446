/** The CNAME-rewriting endpoint source of external-dns: a decorator that takes
    the endpoints of a wrapped source and, for each one whose first target
    reverse-resolves, turns it into a CNAME record pointing at the resolved name. */
module ServiceCname {
  import opened Strings

  /** `endpoint.RecordTypeCNAME`. */
  const RecordTypeCNAME: string := "CNAME"

  /** The DNS root-label separator that some resolvers append to names. */
  const RootLabel: string := "."

  type Error = string

  /** One DNS record to publish (`endpoint.Endpoint`), updated in place by the decorator. */
  class Endpoint {
    var dnsName: string
    var targets: seq<string>
    var recordType: string

    constructor (dnsName: string, targets: seq<string>, recordType: string)
      ensures this.dnsName == dnsName && this.targets == targets && this.recordType == recordType
    {
      this.dnsName := dnsName;
      this.targets := targets;
      this.recordType := recordType;
    }

    /** The endpoint's fields as a value. */
    function Value(): EndpointValue
      reads this
    {
      EndpointValue(dnsName, targets, recordType)
    }
  }

  /** A snapshot of the three fields of an `Endpoint`. */
  datatype EndpointValue = EndpointValue(dnsName: string, targets: seq<string>, recordType: string)

  /** What a wrapped source's `Endpoints` call returns: an error, or the list of endpoints. */
  datatype Fetched = Err(error: Error) | Ok(endpoints: seq<Endpoint>)

  /** What a reverse (PTR) lookup of an address returns: an error, or the host names found. */
  datatype LookupResult = LookupFailed(error: Error) | Resolved(names: seq<string>)

  /** A successful reverse lookup always yields at least one name. */
  ghost predicate NamesNonEmpty(answers: string -> LookupResult) {
    forall address :: answers(address).Resolved? ==> |answers(address).names| > 0
  }

  /** No endpoint object occurs twice in the list. */
  predicate Distinct(eps: seq<Endpoint>) {
    forall i, j | 0 <= i < j < |eps| :: eps[i] != eps[j]
  }

  /** The endpoints a fetched result hands over to the decorator. */
  function Owned(f: Fetched): seq<Endpoint> {
    if f.Ok? then f.endpoints else []
  }

  /** The current fields of every endpoint in the list. */
  function StateOf(eps: seq<Endpoint>): map<Endpoint, EndpointValue>
    reads eps
  {
    map e | e in eps :: e.Value()
  }

  /** The fields of the listed endpoints are those `m` records for them. */
  lemma StateOfIs(eps: seq<Endpoint>, m: map<Endpoint, EndpointValue>)
    requires forall e | e in eps :: e in m && e.Value() == m[e]
    requires forall e | e in m :: e in eps
    ensures StateOf(eps) == m
  {
  }

  /** What the pass acts on: the fields of the endpoint objects, and the
      addresses looked up so far. */
  datatype Snapshot = Snapshot(fields: map<Endpoint, EndpointValue>, lookups: seq<string>)

  /** `s` knows every listed object, and every object it knows has a target. */
  ghost predicate Covers(eps: seq<Endpoint>, s: Snapshot) {
    (forall i | 0 <= i < |eps| :: eps[i] in s.fields) &&
    (forall e | e in s.fields :: |s.fields[e].targets| > 0)
  }

  /** The treatment of one endpoint, given what the reverse lookup of its
      first target returns: left as it is when the lookup fails; otherwise
      its first target becomes the first name found, without one trailing
      root label, and its record type becomes CNAME. */
  function Rewrite(v: EndpointValue, answers: string -> LookupResult): (r: EndpointValue)
    requires |v.targets| > 0
    requires NamesNonEmpty(answers)
    ensures r.dnsName == v.dnsName
    ensures |r.targets| == |v.targets| && r.targets[1..] == v.targets[1..]
    ensures answers(v.targets[0]).LookupFailed? ==> r == v
    ensures answers(v.targets[0]).Resolved? ==> r.recordType == RecordTypeCNAME
    ensures var a := answers(v.targets[0]);
      a.Resolved? && HasSuffix(a.names[0], RootLabel) ==> r.targets[0] + RootLabel == a.names[0]
    ensures var a := answers(v.targets[0]);
      a.Resolved? && !HasSuffix(a.names[0], RootLabel) ==> r.targets[0] == a.names[0]
  {
    match answers(v.targets[0])
    case LookupFailed(_) => v
    case Resolved(names) =>
      EndpointValue(v.dnsName, v.targets[0 := TrimSuffix(names[0], RootLabel)], RecordTypeCNAME)
  }

  /** The whole pass over the list, in list order: each listed endpoint, as
      it stands when the pass reaches it, has its first target looked up and
      is treated as `Rewrite` says. An object listed twice is visited twice,
      the second time with the fields the first visit left. */
  function Pass(eps: seq<Endpoint>, s: Snapshot, answers: string -> LookupResult): (r: Snapshot)
    requires Covers(eps, s)
    requires NamesNonEmpty(answers)
    ensures r.fields.Keys == s.fields.Keys
    ensures forall e | e in r.fields :: |r.fields[e].targets| == |s.fields[e].targets|
    decreases |eps|
  {
    if eps == [] then s
    else
      var m := Pass(eps[..|eps| - 1], s, answers);
      var last := eps[|eps| - 1];
      Snapshot(m.fields[last := Rewrite(m.fields[last], answers)], m.lookups + [m.fields[last].targets[0]])
  }

  /** The pass changes no object that is not listed. */
  lemma {:induction false} PassOutside(eps: seq<Endpoint>, s: Snapshot, answers: string -> LookupResult, e: Endpoint)
    requires Covers(eps, s)
    requires NamesNonEmpty(answers)
    requires e in s.fields && e !in eps
    ensures Pass(eps, s, answers).fields[e] == s.fields[e]
  {
    if eps != [] {
      PassOutside(eps[..|eps| - 1], s, answers, e);
    }
  }

  /** Whatever the pass does to an object, it keeps the name the endpoint is
      published under and every target after the first, and it leaves the
      endpoint either exactly as it was or holding a CNAME record. */
  lemma {:induction false} PassKeepsOtherFields(eps: seq<Endpoint>, s: Snapshot, answers: string -> LookupResult,
                                                e: Endpoint)
    requires Covers(eps, s)
    requires NamesNonEmpty(answers)
    requires e in s.fields
    ensures var before, after := s.fields[e], Pass(eps, s, answers).fields[e];
      after.dnsName == before.dnsName &&
      after.targets[1..] == before.targets[1..] &&
      (after == before || after.recordType == RecordTypeCNAME)
  {
    if eps != [] {
      PassKeepsOtherFields(eps[..|eps| - 1], s, answers, e);
    }
  }

  /** The pass makes exactly one lookup per listed endpoint, after those
      already made. */
  lemma {:induction false} PassLookupCount(eps: seq<Endpoint>, s: Snapshot, answers: string -> LookupResult)
    requires Covers(eps, s)
    requires NamesNonEmpty(answers)
    ensures var r := Pass(eps, s, answers);
      |r.lookups| == |s.lookups| + |eps| && r.lookups[..|s.lookups|] == s.lookups
  {
    if eps != [] {
      PassLookupCount(eps[..|eps| - 1], s, answers);
    }
  }

  /** Extending the pass by one more endpoint looks up that endpoint's current
      first target and rewrites it. */
  lemma PassStep(eps: seq<Endpoint>, i: nat, s: Snapshot, answers: string -> LookupResult)
    requires i < |eps|
    requires Covers(eps, s)
    requires NamesNonEmpty(answers)
    ensures Covers(eps[..i], s) && Covers(eps[..i + 1], s)
    ensures var m := Pass(eps[..i], s, answers);
      Pass(eps[..i + 1], s, answers)
        == Snapshot(m.fields[eps[i] := Rewrite(m.fields[eps[i]], answers)], m.lookups + [m.fields[eps[i]].targets[0]])
  {
    assert eps[..i + 1][..i] == eps[..i];
  }

  /** When no object is listed twice, the pass treats every endpoint
      independently: each one ends up as `Rewrite` of its own fields. */
  lemma {:induction false} PassDistinctAt(eps: seq<Endpoint>, s: Snapshot, answers: string -> LookupResult, i: nat)
    requires Covers(eps, s)
    requires NamesNonEmpty(answers)
    requires Distinct(eps)
    requires i < |eps|
    ensures Pass(eps, s, answers).fields[eps[i]] == Rewrite(s.fields[eps[i]], answers)
  {
    var init, last := eps[..|eps| - 1], eps[|eps| - 1];
    if i < |eps| - 1 {
      PassDistinctAt(init, s, answers, i);
      assert eps[i] == init[i] && eps[i] != last;
    } else {
      assert last !in init by {
        forall j | 0 <= j < |init| ensures init[j] != last {
          assert eps[j] != eps[|eps| - 1];
        }
      }
      PassOutside(init, s, answers, last);
    }
  }

  /** When no object is listed twice, the pass looks up the original first
      target of each endpoint, once each, in list order, after the lookups
      made before it. */
  lemma {:induction false} PassLookupsDistinct(eps: seq<Endpoint>, s: Snapshot, answers: string -> LookupResult)
    requires Covers(eps, s)
    requires NamesNonEmpty(answers)
    requires Distinct(eps)
    ensures |Pass(eps, s, answers).lookups| == |s.lookups| + |eps|
    ensures forall i | 0 <= i < |eps| ::
      Pass(eps, s, answers).lookups[|s.lookups| + i] == s.fields[eps[i]].targets[0]
  {
    if eps != [] {
      var init, last := eps[..|eps| - 1], eps[|eps| - 1];
      PassLookupsDistinct(init, s, answers);
      PassLookupCount(init, s, answers);
      assert last !in init by {
        forall j | 0 <= j < |init| ensures init[j] != last {
          assert eps[j] != eps[|eps| - 1];
        }
      }
      PassOutside(init, s, answers, last);
      forall i | 0 <= i < |eps|
        ensures Pass(eps, s, answers).lookups[|s.lookups| + i] == s.fields[eps[i]].targets[0]
      {
        if i < |eps| - 1 {
          assert eps[i] == init[i];
        }
      }
    }
  }

  /** One turn of the loop: look up the first target of `ep` and, when the
      lookup succeeds, rewrite `ep` as `Rewrite` says. */
  method ResolveEndpoint(ep: Endpoint, resolver: Resolver)
    requires |ep.targets| > 0
    requires NamesNonEmpty(resolver.answers)
    modifies ep, resolver`queried
    ensures ep.Value() == Rewrite(old(ep.Value()), resolver.answers)
    ensures resolver.queried == old(resolver.queried) + [old(ep.targets[0])]
  {
    var target := ep.targets[0];
    var cname := resolver.LookupAddr(target);
    if cname.LookupFailed? {
      return;
    }
    ep.targets := ep.targets[0 := TrimSuffix(cname.names[0], RootLabel)];
    ep.recordType := RecordTypeCNAME;
  }

  /** The loop over the fetched list: every listed endpoint, in order, goes
      through `ResolveEndpoint`. */
  method RewriteAll(eps: seq<Endpoint>, resolver: Resolver)
    requires forall e | e in eps :: |e.targets| > 0
    requires NamesNonEmpty(resolver.answers)
    modifies eps, resolver`queried
    ensures Snapshot(StateOf(eps), resolver.queried)
         == Pass(eps, Snapshot(old(StateOf(eps)), old(resolver.queried)), resolver.answers)
  {
    ghost var answers := resolver.answers;
    ghost var s0 := Snapshot(StateOf(eps), resolver.queried);
    for i := 0 to |eps|
      invariant Covers(eps[..i], s0)
      invariant var now := Pass(eps[..i], s0, answers);
        (forall e | e in eps :: e.Value() == now.fields[e]) && resolver.queried == now.lookups
    {
      PassStep(eps, i, s0, answers);
      ResolveEndpoint(eps[i], resolver);
    }
    assert eps[..|eps|] == eps;
    StateOfIs(eps, Pass(eps, s0, answers).fields);
  }

  /** The reverse resolver (`net.LookupAddr`). Its answers are an oracle fixed
      when it is created; `queried` records every address asked for. */
  class Resolver {
    const answers: string -> LookupResult
    ghost var queried: seq<string>

    constructor (answers: string -> LookupResult)
      ensures this.answers == answers && queried == []
    {
      this.answers := answers;
      queried := [];
    }

    method LookupAddr(address: string) returns (r: LookupResult)
      modifies this`queried
      ensures r == answers(address)
      ensures queried == old(queried) + [address]
    {
      r := answers(address);
      queried := queried + [address];
    }
  }

  /** A registered change-notification callback, by identity. */
  datatype Handler = Handler(id: nat)

  /** The wrapped endpoint source (the `Source` interface). `produced` is what
      its `Endpoints` returns; `handlers` records the callbacks registered with it. */
  class Source {
    var produced: Fetched
    ghost var handlers: seq<Handler>

    constructor (produced: Fetched)
      ensures this.produced == produced && handlers == []
    {
      this.produced := produced;
      handlers := [];
    }

    method Endpoints() returns (r: Fetched)
      ensures r == produced
    {
      r := produced;
    }

    method AddEventHandler(handler: Handler)
      modifies this`handlers
      ensures handlers == old(handlers) + [handler]
    {
      handlers := handlers + [handler];
    }
  }

  /** The cluster client handed to the constructor; the decorator only stores it. */
  class KubeClient {
    constructor () { }
  }

  /** The decorator (`serviceCnameSource`). */
  class ServiceCnameSource {
    const client: KubeClient
    const namespace: string
    const serviceSrc: Source

    constructor (client: KubeClient, namespace: string, serviceSrc: Source)
      ensures this.client == client && this.namespace == namespace && this.serviceSrc == serviceSrc
    {
      this.client := client;
      this.namespace := namespace;
      this.serviceSrc := serviceSrc;
    }

    /** Fetch the wrapped source's endpoints and rewrite, in place and in list
        order, every endpoint whose first target reverse-resolves. */
    method Endpoints(resolver: Resolver) returns (r: Fetched)
      requires serviceSrc.produced.Ok? ==> forall e | e in serviceSrc.produced.endpoints :: |e.targets| > 0
      requires NamesNonEmpty(resolver.answers)
      modifies Owned(serviceSrc.produced), resolver`queried
      // the wrapped source's error, or its very list: same objects, same order
      ensures r == old(serviceSrc.produced)
      ensures r.Err? ==> resolver.queried == old(resolver.queried)
      // every listed endpoint, and the resolver's log, end up as the pass makes them
      ensures r.Ok? ==>
        Snapshot(StateOf(r.endpoints), resolver.queried)
          == Pass(r.endpoints, Snapshot(old(StateOf(r.endpoints)), old(resolver.queried)), resolver.answers)
    {
      var fetched := serviceSrc.Endpoints();
      if fetched.Err? {
        return Err(fetched.error);
      }
      RewriteAll(fetched.endpoints, resolver);
      r := fetched;
    }

    /** Register `handler` with the wrapped source, unchanged. */
    method AddEventHandler(handler: Handler)
      modifies serviceSrc`handlers
      ensures serviceSrc.handlers == old(serviceSrc.handlers) + [handler]
    {
      serviceSrc.AddEventHandler(handler);
    }
  }

  /** `NewServiceCnameSource`: wraps `serviceSrc`; never fails. */
  method NewServiceCnameSource(kubeClient: KubeClient, namespace: string, serviceSrc: Source)
    returns (s: ServiceCnameSource, err: Option<Error>)
    ensures fresh(s)
    ensures s.client == kubeClient && s.namespace == namespace && s.serviceSrc == serviceSrc
    ensures err == None
  {
    s := new ServiceCnameSource(kubeClient, namespace, serviceSrc);
    err := None;
  }

  datatype Option<T> = None | Some(value: T)
}
