/** The decorator on small inputs: the three scenarios of a single endpoint
    that resolves, one that does not, and a batch where only the second one
    resolves; and the upstream error, run through the class itself. */
module ServiceCnameScenarios {
  import opened Strings
  import opened ServiceCname

  /** A resolver that knows one PTR record. */
  function OneRecord(address: string, name: string): (answers: string -> LookupResult)
    ensures NamesNonEmpty(answers)
  {
    a => if a == address then Resolved([name]) else LookupFailed("no PTR record for " + a)
  }

  /** An address endpoint whose target reverse-resolves to an absolute name
      becomes a CNAME to that name without its trailing root label. */
  lemma ResolvedEndpointBecomesCname()
    ensures Rewrite(EndpointValue("svc.example.com", ["203.0.113.9"], "A"),
                    OneRecord("203.0.113.9", "svc-lb.cloudprovider.net."))
         == EndpointValue("svc.example.com", ["svc-lb.cloudprovider.net"], RecordTypeCNAME)
  {
    TrimSuffixAppended("svc-lb.cloudprovider.net", RootLabel);
    assert "svc-lb.cloudprovider.net" + RootLabel == "svc-lb.cloudprovider.net.";
  }

  /** An endpoint whose reverse lookup fails comes back as it was. */
  lemma UnresolvedEndpointUnchanged()
    ensures Rewrite(EndpointValue("svc.example.com", ["203.0.113.9"], "A"),
                    OneRecord("198.51.100.7", "other.example.net."))
         == EndpointValue("svc.example.com", ["203.0.113.9"], "A")
  {
  }

  /** Two endpoints, the first lookup failing and the second succeeding: both
      addresses are looked up in list order, the first endpoint is untouched
      and the second rewritten. */
  lemma FailureDoesNotStopTheBatch(first: Endpoint, second: Endpoint)
    requires first != second
    ensures var a := EndpointValue("a.example.com", ["192.0.2.1"], "A");
      var b := EndpointValue("b.example.com", ["192.0.2.2"], "A");
      Pass([first, second], Snapshot(map[first := a, second := b], []), OneRecord("192.0.2.2", "lb.example.net"))
        == Snapshot(map[first := a, second := EndpointValue("b.example.com", ["lb.example.net"], RecordTypeCNAME)],
                    ["192.0.2.1", "192.0.2.2"])
  {
    var answers := OneRecord("192.0.2.2", "lb.example.net");
    var s := Snapshot(map[first := EndpointValue("a.example.com", ["192.0.2.1"], "A"),
                          second := EndpointValue("b.example.com", ["192.0.2.2"], "A")], []);
    var b' := EndpointValue("b.example.com", ["lb.example.net"], RecordTypeCNAME);
    assert [first, second][..1] == [first] && [first][..0] == [];
    assert Pass([], s, answers) == s;
    assert "192.0.2.1"[8] != "192.0.2.2"[8];
    assert Rewrite(s.fields[first], answers) == s.fields[first];
    assert s.fields[first := s.fields[first]] == s.fields;
    var m := Pass([first], s, answers);
    assert m == s.(lookups := ["192.0.2.1"]);
    assert !HasSuffix("lb.example.net", RootLabel);
    assert Rewrite(m.fields[second], answers) == b';
    assert m.fields[second := b'] == map[first := s.fields[first], second := b'];
  }

  /** The wrapped source's error comes back unchanged, with no lookup made. */
  method UpstreamErrorPropagates() returns (r: Fetched, resolver: Resolver)
    ensures r == Err("listing services failed")
    ensures resolver.queried == []
  {
    var src := new Source(Err("listing services failed"));
    var kube := new KubeClient();
    var sc, err := NewServiceCnameSource(kube, "default", src);
    resolver := new Resolver(OneRecord("192.0.2.2", "lb.example.net"));
    r := sc.Endpoints(resolver);
  }
}
