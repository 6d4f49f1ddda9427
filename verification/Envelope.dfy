/** The routing authorization of a TUN failover: `TunEnvelope` in `failover.rs`. */
module Envelope {
  import opened Wrappers
  import opened Plan
  import Failover

  /** What the envelope reads of a stored server. `address` is its literal IPv4 dial
      address, if it has one; `shape` its supported outbound kind and transport. */
  datatype Server = Server(id: string, address: Option<Ipv4>, port: nat, shape: Option<string>, patched: bool)

  datatype Policy = Hold | Release

  /** The `[interface]` block. An address or list entry that does not parse is `None`. */
  datatype Requested = Requested(enable: bool, deviceOk: bool, mtu: nat, addressOk: bool,
                                 routes: RouteMode, list: seq<Option<Cidr>>)

  datatype Endpoint = Endpoint(address: Ipv4, shape: string)

  datatype Candidate = Candidate(id: string, endpoint: Endpoint)

  datatype TunEnvelope = TunEnvelope(interface: Requested, candidates: seq<Candidate>)

  function Octet(address: Ipv4, n: nat): nat
    requires n < 4
  {
    match n
    case 0 => address / 0x100_0000
    case 1 => address / 0x1_0000 % 0x100
    case 2 => address / 0x100 % 0x100
    case _ => address % 0x100
  }

  /** Unicast, and neither loopback nor link-local. */
  predicate Dialable(address: Ipv4) {
    && 0 < Octet(address, 0) < 224 && Octet(address, 0) != 127
    && !(Octet(address, 0) == 169 && Octet(address, 1) == 254)
  }

  function EndpointOf(s: Server): Result<Endpoint> {
    if s.patched || s.address.None? || !Dialable(s.address.value) || s.port == 0 || s.shape.None? then Err
    else Ok(Endpoint(s.address.value, s.shape.value))
  }

  function ParsedList(list: seq<Option<Cidr>>): Result<seq<Cidr>> {
    if list == [] then Ok([])
    else
      var rest := ParsedList(list[..|list| - 1]);
      if rest.Err? || list[|list| - 1].None? then Err else Ok(rest.value + [list[|list| - 1].value])
  }

  /** What the interface must satisfy before any candidate is looked at. */
  predicate RequestOk(requested: Requested, policy: Policy) {
    && requested.enable && policy == Hold && requested.deviceOk && requested.addressOk
    && (requested.mtu == 0 || requested.mtu >= 576)
    && ParsedList(requested.list).Ok?
    && (requested.routes.List? ==> requested.list != [])
  }

  predicate CandidatesOf(catalog: seq<Server>, candidates: seq<Candidate>) {
    && |candidates| == |catalog|
    && forall i :: 0 <= i < |catalog| ==>
         && candidates[i].id == catalog[i].id && !Failover.IsBlank(catalog[i].id)
         && EndpointOf(catalog[i]) == Ok(candidates[i].endpoint)
  }

  predicate UniqueIds(candidates: seq<Candidate>) {
    forall i, j :: 0 <= i < j < |candidates| ==> candidates[i].id != candidates[j].id
  }

  /** A capture of exactly this server's dial address. */
  predicate CapturesDial(requested: Requested, s: Server) {
    EndpointOf(s).Ok? && Some(Host(EndpointOf(s).value.address)) in requested.list
  }

  /** `TunEnvelope::new`. */
  method New(catalog: seq<Server>, requested: Requested, policy: Policy) returns (r: Result<TunEnvelope>)
    ensures r.Ok? ==>
              && RequestOk(requested, policy) && r.value.interface == requested
              && CandidatesOf(catalog, r.value.candidates) && UniqueIds(r.value.candidates)
              && 2 <= |catalog| <= 64
              && (requested.routes.List? ==>
                    forall i :: 0 <= i < |catalog| ==> !CapturesDial(requested, catalog[i]))
    ensures r.Err? ==>
              || !RequestOk(requested, policy) || !(2 <= |catalog| <= 64)
              || (exists i :: 0 <= i < |catalog| && (Failover.IsBlank(catalog[i].id) || EndpointOf(catalog[i]).Err?))
              || (exists i, j :: 0 <= i < j < |catalog| && catalog[i].id == catalog[j].id)
              || (requested.routes.List? && exists i :: 0 <= i < |catalog| && CapturesDial(requested, catalog[i]))
  {
    if !RequestOk(requested, policy) {
      return Err;
    }
    var candidates: seq<Candidate> := [];
    var ids: set<string> := {};
    for k := 0 to |catalog|
      invariant CandidatesOf(catalog[..k], candidates) && UniqueIds(candidates)
      invariant forall id :: id in ids <==> exists i :: 0 <= i < k && catalog[i].id == id
    {
      var server := catalog[k];
      if Failover.IsBlank(server.id) || server.id in ids {
        return Err;
      }
      ids := ids + {server.id};
      var endpoint := EndpointOf(server);
      if endpoint.Err? {
        return Err;
      }
      candidates := candidates + [Candidate(server.id, endpoint.value)];
    }
    if !(2 <= |candidates| <= 64) {
      return Err;
    }
    if requested.routes.List? {
      for k := 0 to |candidates|
        invariant forall i :: 0 <= i < k ==> !CapturesDial(requested, catalog[i])
      {
        assert EndpointOf(catalog[k]) == Ok(candidates[k].endpoint);
        if Some(Host(candidates[k].endpoint.address)) in requested.list {
          assert CapturesDial(requested, catalog[k]);
          return Err;
        }
      }
    }
    r := Ok(TunEnvelope(requested, candidates));
  }

  function Find(candidates: seq<Candidate>, id: string): (found: Option<Candidate>)
    ensures found.Some? ==> found.value in candidates && found.value.id == id
    ensures found.None? ==> forall i :: 0 <= i < |candidates| ==> candidates[i].id != id
  {
    if candidates == [] then None
    else if candidates[0].id == id then Some(candidates[0]) else Find(candidates[1..], id)
  }

  predicate Contains(e: TunEnvelope, id: string) { Find(e.candidates, id).Some? }

  /** `validate_candidate`: the server is a member and still what was authorized. */
  predicate ValidCandidate(e: TunEnvelope, s: Server) {
    var found := Find(e.candidates, s.id);
    found.Some? && EndpointOf(s) == Ok(found.value.endpoint)
  }

  /** `validate_candidates`: every member is in the catalogue once, unchanged. */
  predicate ValidCandidates(e: TunEnvelope, catalog: seq<Server>) {
    forall k :: 0 <= k < |e.candidates| ==>
      exists i :: 0 <= i < |catalog| && catalog[i].id == e.candidates[k].id
               && EndpointOf(catalog[i]) == Ok(e.candidates[k].endpoint)
               && forall j :: 0 <= j < |catalog| && j != i ==> catalog[j].id != e.candidates[k].id
  }

  /** `addresses`: the candidates' dial addresses, each once, first come first. */
  function Addresses(e: TunEnvelope): seq<Ipv4> {
    Distinct(e.candidates)
  }

  function Distinct(candidates: seq<Candidate>): seq<Ipv4> {
    if candidates == [] then []
    else
      var last := |candidates| - 1;
      var rest := Distinct(candidates[..last]);
      if candidates[last].endpoint.address in rest then rest else rest + [candidates[last].endpoint.address]
  }

  method CollectAddresses(e: TunEnvelope) returns (addresses: seq<Ipv4>)
    ensures addresses == Addresses(e)
  {
    addresses := [];
    for k := 0 to |e.candidates|
      invariant addresses == Distinct(e.candidates[..k])
    {
      assert e.candidates[..k + 1][..k] == e.candidates[..k];
      if e.candidates[k].endpoint.address !in addresses {
        addresses := addresses + [e.candidates[k].endpoint.address];
      }
    }
    assert e.candidates[..|e.candidates|] == e.candidates;
  }

  lemma {:induction false} DistinctAddresses(candidates: seq<Candidate>)
    ensures forall a :: a in Distinct(candidates) <==>
              exists i :: 0 <= i < |candidates| && candidates[i].endpoint.address == a
    ensures forall i, j :: 0 <= i < j < |Distinct(candidates)| ==> Distinct(candidates)[i] != Distinct(candidates)[j]
  {
    if candidates != [] {
      var last := |candidates| - 1;
      DistinctAddresses(candidates[..last]);
      assert candidates == candidates[..last] + [candidates[last]];
    }
  }

  /** A server the envelope accepts dials one of the addresses it was planned for. */
  lemma AcceptedDialsPlanned(e: TunEnvelope, s: Server)
    requires ValidCandidate(e, s)
    ensures s.address.Some? && s.address.value in Addresses(e)
    ensures Dialable(s.address.value) && Contains(e, s.id)
  {
    DistinctAddresses(e.candidates);
    var found := Find(e.candidates, s.id).value;
    var i :| 0 <= i < |e.candidates| && e.candidates[i] == found;
  }
}
