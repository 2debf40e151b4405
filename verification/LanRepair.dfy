/** One observed private network may be added to those an update server answers: the
    judgement over the server's refusals, and the addition. */
module LanRepair {
  import opened Numeric

  datatype Address = V4(a: u32) | V6(b: nat)

  function Pow2(n: nat): (p: nat)
    ensures p > 0
  {
    if n == 0 then 1 else 2 * Pow2(n - 1)
  }

  /** A network in canonical form: no host bits in its base. */
  datatype Network = Net4(base: u32, prefix: nat) | Net6(base6: nat, prefix6: nat) {

    function Size(): nat
      requires Net4? && prefix <= 32
    {
      Pow2(32 - prefix)
    }

    predicate Has(peer: Address) {
      match this
      case Net4(_, _) => prefix <= 32 && peer.V4? && base <= peer.a < base + Size()
      case Net6(b, n) => peer.V6? && n <= 128 && b <= peer.b < b + Pow2(128 - n)
    }

    predicate Private() {
      Net4? && prefix <= 32 && exists i :: 0 <= i < 3 && Within(PRIVATE[i])
    }

    predicate Within(other: Network) {
      && Net4? && other.Net4? && other.prefix <= prefix <= 32
      && other.base <= base && base + Size() <= other.base + other.Size()
    }

    /** What may be added at all: a private IPv4 network of at most 256 addresses. */
    predicate Addable() {
      Private() && prefix >= 24
    }
  }

  /** 10.0.0.0/8, 172.16.0.0/12 and 192.168.0.0/16. */
  const PRIVATE: seq<Network> := [Net4(0x0A00_0000, 8), Net4(0xAC10_0000, 12), Net4(0xC0A8_0000, 16)]

  predicate IsPrivate(peer: Address) {
    exists i :: 0 <= i < 3 && PRIVATE[i].Has(peer)
  }

  /** One line of the server's log. `peer` is None if missing or not an address. */
  datatype Record = Record(uri: string, status: int, agent: string, peer: Option<Address>)

  function Lower(c: char): char {
    if 'A' <= c <= 'Z' then c - 'A' + 'a' else c
  }

  predicate FromDevice(agent: string) {
    |agent| >= 5 && Lower(agent[0]) == 'e' && Lower(agent[1]) == 's' && Lower(agent[2]) == 'p' &&
    agent[3] == '3' && agent[4] == '2'
  }

  /** A device of ours was refused its firmware. */
  predicate Refused(r: Record) {
    r.uri == "/firmware.bin" && r.status == 403 && FromDevice(r.agent) && r.peer.Some? && IsPrivate(r.peer.value)
  }

  predicate Allowed(peer: Address, allowed: seq<Network>) {
    exists i :: 0 <= i < |allowed| && allowed[i].Has(peer)
  }

  function Matches(peer: Address, networks: seq<Network>): seq<Network> {
    if networks == [] then []
    else if networks[0].Addable() && networks[0].Has(peer) then [networks[0]] + Matches(peer, networks[1..])
    else Matches(peer, networks[1..])
  }

  /** The network a record speaks for: the only local one that holds its refused peer. */
  function Votes(r: Record, networks: seq<Network>, allowed: seq<Network>): Option<Network> {
    if !Refused(r) || Allowed(r.peer.value, allowed) then None
    else
      var matches := Matches(r.peer.value, networks);
      if |matches| == 1 then Some(matches[0]) else None
  }

  function Eligible(records: seq<Record>, networks: seq<Network>, allowed: seq<Network>): set<Network> {
    set r | r in records && Votes(r, networks, allowed).Some? :: Votes(r, networks, allowed).value
  }

  datatype Repair = NoRepair | Add(network: Network) | Ambiguous

  /** What the eligible networks amount to. */
  predicate Judges(eligible: set<Network>, r: Repair) {
    match r
    case NoRepair => eligible == {}
    case Add(n) => eligible == {n}
    case Ambiguous => |eligible| > 1
  }

  method RepairCandidate(records: seq<Record>, networks: seq<Network>, allowed: seq<Network>) returns (r: Repair)
    ensures Judges(Eligible(records, networks, allowed), r)
  {
    hide Votes;
    var eligible: set<Network> := {};
    var i := 0;
    while i < |records|
      invariant 0 <= i <= |records|
      invariant eligible == Eligible(records[..i], networks, allowed)
    {
      var vote := Votes(records[i], networks, allowed);
      OneMore(records, i, networks, allowed);
      if vote.Some? { eligible := eligible + {vote.value}; }
      i := i + 1;
    }
    assert records[..i] == records;
    if |eligible| > 1 { return Ambiguous; }
    if eligible == {} { return NoRepair; }
    var n :| n in eligible;
    Single(eligible, n);
    r := Add(n);
  }

  lemma OneMore(records: seq<Record>, i: nat, networks: seq<Network>, allowed: seq<Network>)
    requires i < |records|
    ensures
      var vote := Votes(records[i], networks, allowed);
      Eligible(records[..i + 1], networks, allowed) ==
      Eligible(records[..i], networks, allowed) + (if vote.Some? then {vote.value} else {})
  {
    hide Votes;
    assert records[..i + 1] == records[..i] + [records[i]];
    forall n | n in Eligible(records[..i], networks, allowed) ensures n in Eligible(records[..i + 1], networks, allowed) {
      var r :| r in records[..i] && Votes(r, networks, allowed) == Some(n);
      assert r in records[..i + 1];
    }
    assert records[i] in records[..i + 1];
  }

  lemma Single(s: set<Network>, n: Network)
    requires n in s && |s| <= 1
    ensures s == {n}
  {
    if s != {n} {
      var m :| m in s && m != n;
      assert {n, m} <= s && |{n, m}| == 2;
      SubsetSize({n, m}, s);
    }
  }

  lemma {:induction false} SubsetSize(a: set<Network>, b: set<Network>)
    requires a <= b
    ensures |a| <= |b|
  {
    if a != {} {
      var x :| x in a;
      SubsetSize(a - {x}, b - {x});
    }
  }

  const MAX_RANGES: nat := 8

  /** Adds one network to the allowed ones; None stands for a refusal. */
  function AddLan(allowed: seq<Network>, n: Network): Option<seq<Network>> {
    if !n.Addable() || n in allowed || |allowed| >= MAX_RANGES then None else Some(allowed + [n])
  }

  // ---- The judgement does not depend on order or repetition ----

  lemma Unanimous(eligible: set<Network>, r: Repair, r': Repair)
    requires Judges(eligible, r) && Judges(eligible, r')
    ensures r == r'
  {
    if r.Add? && r'.Add? { assert r.network in {r'.network}; }
  }

  /** Records in another order, or some of them twice, give the same judgement. */
  lemma OrderAndRepetition(records: seq<Record>, records': seq<Record>, networks: seq<Network>, allowed: seq<Network>,
                           r: Repair, r': Repair)
    requires forall x :: x in records <==> x in records'
    requires Judges(Eligible(records, networks, allowed), r) && Judges(Eligible(records', networks, allowed), r')
    ensures r == r'
  {
    hide Votes, Judges;
    assert Eligible(records, networks, allowed) == Eligible(records', networks, allowed);
    Unanimous(Eligible(records, networks, allowed), r, r');
  }

  // ---- What a candidate is ----

  lemma {:induction false} MatchesHold(peer: Address, networks: seq<Network>, i: nat)
    requires i < |Matches(peer, networks)|
    ensures
      var n := Matches(peer, networks)[i];
      n in networks && n.Addable() && n.Has(peer)
  {
    hide Network.Addable, Network.Has;
    if networks[0].Addable() && networks[0].Has(peer) {
      if i > 0 { MatchesHold(peer, networks[1..], i - 1); }
    } else {
      MatchesHold(peer, networks[1..], i);
    }
  }

  /** Network i could be added, and holds the peer. */
  predicate Holder(networks: seq<Network>, peer: Address, i: nat) {
    i < |networks| && networks[i].Addable() && networks[i].Has(peer)
  }

  lemma {:induction false} NoMatch(peer: Address, networks: seq<Network>)
    ensures Matches(peer, networks) == [] <==> forall i: nat :: !Holder(networks, peer, i)
  {
    hide Network.Addable, Network.Has;
    if networks != [] {
      var rest := networks[1..];
      NoMatch(peer, rest);
      if i: nat :| Holder(rest, peer, i) { assert Holder(networks, peer, i + 1); }
      if i: nat :| Holder(networks, peer, i) && i > 0 { assert Holder(rest, peer, i - 1); }
      assert Matches(peer, networks) != [] && Matches(peer, rest) == [] ==> Holder(networks, peer, 0);
    }
  }

  /** One match is one holder ... */
  lemma {:induction false} SoleHolder(peer: Address, networks: seq<Network>) returns (i: nat)
    requires |Matches(peer, networks)| == 1
    ensures Holder(networks, peer, i) && networks[i] == Matches(peer, networks)[0]
    ensures forall j: nat :: Holder(networks, peer, j) ==> j == i
  {
    hide Network.Addable, Network.Has;
    var rest := networks[1..];
    if Holder(networks, peer, 0) {
      i := 0;
      NoMatch(peer, rest);
      forall j: nat | Holder(networks, peer, j) ensures j == 0 { assert j > 0 ==> Holder(rest, peer, j - 1); }
    } else {
      var k := SoleHolder(peer, rest);
      i := k + 1;
      forall j: nat | Holder(networks, peer, j) ensures j == i { assert j > 0 ==> Holder(rest, peer, j - 1); }
    }
  }

  /** ... and one holder is one match. */
  lemma {:induction false} SoleMatch(peer: Address, networks: seq<Network>, i: nat)
    requires Holder(networks, peer, i) && forall j: nat :: Holder(networks, peer, j) ==> j == i
    ensures Matches(peer, networks) == [networks[i]]
  {
    hide Network.Addable, Network.Has;
    var rest := networks[1..];
    forall j: nat ensures Holder(rest, peer, j) ==> j + 1 == i { assert Holder(rest, peer, j) ==> Holder(networks, peer, j + 1); }
    if i == 0 {
      NoMatch(peer, rest);
    } else {
      assert Holder(rest, peer, i - 1);
      assert !Holder(networks, peer, 0);
      SoleMatch(peer, rest, i - 1);
    }
  }

  /** A record speaks for network i exactly when it is a refusal of a device no range allows,
      and i is the only local network that could be added and holds it. */
  lemma VotesExactly(r: Record, networks: seq<Network>, allowed: seq<Network>, n: Network)
    ensures
      Votes(r, networks, allowed) == Some(n) <==>
      && Refused(r) && !Allowed(r.peer.value, allowed)
      && exists i: nat ::
           Holder(networks, r.peer.value, i) && i < |networks| && networks[i] == n &&
           forall j: nat :: Holder(networks, r.peer.value, j) ==> j == i
  {
    hide Network.Addable, Network.Has, Refused, Allowed, Matches, Holder;
    if Refused(r) {
      RefusedHasPeer(r);
      var peer := r.peer.value;
      if |Matches(peer, networks)| == 1 { var i := SoleHolder(peer, networks); }
      if i: nat :| Holder(networks, peer, i) && forall j: nat :: Holder(networks, peer, j) ==> j == i {
        SoleMatch(peer, networks, i);
        HolderIsLocal(networks, peer, i);
        assert !Allowed(peer, allowed) ==> Votes(r, networks, allowed) == Some(networks[i]);
      }
    }
  }

  lemma HolderIsLocal(networks: seq<Network>, peer: Address, i: nat)
    requires Holder(networks, peer, i)
    ensures i < |networks|
  {
    hide Network.Addable, Network.Has;
  }

  lemma RefusedHasPeer(r: Record)
    requires Refused(r)
    ensures r.peer.Some?
  {
  }

  lemma VoteMeans(r: Record, networks: seq<Network>, allowed: seq<Network>)
    requires Votes(r, networks, allowed).Some?
    ensures
      var n := Votes(r, networks, allowed).value;
      && Refused(r) && !Allowed(r.peer.value, allowed)
      && n in networks && n.Addable() && n.Has(r.peer.value) && n !in allowed
  {
    hide Network.Addable, Network.Has;
    MatchesHold(r.peer.value, networks, 0);
  }

  /** A candidate is one of the local networks, private and small; it holds the peer of a
      refused device that no allowed range holds; and it can be added while fewer than
      eight ranges are in use. */
  lemma CandidateIsAddable(records: seq<Record>, networks: seq<Network>, allowed: seq<Network>, n: Network)
    requires Judges(Eligible(records, networks, allowed), Add(n))
    ensures n in networks && n.Addable()
    ensures exists r :: r in records && Refused(r) && !Allowed(r.peer.value, allowed) && n.Has(r.peer.value)
    ensures AddLan(allowed, n).Some? <==> |allowed| < MAX_RANGES
  {
    hide Votes, Network.Addable, Network.Has, Refused, Allowed;
    assert n in Eligible(records, networks, allowed);
    var r :| r in records && Votes(r, networks, allowed) == Some(n);
    VoteMeans(r, networks, allowed);
  }

  lemma {:induction false} Pow2Grows(m: nat, n: nat)
    requires m <= n
    ensures Pow2(m) <= Pow2(n)
  {
    if m < n { Pow2Grows(m, n - 1); }
  }

  /** An addition opens exactly the new network, at most 256 addresses, all of them private. */
  lemma AdditionIsNarrow(allowed: seq<Network>, n: Network, peer: Address)
    requires AddLan(allowed, n).Some?
    ensures Allowed(peer, AddLan(allowed, n).value) <==> Allowed(peer, allowed) || n.Has(peer)
    ensures n.Net4? && n.prefix <= 32 && n.Size() <= 256 && (n.Has(peer) ==> IsPrivate(peer))
  {
    AllowedSnoc(allowed, n, peer);
    Pow2Grows(32 - n.prefix, 8);
    assert Pow2(8) == 256 by { assert Pow2(4) == 16; }
    if n.Has(peer) {
      var i :| 0 <= i < 3 && n.Within(PRIVATE[i]);
      assert PRIVATE[i].Has(peer);
    }
  }

  lemma AllowedSnoc(allowed: seq<Network>, n: Network, peer: Address)
    ensures Allowed(peer, allowed + [n]) <==> Allowed(peer, allowed) || n.Has(peer)
  {
    hide Network.Has;
    if Allowed(peer, allowed) {
      var i :| 0 <= i < |allowed| && allowed[i].Has(peer);
      assert (allowed + [n])[i].Has(peer);
    }
    if n.Has(peer) { assert (allowed + [n])[|allowed|].Has(peer); }
    if Allowed(peer, allowed + [n]) {
      var i :| 0 <= i < |allowed + [n]| && (allowed + [n])[i].Has(peer);
      assert i < |allowed| ==> allowed[i].Has(peer);
    }
  }

  // ---- One repair is enough ----

  lemma VoteAfter(r: Record, networks: seq<Network>, allowed: seq<Network>, n: Network)
    requires Votes(r, networks, allowed) in {None, Some(n)}
    ensures Votes(r, networks, allowed + [n]).None?
  {
    hide Network.Addable, Network.Has;
    if Refused(r) {
      var peer := r.peer.value;
      if Allowed(peer, allowed) {
        var i :| 0 <= i < |allowed| && allowed[i].Has(peer);
        assert (allowed + [n])[i].Has(peer);
      } else if Votes(r, networks, allowed) == Some(n) {
        VoteMeans(r, networks, allowed);
        assert (allowed + [n])[|allowed|].Has(peer);
      }
    }
  }

  /** With the candidate added, the same records ask for nothing more, and every refused
      peer that spoke for it is allowed. */
  lemma RepairIsFixpoint(records: seq<Record>, networks: seq<Network>, allowed: seq<Network>, n: Network)
    requires Judges(Eligible(records, networks, allowed), Add(n))
    ensures Judges(Eligible(records, networks, allowed + [n]), NoRepair)
    ensures forall r :: r in records && Votes(r, networks, allowed).Some? ==>
              r.peer.Some? && Allowed(r.peer.value, allowed + [n])
  {
    hide Votes, Network.Addable, Network.Has;
    forall r | r in records ensures Votes(r, networks, allowed + [n]).None? {
      if Votes(r, networks, allowed).Some? { assert Votes(r, networks, allowed).value in Eligible(records, networks, allowed); }
      VoteAfter(r, networks, allowed, n);
    }
    forall r | r in records && Votes(r, networks, allowed).Some?
      ensures r.peer.Some? && Allowed(r.peer.value, allowed + [n])
    {
      VoteMeans(r, networks, allowed);
      assert Votes(r, networks, allowed).value in Eligible(records, networks, allowed);
      assert (allowed + [n])[|allowed|].Has(r.peer.value);
    }
  }
}
