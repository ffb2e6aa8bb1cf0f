/** The real client address behind our proxies, from the forwarded-for header. */
module ClientHost {
  import opened Basics

  /** Which hosts are in a set of networks; a host that is no address is in none. */
  type Networks = string -> bool

  /** `s.split(",")` */
  function Split(s: string): (parts: seq<string>)
    ensures parts != []
  {
    if s == "" then [""]
    else
      var rest := Split(s[1..]);
      if s[0] == ',' then [""] + rest else [[s[0]] + rest[0]] + rest[1..]
  }

  lemma {:induction false} SplitAtComma(x: string, y: string)
    ensures Split(x + "," + y) == Split(x) + Split(y)
  {
    if x == "" {
      assert (x + "," + y)[0] == ',' && (x + "," + y)[1..] == y;
    } else {
      assert (x + "," + y)[1..] == x[1..] + "," + y;
      SplitAtComma(x[1..], y);
    }
  }

  function Find(s: string, c: char): int {
    if s == "" then -1 else if s[0] == c then 0
    else var r := Find(s[1..], c); if r < 0 then -1 else r + 1
  }

  lemma {:induction false} FindInRange(s: string, c: char)
    ensures Find(s, c) < |s| || s == ""
    ensures Find(s, c) >= 0 ==> Find(s, c) < |s| && s[Find(s, c)] == c
  {
    if s != "" && s[0] != c {
      FindInRange(s[1..], c);
    }
  }

  function Count(s: string, c: char): nat {
    if s == "" then 0 else (if s[0] == c then 1 else 0) + Count(s[1..], c)
  }

  /** `_strip_port` */
  function StripPort(hop: string): string {
    FindInRange(hop, ']');
    FindInRange(hop, ':');
    if hop != "" && hop[0] == '[' then
      var end := Find(hop, ']');
      if end >= 1 then hop[1..end] else hop
    else if Count(hop, ':') == 1 && Find(hop, ':') >= 0 then hop[..Find(hop, ':')]
    else hop
  }

  function HopsOf(parts: seq<string>): seq<string> {
    if parts == [] then []
    else (if Strip(parts[0]) != "" then [StripPort(Strip(parts[0]))] else []) + HopsOf(parts[1..])
  }

  function Hops(header: string): seq<string> { HopsOf(Split(header)) }

  lemma {:induction false} HopsConcat(a: seq<string>, b: seq<string>)
    ensures HopsOf(a + b) == HopsOf(a) + HopsOf(b)
  {
    if a == [] {
      assert a + b == b;
    } else {
      assert (a + b)[1..] == a[1..] + b;
      HopsConcat(a[1..], b);
    }
  }

  /** The hop the loop stops at: it steps left through upstream hops while there is one to step to. */
  function Pick(hops: seq<string>, upstream: Networks): string
    requires hops != []
  {
    var last := hops[|hops| - 1];
    if |hops| > 1 && upstream(last) then Pick(hops[..|hops| - 1], upstream) else last
  }

  /** It is the rightmost hop that is not upstream, or the leftmost if all are. */
  lemma {:induction false} PickIsRightmost(hops: seq<string>, upstream: Networks, k: nat)
    requires k < |hops|
    requires forall m: nat :: k < m < |hops| ==> upstream(hops[m])
    requires !upstream(hops[k]) || k == 0
    ensures Pick(hops, upstream) == hops[k]
    decreases |hops|
  {
    if k < |hops| - 1 {
      PickIsRightmost(hops[..|hops| - 1], upstream, k);
    }
  }

  lemma {:induction false} SomethingStops(hops: seq<string>, upstream: Networks) returns (k: nat)
    requires hops != []
    ensures k < |hops| && (forall m: nat :: k < m < |hops| ==> upstream(hops[m]))
    ensures !upstream(hops[k]) || (k == 0 && forall m: nat :: m < |hops| ==> upstream(hops[m]))
  {
    k := |hops| - 1;
    while k > 0 && upstream(hops[k])
      invariant k < |hops|
      invariant forall m: nat :: k < m < |hops| ==> upstream(hops[m])
    {
      k := k - 1;
    }
  }

  function Resolve(peer: string, header: string, trusted: Networks, upstream: Networks): string {
    if peer == "" || header == "" || !trusted(peer) || Hops(header) == [] then peer
    else Pick(Hops(header), upstream)
  }

  /** `resolve_client_host`; a missing peer or header reads as empty. */
  method ResolveClientHost(peer: string, header: string, trusted: Networks, upstream: Networks) returns (host: string)
    ensures host == Resolve(peer, header, trusted, upstream)
    ensures !trusted(peer) ==> host == peer
    ensures host != peer ==> host in Hops(header)
    ensures peer != "" && trusted(peer) && Hops(header) != [] ==> IsTheHop(Hops(header), upstream, host)
  {
    ResolveIsTheHop(peer, header, trusted, upstream);
    if peer == "" || header == "" || !trusted(peer) {
      return peer;
    }
    var hops := Hops(header);
    if hops == [] {
      return peer;
    }
    ghost var all := hops;
    host := hops[|hops| - 1];
    hops := hops[..|hops| - 1];
    while hops != [] && upstream(host)
      invariant hops + [host] <= all
      invariant Pick(hops + [host], upstream) == Pick(all, upstream)
      invariant host in all
      decreases |hops|
    {
      ghost var now := hops + [host];
      assert now[..|now| - 1] == hops;
      host := hops[|hops| - 1];
      hops := hops[..|hops| - 1];
      assert hops + [host] == now[..|now| - 1];
    }
  }

  /** The rightmost hop outside the upstream set, or the leftmost one where all are in it. */
  ghost predicate IsTheHop(hops: seq<string>, upstream: Networks, host: string) {
    exists k: nat :: k < |hops| && hops[k] == host && (!upstream(host) || k == 0) &&
                     forall m: nat :: k < m < |hops| ==> upstream(hops[m])
  }

  lemma PickIsTheHop(hops: seq<string>, upstream: Networks)
    requires hops != []
    ensures IsTheHop(hops, upstream, Pick(hops, upstream))
  {
    var k := SomethingStops(hops, upstream);
    PickIsRightmost(hops, upstream, k);
  }

  lemma ResolveIsTheHop(peer: string, header: string, trusted: Networks, upstream: Networks)
    ensures peer != "" && trusted(peer) && Hops(header) != [] ==>
      IsTheHop(Hops(header), upstream, Resolve(peer, header, trusted, upstream))
  {
    EmptyHasNoHops();
    if Hops(header) != [] {
      PickIsTheHop(Hops(header), upstream);
    }
  }

  lemma PickIgnoresTheLeft(forged: seq<string>, hops: seq<string>, upstream: Networks)
    requires exists h :: h in hops && !upstream(h)
    ensures hops != [] && Pick(forged + hops, upstream) == Pick(hops, upstream)
  {
    var all := forged + hops;
    var k := SomethingStops(hops, upstream);
    PickIsRightmost(hops, upstream, k);
    forall m: nat | |forged| + k < m < |all| ensures upstream(all[m]) {
      assert all[m] == hops[m - |forged|];
    }
    PickIsRightmost(all, upstream, |forged| + k);
  }

  /** Text written before the part of the header that holds a hop outside the
      upstream set cannot change the answer. */
  lemma PrependedTextIsIgnored(peer: string, text: string, header: string, trusted: Networks, upstream: Networks)
    requires exists h :: h in Hops(header) && !upstream(h)
    ensures Resolve(peer, text + "," + header, trusted, upstream) == Resolve(peer, header, trusted, upstream)
  {
    SplitAtComma(text, header);
    HopsConcat(Split(text), Split(header));
    PickIgnoresTheLeft(HopsOf(Split(text)), Hops(header), upstream);
    assert header != "" by {
      EmptyHasNoHops();
    }
  }

  lemma EmptyHasNoHops()
    ensures Hops("") == []
  {
    assert Split("") == [""] && [""][1..] == [];
    assert Strip("") == "";
  }

  // ---------------------------------------------------------------------
  // Reading the header
  // ---------------------------------------------------------------------

  lemma {:induction false} NoneOf(s: string, c: char)
    requires c !in s
    ensures Find(s, c) == -1 && Count(s, c) == 0
  {
    if s != "" {
      assert s[0] in s;
      NoneOf(s[1..], c);
    }
  }

  lemma {:induction false} FindFirst(a: string, c: char, b: string)
    requires c !in a
    ensures Find(a + [c] + b, c) == |a| && Count(a + [c] + b, c) == 1 + Count(b, c)
  {
    if a == "" {
      assert a + [c] + b == [c] + b && ([c] + b)[1..] == b;
    } else {
      assert a[0] in a && (a + [c] + b)[1..] == a[1..] + [c] + b && (a + [c] + b)[0] == a[0];
      FindFirst(a[1..], c, b);
    }
  }

  /** A host with a port loses the port. */
  lemma PortIsStripped(host: string, port: string)
    requires ':' !in host && ':' !in port && (host != "" ==> host[0] != '[')
    ensures StripPort(host + ":" + port) == host
  {
    FindFirst(host, ':', port);
    NoneOf(port, ':');
    assert host + ":" + port == host + [':'] + port;
    assert (host + ":" + port)[..|host|] == host;
  }

  /** An address in brackets is what the first pair of them holds, whatever follows. */
  lemma BracketsAreStripped(addr: string, rest: string)
    requires ']' !in addr
    ensures StripPort("[" + addr + "]" + rest) == addr
  {
    var hop := "[" + addr + "]" + rest;
    assert hop == ("[" + addr) + [']'] + rest;
    FindFirst("[" + addr, ']', rest);
    assert hop[1..|addr| + 1] == addr;
  }

  /** A bare address stays: no colon or several, or an opening bracket that never closes. */
  lemma BareAddressStays(hop: string)
    requires hop == "" || hop[0] != '[' || ']' !in hop
    requires hop != "" && hop[0] != '[' ==> Count(hop, ':') != 1
    ensures StripPort(hop) == hop
  {
    if hop != "" && hop[0] == '[' {
      NoneOf(hop, ']');
    }
  }

  lemma {:induction false} OnePart(s: string)
    requires ',' !in s
    ensures Split(s) == [s]
  {
    if s != "" {
      assert s[0] in s;
      OnePart(s[1..]);
      assert [s[0]] + s[1..] == s && [s[1..]][1..] == [];
    }
  }

  /** The hops of a header: each part between commas, without its whitespace and port;
      blank parts are skipped. */
  lemma HopsAre(part: string, rest: string)
    requires ',' !in part
    ensures var hop := if Strip(part) == "" then [] else [StripPort(Strip(part))];
      Hops(part) == hop && Hops(part + "," + rest) == hop + Hops(rest)
  {
    OnePart(part);
    SplitAtComma(part, rest);
    HopsConcat(Split(part), Split(rest));
    assert [part][1..] == [] && HopsOf([]) == [];
  }
}
