/** With a rank that falls along every uplink, every packet dies out: a measure on the packets in flight drops with
    each one handled. */
module ReportTermination {
  import opened Lists
  import opened Reports
  import opened ReportRuns

  function Ups(channels: seq<Channel>): nat {
    if channels == [] then 0 else (if channels[0].connectedToRoot then 1 else 0) + Ups(channels[1..])
  }

  /** Every device has at most `fan` uplinks, all to devices of lower rank or to the server. */
  ghost predicate Ranked(s: State, rank: map<Word, nat>, fan: nat) {
    forall d :: d in s.routers ==> d in rank && Ups(s.routers[d]) <= fan && Climbs(s.routers[d], rank, rank[d])
  }

  ghost predicate Climbs(channels: seq<Channel>, rank: map<Word, nat>, below: nat) {
    forall p :: IsUplink(channels, p) && p.Device? ==> p.id in rank && rank[p.id] < below
  }

  /** What one packet to a device of rank k - 1 can still cause; the server's own share is Burst(0). */
  function Burst(k: nat, fan: nat): (r: nat)
    ensures r >= 1
  {
    if k == 0 then 1 else 1 + fan * Burst(k - 1, fan)
  }

  function Height(p: Peer, rank: map<Word, nat>): nat {
    if p.Device? && p.id in rank then rank[p.id] + 1 else 0
  }

  ghost function Weigh(rank: map<Word, nat>, fan: nat): Flight -> nat {
    (f: Flight) => Burst(Height(f.to, rank), fan)
  }

  lemma {:induction false} BurstGrows(j: nat, k: nat, fan: nat)
    requires j <= k && fan >= 1
    ensures Burst(j, fan) <= Burst(k, fan)
    decreases k
  {
    if j < k {
      BurstGrows(j, k - 1, fan);
      assert fan * Burst(k - 1, fan) >= Burst(k - 1, fan);
    }
  }

  lemma CopyWeighs(channels: seq<Channel>, p: Packet, rank: map<Word, nat>, below: nat, fan: nat)
    requires fan >= 1 && Climbs(channels, rank, below) && channels != [] && channels[0].connectedToRoot
    ensures Total([Flight(channels[0].peer, p)], Weigh(rank, fan)) <= Burst(below, fan)
  {
    var peer := channels[0].peer;
    assert IsUplink(channels, peer) by { assert channels[0] == Channel(peer, true); }
    BurstGrows(Height(peer, rank), below, fan);
    TotalOne(Flight(peer, p), Weigh(rank, fan));
  }

  lemma OneMore(n: nat, k: nat)
    ensures (n + 1) * k == n * k + k
  {
  }

  lemma {:induction false} CopiesWeigh(channels: seq<Channel>, p: Packet, rank: map<Word, nat>, below: nat, fan: nat)
    requires fan >= 1 && Climbs(channels, rank, below)
    ensures Total(ToUp(channels, p), Weigh(rank, fan)) <= Ups(channels) * Burst(below, fan)
  {
    hide Burst;
    hide Total;
    if channels == [] {
      var none: seq<Flight> := [];
      TotalJoin(none, none, Weigh(rank, fan));
      assert none + none == none;
    } else {
      var rest := channels[1..];
      assert Climbs(rest, rank, below);
      CopiesWeigh(rest, p, rank, below, fan);
      if channels[0].connectedToRoot {
        CopyWeighs(channels, p, rank, below, fan);
        TotalJoin([Flight(channels[0].peer, p)], ToUp(rest, p), Weigh(rank, fan));
        OneMore(Ups(rest), Burst(below, fan));
      } else {
        assert [] + ToUp(rest, p) == ToUp(rest, p);
      }
    }
  }

  lemma RoutedWeigh(s: State, f: Flight, rank: map<Word, nat>, fan: nat)
    requires fan >= 1 && Ranked(s, rank, fan) && f.to.Device? && f.to.id in s.routers && Length(f.packet) < 0x1_0000
    ensures Total(Routed(f.to.id, s.routers[f.to.id], f.packet, Length(f.packet)), Weigh(rank, fan))
            < Burst(Height(f.to, rank), fan)
  {
    var d := f.to.id;
    var channels, below := s.routers[d], rank[d];
    assert Burst(below + 1, fan) == 1 + fan * Burst(below, fan);
    hide Burst;
    hide Climbs;
    var q := Sized(f.packet, Length(f.packet));
    CopiesWeigh(channels, q, rank, below, fan);
    if q.body.Encoded? { CopiesWeigh(channels, Rewritten(d, q), rank, below, fan); }
    ProductGrows(Ups(channels), fan, Burst(below, fan));
    RoutedIsCopies(d, channels, f.packet);
  }

  lemma RoutedIsCopies(d: Word, channels: seq<Channel>, p: Packet)
    requires Length(p) < 0x1_0000
    ensures var q := Sized(p, Length(p)); var r := Routed(d, channels, p, Length(p));
            r == [] || r == ToUp(channels, q) || (q.body.Encoded? && r == ToUp(channels, Rewritten(d, q)))
  {
  }

  ghost predicate OnlyHandling(es: seq<Event>) {
    forall i :: 0 <= i < |es| ==> es[i].Deliver? || es[i].Lose?
  }

  lemma StepDrops(session: Word, s: State, e: Event, rank: map<Word, nat>, fan: nat)
    requires fan >= 1 && Ranked(s, rank, fan) && Enabled(s, e) && (e.Deliver? || e.Lose?)
    ensures Total(Apply(session, s, e).net, Weigh(rank, fan)) < Total(s.net, Weigh(rank, fan))
    ensures Apply(session, s, e).routers == s.routers
  {
    TotalWithout(s.net, e.i, Weigh(rank, fan));
    if e.Deliver? && s.net[e.i].to.Device? {
      var f := s.net[e.i];
      RoutedWeigh(s, f, rank, fan);
      TotalJoin(Without(s.net, e.i), Routed(f.to.id, s.routers[f.to.id], f.packet, Length(f.packet)), Weigh(rank, fan));
    }
  }

  /** However the packets in flight are handled, there is an end to it. */
  lemma {:induction false} EverythingDiesOut(session: Word, s: State, es: seq<Event>, rank: map<Word, nat>, fan: nat)
    requires fan >= 1 && Ranked(s, rank, fan) && Runs(session, s, es) && OnlyHandling(es)
    ensures |es| + Total(After(session, s, es).net, Weigh(rank, fan)) <= Total(s.net, Weigh(rank, fan))
    decreases |es|
  {
    if es != [] {
      StepDrops(session, s, es[0], rank, fan);
      EverythingDiesOut(session, Apply(session, s, es[0]), es[1..], rank, fan);
    }
  }

  /** One device's report over at most `fan` uplinks is over after at most fan * Burst(rank) packets. */
  lemma ReportDiesOut(session: Word, s: State, id: Word, es: seq<Event>, rank: map<Word, nat>, fan: nat)
    requires fan >= 1 && Ranked(s, rank, fan) && s.net == [] && id in s.routers
    requires Runs(session, s, [Report(id)] + es) && OnlyHandling(es)
    ensures |es| <= fan * Burst(rank[id], fan)
  {
    var t := Apply(session, s, Report(id));
    assert ([Report(id)] + es)[1..] == es;
    CopiesWeigh(s.routers[id], ReportPacket(id), rank, rank[id], fan);
    ProductGrows(Ups(s.routers[id]), fan, Burst(rank[id], fan));
    assert t.net == ToUp(s.routers[id], ReportPacket(id));
    EverythingDiesOut(session, t, es, rank, fan);
  }
}
