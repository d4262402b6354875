/** The sync message as a protocol.  A delivered offer names everything its peer wants attached; an
  * offer may be lost, delivered again, or carried out without the client hearing about it, so the
  * host sees an arbitrary sequence of deliveries from any number of peers.
  */
module SyncProtocol {
  import opened UsbipTool

  /** One executed sync: the peer it is for and the bus ids it offers. */
  datatype Delivery = Delivery(peer: Host, offer: set<BusId>)

  /** A sync in which every tool call succeeds. */
  function SyncOk(c: set<Entry>, d: Delivery): set<Entry> {
    Synced(c, d.peer, d.offer, d.offer, BusIds(c, d.peer))
  }

  function Deliver(c: set<Entry>, ds: seq<Delivery>): set<Entry> {
    if ds == [] then c else SyncOk(Deliver(c, ds[..|ds| - 1]), ds[|ds| - 1])
  }

  /** The last offer of a peer, or what it had when none was delivered. */
  function LastOffer(c: set<Entry>, ds: seq<Delivery>, peer: Host): set<BusId> {
    if ds == [] then BusIds(c, peer)
    else if SameHost(ds[|ds| - 1].peer, peer) then ds[|ds| - 1].offer
    else LastOffer(c, ds[..|ds| - 1], peer)
  }

  /** With any failures, the result is (have + attached) - detached. */
  lemma SyncedBusIds(c: set<Entry>, server: Host, want: set<BusId>, attachOk: set<BusId>, detachOk: set<BusId>)
    ensures
      var have := BusIds(c, server);
      BusIds(Synced(c, server, want, attachOk, detachOk), server)
        == have + (want - have) * attachOk - (have - want) * detachOk
  {
    var have, r := BusIds(c, server), Synced(c, server, want, attachOk, detachOk);
    forall b | b in have + (want - have) * attachOk - (have - want) * detachOk
      ensures b in BusIds(r, server)
    {
      if b in have {
        var e :| e in From(c, server) && e.busid == b;
        assert e in From(r, server);
      } else {
        assert Entry(server, b) in From(r, server);
      }
    }
    forall b | b in BusIds(r, server)
      ensures b in have + (want - have) * attachOk - (have - want) * detachOk
    {
      var e :| e in From(r, server) && e.busid == b;
      if e in c { assert e in From(c, server); }
    }
  }

  /** A sync never touches another host's devices. */
  lemma OthersSurvive(c: set<Entry>, server: Host, want: set<BusId>, attachOk: set<BusId>, detachOk: set<BusId>,
                      other: Host)
    requires !SameHost(server, other)
    ensures From(Synced(c, server, want, attachOk, detachOk), other) == From(c, other)
  {
  }

  /** With no failures a second, equal sync finds nothing to attach or detach, and changes nothing. */
  lemma SecondSyncDoesNothing(c: set<Entry>, d: Delivery)
    ensures SyncOk(SyncOk(c, d), d) == SyncOk(c, d)
    ensures
      var have := BusIds(SyncOk(c, d), d.peer);
      d.offer - have == {} && have - d.offer == {}
  {
    var r := SyncOk(c, d);
    SyncedBusIds(c, d.peer, d.offer, d.offer, BusIds(c, d.peer));
    forall e | e in r && SameHost(e.server, d.peer)
      ensures e.busid in d.offer
    {
      assert e in From(r, d.peer);
    }
  }

  /** Convergence: whatever was delivered before, a peer has exactly what it offered last. */
  lemma {:induction false} LastOfferDecides(c: set<Entry>, ds: seq<Delivery>, peer: Host)
    ensures BusIds(Deliver(c, ds), peer) == LastOffer(c, ds, peer)
  {
    if ds != [] {
      var before, d := Deliver(c, ds[..|ds| - 1]), ds[|ds| - 1];
      LastOfferDecides(c, ds[..|ds| - 1], peer);
      if SameHost(d.peer, peer) {
        SyncedBusIds(before, d.peer, d.offer, d.offer, BusIds(before, d.peer));
        assert From(SyncOk(before, d), peer) == From(SyncOk(before, d), d.peer);
      } else {
        OthersSurvive(before, d.peer, d.offer, d.offer, BusIds(before, d.peer), peer);
      }
    }
  }

  /** Loss and replay are harmless: two hosts that executed different deliveries agree on a peer as
    * soon as both have executed the same offer of it last. */
  lemma LossAndReplayAreHarmless(c1: set<Entry>, ds1: seq<Delivery>, c2: set<Entry>, ds2: seq<Delivery>, d: Delivery)
    ensures BusIds(Deliver(c1, ds1 + [d]), d.peer) == BusIds(Deliver(c2, ds2 + [d]), d.peer) == d.offer
  {
    LastOfferDecides(c1, ds1 + [d], d.peer);
    LastOfferDecides(c2, ds2 + [d], d.peer);
  }

  /** A request that was executed although its reply was lost, and is then sent again, leaves the host
    * as if it had been executed once, whatever other peers did in between. */
  lemma {:induction false} ResendIsHarmless(c: set<Entry>, d: Delivery, others: seq<Delivery>)
    requires forall o :: o in others ==> !SameHost(o.peer, d.peer)
    ensures From(Deliver(SyncOk(c, d), others), d.peer) == From(SyncOk(c, d), d.peer)
    ensures SyncOk(Deliver(SyncOk(c, d), others), d) == Deliver(SyncOk(c, d), others)
  {
    var r := SyncOk(c, d);
    if others != [] {
      var o := others[|others| - 1];
      assert o in others;
      ResendIsHarmless(c, d, others[..|others| - 1]);
      var before := Deliver(r, others[..|others| - 1]);
      OthersSurvive(before, o.peer, o.offer, o.offer, BusIds(before, o.peer), d.peer);
    }
    SyncedBusIds(c, d.peer, d.offer, d.offer, BusIds(c, d.peer));
    var t := Deliver(r, others);
    assert BusIds(t, d.peer) == d.offer;
    forall e | e in t && SameHost(e.server, d.peer)
      ensures e.busid in d.offer
    {
      assert e in From(t, d.peer);
    }
  }
}
