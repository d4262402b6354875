/** The watcher, the policy and the host together. */
module EndToEnd {
  import opened Basics
  import W = Watcher
  import P = DevicePolicy
  import T = UsbipTool
  import S = SyncProtocol

  /** The pass reached the host and the host carried out the sync. */
  ghost predicate SyncSucceeded(w: W.State, e: W.Env, force: bool, log: seq<W.Call>) {
    var r := W.Pass(w, e, force, true, log);
    e.enabled && r.ok && r.log != log
  }

  /** The list that pass sent. */
  function Sent(w: W.State, e: W.Env): seq<string> {
    W.Good(w.bound + e.bindOk, e.offer)
  }

  /** The last call of such a pass is the list it sent. */
  lemma LastCallIsTheList(w: W.State, e: W.Env, force: bool, log: seq<W.Call>)
    requires SyncSucceeded(w, e, force, log)
    ensures
      var r := W.Pass(w, e, force, true, log);
      r.log != [] && r.log[|r.log| - 1] == W.Send(Sent(w, e)) && r.state.bound == Elements(Sent(w, e))
  {
  }

  /** After a sync that succeeded, the host has attached from this peer exactly what the watcher holds,
    * whatever was delivered to the host before; and the watcher holds only what was offered. */
  lemma HostHasWhatTheWatcherHolds(c: set<T.Entry>, ds: seq<S.Delivery>, peer: T.Host,
                                   w: W.State, e: W.Env, force: bool, log: seq<W.Call>)
    requires SyncSucceeded(w, e, force, log)
    ensures
      var bound := W.Pass(w, e, force, true, log).state.bound;
      && T.BusIds(S.Deliver(c, ds + [S.Delivery(peer, Elements(Sent(w, e)))]), peer) == bound
      && bound <= Elements(e.offer)
  {
    LastCallIsTheList(w, e, force, log);
    W.GoodIsUsable(w.bound + e.bindOk, e.offer);
    S.LastOfferDecides(c, ds + [S.Delivery(peer, Elements(Sent(w, e)))], peer);
  }

  /** The host's Sync of a list, every call succeeding, is the delivery of the bus ids in it. */
  lemma SyncIsADelivery(c: set<T.Entry>, peer: T.Host, list: seq<string>, attachOk: set<string>, detachOk: set<string>)
    requires Elements(list) - {""} <= attachOk && T.BusIds(c, peer) <= detachOk
    ensures T.Synced(c, peer, T.Wanted(list), attachOk, detachOk)
         == S.SyncOk(c, S.Delivery(peer, Elements(list) - {""}))
  {
    var want, have := Elements(list) - {""}, T.BusIds(c, peer);
    assert T.Wanted(list) == want;
    assert (want - have) * attachOk == (want - have) * want;
    forall e | e in c && T.SameHost(e.server, peer)
      ensures e.busid in have
    {
      assert e in T.From(c, peer);
    }
  }

  /** The whole way: the list a successful pass sent, synced by the host over any contents, leaves the host
    * with exactly what the watcher holds from this peer, and with every other peer's devices as they were. */
  lemma SentListArrives(c: set<T.Entry>, peer: T.Host, other: T.Host, attachOk: set<string>, detachOk: set<string>,
                        w: W.State, e: W.Env, force: bool, log: seq<W.Call>)
    requires SyncSucceeded(w, e, force, log) && "" !in e.offer && !T.SameHost(peer, other)
    requires Elements(Sent(w, e)) <= attachOk && T.BusIds(c, peer) <= detachOk
    ensures
      var r := T.Synced(c, peer, T.Wanted(Sent(w, e)), attachOk, detachOk);
      && T.BusIds(r, peer) == W.Pass(w, e, force, true, log).state.bound
      && T.From(r, other) == T.From(c, other)
  {
    var d := S.Delivery(peer, Elements(Sent(w, e)));
    W.GoodIsUsable(w.bound + e.bindOk, e.offer);
    assert Elements(Sent(w, e)) - {""} == Elements(Sent(w, e));
    SyncIsADelivery(c, peer, Sent(w, e), attachOk, detachOk);
    HostHasWhatTheWatcherHolds(c, [], peer, w, e, force, log);
    assert [] + [d] == [d] && [d][..0] == [];
    assert S.Deliver(c, [d]) == S.SyncOk(S.Deliver(c, []), d);
    S.OthersSurvive(c, peer, d.offer, d.offer, T.BusIds(c, peer), other);
  }

  /** After such a sync the watcher holds nothing the machine runs from, no hub, and nothing on the
    * never-share list. */
  lemma NothingForbiddenIsHeld(names: seq<P.Device>, policy: string, always: seq<string>, never: seq<string>,
                               w: W.State, e: W.Env, force: bool, log: seq<W.Call>, d: P.Device)
    requires forall i, j :: 0 <= i < j < |names| ==> names[i].busid != names[j].busid
    requires SyncSucceeded(w, e, force, log)
    requires e.offer == P.BusIdsOf(P.OfferedDevices(names, policy, always, never))
    requires d in names && d.busid in W.Pass(w, e, force, true, log).state.bound
    ensures P.MayBeHandedOver(d, policy, always, never)
    ensures !d.critical && !d.hub && !P.Lists(never, d)
  {
    LastCallIsTheList(w, e, force, log);
    W.GoodIsUsable(w.bound + e.bindOk, e.offer);
    var offered := P.OfferedDevices(names, policy, always, never);
    assert d.busid in Elements(e.offer);
    var i :| 0 <= i < |offered| && offered[i].busid == d.busid;
    P.OfferIsExact(names, policy, always, never, offered[i]);
    assert offered[i] == d;
  }
}
