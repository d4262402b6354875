/** The appliance's USB watcher: one pass over the plugged devices, the cheap change gate in front of
  * the survey, releasing and handing back, and the back-off of the loop.
  */
module Watcher {
  import opened Basics

  type BusId = string

  /** The fields of the Watcher object; `connected` stands for `client is not None`. */
  datatype State = State(
    bound: set<BusId>,
    lastOffer: Option<set<BusId>>,
    lastSeen: Option<set<BusId>>,
    lastSync: real,
    reachable: bool,
    connected: bool)

  const START := State({}, None, None, 0.0, false, false)

  datatype Reply = Answered | Failed(code: string)

  /** Everything a pass reads from outside.  `paired` says that a client can be made from the
    * settings; `offer` is what a survey would offer. */
  datatype Env = Env(enabled: bool, paired: bool, plugged: set<BusId>, offer: seq<BusId>, now: real,
                     daemonUp: bool, ping: Reply, bindOk: set<BusId>, send: Reply)

  /** What a pass does to the outside, in order.  Consecutive unbinds are one record. */
  datatype Call = Ping | Bind(busid: BusId, ok: bool) | Unbind(ids: set<BusId>) | Send(list: seq<BusId>)

  const HEARTBEAT := 60.0

  predicate LosesHost(code: string) {
    code == "unreachable" || code == "not_paired"
  }

  // ------------------------------------------------------------------ the pass as a function

  /** `log` is the whole history of calls, this pass included. */
  datatype Outcome = Outcome(state: State, ok: bool, log: seq<Call>)

  function UnbindLog(log: seq<Call>, ids: set<BusId>): seq<Call> {
    if ids == {} then log else log + [Unbind(ids)]
  }

  function ReleasedLocally(w: State): State {
    w.(bound := {}, lastOffer := None, lastSeen := None)
  }

  /** One bind for every offered device that is not exported yet. */
  function BindLog(log: seq<Call>, bound: set<BusId>, offer: seq<BusId>, bindOk: set<BusId>): seq<Call> {
    if offer == [] then log
    else
      var before, b := offer[..|offer| - 1], offer[|offer| - 1];
      var done := BindLog(log, bound, before, bindOk);
      if b in bound + Elements(before) * bindOk then done else done + [Bind(b, b in bindOk)]
  }

  /** The offered devices that are exported after binding, in the order of the offer. */
  function Good(usable: set<BusId>, offer: seq<BusId>): seq<BusId> {
    if offer == [] then []
    else
      var b := offer[|offer| - 1];
      Good(usable, offer[..|offer| - 1]) + if b in usable then [b] else []
  }

  /** The host does not answer: give back what is held. */
  function Unanswered(w: State, log: seq<Call>): Outcome {
    var r := if w.bound == {} then w else ReleasedLocally(w);
    Outcome(r.(reachable := false, connected := false), false, UnbindLog(log, w.bound))
  }

  /** Bind, unbind what is gone, send. */
  function Exchange(w: State, e: Env, log: seq<Call>): Outcome {
    var good := Good(w.bound + e.bindOk, e.offer);
    var gone := w.bound + Elements(e.offer) * e.bindOk - Elements(good);
    var held := w.(bound := Elements(good));
    var sent := UnbindLog(BindLog(log, w.bound, e.offer, e.bindOk), gone) + [Send(good)];
    match e.send
    case Failed(code) =>
      if LosesHost(code)
      then Outcome(ReleasedLocally(held).(reachable := false, connected := false), false, UnbindLog(sent, held.bound))
      else Outcome(held, false, sent)
    case Answered =>
      Outcome(held.(lastOffer := Some(Elements(e.offer)), lastSeen := Some(e.plugged), lastSync := e.now), true, sent)
  }

  /** The pass once a survey has been made and something is due. */
  function Attempt(w: State, e: Env, log: seq<Call>): Outcome {
    if e.offer != [] && !e.daemonUp then Outcome(w, false, log)
    else if !w.connected && !e.paired then Unanswered(w, log)
    else
      var c := w.(connected := true);
      if w.reachable then Exchange(c, e, log)
      else if e.ping.Failed? then Unanswered(c, log + [Ping])
      else Exchange(c.(reachable := true), e, log + [Ping])
  }

  function HandedBack(w: State, e: Env, log: seq<Call>): Outcome {
    Outcome(ReleasedLocally(w).(connected := false), true,
            UnbindLog(if w.connected || e.paired then log + [Send([])] else log, w.bound))
  }

  predicate HeartbeatDue(w: State, e: Env) {
    e.now - w.lastSync >= HEARTBEAT
  }

  /** pass_once; `gated` is false for a watcher that surveys on every pass. */
  function Pass(w: State, e: Env, force: bool, gated: bool, log: seq<Call>): Outcome {
    if !e.enabled then
      if w.bound != {} then HandedBack(w, e, log) else Outcome(w, true, log)
    else if gated && !force && !HeartbeatDue(w, e) && w.lastSeen == Some(e.plugged) then Outcome(w, true, log)
    else if !(force || HeartbeatDue(w, e) || w.lastOffer != Some(Elements(e.offer))) then
      Outcome(w.(lastSeen := Some(e.plugged)), true, log)
    else Attempt(w, e, log)
  }

  // ------------------------------------------------------------------------ the watcher object

  class Watcher {
    var bound: set<BusId>
    var lastOffer: Option<set<BusId>>
    var lastSeen: Option<set<BusId>>
    var lastSync: real
    var reachable: bool
    var connected: bool
    var backoff: real
    ghost var log: seq<Call>

    ghost function Abs(): State
      reads this
    {
      State(bound, lastOffer, lastSeen, lastSync, reachable, connected)
    }

    constructor ()
      ensures Abs() == START && log == [] && backoff == 0.0
    {
      bound, lastOffer, lastSeen := {}, None, None;
      lastSync, reachable, connected, backoff, log := 0.0, false, false, 0.0, [];
    }

    method BindAll(offer: seq<BusId>, bindOk: set<BusId>) returns (good: seq<BusId>)
      modifies this`bound, this`log
      ensures good == Good(old(bound) + bindOk, offer)
      ensures bound == old(bound) + Elements(offer) * bindOk
      ensures log == BindLog(old(log), old(bound), offer, bindOk)
    {
      good := [];
      for i := 0 to |offer|
        invariant good == Good(old(bound) + bindOk, offer[..i])
        invariant bound == old(bound) + Elements(offer[..i]) * bindOk
        invariant log == BindLog(old(log), old(bound), offer[..i], bindOk)
      {
        var b := offer[i];
        assert offer[..i + 1] == offer[..i] + [b];
        OneMoreOffered(old(log), old(bound), offer[..i], b, bindOk);
        if b in bound {
          good := good + [b];
          continue;
        }
        log := log + [Bind(b, b in bindOk)];
        if b in bindOk {
          bound := bound + {b};
          good := good + [b];
        }
      }
      assert offer[..|offer|] == offer;
    }

    method UnbindEach(ids: set<BusId>)
      modifies this`bound, this`log
      ensures bound == old(bound) - ids && log == UnbindLog(old(log), ids)
    {
      var rest := ids;
      while rest != {}
        invariant rest <= ids && bound == old(bound) - (ids - rest) && log == old(log)
      {
        var b :| b in rest;
        bound := bound - {b};
        rest := rest - {b};
      }
      if ids != {} { log := log + [Unbind(ids)]; }
    }

    method ReleaseLocal()
      modifies this
      ensures backoff == old(backoff)
      ensures Abs() == ReleasedLocally(old(Abs())) && log == UnbindLog(old(log), old(bound))
    {
      UnbindEach(bound);
      lastOffer, lastSeen := None, None;
    }

    method HandBackAll(e: Env)
      modifies this
      ensures backoff == old(backoff)
      ensures Outcome(Abs(), true, log) == HandedBack(old(Abs()), e, old(log))
    {
      if connected || e.paired { log := log + [Send([])]; }
      ReleaseLocal();
      connected := false;
    }

    method PassOnce(e: Env, force: bool) returns (ok: bool)
      modifies this
      ensures backoff == old(backoff)
      ensures Outcome(Abs(), ok, log) == Pass(old(Abs()), e, force, true, old(log))
    {
      if !e.enabled {
        if bound != {} { HandBackAll(e); }
        return true;
      }
      var heartbeat := e.now - lastSync >= HEARTBEAT;
      if !force && !heartbeat && lastSeen == Some(e.plugged) { return true; }
      if !(force || heartbeat || lastOffer != Some(Elements(e.offer))) {
        lastSeen := Some(e.plugged);
        return true;
      }
      ok := Reach(e);
    }

    /** Reach the host before binding anything. */
    method Reach(e: Env) returns (ok: bool)
      modifies this
      ensures backoff == old(backoff)
      ensures Outcome(Abs(), ok, log) == Attempt(old(Abs()), e, old(log))
    {
      if e.offer != [] && !e.daemonUp { return false; }
      var answered := connected || e.paired;
      if answered {
        connected := true;
        if !reachable {
          log := log + [Ping];
          answered := e.ping.Answered?;
          reachable := answered;
        }
      }
      if !answered {
        if bound != {} { ReleaseLocal(); }
        reachable, connected := false, false;
        return false;
      }
      ok := BindAndSend(e);
    }

    method BindAndSend(e: Env) returns (ok: bool)
      modifies this
      ensures backoff == old(backoff)
      ensures Outcome(Abs(), ok, log) == Exchange(old(Abs()), e, old(log))
    {
      var good := BindAll(e.offer, e.bindOk);
      GoodIsUsable(old(bound) + e.bindOk, e.offer);
      assert bound - (bound - Elements(good)) == Elements(good);
      UnbindEach(bound - Elements(good));
      log := log + [Send(good)];
      if e.send.Failed? {
        if LosesHost(e.send.code) {
          reachable, connected := false, false;
          ReleaseLocal();
        }
        return false;
      }
      lastOffer, lastSeen, lastSync := Some(Elements(e.offer)), Some(e.plugged), e.now;
      return true;
    }

    /** A pass, and the back-off after it. */
    method Round(e: Env, poll: real) returns (ok: bool)
      modifies this
      ensures Outcome(Abs(), ok, log) == Pass(old(Abs()), e, false, true, old(log))
      ensures backoff == NextBackoff(poll, old(backoff), ok)
    {
      ok := PassOnce(e, false);
      backoff := if ok then 0.0 else Min(BACKOFF_MAX, Max(poll * 2.0, backoff * 2.0));
    }

    /** The loop of run(): one pass after another, backing off after failures. */
    method RunLoop(es: seq<Env>, poll: real) returns (ghost results: seq<bool>)
      requires Abs() == START && log == [] && backoff == 0.0
      modifies this
      ensures Abs() == Run(START, es, true, []).state && log == Run(START, es, true, []).log
      ensures results == Answers(es) && backoff == Backoff(poll, results)
    {
      results := [];
      for i := 0 to |es|
        invariant Abs() == Run(START, es[..i], true, []).state && log == Run(START, es[..i], true, []).log
        invariant results == Answers(es[..i]) && backoff == Backoff(poll, results)
      {
        RunOneMore(es, i);
        BackoffOneMore(poll, results);
        var ok := Round(es[i], poll);
        results := results + [ok];
      }
      assert es[..|es|] == es;
    }

    /** run(): the loop until it is told to stop, then a hand-back. */
    method RunUntilStopped(es: seq<Env>, stop: Env, poll: real) returns (ghost results: seq<bool>)
      requires Abs() == START && log == [] && backoff == 0.0
      modifies this
      ensures
        var r := Run(START, es, true, []);
        Outcome(Abs(), true, log) == HandedBack(r.state, stop, r.log)
      ensures Sound(log, {}) && bound == {}
      ensures results == Answers(es) && backoff == Backoff(poll, results)
    {
      results := RunLoop(es, poll);
      RunIsSound(es);
      HandBackIsSound(Abs(), stop, log);
      HandBackAll(stop);
    }
  }

  lemma {:induction false} GoodIsUsable(usable: set<BusId>, offer: seq<BusId>)
    ensures Elements(Good(usable, offer)) == Elements(offer) * usable
  {
    if offer != [] {
      var before, b := offer[..|offer| - 1], offer[|offer| - 1];
      GoodIsUsable(usable, before);
      ElementsOfLast(before, b);
      ElementsOfLast(Good(usable, before), b);
      assert offer == before + [b];
      assert Good(usable, before) + [] == Good(usable, before);
    }
  }

  /** One more device in the offer. */
  lemma OneMoreOffered(log: seq<Call>, bound: set<BusId>, before: seq<BusId>, b: BusId, bindOk: set<BusId>)
    ensures Good(bound + bindOk, before + [b])
         == if b in bound + bindOk then Good(bound + bindOk, before) + [b] else Good(bound + bindOk, before)
    ensures bound + Elements(before + [b]) * bindOk
         == if b in bindOk then bound + Elements(before) * bindOk + {b} else bound + Elements(before) * bindOk
    ensures BindLog(log, bound, before + [b], bindOk) ==
      var done := BindLog(log, bound, before, bindOk);
      if b in bound + Elements(before) * bindOk then done else done + [Bind(b, b in bindOk)]
  {
    assert (before + [b])[..|before|] == before;
    ElementsOfLast(before, b);
  }

  lemma ElementsOfLast(s: seq<BusId>, b: BusId)
    ensures Elements(s + [b]) == Elements(s) + {b}
  {
  }

  // ---------------------------------------------------------------------- no hostage devices

  /** What one call does to the devices this watcher has exported. */
  function HeldAfter(held: set<BusId>, c: Call): set<BusId> {
    match c
    case Bind(b, ok) => if ok then held + {b} else held
    case Unbind(ids) => held - ids
    case _ => held
  }

  /** A bind is of something not held, an unbind of things held, a list sent is exactly what is held. */
  predicate Allowed(held: set<BusId>, c: Call) {
    match c
    case Bind(b, _) => b !in held
    case Unbind(ids) => ids <= held
    case Send(list) => Elements(list) == held
    case Ping => true
  }

  /** What a history of calls leaves exported by this watcher. */
  function Held(log: seq<Call>): set<BusId> {
    if log == [] then {} else HeldAfter(Held(log[..|log| - 1]), log[|log| - 1])
  }

  /** Call i hands everything back: the host is sent the empty list, and the very next call releases all
    * that was held until then. */
  ghost predicate HandsBack(log: seq<Call>, i: nat)
    requires i < |log|
  {
    log[i] == Send([]) && i + 1 < |log| && log[i + 1] == Unbind(Held(log[..i]))
  }

  ghost predicate LawfulAt(log: seq<Call>, i: nat)
    requires i < |log|
  {
    Allowed(Held(log[..i]), log[i]) || HandsBack(log, i)
  }

  ghost predicate Lawful(log: seq<Call>) {
    forall i :: 0 <= i < |log| ==> LawfulAt(log, i)
  }

  ghost predicate Sound(log: seq<Call>, held: set<BusId>) {
    Lawful(log) && Held(log) == held
  }

  lemma StillLawful(log: seq<Call>, more: seq<Call>)
    requires Lawful(log)
    ensures forall i :: 0 <= i < |log| ==> LawfulAt(log + more, i)
  {
    forall i | 0 <= i < |log|
      ensures LawfulAt(log + more, i)
    {
      assert LawfulAt(log, i);
      assert (log + more)[..i] == log[..i];
    }
  }

  lemma SoundStep(log: seq<Call>, held: set<BusId>, c: Call)
    requires Sound(log, held) && Allowed(held, c)
    ensures Sound(log + [c], HeldAfter(held, c))
  {
    assert (log + [c])[..|log|] == log;
    StillLawful(log, [c]);
    assert LawfulAt(log + [c], |log|);
  }

  lemma FarewellIsSound(log: seq<Call>, held: set<BusId>)
    requires Sound(log, held)
    ensures Sound(log + [Send([]), Unbind(held)], {})
  {
    var n, all := |log|, log + [Send([]), Unbind(held)];
    StillLawful(log, [Send([]), Unbind(held)]);
    assert all[..n] == log && all[..n + 1] == log + [Send([])] && (log + [Send([])])[..n] == log;
    assert Held(all[..n + 1]) == held;
    assert LawfulAt(all, n) && LawfulAt(all, n + 1);
    assert all[..n + 2] == all;
  }

  lemma {:induction false} BindsAreSound(log: seq<Call>, held: set<BusId>, offer: seq<BusId>, bindOk: set<BusId>)
    requires Sound(log, held)
    ensures Sound(BindLog(log, held, offer, bindOk), held + Elements(offer) * bindOk)
  {
    if offer == [] {
      assert held + Elements(offer) * bindOk == held;
    } else {
      var before, b := offer[..|offer| - 1], offer[|offer| - 1];
      BindsAreSound(log, held, before, bindOk);
      ElementsOfLast(before, b);
      assert offer == before + [b];
      OneMoreBind(BindLog(log, held, before, bindOk), held, Elements(before), b, bindOk);
    }
  }

  lemma OneMoreBind(log: seq<Call>, held: set<BusId>, before: set<BusId>, b: BusId, bindOk: set<BusId>)
    requires Sound(log, held + before * bindOk)
    ensures Sound(if b in held + before * bindOk then log else log + [Bind(b, b in bindOk)],
                  held + (before + {b}) * bindOk)
  {
    var now := held + before * bindOk;
    assert held + (before + {b}) * bindOk == now + {b} * bindOk;
    if b in now {
      assert now + {b} * bindOk == now;
    } else {
      SoundStep(log, now, Bind(b, b in bindOk));
      assert HeldAfter(now, Bind(b, b in bindOk)) == now + {b} * bindOk;
    }
  }

  lemma UnbindsAreSound(log: seq<Call>, held: set<BusId>, ids: set<BusId>)
    requires Sound(log, held) && ids <= held
    ensures Sound(UnbindLog(log, ids), held - ids)
  {
    if ids == {} { assert held - ids == held; } else { SoundStep(log, held, Unbind(ids)); }
  }

  lemma ExchangeIsSound(w: State, e: Env, log: seq<Call>)
    requires Sound(log, w.bound)
    ensures Sound(Exchange(w, e, log).log, Exchange(w, e, log).state.bound)
  {
    var good := Good(w.bound + e.bindOk, e.offer);
    GoodIsUsable(w.bound + e.bindOk, e.offer);
    var all := w.bound + Elements(e.offer) * e.bindOk;
    var gone := all - Elements(good);
    assert all - gone == Elements(good);
    BindsAreSound(log, w.bound, e.offer, e.bindOk);
    var unbound := UnbindLog(BindLog(log, w.bound, e.offer, e.bindOk), gone);
    UnbindsAreSound(BindLog(log, w.bound, e.offer, e.bindOk), all, gone);
    SoundStep(unbound, Elements(good), Send(good));
    UnbindsAreSound(unbound + [Send(good)], Elements(good), Elements(good));
    assert Elements(good) - Elements(good) == {};
  }

  lemma UnansweredIsSound(w: State, log: seq<Call>)
    requires Sound(log, w.bound)
    ensures Sound(Unanswered(w, log).log, Unanswered(w, log).state.bound)
  {
    UnbindsAreSound(log, w.bound, w.bound);
    assert w.bound - w.bound == {};
  }

  lemma AttemptIsSound(w: State, e: Env, log: seq<Call>)
    requires Sound(log, w.bound)
    ensures Sound(Attempt(w, e, log).log, Attempt(w, e, log).state.bound)
  {
    var c := w.(connected := true);
    SoundStep(log, w.bound, Ping);
    if e.offer != [] && !e.daemonUp {
    } else if !w.connected && !e.paired {
      UnansweredIsSound(w, log);
    } else if w.reachable {
      ExchangeIsSound(c, e, log);
    } else if e.ping.Failed? {
      UnansweredIsSound(c, log + [Ping]);
    } else {
      ExchangeIsSound(c.(reachable := true), e, log + [Ping]);
    }
  }

  lemma HandBackIsSound(w: State, e: Env, log: seq<Call>)
    requires Sound(log, w.bound)
    ensures Sound(HandedBack(w, e, log).log, {})
  {
    assert w.bound - w.bound == {};
    if !(w.connected || e.paired) {
      UnbindsAreSound(log, w.bound, w.bound);
    } else if w.bound == {} {
      SoundStep(log, {}, Send([]));
    } else {
      FarewellIsSound(log, w.bound);
      assert log + [Send([])] + [Unbind(w.bound)] == log + [Send([]), Unbind(w.bound)];
    }
  }

  lemma PassIsSound(w: State, e: Env, force: bool, gated: bool, log: seq<Call>)
    requires Sound(log, w.bound)
    ensures Sound(Pass(w, e, force, gated, log).log, Pass(w, e, force, gated, log).state.bound)
  {
    if e.enabled { AttemptIsSound(w, e, log); } else { HandBackIsSound(w, e, log); }
  }

  /** The run loop: one pass after another. */
  function Run(w: State, es: seq<Env>, gated: bool, log: seq<Call>): Outcome {
    if es == [] then Outcome(w, true, log)
    else
      var before := Run(w, es[..|es| - 1], gated, log);
      Pass(before.state, es[|es| - 1], false, gated, before.log)
  }

  /** What the passes of a run answered, one after another. */
  function Answers(es: seq<Env>): (results: seq<bool>)
    ensures |results| == |es|
  {
    if es == [] then [] else Answers(es[..|es| - 1]) + [Run(START, es, true, []).ok]
  }

  lemma RunOneMore(es: seq<Env>, i: nat)
    requires i < |es|
    ensures
      var before, after := Run(START, es[..i], true, []), Run(START, es[..i + 1], true, []);
      && after == Pass(before.state, es[i], false, true, before.log)
      && Answers(es[..i + 1]) == Answers(es[..i]) + [after.ok]
  {
    assert es[..i + 1][..i] == es[..i];
  }

  /** No hostage devices, over every run: each unbind names devices for which the watcher's own bind call
    * answered success and which it has not released since; each list sent is what it holds, or is empty
    * and the next call releases everything held; and stopping leaves it holding nothing. */
  lemma NoHostages(es: seq<Env>, stop: Env)
    ensures
      var r := Run(START, es, true, []);
      && Lawful(r.log) && Held(r.log) == r.state.bound
      && Lawful(HandedBack(r.state, stop, r.log).log) && Held(HandedBack(r.state, stop, r.log).log) == {}
  {
    var r := Run(START, es, true, []);
    RunIsSound(es);
    HandBackIsSound(r.state, stop, r.log);
  }

  lemma {:induction false} RunIsSound(es: seq<Env>)
    ensures Sound(Run(START, es, true, []).log, Run(START, es, true, []).state.bound)
  {
    if es != [] {
      RunIsSound(es[..|es| - 1]);
      var before := Run(START, es[..|es| - 1], true, []);
      PassIsSound(before.state, es[|es| - 1], false, true, before.log);
    }
  }

  /** The devices for which a bind call has ever answered success. */
  function Shared(log: seq<Call>): set<BusId> {
    if log == [] then {}
    else
      var c := log[|log| - 1];
      Shared(log[..|log| - 1]) + if c.Bind? && c.ok then {c.busid} else {}
  }

  /** What is exported after these calls when `before` was exported at first, every unbind works and nobody
    * else changes the exports.  Binding a device that is exported already succeeds and changes nothing. */
  function Exports(before: set<BusId>, log: seq<Call>): set<BusId> {
    if log == [] then before else HeldAfter(Exports(before, log[..|log| - 1]), log[|log| - 1])
  }

  ghost predicate UnbindsOwn(log: seq<Call>) {
    forall i :: 0 <= i < |log| && log[i].Unbind? ==> log[i].ids <= Held(log[..i])
  }

  lemma LawfulUnbindsOwn(log: seq<Call>)
    requires Lawful(log)
    ensures UnbindsOwn(log)
  {
    forall i | 0 <= i < |log| && log[i].Unbind?
      ensures log[i].ids <= Held(log[..i])
    {
      assert LawfulAt(log, i);
    }
  }

  lemma {:induction false} ExportsLedger(before: set<BusId>, log: seq<Call>)
    requires UnbindsOwn(log)
    ensures Held(log) <= Shared(log)
    ensures Exports(before, log) == before - Shared(log) + Held(log)
  {
    if log != [] {
      var n := |log| - 1;
      assert forall i :: 0 <= i < n ==> log[..n][i] == log[i] && log[..n][..i] == log[..i];
      ExportsLedger(before, log[..n]);
    }
  }

  /** "Only unbinds its own" holds of bind calls, not of shares: bind answers success for a device that
    * somebody else exports.  When the watcher has stopped, of what was exported before it exactly the
    * devices it bound with success are gone, and nothing else is exported. */
  lemma ForeignSharesTaken(es: seq<Env>, stop: Env, before: set<BusId>)
    ensures
      var r := Run(START, es, true, []);
      var log := HandedBack(r.state, stop, r.log).log;
      Exports(before, log) == before - Shared(log)
  {
    var r := Run(START, es, true, []);
    var log := HandedBack(r.state, stop, r.log).log;
    NoHostages(es, stop);
    LawfulUnbindsOwn(log);
    ExportsLedger(before, log);
  }

  /** A pass that fails keeps devices only when the local daemon is down or the host answered with
    * some other refusal; a host that cannot be reached or is not paired is left with nothing. */
  lemma FailedPassHoldsNothing(w: State, e: Env, force: bool, log: seq<Call>)
    ensures
      var r := Pass(w, e, force, true, log);
      !r.ok ==>
        || (r.state.bound == {} && !r.state.reachable && !r.state.connected)
        || (e.offer != [] && !e.daemonUp && r.state == w && r.log == log)
        || (e.send.Failed? && !LosesHost(e.send.code) && r.log != [] && r.log[|r.log| - 1].Send?)
  {
  }

  // ------------------------------------------------------------------- when a pass does what

  /** Acting takes a reason: being told to, the heartbeat, or a change both in what is plugged in and in what
    * is offered. */
  lemma ActsIff(w: State, e: Env, force: bool)
    ensures Acts(w, e, force) <==>
      && e.enabled
      && (force || e.now >= w.lastSync + 60.0
          || (w.lastSeen != Some(e.plugged) && w.lastOffer != Some(Elements(e.offer))))
  {
  }

  /** A failed pass is tried again at the next tick, with nothing changed: only success is remembered. */
  lemma FailedPassIsRetried(w: State, e: Env, f: Env, log: seq<Call>)
    requires !Pass(w, e, false, true, log).ok
    requires f.enabled && f.plugged == e.plugged && Elements(f.offer) == Elements(e.offer) && f.now >= e.now
    ensures Acts(Pass(w, e, false, true, log).state, f, false)
  {
  }

  /** The host can be addressed and answers: on the open connection, or to a ping. */
  predicate HostAnswers(w: State, e: Env) {
    (w.connected || e.paired) && (w.reachable || e.ping.Answered?)
  }

  /** An acting pass that reaches everything sends what is offered and could be bound, holds exactly that,
    * and remembers what it has seen and when. */
  lemma ActingPassSends(w: State, e: Env, force: bool, log: seq<Call>)
    requires Acts(w, e, force) && (e.offer == [] || e.daemonUp) && HostAnswers(w, e) && e.send.Answered?
    ensures
      var r := Pass(w, e, force, true, log);
      && r.ok && r.log != [] && r.log[|r.log| - 1].Send?
      && Elements(r.log[|r.log| - 1].list) == r.state.bound == Elements(e.offer) * (w.bound + e.bindOk)
      && r.state == State(r.state.bound, Some(Elements(e.offer)), Some(e.plugged), e.now, true, true)
  {
    GoodIsUsable(w.bound + e.bindOk, e.offer);
  }

  /** A refusal keeps the devices and remembers nothing; losing the host gives them back. */
  lemma RefusedPass(w: State, e: Env, force: bool, log: seq<Call>)
    requires Acts(w, e, force) && (e.offer == [] || e.daemonUp) && HostAnswers(w, e) && e.send.Failed?
    ensures
      var r := Pass(w, e, force, true, log);
      && !r.ok && r.state.lastSync == w.lastSync
      && (LosesHost(e.send.code) ==> r.state == State({}, None, None, w.lastSync, false, false))
      && (!LosesHost(e.send.code) ==>
            r.state == State(Elements(e.offer) * (w.bound + e.bindOk), w.lastOffer, w.lastSeen, w.lastSync, true, true))
  {
    GoodIsUsable(w.bound + e.bindOk, e.offer);
  }

  /** Without an answer the pass lets go of everything and does nothing else. */
  lemma UnansweredPass(w: State, e: Env, force: bool, log: seq<Call>)
    requires Acts(w, e, force) && (e.offer == [] || e.daemonUp) && !HostAnswers(w, e)
    ensures
      var r := Pass(w, e, force, true, log);
      && !r.ok && r.state.bound == {} && !r.state.reachable && !r.state.connected
      && (forall i :: |log| <= i < |r.log| ==> r.log[i] == Ping || r.log[i] == Unbind(w.bound))
  {
  }

  /** With the local daemon down and something to share, nothing happens but a failure. */
  lemma DaemonDownPass(w: State, e: Env, force: bool, log: seq<Call>)
    requires Acts(w, e, force) && e.offer != [] && !e.daemonUp
    ensures Pass(w, e, force, true, log) == Outcome(w, false, log)
  {
  }

  /** A pass with nothing due succeeds, keeps what is held, and calls nobody. */
  lemma IdlePass(w: State, e: Env, force: bool, log: seq<Call>)
    requires e.enabled && !Acts(w, e, force)
    ensures
      var r := Pass(w, e, force, true, log);
      r.ok && r.log == log && r.state == w.(lastSeen := Some(e.plugged))
  {
  }

  /** After a successful sync the watcher is quiet while the same devices are plugged in and offered, until
    * the heartbeat; then it acts again. */
  lemma QuietUntilHeartbeat(w: State, e: Env, force: bool, f: Env, log: seq<Call>)
    requires Acts(w, e, force) && Pass(w, e, force, true, log).ok
    requires f.enabled && f.plugged == e.plugged && Elements(f.offer) == Elements(e.offer)
    ensures Acts(Pass(w, e, force, true, log).state, f, false) <==> f.now - e.now >= 60.0
  {
  }

  /** Turned off, a watcher that holds something hands it all back, and one that does not does nothing. */
  lemma DisabledPass(w: State, e: Env, force: bool, log: seq<Call>)
    requires !e.enabled
    ensures
      var r := Pass(w, e, force, true, log);
      && r.ok && r.state.bound == {}
      && (w.bound == {} ==> r == Outcome(w, true, log))
      && (w.bound != {} ==> r.log == log + (if w.connected || e.paired then [Send([])] else []) + [Unbind(w.bound)]
                            && !r.state.connected && r.state.lastOffer.None? && r.state.lastSeen.None?)
  {
  }

  /** Handing back leaves nothing held, nothing remembered, and no connection. */
  lemma HandBackLetsGo(w: State, e: Env, log: seq<Call>)
    ensures
      var r := HandedBack(w, e, log);
      && r.state == State({}, None, None, w.lastSync, w.reachable, false)
      && (w.connected || e.paired ==> |r.log| > |log| && r.log[|log|] == Send([]))
  {
  }

  /** A bind is tried for each offered device that is not held, and for no other. */
  lemma {:induction false} BindsWhatIsMissing(log: seq<Call>, bound: set<BusId>, offer: seq<BusId>, bindOk: set<BusId>,
                                              b: BusId)
    ensures
      var calls := BindLog(log, bound, offer, bindOk);
      && log <= calls
      && ((exists i :: |log| <= i < |calls| && calls[i] == Bind(b, b in bindOk)) <==> b in offer && b !in bound)
  {
    if offer != [] {
      var before, x := offer[..|offer| - 1], offer[|offer| - 1];
      BindsWhatIsMissing(log, bound, before, bindOk, b);
      BindLogBinds(log, bound, before, bindOk);
      assert offer == before + [x];
      var done, calls := BindLog(log, bound, before, bindOk), BindLog(log, bound, offer, bindOk);
      if x == b && b !in bound && b !in before {
        assert calls[|done|] == Bind(b, b in bindOk);
      }
      assert forall i :: |log| <= i < |done| ==> calls[i] == done[i];
    }
  }

  /** The list sent keeps the order of the offer. */
  lemma {:induction false} GoodOfBoth(usable: set<BusId>, a: seq<BusId>, b: seq<BusId>)
    ensures Good(usable, a + b) == Good(usable, a) + Good(usable, b)
  {
    if b == [] {
      assert a + b == a;
    } else {
      GoodOfBoth(usable, a, b[..|b| - 1]);
      assert (a + b)[..|a + b| - 1] == a + b[..|b| - 1];
    }
  }

  // ------------------------------------------------------------------- the gate is invisible

  /** The cache behind the gate is right: what was last seen is what was last offered. */
  ghost predicate CacheOk(w: State, offerOf: set<BusId> -> set<BusId>) {
    w.lastSeen.Some? ==> w.lastOffer == Some(offerOf(w.lastSeen.value))
  }

  ghost predicate Determined(es: seq<Env>, offerOf: set<BusId> -> set<BusId>) {
    forall e :: e in es ==> Elements(e.offer) == offerOf(e.plugged)
  }

  lemma PassKeepsCache(w: State, e: Env, force: bool, gated: bool, log: seq<Call>, offerOf: set<BusId> -> set<BusId>)
    requires CacheOk(w, offerOf) && Elements(e.offer) == offerOf(e.plugged)
    ensures CacheOk(Pass(w, e, force, gated, log).state, offerOf)
  {
  }

  /** With fixed settings, the watcher that looks before it surveys does, tick by tick, exactly what a
    * watcher that always surveys does: same calls, same state, same answers. */
  lemma {:induction false} GateIsInvisible(es: seq<Env>, offerOf: set<BusId> -> set<BusId>)
    requires Determined(es, offerOf)
    ensures Run(START, es, true, []) == Run(START, es, false, [])
    ensures CacheOk(Run(START, es, true, []).state, offerOf)
  {
    if es != [] {
      var e := es[|es| - 1];
      assert e in es;
      GateIsInvisible(es[..|es| - 1], offerOf);
      var before := Run(START, es[..|es| - 1], true, []);
      PassKeepsCache(before.state, e, false, true, before.log, offerOf);
    }
  }

  /** Where the gate does show: when it closes, the pass equals an ungated one exactly if the offer is
    * still the one last sent.  A settings change with nothing plugged waits for the heartbeat. */
  lemma GateShowsIffOfferChanged(w: State, e: Env, log: seq<Call>)
    requires e.enabled && !HeartbeatDue(w, e) && w.lastSeen == Some(e.plugged)
    ensures Pass(w, e, false, true, log) == Pass(w, e, false, false, log) <==> w.lastOffer == Some(Elements(e.offer))
  {
    var good := Good(w.bound + e.bindOk, e.offer);
    if w.lastOffer != Some(Elements(e.offer)) {
      var r := Attempt(w, e, log);
      assert r.ok ==> |r.log| > |log| by {
        BindLogBinds(log, w.bound, e.offer, e.bindOk);
        BindLogBinds(log + [Ping], w.bound, e.offer, e.bindOk);
      }
    }
  }

  /** Such a closed gate is reached from the start: after the offer shrinks with nothing unplugged, the
    * gated watcher goes on sharing the device, and an ungated one would have let it go. */
  lemma GateShowsInARun(b: BusId, first: Env, later: Env)
    requires first == Env(true, true, {b}, [b], 100.0, true, Answered, {b}, Answered)
    requires later == first.(offer := [], now := 101.0)
    ensures Run(START, [first, later], true, []).state.bound == {b}
    ensures Run(START, [first, later], false, []).state.bound == {}
  {
    FirstPass(b, first, true);
    FirstPass(b, first, false);
    assert [first, later][..1] == [first];
    var w := Run(START, [first], false, []).state;
    assert Good(w.bound + later.bindOk, []) == [] && w.bound + Elements<BusId>([]) * later.bindOk - {} == {b};
  }

  /** The first pass of a watcher to which b is offered. */
  lemma FirstPass(b: BusId, e: Env, gated: bool)
    requires e == Env(true, true, {b}, [b], e.now, true, Answered, {b}, Answered) && e.now >= HEARTBEAT
    ensures Run(START, [e], gated, [])
         == Outcome(State({b}, Some({b}), Some({b}), e.now, true, true), true, [Ping, Bind(b, true), Send([b])])
  {
    assert [e][..0] == [] && Run(START, [], gated, []) == Outcome(START, true, []);
    assert [] + [Ping] == [Ping];
    var asked := START.(connected := true, reachable := true);
    assert Run(START, [e], gated, []) == Pass(START, e, false, gated, []) == Exchange(asked, e, [Ping]);
    ExchangeOfOne(asked, b, e, [Ping]);
    assert [Ping] + [Bind(b, true), Send([b])] == [Ping, Bind(b, true), Send([b])];
  }

  /** A watcher that holds nothing binds and sends the one device it is offered. */
  lemma ExchangeOfOne(w: State, b: BusId, e: Env, log: seq<Call>)
    requires w.bound == {} && e == Env(true, true, {b}, [b], e.now, true, Answered, {b}, Answered)
    ensures Exchange(w, e, log)
         == Outcome(State({b}, Some({b}), Some({b}), e.now, w.reachable, w.connected), true,
                    log + [Bind(b, true), Send([b])])
  {
    OneDevice(b, {b}, log);
    assert Elements([b]) == {b} && {} + {b} * {b} - {b} == {};
    assert log + [Bind(b, true)] + [Send([b])] == log + [Bind(b, true), Send([b])];
  }

  lemma OneDevice(b: BusId, bindOk: set<BusId>, log: seq<Call>)
    requires b in bindOk
    ensures BindLog(log, {}, [b], bindOk) == log + [Bind(b, true)] && Good({} + bindOk, [b]) == [b]
  {
    assert [b][..0] == [] && Elements<BusId>([]) == {};
    assert BindLog(log, {}, [], bindOk) == log && Good({} + bindOk, []) == [];
  }

  // ------------------------------------------------------------------------- knocking first

  /** `reachable` is meant to say that the host has answered on the open connection.  Every pass keeps
    * that true except one: handing back while reachable drops the connection and not the mark. */
  lemma ReachableMeansConnected(w: State, e: Env, force: bool, log: seq<Call>)
    requires w.reachable ==> w.connected
    ensures
      var r := Pass(w, e, force, true, log).state;
      (r.reachable ==> r.connected) <==> e.enabled || w.bound == {} || !w.reachable
  {
  }

  /** The pass surveys and finds something due. */
  predicate Acts(w: State, e: Env, force: bool) {
    && e.enabled
    && (force || HeartbeatDue(w, e) || w.lastSeen != Some(e.plugged))
    && (force || HeartbeatDue(w, e) || w.lastOffer != Some(Elements(e.offer)))
  }

  /** Call i of a pass that began after `log` is a bind, and the host neither was known to answer on an
    * open connection nor has answered a ping in this pass. */
  ghost predicate BindsUnasked(w: State, e: Env, log: seq<Call>, r: Outcome, i: int)
    requires |log| <= i < |r.log|
  {
    && r.log[i].Bind?
    && !(w.reachable && w.connected)
    && !(e.ping.Answered? && exists j :: |log| <= j < i && r.log[j].Ping?)
  }

  /** Binding appends binds only, and at least one exactly when something offered is not held. */
  lemma {:induction false} BindLogBinds(log: seq<Call>, bound: set<BusId>, offer: seq<BusId>, bindOk: set<BusId>)
    ensures log <= BindLog(log, bound, offer, bindOk)
    ensures
      var r := BindLog(log, bound, offer, bindOk);
      forall i :: |log| <= i < |r| ==> r[i].Bind?
    ensures BindLog(log, bound, offer, bindOk) == log <==> Elements(offer) <= bound
  {
    if offer != [] {
      var before, b := offer[..|offer| - 1], offer[|offer| - 1];
      BindLogBinds(log, bound, before, bindOk);
      ElementsOfLast(before, b);
      assert offer == before + [b];
    }
  }

  /** The calls of an exchange: binds first, then no more. */
  lemma ExchangeCalls(w: State, e: Env, log: seq<Call>)
    ensures
      var r := Exchange(w, e, log).log;
      && log <= r
      && (Elements(e.offer) <= w.bound ==> forall i :: |log| <= i < |r| ==> !r[i].Bind?)
      && (!(Elements(e.offer) <= w.bound) ==> |log| < |r| && r[|log|].Bind?)
      && forall i :: |log| <= i < |r| ==> !r[i].Ping?
  {
    BindLogBinds(log, w.bound, e.offer, e.bindOk);
  }

  /** Reach the host before binding anything: exactly when a pass does not.  It acts on a mark left
    * over from a connection that is gone, with a host it can address and something new to bind. */
  lemma BindsUnaskedIff(w: State, e: Env, force: bool, log: seq<Call>)
    ensures
      var r := Pass(w, e, force, true, log);
      (exists i :: |log| <= i < |r.log| && BindsUnasked(w, e, log, r, i))
      <==> w.reachable && !w.connected && Acts(w, e, force) && e.paired && e.daemonUp && !(Elements(e.offer) <= w.bound)
  {
    var r := Pass(w, e, force, true, log);
    if !Acts(w, e, force) {
      NoBindWithoutActing(w, e, force, log);
    } else {
      assert r == Attempt(w, e, log);
      AttemptBindsUnasked(w, e, log);
    }
  }

  lemma NoBindWithoutActing(w: State, e: Env, force: bool, log: seq<Call>)
    requires !Acts(w, e, force)
    ensures
      var r := Pass(w, e, force, true, log);
      log <= r.log && forall i :: |log| <= i < |r.log| ==> !r.log[i].Bind?
  {
  }

  lemma AttemptBindsUnasked(w: State, e: Env, log: seq<Call>)
    ensures
      var r := Attempt(w, e, log);
      (exists i :: |log| <= i < |r.log| && BindsUnasked(w, e, log, r, i))
      <==> w.reachable && !w.connected && e.paired && e.daemonUp && !(Elements(e.offer) <= w.bound)
  {
    var r, c := Attempt(w, e, log), w.(connected := true);
    if e.offer != [] && !e.daemonUp {
    } else if !w.connected && !e.paired {
    } else if w.reachable {
      ExchangeCalls(c, e, log);
      if !w.connected && !(Elements(e.offer) <= w.bound) {
        assert e.offer != [];
        assert BindsUnasked(w, e, log, r, |log|);
      }
    } else if e.ping.Answered? {
      ExchangeCalls(c.(reachable := true), e, log + [Ping]);
      assert r.log[|log|] == (log + [Ping])[|log|] == Ping;
    }
  }

  /** Whenever the mark is right, every bind follows the pass's own answered ping, or the host was known
    * to answer on the open connection. */
  lemma KnocksBeforeBinding(w: State, e: Env, force: bool, log: seq<Call>, i: nat)
    requires w.reachable ==> w.connected
    requires |log| <= i < |Pass(w, e, force, true, log).log| && Pass(w, e, force, true, log).log[i].Bind?
    ensures (w.reachable && w.connected)
         || (e.ping.Answered? && exists j :: |log| <= j < i && Pass(w, e, force, true, log).log[j].Ping?)
  {
    BindsUnaskedIff(w, e, force, log);
    assert !BindsUnasked(w, e, log, Pass(w, e, force, true, log), i);
  }

  /** While auto-share is never turned off, the mark is right after every run, so every pass knocks. */
  lemma {:induction false} MarkIsRightWhileEnabled(es: seq<Env>)
    requires forall e :: e in es ==> e.enabled
    ensures Run(START, es, true, []).state.reachable ==> Run(START, es, true, []).state.connected
  {
    if es != [] {
      MarkIsRightWhileEnabled(es[..|es| - 1]);
      var before, e := Run(START, es[..|es| - 1], true, []), es[|es| - 1];
      assert e in es;
      ReachableMeansConnected(before.state, e, false, before.log);
    }
  }

  /** Sharing b and then turning auto-share off leaves the mark without its connection. */
  lemma SharedThenOff(b: BusId, on: Env)
    requires on == Env(true, true, {b}, [b], 100.0, true, Answered, {b}, Answered)
    ensures Run(START, [on, on.(enabled := false)], true, [])
         == Outcome(State({}, None, None, 100.0, true, false), true,
                    [Ping, Bind(b, true), Send([b]), Send([]), Unbind({b})])
  {
    var off := on.(enabled := false);
    FirstPass(b, on, true);
    assert [on, off][..1] == [on];
    assert [Ping, Bind(b, true), Send([b])] + [Send([])] + [Unbind({b})]
        == [Ping, Bind(b, true), Send([b]), Send([]), Unbind({b})];
  }

  /** The failing state is reached from the start: share, turn auto-share off, turn it on again.  The
    * second bind has no ping of its own. */
  lemma FirstBindAfterHandBackDoesNotKnock(b: BusId, on: Env, log: seq<Call>)
    requires on == Env(true, true, {b}, [b], 100.0, true, Answered, {b}, Answered)
    requires log == [Ping, Bind(b, true), Send([b]), Send([]), Unbind({b})]
    ensures Run(START, [on, on.(enabled := false), on], true, []).log == log + [Bind(b, true), Send([b])]
  {
    var es := [on, on.(enabled := false), on];
    SharedThenOff(b, on);
    assert es[..2] == [on, on.(enabled := false)];
    var w := State({}, None, None, 100.0, true, false);
    assert Run(START, es, true, []) == Pass(w, on, false, true, log) == Exchange(w.(connected := true), on, log);
    ExchangeOfOne(w.(connected := true), b, on, log);
  }

  // -------------------------------------------------------------------------------- back-off

  const BACKOFF_MAX := 30.0

  function Min(x: real, y: real): real { if x < y then x else y }
  function Max(x: real, y: real): real { if x < y then y else x }

  function NextBackoff(poll: real, backoff: real, ok: bool): real {
    if ok then 0.0 else Min(BACKOFF_MAX, Max(poll * 2.0, backoff * 2.0))
  }

  function Backoff(poll: real, results: seq<bool>): real {
    if results == [] then 0.0
    else NextBackoff(poll, Backoff(poll, results[..|results| - 1]), results[|results| - 1])
  }

  lemma BackoffOneMore(poll: real, results: seq<bool>)
    ensures forall ok :: Backoff(poll, results + [ok]) == NextBackoff(poll, Backoff(poll, results), ok)
  {
    forall ok
      ensures Backoff(poll, results + [ok]) == NextBackoff(poll, Backoff(poll, results), ok)
    {
      assert (results + [ok])[..|results|] == results;
    }
  }

  function Doubled(x: real, k: nat): real {
    if k == 0 then x else 2.0 * Doubled(x, k - 1)
  }

  /** For any poll interval the back-off stays within 30 seconds and never shrinks while passes fail. */
  lemma {:induction false} BackoffIsBounded(poll: real, results: seq<bool>)
    ensures 0.0 <= Backoff(poll, results) <= 30.0
    ensures Backoff(poll, results + [false]) >= Backoff(poll, results)
  {
    if results != [] { BackoffIsBounded(poll, results[..|results| - 1]); }
    assert (results + [false])[..|results|] == results;
  }

  /** After k failures in a row it is poll doubled k times, up to the limit. */
  lemma {:induction false} BackoffDoubles(poll: real, before: seq<bool>, k: nat)
    requires poll > 0.0 && k > 0
    ensures Doubled(poll, k) >= 2.0 * poll
    ensures Backoff(poll, before + [true] + seq(k, _ => false)) == Min(30.0, Doubled(poll, k))
  {
    var rs := before + [true] + seq(k, _ => false);
    assert rs[..|rs| - 1] == before + [true] + seq(k - 1, _ => false);
    if k == 1 {
      assert rs[..|rs| - 1] == before + [true];
      assert (before + [true])[..|before|] == before;
      assert Doubled(poll, 1) == 2.0 * Doubled(poll, 0);
    } else {
      BackoffDoubles(poll, before, k - 1);
      OneMoreDoubling(poll, Doubled(poll, k - 1));
    }
  }

  lemma OneMoreDoubling(poll: real, x: real)
    requires x >= poll > 0.0
    ensures NextBackoff(poll, Min(BACKOFF_MAX, x), false) == Min(BACKOFF_MAX, 2.0 * x)
  {
  }
}
