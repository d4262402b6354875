/** The host agent: opSync and the janitor over the shared `seen` counters.
  *
  * The janitor's tick is not one critical section.  It holds the agent's lock only while it forgets
  * absent servers, while it records one probe, and while it forgets a server it has detached; syncs
  * may be recorded in between.  Servers are the strings the port table shows.
  */
module Agent {
  import opened UsbipTool

  const GIVE_UP: nat := 3   // consecutive failed probes

  // ------------------------------------------------------------------------- the counters

  function Count(seen: map<Host, nat>, s: Host): nat {
    if s in seen then seen[s] else 0
  }

  /** Where the janitor is: waiting, probing the servers left in this tick, or detaching one. */
  datatype Janitor = Waiting | Probing(rest: set<Host>) | Detaching(server: Host, rest: set<Host>)

  datatype State = State(seen: map<Host, nat>, janitor: Janitor)

  datatype Event =
    | Tick(servers: set<Host>)            // the port table is listed, absent servers are forgotten
    | Probed(server: Host, answered: bool)
    | Detached(server: Host)              // DetachAll has returned, the counter is dropped
    | Finished
    | SyncRecorded(server: Host)

  const START := State(map[], Waiting)

  predicate Enabled(s: State, e: Event) {
    match e
    case Tick(_) => s.janitor.Waiting?
    case Probed(h, _) => s.janitor.Probing? && h in s.janitor.rest
    case Detached(h) => s.janitor.Detaching? && s.janitor.server == h
    case Finished => s.janitor.Probing? && s.janitor.rest == {}
    case SyncRecorded(_) => true
  }

  function Present(seen: map<Host, nat>, servers: set<Host>): map<Host, nat> {
    map h | h in seen && h in servers :: seen[h]
  }

  function Next(s: State, e: Event): State
    requires Enabled(s, e)
  {
    match e
    case Tick(servers) => State(Present(s.seen, servers), Probing(servers))
    case Probed(h, answered) =>
      var rest := s.janitor.rest - {h};
      if answered then State(s.seen[h := 0], Probing(rest))
      else
        var n := Count(s.seen, h) + 1;
        State(s.seen[h := n], if n < GIVE_UP then Probing(rest) else Detaching(h, rest))
    case Detached(h) => State(s.seen - {h}, Probing(s.janitor.rest))
    case Finished => s.(janitor := Waiting)
    case SyncRecorded(h) => s.(seen := s.seen[h := 0])
  }

  ghost predicate IsRun(es: seq<Event>)
    decreases |es|, 0
  {
    es == [] || (IsRun(es[..|es| - 1]) && Enabled(After(es[..|es| - 1]), es[|es| - 1]))
  }

  ghost function After(es: seq<Event>): State
    requires IsRun(es)
    decreases |es|, 1
  {
    if es == [] then START else Next(After(es[..|es| - 1]), es[|es| - 1])
  }

  /** The event shows h alive, synced, absent from the port table, or detached. */
  predicate Resets(e: Event, h: Host) {
    match e
    case Tick(servers) => h !in servers
    case Probed(g, answered) => g == h && answered
    case Detached(g) => g == h
    case Finished => false
    case SyncRecorded(g) => g == h
  }

  /** Failed probes of h since the last event that resets it. */
  function Streak(es: seq<Event>, h: Host): nat {
    if es == [] then 0
    else
      var before, e := es[..|es| - 1], es[|es| - 1];
      if Resets(e, h) then 0 else Streak(before, h) + if e == Probed(h, false) then 1 else 0
  }

  /** The counters are the streaks.  They stay below three, except for the server being detached. */
  lemma {:induction false} CountersAreStreaks(es: seq<Event>)
    requires IsRun(es)
    ensures
      var s := After(es);
      && (forall h :: Count(s.seen, h) == Streak(es, h))
      && (forall h ::
            Streak(es, h) < GIVE_UP || (s.janitor.Detaching? && s.janitor.server == h && Streak(es, h) == GIVE_UP))
  {
    if es != [] {
      CountersAreStreaks(es[..|es| - 1]);
    }
  }

  /** The event e, after the run es, makes the janitor start detaching h. */
  ghost predicate Decides(es: seq<Event>, e: Event, h: Host)
    requires IsRun(es + [e]) && IsRun(es)
  {
    After(es).janitor.Probing? && After(es + [e]).janitor.Detaching? && After(es + [e]).janitor.server == h
  }

  /** In a run, detaching is decided at the third failed probe of a streak. */
  lemma DecidesAtThree(es: seq<Event>, e: Event, h: Host)
    requires IsRun(es) && IsRun(es + [e])
    ensures Decides(es, e, h) <==> e == Probed(h, false) && Streak(es, h) == GIVE_UP - 1
  {
    assert (es + [e])[..|es|] == es;
    CountersAreStreaks(es);
  }

  /** A probe of h failed at i, and nothing has shown h alive, synced, absent or detached since. */
  ghost predicate FailedSince(es: seq<Event>, h: Host, i: int)
    requires 0 <= i < |es|
  {
    es[i] == Probed(h, false) && forall m :: i < m < |es| ==> !Resets(es[m], h)
  }

  /** Two such failures. */
  ghost predicate FailedTwice(es: seq<Event>, h: Host, i: int, j: int)
    requires 0 <= i < j < |es|
  {
    FailedSince(es, h, i) && FailedSince(es, h, j)
  }

  lemma FailedSinceStep(es: seq<Event>, e: Event, h: Host, i: int)
    requires 0 <= i < |es|
    ensures FailedSince(es + [e], h, i) <==> FailedSince(es, h, i) && !Resets(e, h)
  {
    var all := es + [e];
    assert all[|es|] == e && all[i] == es[i];
    assert forall m :: i < m < |es| ==> all[m] == es[m];
  }

  lemma {:induction false} StreakOfOne(es: seq<Event>, h: Host)
    ensures Streak(es, h) >= 1 <==> exists j :: 0 <= j < |es| && FailedSince(es, h, j)
  {
    if es != [] {
      var n := |es| - 1;
      var before, e := es[..n], es[n];
      StreakOfOne(before, h);
      assert es == before + [e];
      forall i | 0 <= i < n
        ensures FailedSince(es, h, i) <==> FailedSince(before, h, i) && !Resets(e, h)
      {
        FailedSinceStep(before, e, h, i);
      }
      assert FailedSince(es, h, n) <==> e == Probed(h, false);
    }
  }

  lemma {:induction false} StreakOfTwo(es: seq<Event>, h: Host)
    ensures Streak(es, h) >= 2 <==> exists i, j :: 0 <= i < j < |es| && FailedTwice(es, h, i, j)
  {
    if es != [] {
      var n := |es| - 1;
      var before, e := es[..n], es[n];
      StreakOfOne(before, h);
      StreakOfTwo(before, h);
      assert es == before + [e];
      forall i | 0 <= i < n
        ensures FailedSince(es, h, i) <==> FailedSince(before, h, i) && !Resets(e, h)
      {
        FailedSinceStep(before, e, h, i);
      }
      assert forall i, j :: 0 <= i < j < n ==>
        (FailedTwice(es, h, i, j) <==> FailedTwice(before, h, i, j) && !Resets(e, h));
      assert forall i :: 0 <= i < n ==>
        (FailedTwice(es, h, i, n) <==> FailedSince(before, h, i) && e == Probed(h, false));
    }
  }

  /** Patience, told without a counter: in any interleaving the janitor decides to detach a server exactly
    * when a probe of it fails that two failed probes precede, and nothing since the first of them showed
    * the server alive, synced, absent or detached. */
  lemma JanitorIsPatient(es: seq<Event>, e: Event, h: Host)
    requires IsRun(es) && IsRun(es + [e])
    ensures Decides(es, e, h) <==>
      e == Probed(h, false) && exists i, j :: 0 <= i < j < |es| && FailedTwice(es, h, i, j)
  {
    DecidesAtThree(es, e, h);
    CountersAreStreaks(es);
    StreakOfTwo(es, h);
    assert (es + [e])[..|es|] == es;
  }

  /** Between ticks every counter is 0, 1 or 2. */
  lemma CountersBetweenTicks(es: seq<Event>, h: Host)
    requires IsRun(es) && After(es).janitor.Waiting?
    ensures h in After(es).seen ==> After(es).seen[h] <= 2
  {
    CountersAreStreaks(es);
    assert Count(After(es).seen, h) == Streak(es, h);
  }

  /** A recorded sync buys three more failed probes, however close the janitor was. */
  lemma SyncBuysTime(es: seq<Event>, h: Host)
    requires IsRun(es)
    ensures IsRun(es + [SyncRecorded(h)]) && Streak(es + [SyncRecorded(h)], h) == 0
  {
    assert (es + [SyncRecorded(h)])[..|es|] == es;
  }

  /** A probe that is answered, a sync, absence from the port table and a finished detach each clear the
    * counter, which is then worth nothing; a failed probe adds one; nothing else moves it. */
  lemma WhatMovesACounter(es: seq<Event>, e: Event, h: Host)
    requires IsRun(es + [e]) && IsRun(es)
    ensures
      var before, after := Count(After(es).seen, h), Count(After(es + [e]).seen, h);
      var cleared := e == Probed(h, true) || e == SyncRecorded(h) || e == Detached(h) || (e.Tick? && h !in e.servers);
      after == if cleared then 0 else if e == Probed(h, false) then before + 1 else before
  {
    assert (es + [e])[..|es|] == es;
  }

  /** The counters after a whole undisturbed tick: a server that answered has zero, one that did not has one
    * more, and one that reached the limit is detached and forgotten, as are servers not listed. */
  function AfterTick(seen: map<Host, nat>, servers: set<Host>, alive: set<Host>): map<Host, nat> {
    map h | h in servers && (h in alive || Count(seen, h) + 1 < GIVE_UP) ::
      if h in alive then 0 else Count(seen, h) + 1
  }

  /** The servers such a tick gives up. */
  function GivenUp(seen: map<Host, nat>, servers: set<Host>, alive: set<Host>): set<Host> {
    set h | h in servers && h !in alive && Count(seen, h) + 1 >= GIVE_UP
  }

  /** In the middle of a tick: `rest` are still to be probed. */
  function DuringTick(seen: map<Host, nat>, servers: set<Host>, rest: set<Host>, alive: set<Host>): map<Host, nat> {
    map h | h in servers && (if h in rest then h in seen else h in alive || Count(seen, h) + 1 < GIVE_UP) ::
      if h in rest then seen[h] else if h in alive then 0 else Count(seen, h) + 1
  }

  lemma OneMoreProbe(seen: map<Host, nat>, servers: set<Host>, rest: set<Host>, alive: set<Host>, h: Host)
    requires h in rest && rest <= servers
    ensures
      var now, n := DuringTick(seen, servers, rest, alive), Count(seen, h) + 1;
      && Count(now, h) == Count(seen, h)
      && DuringTick(seen, servers, rest - {h}, alive)
         == (if h in alive then now[h := 0] else if n < GIVE_UP then now[h := n] else now - {h})
    ensures GivenUp(seen, servers - (rest - {h}), alive)
         == GivenUp(seen, servers - rest, alive)
            + (if h !in alive && Count(seen, h) + 1 >= GIVE_UP then {h} else {})
  {
  }

  /** The port table after the devices of several servers are detached. */
  function PurgedAll(t: Table, servers: set<Host>, detachOk: set<BusId>): Table {
    map p | p in t && !(t[p].busid in detachOk && exists h :: h in servers && p in Chosen(t, h)) :: t[p]
  }

  lemma OneMorePurge(t: Table, servers: set<Host>, h: Host, detachOk: set<BusId>)
    ensures Purged(PurgedAll(t, servers, detachOk), h, detachOk) == PurgedAll(t, servers + {h}, detachOk)
  {
  }

  lemma NoProbesYet(seen: map<Host, nat>, t: Table, servers: set<Host>, alive: set<Host>, detachOk: set<BusId>)
    ensures DuringTick(seen, servers, servers, alive) == Present(seen, servers)
    ensures PurgedAll(t, GivenUp(seen, servers - servers, alive), detachOk) == t
  {
  }

  lemma AllProbed(seen: map<Host, nat>, t: Table, servers: set<Host>, alive: set<Host>, detachOk: set<BusId>)
    ensures DuringTick(seen, servers, {}, alive) == AfterTick(seen, servers, alive)
    ensures servers - {} == servers
    ensures servers <= alive ==> PurgedAll(t, GivenUp(seen, servers, alive), detachOk) == t
  {
  }

  /** Every probe in these events got the answer its server gives. */
  ghost predicate Honest(events: seq<Event>, alive: set<Host>) {
    forall i :: 0 <= i < |events| && events[i].Probed? ==> (events[i].answered <==> events[i].server in alive)
  }

  /** Each of these servers has been asked. */
  ghost predicate Asked(events: seq<Event>, servers: set<Host>, alive: set<Host>) {
    forall h :: h in servers ==> Probed(h, h in alive) in events
  }

  lemma OneMoreAsked(before: seq<Event>, events: seq<Event>, servers: set<Host>, rest: set<Host>,
                     alive: set<Host>, h: Host)
    requires Asked(before, servers - rest, alive) && before <= events && Probed(h, h in alive) in events
    ensures Asked(events, servers - (rest - {h}), alive)
  {
    forall g | g in servers - (rest - {h})
      ensures Probed(g, g in alive) in events
    {
      if g != h { assert Probed(g, g in alive) in before; }
    }
  }

  // ------------------------------------------------------------------------- the agent itself

  datatype Client = Usable | NotInstalled | NeedsReboot
  datatype Response = Ok(result: Result) | Refused(client: Client)

  class HostAgent {
    const tool: Tool
    var seen: map<Host, nat>
    ghost var janitor: Janitor   // where the janitor's goroutine is

    ghost function Abs(): State
      reads this
    {
      State(seen, janitor)
    }

    constructor (tool: Tool)
      ensures this.tool == tool && Abs() == START
    {
      this.tool, seen, janitor := tool, map[], Waiting;
    }

    /** The start of a tick: servers without devices lose their counters. */
    method ForgetAbsent(servers: set<Host>)
      requires Enabled(Abs(), Tick(servers))
      modifies this`seen, this`janitor
      ensures Abs() == Next(old(Abs()), Tick(servers))
    {
      var keys := seen.Keys;
      while keys != {}
        invariant keys <= old(seen).Keys
        invariant seen == map h | h in old(seen) && (h in keys || h in servers) :: old(seen)[h]
      {
        var h :| h in keys;
        if h !in servers { seen := seen - {h}; }
        keys := keys - {h};
      }
      janitor := Probing(servers);
    }

    /** One probe.  The janitor goes on to detach when this answers true. */
    method RecordProbe(h: Host, answered: bool) returns (giveUp: bool)
      requires Enabled(Abs(), Probed(h, answered))
      modifies this`seen, this`janitor
      ensures Abs() == Next(old(Abs()), Probed(h, answered))
      ensures giveUp <==> janitor.Detaching?
    {
      ghost var rest := janitor.rest - {h};
      janitor := Probing(rest);
      if answered {
        seen := seen[h := 0];
        return false;
      }
      var n := (if h in seen then seen[h] else 0) + 1;
      seen := seen[h := n];
      if n < GIVE_UP { return false; }
      janitor := Detaching(h, rest);
      return true;
    }

    method DetachDeadServer(h: Host, detachOk: set<BusId>)
      requires Enabled(Abs(), Detached(h))
      modifies this`seen, this`janitor, tool
      ensures tool.table == Purged(old(tool.table), h, detachOk)
      ensures Abs() == Next(old(Abs()), Detached(h))
    {
      var _ := tool.DetachAll(h, detachOk);
      seen := seen - {h};
      janitor := Probing(janitor.rest);
    }

    /** opSync: the counter of the server is reset by a sync that ran, and only by that, wherever the
      * janitor is. */
    method OpSync(peer: Host, override: Host, devices: seq<BusId>, client: Client, env: Env) returns (r: Response)
      requires Unique(tool.table) && peer != ""
      modifies this`seen, tool
      ensures Unique(tool.table)
      ensures client.Usable? ==>
        var server := if override != "" then override else peer;
        && Content(tool.table) == Synced(old(Content(tool.table)), server, Wanted(devices), env.attachOk, env.detachOk)
        && Abs() == Next(old(Abs()), SyncRecorded(server)) && r.Ok?
      ensures client.Usable? ==>
        var server := if override != "" then override else peer;
        var have, want := BusIds(old(Content(tool.table)), server), Wanted(devices);
        && r.result.attached == (want - have) * env.attachOk
        && r.result.detached == (have - want) * env.detachOk
        && r.result.failed == (want - have - env.attachOk) + (have - want - env.detachOk)
      ensures !client.Usable? ==> tool.table == old(tool.table) && Abs() == old(Abs())
      ensures !client.Usable? && r.Ok? ==> r.result == Result({}, {}, {})
      ensures r.Refused? ==> r.client == client
      ensures r.Refused? <==> client.NeedsReboot? || (client.NotInstalled? && devices != [])
    {
      if !client.Usable? {
        if devices == [] && client.NotInstalled? { return Ok(Result({}, {}, {})); }
        return Refused(client);
      }
      var server := if override != "" then override else peer;
      var res := tool.Sync(server, devices, env);
      seen := seen[server := 0];
      return Ok(res);
    }

    /** A whole tick of the janitor, undisturbed: each listed server is probed once, in any order, and
      * detached on the spot when that was its third failed probe in a row. */
    method JanitorTick(servers: set<Host>, alive: set<Host>, detachOk: set<BusId>, ghost past: seq<Event>)
        returns (ghost events: seq<Event>)
      requires IsRun(past) && After(past) == Abs() && janitor.Waiting?
      modifies this`seen, this`janitor, tool
      ensures IsRun(past + events) && After(past + events) == Abs() && janitor.Waiting?
      ensures Honest(events, alive) && Asked(events, servers, alive)
      ensures seen == AfterTick(old(seen), servers, alive)
      ensures tool.table == PurgedAll(old(tool.table), GivenUp(old(seen), servers, alive), detachOk)
      ensures servers <= alive ==> tool.table == old(tool.table)
    {
      ghost var s0, t0 := seen, tool.table;
      events := BeginTick(servers, alive, detachOk, past);
      var rest := servers;
      while rest != {}
        invariant Ticking(s0, t0, servers, rest, alive, detachOk, past, events)
      {
        var h :| h in rest;
        events := Turn(h, s0, t0, servers, rest, alive, detachOk, past, events);
        rest := rest - {h};
      }
      AllProbed(s0, t0, servers, alive, detachOk);
      events := EndTick(past, events);
    }

    method BeginTick(servers: set<Host>, ghost alive: set<Host>, ghost detachOk: set<BusId>, ghost past: seq<Event>)
        returns (ghost events: seq<Event>)
      requires IsRun(past) && After(past) == Abs() && janitor.Waiting?
      modifies this`seen, this`janitor
      ensures Ticking(old(seen), tool.table, servers, servers, alive, detachOk, past, events)
    {
      assert past + [] == past;
      OneMoreEvent(past, [], Tick(servers));
      events := [] + [Tick(servers)];
      NoProbesYet(seen, tool.table, servers, alive, detachOk);
      ForgetAbsent(servers);
    }

    ghost method EndTick(past: seq<Event>, before: seq<Event>) returns (events: seq<Event>)
      requires IsRun(past + before) && After(past + before) == Abs() && janitor == Probing({})
      modifies this`janitor
      ensures IsRun(past + events) && After(past + events) == Abs() && janitor.Waiting?
      ensures events == before + [Finished]
    {
      OneMoreEvent(past, before, Finished);
      events := before + [Finished];
      janitor := Waiting;
    }

    /** Where a tick stands with `rest` still to be probed. */
    ghost predicate Ticking(s0: map<Host, nat>, t0: Table, servers: set<Host>, rest: set<Host>, alive: set<Host>,
                            detachOk: set<BusId>, past: seq<Event>, events: seq<Event>)
      reads this, tool
    {
      && rest <= servers && janitor == Probing(rest)
      && IsRun(past + events) && After(past + events) == Abs()
      && Honest(events, alive) && Asked(events, servers - rest, alive)
      && seen == DuringTick(s0, servers, rest, alive)
      && tool.table == PurgedAll(t0, GivenUp(s0, servers - rest, alive), detachOk)
    }

    method Turn(h: Host, ghost s0: map<Host, nat>, ghost t0: Table, ghost servers: set<Host>, ghost rest: set<Host>,
                alive: set<Host>, detachOk: set<BusId>, ghost past: seq<Event>, ghost before: seq<Event>)
        returns (ghost events: seq<Event>)
      requires h in rest && Ticking(s0, t0, servers, rest, alive, detachOk, past, before)
      modifies this`seen, this`janitor, tool
      ensures Ticking(s0, t0, servers, rest - {h}, alive, detachOk, past, events)
    {
      OneMoreProbe(s0, servers, rest, alive, h);
      OneMorePurge(t0, GivenUp(s0, servers - rest, alive), h, detachOk);
      assert GivenUp(s0, servers - rest, alive) + {} == GivenUp(s0, servers - rest, alive);
      events := ProbeServer(h, h in alive, detachOk, past, before);
      assert events[|before|] == Probed(h, h in alive);
      OneMoreAsked(before, events, servers, rest, alive, h);
    }

    /** One server's turn. */
    method ProbeServer(h: Host, answered: bool, detachOk: set<BusId>, ghost past: seq<Event>, ghost before: seq<Event>)
        returns (ghost events: seq<Event>)
      requires IsRun(past + before) && After(past + before) == Abs()
      requires janitor.Probing? && h in janitor.rest
      modifies this`seen, this`janitor, tool
      ensures IsRun(past + events) && After(past + events) == Abs() && janitor == Probing(old(janitor.rest) - {h})
      ensures
        var n := Count(old(seen), h) + 1;
        && seen == (if answered then old(seen)[h := 0] else if n < GIVE_UP then old(seen)[h := n] else old(seen) - {h})
        && tool.table == (if !answered && n >= GIVE_UP then Purged(old(tool.table), h, detachOk) else old(tool.table))
        && events == before + [Probed(h, answered)] + (if !answered && n >= GIVE_UP then [Detached(h)] else [])
    {
      OneMoreEvent(past, before, Probed(h, answered));
      events := before + [Probed(h, answered)];
      var giveUp := RecordProbe(h, answered);
      if giveUp {
        OneMoreEvent(past, events, Detached(h));
        events := events + [Detached(h)];
        DetachDeadServer(h, detachOk);
      }
    }
  }

  lemma OneMoreEvent(past: seq<Event>, es: seq<Event>, e: Event)
    requires IsRun(past + es) && Enabled(After(past + es), e)
    ensures IsRun(past + (es + [e])) && After(past + (es + [e])) == Next(After(past + es), e)
  {
    assert (past + (es + [e]))[..|past + es|] == past + es;
  }
}
