/** The host's USB/IP client: Tool.Sync and its relatives over the global port table.
  *
  * The table is changed only through `attach` and `detach -p`.  Attaching may renumber every port;
  * detaching does not.  A failing command leaves the table as it was.
  */
module UsbipTool {
  import opened Basics

  type BusId = string
  type Host = string
  type Port = nat

  datatype Entry = Entry(server: Host, busid: BusId)
  type Table = map<Port, Entry>

  // -------------------------------------------------------------------------- host names

  predicate Bracket(c: char) {
    c == '[' || c == ']'
  }

  function TrimBrackets(s: string): string {
    if s != [] && Bracket(s[0]) then TrimBrackets(s[1..])
    else if s != [] && Bracket(s[|s| - 1]) then TrimBrackets(s[..|s| - 1])
    else s
  }

  /** One spelling for each host: brackets off, letters folded. */
  function Canonical(h: Host): Host {
    Lower(TrimBrackets(h))
  }

  predicate SameHost(a: Host, b: Host) {
    Canonical(a) == Canonical(b)
  }

  /** Brackets around a host make no difference. */
  lemma BracketsDoNotMatter(h: Host)
    ensures SameHost("[" + h + "]", h)
  {
    var b := "[" + h + "]";
    assert b[1..] == h + "]";
    TrimEnd(h);
  }

  lemma {:induction false} TrimEnd(h: Host)
    ensures TrimBrackets(h + "]") == TrimBrackets(h)
  {
    if h == "" {
      assert h + "]" == "]" && "]"[1..] == "";
    } else if Bracket(h[0]) {
      assert (h + "]")[1..] == h[1..] + "]";
      TrimEnd(h[1..]);
    } else {
      assert (h + "]")[..|h|] == h;
    }
  }

  /** Otherwise two hosts are the same exactly when they have the same letters, whatever their case. */
  lemma SameHostIff(a: Host, b: Host)
    requires a != "" ==> !Bracket(a[0]) && !Bracket(a[|a| - 1])
    requires b != "" ==> !Bracket(b[0]) && !Bracket(b[|b| - 1])
    ensures SameHost(a, b) <==> |a| == |b| && forall i :: 0 <= i < |a| ==> LowerChar(a[i]) == LowerChar(b[i])
  {
    assert Canonical(a) == Lower(a) && Canonical(b) == Lower(b);
    assert |Lower(a)| == |a| && |Lower(b)| == |b|;
    if |a| == |b| && forall i :: 0 <= i < |a| ==> LowerChar(a[i]) == LowerChar(b[i]) {
      assert Lower(a) == Lower(b);
    } else if SameHost(a, b) {
      forall i | 0 <= i < |a|
        ensures LowerChar(a[i]) == LowerChar(b[i])
      {
        assert Lower(a)[i] == Lower(b)[i];
      }
    }
  }

  // ---------------------------------------------------------------------- what a table says

  function Content(t: Table): set<Entry> {
    set p | p in t :: t[p]
  }

  /** The entries a sync for `server` may touch. */
  function From(c: set<Entry>, server: Host): set<Entry> {
    set e | e in c && SameHost(e.server, server)
  }

  function BusIds(c: set<Entry>, server: Host): set<BusId> {
    set e | e in From(c, server) :: e.busid
  }

  /** The ports of `server`, or all ports when it is empty. */
  function Chosen(t: Table, server: Host): set<Port> {
    set p | p in t && (server == "" || SameHost(t[p].server, server))
  }

  /** The table after all of these that can be detached are. */
  function Purged(t: Table, server: Host, detachOk: set<BusId>): Table {
    map p | p in t && !(p in Chosen(t, server) && t[p].busid in detachOk) :: t[p]
  }

  /** Purging a host leaves other hosts alone and takes what it can of its own. */
  lemma PurgedContent(t: Table, server: Host, detachOk: set<BusId>)
    ensures Content(Purged(t, server, detachOk))
         == set e | e in Content(t) && !((server == "" || SameHost(e.server, server)) && e.busid in detachOk)
  {
    var u := Purged(t, server, detachOk);
    forall e | e in Content(t) && !((server == "" || SameHost(e.server, server)) && e.busid in detachOk)
      ensures e in Content(u)
    {
      var p :| p in t && t[p] == e;
      assert p in u && u[p] == e;
    }
  }

  /** No device of one host sits on two ports. */
  predicate Unique(t: Table) {
    forall p, q :: p in t && q in t && t[p].busid == t[q].busid && SameHost(t[p].server, t[q].server) ==> p == q
  }

  function Imports(server: Host, bs: set<BusId>): set<Entry> {
    set b | b in bs :: Entry(server, b)
  }

  /** What a sync does to the contents, as sets: attach want - have, detach have - want, less the
    * calls that fail. */
  function Synced(c: set<Entry>, server: Host, want: set<BusId>, attachOk: set<BusId>,
                  detachOk: set<BusId>): set<Entry> {
    var have := BusIds(c, server);
    (set e | e in c && !(SameHost(e.server, server) && e.busid !in want && e.busid in detachOk))
    + Imports(server, (want - have) * attachOk)
  }

  datatype Env = Env(attachOk: set<BusId>, detachOk: set<BusId>)
  datatype Result = Result(attached: set<BusId>, detached: set<BusId>, failed: set<BusId>)

  function Wanted(devices: seq<BusId>): set<BusId> {
    set b | b in devices && b != ""
  }

  class Tool {
    var table: Table
    ghost var trail: seq<set<Entry>>   // the contents after every command that changed them

    constructor ()
      ensures table == map[] && trail == []
    {
      table, trail := map[], [];
    }

    method Attach(server: Host, busid: BusId, env: Env) returns (ok: bool)
      requires Unique(table) && busid !in BusIds(Content(table), server)
      modifies this
      ensures Unique(table) && ok == (busid in env.attachOk)
      ensures ok ==> Content(table) == old(Content(table)) + {Entry(server, busid)}
      ensures ok ==> trail == old(trail) + [Content(table)]
      ensures !ok ==> table == old(table) && trail == old(trail)
    {
      ok := busid in env.attachOk;
      if ok {
        AttachIsPossible(table, server, busid);
        var after: Table :| Unique(after) && Content(after) == Content(table) + {Entry(server, busid)};
        table := after;
        trail := trail + [Content(table)];
      }
    }

    method DetachPort(port: Port, detachOk: set<BusId>) returns (ok: bool)
      requires port in table
      modifies this
      ensures ok == (old(table)[port].busid in detachOk)
      ensures table == if ok then old(table) - {port} else old(table)
      ensures trail == if ok then old(trail) + [Content(table)] else old(trail)
    {
      ok := table[port].busid in detachOk;
      if ok {
        table := table - {port};
        trail := trail + [Content(table)];
      }
    }

    /** The ports of one host's devices; of every device when no host is named. */
    method AttachedFrom(server: Host) returns (ports: set<Port>)
      ensures ports == Chosen(table, server)
    {
      if server == "" { return table.Keys; }
      ports := {};
      var rest := table.Keys;
      while rest != {}
        invariant rest <= table.Keys
        invariant ports == set p | p in table.Keys - rest && SameHost(table[p].server, server)
      {
        var p :| p in rest;
        if SameHost(table[p].server, server) { ports := ports + {p}; }
        rest := rest - {p};
      }
    }

    /** haveSet: those ports by bus id. */
    method ByBusId(ports: set<Port>, server: Host) returns (have: map<BusId, Port>)
      requires Unique(table) && server != "" && ports == Chosen(table, server)
      ensures Shows(table, server, have)
    {
      have := map[];
      var rest := ports;
      while rest != {}
        invariant rest <= ports
        invariant ShowsPart(table, table.Keys - rest, server, have)
      {
        var p :| p in rest;
        have := have[table[p].busid := p];
        rest := rest - {p};
      }
    }

    /** The attaching loop: anything wanted and not there, in any order. */
    method AttachMissing(server: Host, missing: set<BusId>, ghost kept: set<Entry>, env: Env)
        returns (attached: set<BusId>, failed: set<BusId>)
      requires Unique(table) && missing !! BusIds(Content(table), server) && kept <= Content(table)
      modifies this
      ensures Unique(table) && attached == missing * env.attachOk && failed == missing - env.attachOk
      ensures Content(table) == old(Content(table)) + Imports(server, attached)
      ensures attached == {} ==> table == old(table)
      ensures Trails(old(trail), kept)
    {
      attached, failed := {}, {};
      var rest := missing;
      ghost var t0, h0 := table, trail;
      NothingAttached(Content(t0), server, missing, env.attachOk);
      while rest != {}
        invariant rest <= missing && failed == missing - rest - env.attachOk
        invariant Attaching(t0, h0, server, missing, rest, attached, kept, env)
      {
        var b :| b in rest;
        assert missing - (rest - {b}) == missing - rest + {b};
        var ok := AttachTurn(server, b, t0, h0, missing, rest, attached, kept, env);
        if ok { attached := attached + {b}; } else { failed := failed + {b}; }
        rest := rest - {b};
      }
    }

    /** Where the attaching loop stands with `rest` still to do. */
    ghost predicate Attaching(t0: Table, h0: seq<set<Entry>>, server: Host, missing: set<BusId>, rest: set<BusId>,
                              attached: set<BusId>, kept: set<Entry>, env: Env)
      reads this
    {
      && Unique(table) && rest !! BusIds(Content(table), server)
      && attached == (missing - rest) * env.attachOk
      && Content(table) == Content(t0) + Imports(server, attached)
      && (attached == {} ==> table == t0) && kept <= Content(t0) && Trails(h0, kept)
    }

    method AttachTurn(server: Host, b: BusId, ghost t0: Table, ghost h0: seq<set<Entry>>, ghost missing: set<BusId>,
                      ghost rest: set<BusId>, ghost attached: set<BusId>, ghost kept: set<Entry>, env: Env)
        returns (ok: bool)
      requires Attaching(t0, h0, server, missing, rest, attached, kept, env) && b in rest && rest <= missing
      modifies this
      ensures ok == (b in env.attachOk)
      ensures Attaching(t0, h0, server, missing, rest - {b}, if ok then attached + {b} else attached, kept, env)
    {
      AttachedOneMore(Content(table), server, rest, b);
      ImportsOneMore(server, attached, b);
      assert missing - (rest - {b}) == missing - rest + {b};
      ok := Attach(server, b, env);
    }

    /** The detaching loop, by port; ports do not move while it runs. */
    method DetachExtra(server: Host, want: set<BusId>, have: map<BusId, Port>, ghost kept: set<Entry>, env: Env)
        returns (detached: set<BusId>, failed: set<BusId>)
      requires Unique(table) && Shows(table, server, have)
      requires kept <= Untouchable(Content(table), server, want)
      modifies this
      ensures Unique(table)
      ensures detached == (have.Keys - want) * env.detachOk && failed == have.Keys - want - env.detachOk
      ensures table == Without(old(table), server, detached)
      ensures Trails(old(trail), kept)
    {
      detached, failed := {}, {};
      var rest := have.Keys - want;
      ghost var t0, h0 := table, trail;
      assert Without(t0, server, {}) == t0;
      while rest != {}
        invariant rest <= have.Keys - want
        invariant detached == (have.Keys - want - rest) * env.detachOk
        invariant failed == have.Keys - want - rest - env.detachOk
        invariant table == Without(t0, server, detached) && Trails(h0, kept)
      {
        var b :| b in rest;
        WithoutKeeps(t0, server, want, detached + {b});
        var ok := DetachTurn(server, have, b, env.detachOk, detached, t0, h0, kept);
        if ok { detached := detached + {b}; } else { failed := failed + {b}; }
        rest := rest - {b};
      }
      WithoutUnique(t0, server, detached);
    }

    method DetachTurn(server: Host, have: map<BusId, Port>, b: BusId, detachOk: set<BusId>,
                      ghost gone: set<BusId>, ghost t0: Table, ghost h0: seq<set<Entry>>, ghost kept: set<Entry>)
        returns (ok: bool)
      requires Shows(t0, server, have) && b in have && b !in gone
      requires table == Without(t0, server, gone) && Trails(h0, kept)
      requires kept <= Content(Without(t0, server, gone + {b}))
      modifies this
      ensures ok == (b in detachOk)
      ensures table == Without(t0, server, if ok then gone + {b} else gone) && Trails(h0, kept)
    {
      WithoutOneMore(t0, server, have, gone, b);
      ok := DetachPort(have[b], detachOk);
    }

    /** Tool.Sync.  The table is read again after attaching, because ports have moved; the read is
      * skipped only when nothing can have changed. */
    method Sync(server: Host, devices: seq<BusId>, env: Env) returns (res: Result)
      requires Unique(table) && server != ""
      modifies this
      ensures Unique(table)
      ensures Content(table) == Synced(old(Content(table)), server, Wanted(devices), env.attachOk, env.detachOk)
      ensures
        var have, want := BusIds(old(Content(table)), server), Wanted(devices);
        && res.attached == (want - have) * env.attachOk
        && res.detached == (have - want) * env.detachOk
        && res.failed == (want - have - env.attachOk) + (have - want - env.detachOk)
      ensures Trails(old(trail), Untouchable(old(Content(table)), server, Wanted(devices)))
    {
      var want := Wanted(devices);
      ghost var c0 := Content(table);
      ghost var kept := Untouchable(c0, server, want);
      var have := AttachedFrom(server);
      var haveSet := ByBusId(have, server);
      ShowsBusIds(table, server, haveSet);
      var attached, failed := AttachMissing(server, want - haveSet.Keys, kept, env);
      if |want| != |haveSet| || attached != {} {
        have := AttachedFrom(server);
        haveSet := ByBusId(have, server);
      }
      ShowsBusIds(table, server, haveSet);
      AfterAttaching(c0, server, want, attached);
      ghost var t1, h1 := table, trail;
      var detached, failed2 := DetachExtra(server, want, haveSet, kept, env);
      TrailsChain(old(trail), h1, kept);
      WithoutContent(t1, server, detached);
      AfterDetaching(c0, server, want, env, attached, detached);
      NothingWantedIsExtra(BusIds(c0, server), want, attached);
      res := Result(attached, detached, failed + failed2);
    }

    /** Tool.DetachBusID: the one device, if it is there; nothing else moves. */
    method DetachBusId(server: Host, busid: BusId, detachOk: set<BusId>) returns (ok: bool)
      requires Unique(table) && server != ""
      modifies this
      ensures ok <==> busid in BusIds(old(Content(table)), server) && busid in detachOk
      ensures table == if ok then Without(old(table), server, {busid}) else old(table)
    {
      var ports := AttachedFrom(server);
      var have := ByBusId(ports, server);
      ShowsBusIds(table, server, have);
      if busid !in have { return false; }
      WithoutOneMore(table, server, have, {}, busid);
      assert Without(table, server, {}) == table && {} + {busid} == {busid};
      ok := DetachPort(have[busid], detachOk);
    }

    /** Tool.DetachAll: everything of one host that can be detached, and nothing of another; everything
      * there is when no host is named, as the uninstaller asks. */
    method DetachAll(server: Host, detachOk: set<BusId>) returns (done: set<BusId>)
      modifies this
      ensures table == Purged(old(table), server, detachOk)
      ensures done == set p | p in Chosen(old(table), server) && old(table)[p].busid in detachOk :: old(table)[p].busid
    {
      var ports := AttachedFrom(server);
      ghost var t0 := table;
      var rest := ports;
      done := {};
      while rest != {}
        invariant rest <= ports
        invariant table == map p | p in t0 && !(p in ports - rest && t0[p].busid in detachOk) :: t0[p]
        invariant done == set p | p in ports - rest && t0[p].busid in detachOk :: t0[p].busid
      {
        var p :| p in rest;
        var busid := table[p].busid;
        var ok := DetachPort(p, detachOk);
        if ok { done := done + {busid}; }
        rest := rest - {p};
      }
    }

    lemma TrailsChain(h0: seq<set<Entry>>, h1: seq<set<Entry>>, kept: set<Entry>)
      requires Trails(h1, kept) && h0 <= h1 && forall i :: |h0| <= i < |h1| ==> kept <= h1[i]
      ensures Trails(h0, kept)
    {
      forall i | |h0| <= i < |trail|
        ensures kept <= trail[i]
      {
        if i < |h1| { assert trail[i] == h1[i]; }
      }
    }

    /** Every contents reached since h0 includes `kept`. */
    ghost predicate Trails(h0: seq<set<Entry>>, kept: set<Entry>)
      reads this
    {
      h0 <= trail && forall i :: |h0| <= i < |trail| ==> kept <= trail[i]
    }
  }

  /** What a sync may never take away, even for a moment: other hosts' devices and wanted ones. */
  function Untouchable(c: set<Entry>, server: Host, want: set<BusId>): set<Entry> {
    set e | e in c && !(SameHost(e.server, server) && e.busid !in want)
  }

  /** `have` lists exactly the ports of the server's entries, as far as they have been looked at. */
  ghost predicate ShowsPart(t: Table, seen: set<Port>, server: Host, have: map<BusId, Port>)
    requires seen <= t.Keys
  {
    && (forall b :: b in have ==> have[b] in seen && t[have[b]].busid == b && SameHost(t[have[b]].server, server))
    && (forall p :: p in seen && SameHost(t[p].server, server) ==> t[p].busid in have && have[t[p].busid] == p)
  }

  ghost predicate Shows(t: Table, server: Host, have: map<BusId, Port>) {
    ShowsPart(t, t.Keys, server, have)
  }

  /** The table after the server's devices in `gone` are detached. */
  function Without(t: Table, server: Host, gone: set<BusId>): Table {
    map p | p in t && !(SameHost(t[p].server, server) && t[p].busid in gone) :: t[p]
  }

  lemma WithoutOneMore(t: Table, server: Host, have: map<BusId, Port>, gone: set<BusId>, b: BusId)
    requires Shows(t, server, have) && b in have && b !in gone
    ensures have[b] in Without(t, server, gone) && Without(t, server, gone)[have[b]].busid == b
    ensures Without(t, server, gone + {b}) == Without(t, server, gone) - {have[b]}
  {
  }

  lemma WithoutUnique(t: Table, server: Host, gone: set<BusId>)
    requires Unique(t)
    ensures Unique(Without(t, server, gone))
  {
  }

  lemma WithoutKeeps(t: Table, server: Host, want: set<BusId>, gone: set<BusId>)
    requires gone !! want
    ensures Untouchable(Content(t), server, want) <= Content(Without(t, server, gone))
  {
    forall e | e in Untouchable(Content(t), server, want)
      ensures e in Content(Without(t, server, gone))
    {
      var p :| p in t && t[p] == e;
      assert p in Without(t, server, gone);
    }
  }

  lemma WithoutContent(t: Table, server: Host, gone: set<BusId>)
    ensures Content(Without(t, server, gone))
         == set e | e in Content(t) && !(SameHost(e.server, server) && e.busid in gone)
  {
    var u := Without(t, server, gone);
    forall e | e in Content(t) && !(SameHost(e.server, server) && e.busid in gone)
      ensures e in Content(u)
    {
      var p :| p in t && t[p] == e;
      assert p in u && u[p] == e;
    }
  }

  ghost function Above(s: set<nat>): (n: nat)
    ensures forall x :: x in s ==> x < n
  {
    if s == {} then 0
    else
      var x :| x in s;
      var n := Above(s - {x});
      assert forall y :: y in s ==> y == x || y in s - {x};
      if x < n then n else x + 1
  }

  lemma AttachIsPossible(t: Table, server: Host, busid: BusId)
    requires Unique(t) && busid !in BusIds(Content(t), server)
    ensures exists u: Table :: Unique(u) && Content(u) == Content(t) + {Entry(server, busid)}
  {
    var p := Above(t.Keys);
    var u := t[p := Entry(server, busid)];
    assert Content(u) == Content(t) + {Entry(server, busid)} by {
      assert forall q :: q in t ==> u[q] == t[q];
      assert u[p] == Entry(server, busid);
    }
    forall q | q in t && t[q].busid == busid
      ensures !SameHost(t[q].server, server)
    {
      assert t[q] in Content(t);
    }
  }

  lemma NothingAttached(c: set<Entry>, server: Host, missing: set<BusId>, attachOk: set<BusId>)
    ensures c + Imports(server, {}) == c && (missing - missing) * attachOk == {}
  {
  }

  lemma ImportsOneMore(server: Host, bs: set<BusId>, b: BusId)
    ensures Imports(server, bs + {b}) == Imports(server, bs) + {Entry(server, b)}
  {
  }

  /** What is still missing stays missing when one device is attached. */
  lemma AttachedOneMore(c: set<Entry>, server: Host, rest: set<BusId>, b: BusId)
    requires rest !! BusIds(c, server)
    ensures rest - {b} !! BusIds(c + {Entry(server, b)}, server)
  {
  }

  lemma AfterAttaching(c: set<Entry>, server: Host, want: set<BusId>, attached: set<BusId>)
    requires attached <= want - BusIds(c, server)
    ensures BusIds(c + Imports(server, attached), server) == BusIds(c, server) + attached
    ensures Untouchable(c, server, want) <= Untouchable(c + Imports(server, attached), server, want)
  {
    var c1 := c + Imports(server, attached);
    forall b | b in BusIds(c, server) + attached
      ensures b in BusIds(c1, server)
    {
      if b in attached {
        assert Entry(server, b) in From(c1, server);
      } else {
        var e :| e in From(c, server) && e.busid == b;
        assert e in From(c1, server);
      }
    }
  }

  lemma NothingWantedIsExtra(have: set<BusId>, want: set<BusId>, attached: set<BusId>)
    requires attached <= want
    ensures have + attached - want == have - want
  {
  }

  lemma AfterDetaching(c: set<Entry>, server: Host, want: set<BusId>, env: Env, attached: set<BusId>,
                       detached: set<BusId>)
    requires attached == (want - BusIds(c, server)) * env.attachOk
    requires detached == (BusIds(c, server) + attached - want) * env.detachOk
    ensures (set e | e in c + Imports(server, attached) && !(SameHost(e.server, server) && e.busid in detached))
         == Synced(c, server, want, env.attachOk, env.detachOk)
  {
    forall e | e in c && SameHost(e.server, server)
      ensures e.busid in BusIds(c, server)
    {
      assert e in From(c, server);
    }
  }

  lemma ShowsBusIds(t: Table, server: Host, have: map<BusId, Port>)
    requires Shows(t, server, have)
    ensures have.Keys == BusIds(Content(t), server)
  {
    forall b | b in have
      ensures b in BusIds(Content(t), server)
    {
      assert t[have[b]] in From(Content(t), server);
    }
  }

  /** Why the table is read again.  Had the second read failed, the old port of x, which now belongs
    * to y, would be detached: the wanted device goes and the unwanted one stays. */
  lemma StalePortsDetachTheWrongDevice(server: Host, x: BusId, y: BusId)
    requires x != y
    ensures
      var before: Table, stale := map[0 := Entry(server, x)], map[x := 0];
      var after: Table := map[0 := Entry(server, y), 1 := Entry(server, x)];
      && Unique(before) && Unique(after) && Shows(before, server, stale)
      && Content(after) == Content(before) + {Entry(server, y)}
      && Content(after - {stale[x]}) == {Entry(server, x)}
  {
    var before: Table := map[0 := Entry(server, x)];
    var after: Table := map[0 := Entry(server, y), 1 := Entry(server, x)];
    assert before[0] in Content(before) && after[0] in Content(after) && after[1] in Content(after);
    assert (after - {0})[1] in Content(after - {0});
  }
}
