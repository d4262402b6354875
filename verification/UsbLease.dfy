/** The USB export lease of moonlight-helper.
  *
  * Every client connection owns a set of bus ids.  `refs` counts the owners of each id,
  * `journal` is the list on disk that a restarted helper hands back, and `exported` is what
  * the usbip-host driver really holds, whoever put it there.  A step runs under
  * USB_SESSION_LOCK, so steps of different connections interleave only at step boundaries.
  */
module UsbLease {
  import opened Basics

  type BusId = string
  type Conn = nat

  datatype State = State(
    refs: map<BusId, int>,           // USB_SESSION_REFS
    journal: set<BusId>,             // lines of USB_SESSION_STATE; {} when the file is absent
    exported: set<BusId>,            // devices held by the usbip-host driver
    owned: map<Conn, set<BusId>>)    // the `owned` cell of each open connection

  /** What the outside world answers during one step. */
  datatype Env = Env(bindOk: set<BusId>, unbindOk: set<BusId>, daemonUp: bool)

  datatype Reply = DaemonDown | Done(failures: set<BusId>)

  function Owners(owned: map<Conn, set<BusId>>, b: BusId): set<Conn> {
    set c | c in owned && b in owned[c]
  }

  /** The count of one id is the number of its owners, and only owned ids have a count. */
  ghost predicate Counted(refs: map<BusId, int>, owned: map<Conn, set<BusId>>, b: BusId) {
    (b in refs <==> Owners(owned, b) != {}) && (b in refs ==> refs[b] == |Owners(owned, b)|)
  }

  /** The counting invariant; the journal is exactly the counted set. */
  ghost predicate Inv(s: State) {
    && (forall b {:trigger b in s.refs} {:trigger Owners(s.owned, b)} {:trigger Counted(s.refs, s.owned, b)} ::
          Counted(s.refs, s.owned, b))
    && s.journal == s.refs.Keys
  }

  /** Devices exported by somebody other than the lease: manual and older shares. */
  function Outside(s: State): set<BusId> {
    s.exported - s.refs.Keys
  }

  // ------------------------------------------------------------- one step, as a whole

  function RefsWithout(refs: map<BusId, int>, gone: set<BusId>): map<BusId, int> {
    map b | b in refs && !(b in gone && refs[b] <= 1) :: if b in gone then refs[b] - 1 else refs[b]
  }

  /** Ids whose last claim ends when one owner gives up `gone`. */
  function LastClaims(refs: map<BusId, int>, gone: set<BusId>): set<BusId> {
    set b | b in gone && (b in refs ==> refs[b] <= 1)
  }

  function Released(s: State, c: Conn, gone: set<BusId>, unbindOk: set<BusId>): State
    requires c in s.owned
  {
    var refs := RefsWithout(s.refs, gone);
    State(refs, refs.Keys, s.exported - LastClaims(s.refs, gone) * unbindOk,
          s.owned[c := s.owned[c] - gone])
  }

  /** Ids of `wanted` that connection c starts to own: counted already, or free and bindable. */
  function Claims(s: State, c: Conn, wanted: set<BusId>, bindOk: set<BusId>): set<BusId>
    requires c in s.owned
  {
    set b | b in wanted && b !in s.owned[c] && (b in s.refs || (b !in s.exported && b in bindOk))
  }

  function RefsWith(refs: map<BusId, int>, claims: set<BusId>): map<BusId, int> {
    map b | b in refs.Keys + claims ::
      if b !in claims then refs[b] else if b in refs then refs[b] + 1 else 1
  }

  function Acquired(s: State, c: Conn, wanted: set<BusId>, bindOk: set<BusId>): State
    requires c in s.owned
  {
    var claims := Claims(s, c, wanted, bindOk);
    var refs := RefsWith(s.refs, claims);
    var bindable := set b | b in wanted * bindOk && (b in s.owned[c] || b !in s.refs);
    State(refs, refs.Keys, s.exported + bindable, s.owned[c := s.owned[c] + claims])
  }

  /** Ids reported as failures: a missing export that could not be bound. */
  function Failures(s: State, c: Conn, wanted: set<BusId>, bindOk: set<BusId>): set<BusId>
    requires c in s.owned
  {
    set b | b in wanted && b !in s.exported && b !in bindOk && (b in s.owned[c] || b !in s.refs)
  }

  function Synced(s: State, c: Conn, wanted: set<BusId>, env: Env): State
    requires c in s.owned
  {
    var r := Released(s, c, s.owned[c] - wanted, env.unbindOk);
    if wanted != {} && !env.daemonUp then r else Acquired(r, c, wanted, env.bindOk)
  }

  function Closed(s: State, c: Conn, unbindOk: set<BusId>): State
    requires c in s.owned
  {
    var r := Released(s, c, s.owned[c], unbindOk);
    r.(owned := r.owned - {c})
  }

  function Recovered(s: State, unbindOk: set<BusId>): State {
    State(map[], {}, s.exported - s.journal * unbindOk, map[])
  }

  lemma AcquireNothing(s: State, c: Conn, bindOk: set<BusId>)
    requires c in s.owned
    ensures Acquired(s, c, {}, bindOk) == s.(journal := s.refs.Keys)
    ensures Failures(s, c, {}, bindOk) == {}
  {
    assert s.owned[c] + Claims(s, c, {}, bindOk) == s.owned[c];
    assert s.owned[c := s.owned[c]] == s.owned;
    assert RefsWith(s.refs, {}) == s.refs;
  }

  /** Offering devices one after the other is offering them together, when they are distinct. */
  lemma AcquireInTurn(s: State, c: Conn, ws: set<BusId>, b: BusId, bindOk: set<BusId>)
    requires c in s.owned && b !in ws
    ensures Acquired(Acquired(s, c, ws, bindOk), c, {b}, bindOk) == Acquired(s, c, ws + {b}, bindOk)
    ensures Failures(s, c, ws, bindOk) + Failures(Acquired(s, c, ws, bindOk), c, {b}, bindOk)
         == Failures(s, c, ws + {b}, bindOk)
  {
    var t := Acquired(s, c, ws, bindOk);
    var first, second, both := Claims(s, c, ws, bindOk), Claims(t, c, {b}, bindOk), Claims(s, c, ws + {b}, bindOk);
    assert both == first + second;
    assert RefsWith(t.refs, second) == RefsWith(s.refs, both);
    assert s.owned[c] + first + second == s.owned[c] + both;
  }

  // ------------------------------------------------------------------- the helper itself

  class Helper {
    var refs: map<BusId, int>
    var journal: set<BusId>
    var exported: set<BusId>
    var owned: map<Conn, set<BusId>>

    ghost function Abs(): State
      reads this
    {
      State(refs, journal, exported, owned)
    }

    constructor (exported: set<BusId>)
      ensures Abs() == State(map[], {}, exported, map[])
    {
      this.refs, this.journal, this.exported, this.owned := map[], {}, exported, map[];
    }

    method Open(c: Conn)
      requires c !in owned
      modifies this`owned
      ensures owned == old(owned)[c := {}]
    {
      owned := owned[c := {}];
    }

    method Bind(b: BusId, env: Env) returns (ok: bool)
      modifies this`exported
      ensures ok == (b in env.bindOk)
      ensures exported == if ok then old(exported) + {b} else old(exported)
    {
      ok := b in env.bindOk;
      if ok { exported := exported + {b}; }
    }

    method Unbind(b: BusId, unbindOk: set<BusId>)
      modifies this`exported
      ensures exported == old(exported) - {b} * unbindOk
    {
      if b in unbindOk { exported := exported - {b}; }
    }

    method Persist()
      modifies this`journal
      ensures journal == refs.Keys
    {
      journal := refs.Keys;
    }

    /** One owner gives up `gone`, an id at a time. */
    method DropClaims(c: Conn, gone: set<BusId>, unbindOk: set<BusId>)
      requires c in owned
      modifies this`refs, this`exported, this`owned
      ensures refs == RefsWithout(old(refs), gone)
      ensures exported == old(exported) - LastClaims(old(refs), gone) * unbindOk
      ensures owned == old(owned)[c := old(owned)[c] - gone]
    {
      var rest := gone;
      while rest != {}
        invariant rest <= gone
        invariant refs == RefsWithout(old(refs), gone - rest)
        invariant exported == old(exported) - LastClaims(old(refs), gone - rest) * unbindOk
        invariant owned.Keys == old(owned).Keys && owned[c] == old(owned)[c] - (gone - rest)
        invariant forall d :: d in owned && d != c ==> owned[d] == old(owned)[d]
      {
        var b :| b in rest;
        var remaining := (if b in refs then refs[b] else 0) - 1;
        ghost var done := gone - rest;
        if remaining <= 0 {
          refs := refs - {b};
          Unbind(b, unbindOk);
        } else {
          refs := refs[b := remaining];
        }
        owned := owned[c := owned[c] - {b}];
        rest := rest - {b};
        assert gone - rest == done + {b};
      }
      assert gone - rest == gone;
    }

    /** One device's turn in the acquiring loop; `exported` stands for the `bound` set, which
      * is read at the start of the loop and grows with every bind. */
    method Offer(c: Conn, b: BusId, env: Env) returns (failed: set<BusId>)
      requires c in owned
      modifies this`refs, this`exported, this`owned
      ensures refs == RefsWith(old(refs), Claims(old(Abs()), c, {b}, env.bindOk))
      ensures exported == Acquired(old(Abs()), c, {b}, env.bindOk).exported
      ensures owned == old(owned)[c := old(owned)[c] + Claims(old(Abs()), c, {b}, env.bindOk)]
      ensures failed == Failures(old(Abs()), c, {b}, env.bindOk)
    {
      failed := {};
      ghost var s := Abs();
      if b in owned[c] {
        assert Claims(s, c, {b}, env.bindOk) == {} && RefsWith(s.refs, {}) == s.refs;
        // Repair an export that went away while the session stayed.
        if b !in exported {
          var ok := Bind(b, env);
          if !ok { failed := {b}; }
        }
      } else if b in refs {
        refs := refs[b := refs[b] + 1];
        owned := owned[c := owned[c] + {b}];
      } else if b !in exported {
        var ok := Bind(b, env);
        if ok {
          refs := refs[b := 1];
          owned := owned[c := owned[c] + {b}];
        } else {
          failed := {b};
        }
      }
      assert owned[c] == old(owned)[c] + Claims(old(Abs()), c, {b}, env.bindOk);
    }

    /** `wanted` is the policy's offer: names of one directory, hence distinct. */
    method Sync(c: Conn, wanted: seq<BusId>, env: Env) returns (reply: Reply)
      requires c in owned
      requires forall i, j :: 0 <= i < j < |wanted| ==> wanted[i] != wanted[j]
      modifies this
      ensures Abs() == Synced(old(Abs()), c, Elements(wanted), env)
      ensures reply.DaemonDown? <==> wanted != [] && !env.daemonUp
      ensures reply.Done? ==>
        reply.failures == Failures(Released(old(Abs()), c, old(owned)[c] - Elements(wanted), env.unbindOk),
                                   c, Elements(wanted), env.bindOk)
    {
      DropClaims(c, owned[c] - Elements(wanted), env.unbindOk);
      Persist();
      ghost var r := Abs();
      assert wanted != [] ==> wanted[0] in Elements(wanted);
      if wanted != [] && !env.daemonUp {
        return DaemonDown;
      }
      var failures := {};
      AcquireNothing(r, c, env.bindOk);
      assert Elements(wanted[..0]) == {};
      for i := 0 to |wanted|
        invariant Abs().(journal := refs.Keys) == Acquired(r, c, Elements(wanted[..i]), env.bindOk)
        invariant failures == Failures(r, c, Elements(wanted[..i]), env.bindOk)
      {
        ghost var before := Elements(wanted[..i]);
        assert Elements(wanted[..i + 1]) == before + {wanted[i]};
        AcquireInTurn(r, c, before, wanted[i], env.bindOk);
        var failed := Offer(c, wanted[i], env);
        failures := failures + failed;
      }
      assert wanted[..|wanted|] == wanted;
      Persist();
      return Done(failures);
    }

    method Close(c: Conn, unbindOk: set<BusId>)
      requires c in owned && Inv(Abs())
      modifies this
      ensures Abs() == Closed(old(Abs()), c, unbindOk)
    {
      if owned[c] != {} {
        DropClaims(c, owned[c], unbindOk);
        Persist();
      }
      owned := owned - {c};
    }

    /** A killed helper is started again: memory is gone, the journal is handed back. */
    method Restart(unbindOk: set<BusId>)
      modifies this
      ensures Abs() == Recovered(old(Abs()), unbindOk)
    {
      refs, owned := map[], map[];
      var stale := journal;
      while stale != {}
        invariant stale <= journal == old(journal) && refs == map[] && owned == map[]
        invariant exported == old(exported) - (journal - stale) * unbindOk
      {
        var b :| b in stale;
        Unbind(b, unbindOk);
        stale := stale - {b};
      }
      journal := {};
    }
  }

  // -------------------------------------------------------------------------- whole runs

  /** What can happen between two points at which USB_SESSION_LOCK is free.  `Others` is
    * anything outside the lease: manual shares and unshares, unplugged devices. */
  datatype Event =
    | Open(c: Conn)
    | Sync(c: Conn, wanted: set<BusId>, env: Env)
    | Close(c: Conn, unbindOk: set<BusId>)
    | KillAndRestart(unbindOk: set<BusId>)
    | Others(added: set<BusId>, removed: set<BusId>)

  function Step(s: State, e: Event): State {
    match e
    case Open(c) => if c in s.owned then s else s.(owned := s.owned[c := {}])
    case Sync(c, wanted, env) => if c in s.owned then Synced(s, c, wanted, env) else s
    case Close(c, unbindOk) => if c in s.owned then Closed(s, c, unbindOk) else s
    case KillAndRestart(unbindOk) => Recovered(s, unbindOk)
    case Others(added, removed) => s.(exported := s.exported - removed + added)
  }

  function Run(s: State, es: seq<Event>): State
    decreases |es|
  {
    if es == [] then s else Run(Step(s, es[0]), es[1..])
  }

  /** Ids a lease step tries to unbind. */
  function Unbinds(s: State, e: Event): set<BusId> {
    match e
    case Sync(c, wanted, _) => if c in s.owned then LastClaims(s.refs, s.owned[c] - wanted) else {}
    case Close(c, _) => if c in s.owned then LastClaims(s.refs, s.owned[c]) else {}
    case KillAndRestart(_) => s.journal
    case _ => {}
  }

  function UnbindOk(e: Event): set<BusId> {
    match e
    case Sync(_, _, env) => env.unbindOk
    case Close(_, ok) => ok
    case KillAndRestart(ok) => ok
    case _ => {}
  }

  /** Exports that outlive the lease because their unbind failed. */
  function Leaks(s: State, e: Event): set<BusId> {
    s.exported * Unbinds(s, e) - UnbindOk(e)
  }

  lemma OwnersAfterRelease(owned: map<Conn, set<BusId>>, c: Conn, gone: set<BusId>, b: BusId)
    requires c in owned && gone <= owned[c]
    ensures Owners(owned[c := owned[c] - gone], b) == Owners(owned, b) - (if b in gone then {c} else {})
    ensures b in gone ==> c in Owners(owned, b)
  {
  }

  lemma OwnersAfterClaim(owned: map<Conn, set<BusId>>, c: Conn, claims: set<BusId>, b: BusId)
    requires c in owned && claims !! owned[c]
    ensures Owners(owned[c := owned[c] + claims], b) == Owners(owned, b) + (if b in claims then {c} else {})
    ensures b in claims ==> c !in Owners(owned, b)
  {
  }

  lemma ReleasedKeepsInv(s: State, c: Conn, gone: set<BusId>, unbindOk: set<BusId>)
    requires Inv(s) && c in s.owned && gone <= s.owned[c]
    ensures Inv(Released(s, c, gone, unbindOk))
  {
    var t := Released(s, c, gone, unbindOk);
    forall b
      ensures Counted(t.refs, t.owned, b)
    {
      OwnersAfterRelease(s.owned, c, gone, b);
      assert Counted(s.refs, s.owned, b);
      if b in gone {
        assert |Owners(t.owned, b)| == |Owners(s.owned, b)| - 1;
      }
    }
  }

  lemma ClaimIsCounted(s: State, c: Conn, claims: set<BusId>, b: BusId)
    requires Inv(s) && c in s.owned && claims !! s.owned[c]
    ensures Counted(RefsWith(s.refs, claims), s.owned[c := s.owned[c] + claims], b)
  {
    OwnersAfterClaim(s.owned, c, claims, b);
    assert Counted(s.refs, s.owned, b);
    if b in claims {
      assert c in Owners(s.owned[c := s.owned[c] + claims], b);
    }
  }

  lemma AcquiredKeepsInv(s: State, c: Conn, wanted: set<BusId>, bindOk: set<BusId>)
    requires Inv(s) && c in s.owned
    ensures Inv(Acquired(s, c, wanted, bindOk))
  {
    var t := Acquired(s, c, wanted, bindOk);
    forall b
      ensures Counted(t.refs, t.owned, b)
    {
      ClaimIsCounted(s, c, Claims(s, c, wanted, bindOk), b);
    }
  }

  lemma SameOwners(s: State, t: State)
    requires Inv(s) && t.refs == s.refs && t.journal == s.journal
    requires forall b :: Owners(t.owned, b) == Owners(s.owned, b)
    ensures Inv(t)
  {
  }

  lemma StepKeepsInv(s: State, e: Event)
    requires Inv(s)
    ensures Inv(Step(s, e))
  {
    var t := Step(s, e);
    match e {
      case Open(c) => SameOwners(s, t);
      case Sync(c, wanted, env) =>
        if c in s.owned {
          var r := Released(s, c, s.owned[c] - wanted, env.unbindOk);
          ReleasedKeepsInv(s, c, s.owned[c] - wanted, env.unbindOk);
          AcquiredKeepsInv(r, c, wanted, env.bindOk);
        }
      case Close(c, unbindOk) =>
        if c in s.owned {
          ReleasedKeepsInv(s, c, s.owned[c], unbindOk);
          SameOwners(Released(s, c, s.owned[c], unbindOk), t);
        }
      case KillAndRestart(_) =>
        assert forall b :: Owners(t.owned, b) == {};
      case Others(_, _) => SameOwners(s, t);
    }
  }

  /** Counting, for every run: from a fresh helper over any exported set, after any events,
    * each count is the number of connections owning the id and the journal is the key set. */
  lemma {:induction false} CountingHolds(s: State, es: seq<Event>)
    requires Inv(s)
    ensures Inv(Run(s, es))
    decreases |es|
  {
    if es != [] {
      StepKeepsInv(s, es[0]);
      CountingHolds(Step(s, es[0]), es[1..]);
    }
  }

  lemma FreshHelperIsValid(exported: set<BusId>)
    ensures Inv(State(map[], {}, exported, map[]))
  {
    var s := State(map[], {}, exported, map[]);
    assert forall b :: Owners(s.owned, b) == {};
  }

  /** The ledger of one step.  Exports that are not the lease's change only by what others do
    * and by failed unbinds; the lease itself never takes one away or adds one. */
  lemma OutsideLedger(s: State, e: Event)
    requires Inv(s)
    ensures Outside(Step(s, e)) ==
      (if e.Others? then Outside(s) - e.removed + (e.added - s.refs.Keys) else Outside(s) + Leaks(s, e))
  {
    if e.Sync? && e.c in s.owned {
      var gone := s.owned[e.c] - e.wanted;
      var r := Released(s, e.c, gone, e.env.unbindOk);
      ReleasedOutside(s, e.c, gone, e.env.unbindOk);
      assert Outside(Acquired(r, e.c, e.wanted, e.env.bindOk)) == Outside(r) by {
        OwnedIsCounted(r, e.c, s, gone, e.env.unbindOk);
      }
    } else if e.Close? && e.c in s.owned {
      ReleasedOutside(s, e.c, s.owned[e.c], e.unbindOk);
    }
  }

  lemma ReleasedOutside(s: State, c: Conn, gone: set<BusId>, unbindOk: set<BusId>)
    requires Inv(s) && c in s.owned && gone <= s.owned[c]
    ensures Outside(Released(s, c, gone, unbindOk))
         == Outside(s) + (s.exported * LastClaims(s.refs, gone) - unbindOk)
  {
    assert forall b :: b in gone ==> c in Owners(s.owned, b);
  }

  lemma OwnedIsCounted(r: State, c: Conn, s: State, gone: set<BusId>, unbindOk: set<BusId>)
    requires Inv(s) && c in s.owned && gone <= s.owned[c] && r == Released(s, c, gone, unbindOk)
    ensures r.owned[c] <= r.refs.Keys
  {
    ReleasedKeepsInv(s, c, gone, unbindOk);
    assert forall b :: b in r.owned[c] ==> c in Owners(r.owned, b);
  }

  /** The ledger of a run: what others added and removed, plus every failed unbind. */
  ghost function Tally(s: State, es: seq<Event>, outside: set<BusId>): set<BusId>
    decreases |es|
  {
    if es == [] then outside
    else
      var e := es[0];
      Tally(Step(s, e), es[1..],
            if e.Others? then outside - e.removed + (e.added - s.refs.Keys) else outside + Leaks(s, e))
  }

  /** A run in which nobody else touches the exports and every unbind succeeds. */
  ghost predicate LeaseOnly(s: State, es: seq<Event>)
    decreases |es|
  {
    es != [] ==> !es[0].Others? && Leaks(s, es[0]) == {} && LeaseOnly(Step(s, es[0]), es[1..])
  }

  lemma {:induction false} RunLedger(s: State, es: seq<Event>)
    requires Inv(s)
    ensures Outside(Run(s, es)) == Tally(s, es, Outside(s))
    decreases |es|
  {
    if es != [] {
      OutsideLedger(s, es[0]);
      StepKeepsInv(s, es[0]);
      RunLedger(Step(s, es[0]), es[1..]);
    }
  }

  lemma {:induction false} LeaseRunKeepsOutside(s: State, es: seq<Event>)
    requires Inv(s) && LeaseOnly(s, es)
    ensures Outside(Run(s, es)) == Outside(s)
    decreases |es|
  {
    if es != [] {
      OutsideLedger(s, es[0]);
      StepKeepsInv(s, es[0]);
      LeaseRunKeepsOutside(Step(s, es[0]), es[1..]);
    }
  }

  ghost predicate NobodyOwns(s: State) {
    forall c :: c in s.owned ==> s.owned[c] == {}
  }

  /** Conservation: however connections come, sync, go, or are killed and recovered, once nobody
    * owns anything the exported set is exactly what it was before the lease began. */
  lemma Conservation(s: State, es: seq<Event>)
    requires Inv(s) && NobodyOwns(s) && LeaseOnly(s, es) && NobodyOwns(Run(s, es))
    ensures Run(s, es).exported == s.exported
  {
    CountingHolds(s, es);
    LeaseRunKeepsOutside(s, es);
    IdleCountsNothing(s);
    IdleCountsNothing(Run(s, es));
  }

  lemma IdleCountsNothing(s: State)
    requires Inv(s) && NobodyOwns(s)
    ensures s.refs == map[] && s.journal == {} && Outside(s) == s.exported
  {
    assert forall b :: Owners(s.owned, b) == {};
  }

  /** A device leaves the exports only when its last owner lets go of it. */
  lemma LeavesWithLastOwner(s: State, e: Event, b: BusId)
    requires Inv(s) && !e.Others?
    requires b in s.exported && b !in Step(s, e).exported
    ensures Owners(s.owned, b) != {} && Owners(Step(s, e).owned, b) == {}
  {
    var t := Step(s, e);
    StepKeepsInv(s, e);
    OutsideLedger(s, e);
    assert b in Outside(s) ==> b in Outside(t);
    assert b in s.refs;
    assert b in Unbinds(s, e);
    assert b !in t.refs;
  }

  // ------------------------------------------------------------ what a connection is promised

  /** Who owns what after a sync with the daemon up: exactly the offered devices that some connection
    * owned already, or that were free and could be bound.  Other connections keep what they own. */
  lemma SyncOwnership(s: State, c: Conn, wanted: set<BusId>, env: Env)
    requires Inv(s) && c in s.owned && (wanted == {} || env.daemonUp)
    ensures
      var r := Synced(s, c, wanted, env);
      && r.owned.Keys == s.owned.Keys
      && (forall b :: b in r.owned[c] <==>
            b in wanted && (Owners(s.owned, b) != {} || (b !in s.exported && b in env.bindOk)))
      && (forall d :: d in s.owned && d != c ==> r.owned[d] == s.owned[d])
  {
    forall b | b in wanted
      ensures b in Synced(s, c, wanted, env).owned[c]
         <==> Owners(s.owned, b) != {} || (b !in s.exported && b in env.bindOk)
    {
      OwnedAfterSync(s, c, wanted, env, b);
    }
  }

  lemma OwnedAfterSync(s: State, c: Conn, wanted: set<BusId>, env: Env, b: BusId)
    requires Inv(s) && c in s.owned && env.daemonUp && b in wanted
    ensures b in Synced(s, c, wanted, env).owned[c]
       <==> Owners(s.owned, b) != {} || (b !in s.exported && b in env.bindOk)
  {
    assert Counted(s.refs, s.owned, b);
    if b in s.owned[c] { assert c in Owners(s.owned, b); }
  }

  /** Without the daemon a sync only gives up what is no longer offered. */
  lemma SyncWithoutDaemon(s: State, c: Conn, wanted: set<BusId>, env: Env)
    requires Inv(s) && c in s.owned && wanted != {} && !env.daemonUp
    ensures
      var r := Synced(s, c, wanted, env);
      && r.owned == s.owned[c := s.owned[c] * wanted] && r.exported <= s.exported
      && s.exported - r.exported <= s.owned[c] - wanted
  {
    assert s.owned[c] - (s.owned[c] - wanted) == s.owned[c] * wanted;
  }

  /** The devices reported are those the connection needed a bind for and that are still not exported:
    * its own whose export went away, and free ones.  A device that could be bound is never among them. */
  lemma FailuresAreUnexported(s: State, c: Conn, wanted: set<BusId>, env: Env, b: BusId)
    requires Inv(s) && c in s.owned && env.daemonUp
    ensures
      var failures := Failures(Released(s, c, s.owned[c] - wanted, env.unbindOk), c, wanted, env.bindOk);
      && (b in failures <==>
            && b in wanted && b !in Synced(s, c, wanted, env).exported
            && (b in s.owned[c] || Owners(s.owned, b) == {}))
      && (b in failures ==> b !in env.bindOk)
  {
    assert Counted(s.refs, s.owned, b);
    if b in s.owned[c] { assert c in Owners(s.owned, b); }
  }

  /** A sync exports nothing that was not offered, and takes away exactly the devices the connection owned
    * alone and is no longer offered. */
  lemma SyncTouchesOnlyItsOwn(s: State, c: Conn, wanted: set<BusId>, env: Env)
    requires Inv(s) && c in s.owned
    ensures
      var r := Synced(s, c, wanted, env);
      && r.exported - s.exported <= wanted * env.bindOk
      && s.exported - r.exported
         == (set b | b in s.owned[c] - wanted && Owners(s.owned, b) == {c} && b in s.exported * env.unbindOk)
  {
    forall b | b in s.owned[c]
      ensures b in LastClaims(s.refs, s.owned[c] - wanted) <==> b !in wanted && Owners(s.owned, b) == {c}
    {
      SoleOwner(s, c, b);
    }
  }

  /** A closed connection is forgotten, the others keep what they own, and a device it owned alone is
    * handed back. */
  lemma CloseHandsBack(s: State, c: Conn, unbindOk: set<BusId>)
    requires Inv(s) && c in s.owned
    ensures
      var r := Closed(s, c, unbindOk);
      && r.owned == s.owned - {c}
      && r.exported == s.exported - (set b | b in s.owned[c] && Owners(s.owned, b) == {c} && b in unbindOk)
  {
    forall b | b in s.owned[c]
      ensures b in LastClaims(s.refs, s.owned[c]) <==> Owners(s.owned, b) == {c}
    {
      SoleOwner(s, c, b);
    }
  }

  lemma SoleOwner(s: State, c: Conn, b: BusId)
    requires Inv(s) && c in s.owned && b in s.owned[c]
    ensures b in s.refs && (s.refs[b] <= 1 <==> Owners(s.owned, b) == {c})
  {
    var owners := Owners(s.owned, b);
    assert Counted(s.refs, s.owned, b) && c in owners;
    assert |owners - {c}| == |owners| - 1;
    if owners - {c} == {} { assert owners == {c}; }
  }

  /** "Manual shares survive" has one exception.  Sharing a device by hand while the lease holds it
    * changes nothing, so closing its only owner takes it away: the manual share survives the close
    * exactly when that connection is not the device's only owner. */
  lemma ManualShareSurvivesClose(s: State, b: BusId, c: Conn, unbindOk: set<BusId>)
    requires Inv(s) && c in s.owned && b in unbindOk
    ensures b in Run(s, [Others({b}, {}), Close(c, unbindOk)]).exported <==> Owners(s.owned, b) != {c}
  {
    var es := [Others({b}, {}), Close(c, unbindOk)];
    var t := Step(s, es[0]);
    assert es[1..] == [es[1]] && es[1..][1..] == [];
    assert Run(s, es) == Run(t, es[1..]) == Run(Step(t, es[1]), []);
    if b in s.owned[c] {
      assert c in Owners(s.owned, b);
      assert |{c}| == 1;
      if Owners(s.owned, b) != {c} {
        var d :| d in Owners(s.owned, b) && d != c;
        assert |Owners(s.owned, b) - {c}| >= 1 by {
          assert d in Owners(s.owned, b) - {c};
        }
      }
    } else {
      assert c !in Owners(s.owned, b);
    }
  }

  /** The exception is reached from a fresh helper: one connection shares b, then somebody shares it by
    * hand, then the connection closes. */
  lemma ManualShareLostInARun(b: BusId, c: Conn)
    ensures
      var start := State(map[], {}, {}, map[]);
      var share := Sync(c, {b}, Env({b}, {b}, true));
      b !in Run(start, [Open(c), share, Others({b}, {}), Close(c, {b})]).exported
  {
    var start := State(map[], {}, {}, map[]);
    var share := Sync(c, {b}, Env({b}, {b}, true));
    var es := [Open(c), share, Others({b}, {}), Close(c, {b})];
    FirstShare(b, c);
    var open := Step(start, Open(c));
    var shared := Step(open, share);
    assert es[1..] == [share, Others({b}, {}), Close(c, {b})] && es[1..][1..] == [Others({b}, {}), Close(c, {b})];
    assert Run(start, es) == Run(open, es[1..]) == Run(shared, es[1..][1..]);
    ManualShareSurvivesClose(shared, b, c, {b});
  }

  /** The first share of a fresh helper. */
  lemma FirstShare(b: BusId, c: Conn)
    ensures
      var open := Step(State(map[], {}, {}, map[]), Open(c));
      var shared := Step(open, Sync(c, {b}, Env({b}, {b}, true)));
      Inv(shared) && c in shared.owned && Owners(shared.owned, b) == {c}
  {
    var open := Step(State(map[], {}, {}, map[]), Open(c));
    var env := Env({b}, {b}, true);
    FreshHelperIsValid({});
    StepKeepsInv(State(map[], {}, {}, map[]), Open(c));
    StepKeepsInv(open, Sync(c, {b}, env));
    assert open.owned.Keys == {c};
    assert Owners(open.owned, b) == {};
    SyncOwnership(open, c, {b}, env);
  }
}
