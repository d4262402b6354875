/** The read-only system disk lease of moonlight-helper.
  *
  * The lease builds a device-mapper mapping, a backstore and an iSCSI target, counts the
  * connections that hold it, and takes everything down with the last one.  A journal file says
  * "something may exist".  Every command that touches the machine is one micro-step; the helper
  * may be killed after any of them, so each operation is specified by the list of disk states it
  * passes through as well as by its result.
  */
module DiskLease {
  import opened Basics

  type Conn = nat

  datatype Target = Absent | Partial | Live
  datatype Info = Info(size: nat, sectorSize: nat)

  /** What survives the helper: kernel objects and the journal file. */
  datatype Disk = Disk(mapping: bool, backstore: bool, target: Target, journal: bool)

  datatype State = State(disk: Disk, refs: int, info: Option<Info>, owned: map<Conn, bool>)

  /** disk_target_remove: how many LIO objects were deleted before an exception (two means no
    * exception), whether dmsetup answered "removed" or "not found", and whether the journal
    * could be unlinked afterwards. */
  datatype RemoveEnv = RemoveEnv(deleted: nat, dmOk: bool, unlinkOk: bool)

  /** disk_target_create: whether dmsetup succeeded, whether a failing dmsetup left a mapping
    * behind, and how many of backstore, target, configured target were made. */
  datatype CreateEnv = CreateEnv(dmOk: bool, dmLeft: bool, made: nat)

  datatype AcquireEnv = AcquireEnv(retry: RemoveEnv, info: Option<Info>, writeOk: bool,
                                   create: CreateEnv, undo: RemoveEnv)

  predicate Empty(d: Disk) {
    !d.mapping && !d.backstore && d.target.Absent?
  }

  /** Journal first: whatever exists is journalled. */
  predicate Safe(d: Disk) {
    Empty(d) || d.journal
  }

  predicate Complete(d: Disk) {
    d.mapping && d.backstore && d.target.Live?
  }

  function Owners(owned: map<Conn, bool>): set<Conn> {
    set c | c in owned && owned[c]
  }

  /** Holds whenever DISK_SESSION_LOCK is free. */
  ghost predicate Inv(s: State) {
    && Safe(s.disk)
    && s.refs == |Owners(s.owned)|
    && (s.refs > 0 ==> Complete(s.disk) && s.disk.journal && s.info.Some?)
  }

  // ---------------------------------------------------------- micro-steps of one operation

  function Last(d: Disk, trace: seq<Disk>): Disk {
    if trace == [] then d else trace[|trace| - 1]
  }

  lemma TwoParts(d: Disk, h: seq<Disk>, a: seq<Disk>, b: seq<Disk>)
    ensures Last(d, a + b) == Last(Last(d, a), b)
    ensures h + a + b == h + (a + b)
    ensures b == [] ==> a + b == a
  {
  }

  function RemoveSteps(d: Disk, e: RemoveEnv): (t: seq<Disk>)
    ensures |t| == 3
  {
    var d1 := if e.deleted >= 1 then d.(target := Absent) else d;
    var d2 := if e.deleted >= 2 then d1.(backstore := false) else d1;
    var d3 := if e.dmOk then d2.(mapping := false) else d2;
    [d1, d2, d3]
  }

  predicate RemoveComplete(e: RemoveEnv) {
    e.deleted >= 2 && e.dmOk
  }

  /** Remove, and drop the journal if nothing is left. */
  function ClearSteps(d: Disk, e: RemoveEnv): seq<Disk> {
    var t := RemoveSteps(d, e);
    if RemoveComplete(e) && e.unlinkOk then t + [t[2].(journal := false)] else t
  }

  function CreateSteps(d: Disk, e: CreateEnv): (t: seq<Disk>)
    requires Empty(d)
  {
    if !e.dmOk then [d.(mapping := e.dmLeft)]
    else
      var d1 := d.(mapping := true);
      var d2 := if e.made >= 1 then d1.(backstore := true) else d1;
      var d3 := if e.made >= 2 then d2.(target := Partial) else d2;
      var d4 := if e.made >= 3 then d3.(target := Live) else d3;
      [d1, d2, d3, d4]
  }

  predicate CreateComplete(e: CreateEnv) {
    e.dmOk && e.made >= 3
  }

  /** Journal, build, and undo on failure. */
  function FreshSteps(d: Disk, e: AcquireEnv): seq<Disk>
    requires Empty(d)
  {
    var d1 := d.(journal := true);
    var build := CreateSteps(d1, e.create);
    [d1] + (build + if CreateComplete(e.create) then [] else ClearSteps(Last(d1, build), e.undo))
  }

  /** An earlier removal that failed is done again before anything else. */
  function RetrySteps(d: Disk, e: AcquireEnv): seq<Disk> {
    if d.journal then ClearSteps(d, e.retry) else []
  }

  /** The first acquire of a session. */
  function BuildSteps(d: Disk, e: AcquireEnv): seq<Disk>
    requires Safe(d)
  {
    var retry := RetrySteps(d, e);
    retry + if Last(d, retry).journal || e.info.None? || !e.writeOk then [] else FreshSteps(Last(d, retry), e)
  }

  /** The build succeeds exactly when nothing on the way fails. */
  predicate Built(d: Disk, e: AcquireEnv) {
    && (d.journal ==> RemoveComplete(e.retry) && e.retry.unlinkOk)
    && e.info.Some? && e.writeOk && CreateComplete(e.create)
  }

  // ------------------------------------------------------------------- whole operations

  datatype Op =
    | Open(c: Conn)
    | Acquire(c: Conn, env: AcquireEnv)
    | Close(c: Conn, remove: RemoveEnv)
    | Start(remove: RemoveEnv)

  /** The disk states an operation passes through. */
  function Trace(s: State, op: Op): seq<Disk>
    requires Safe(s.disk)
  {
    match op
    case Open(_) => []
    case Acquire(c, e) =>
      if c in s.owned && !s.owned[c] && s.refs == 0 then BuildSteps(s.disk, e) else []
    case Close(c, e) =>
      if c in s.owned && s.owned[c] && s.refs <= 1 then ClearSteps(s.disk, e) else []
    case Start(e) => if s.disk.journal then ClearSteps(s.disk, e) else []
  }

  predicate Granted(s: State, op: Op) {
    op.Acquire? && op.c in s.owned && (s.owned[op.c] || s.refs > 0 || Built(s.disk, op.env))
  }

  /** The state after an operation that ran to its end. */
  function Apply(s: State, op: Op): State
    requires Safe(s.disk)
  {
    var disk := Last(s.disk, Trace(s, op));
    match op
    case Open(c) => if c in s.owned then s else s.(owned := s.owned[c := false])
    case Acquire(c, e) =>
      if c !in s.owned || s.owned[c] then s
      else if !Granted(s, op) then s.(disk := disk)
      else State(disk, s.refs + 1, if s.refs == 0 then e.info else s.info, s.owned[c := true])
    case Close(c, e) =>
      if c !in s.owned then s
      else if !s.owned[c] then s.(owned := s.owned - {c})
      else State(disk, if s.refs - 1 > 0 then s.refs - 1 else 0,
                 if s.refs <= 1 && RemoveComplete(e) then None else s.info, s.owned - {c})
    case Start(e) => State(disk, 0, None, map[])
  }

  // ------------------------------------------------------------------- the helper itself

  class Helper {
    var mapping: bool
    var backstore: bool
    var target: Target
    var journal: bool
    var refs: int                 // DISK_SESSION_REFS
    var info: Option<Info>        // DISK_SESSION_INFO
    var owned: map<Conn, bool>    // the `owned[0]` cell of each connection
    ghost var history: seq<Disk>  // every disk state passed through, in order

    ghost function Now(): Disk
      reads this
    {
      Disk(mapping, backstore, target, journal)
    }

    ghost function Abs(): State
      reads this
    {
      State(Now(), refs, info, owned)
    }

    constructor ()
      ensures Abs() == State(Disk(false, false, Absent, false), 0, None, map[]) && history == []
    {
      mapping, backstore, target, journal := false, false, Absent, false;
      refs, info, owned, history := 0, None, map[], [];
    }

    ghost method Mark()
      modifies this`history
      ensures history == old(history) + [Now()]
    {
      history := history + [Now()];
    }

    method TargetRemove(e: RemoveEnv) returns (complete: bool)
      modifies this`mapping, this`backstore, this`target, this`history
      ensures complete == RemoveComplete(e)
      ensures history == old(history) + RemoveSteps(old(Now()), e)
      ensures Now() == RemoveSteps(old(Now()), e)[2]
    {
      complete := true;
      if e.deleted >= 1 { target := Absent; }
      Mark();
      if e.deleted >= 2 { backstore := false; } else { complete := false; }
      Mark();
      if e.dmOk { mapping := false; } else { complete := false; }
      Mark();
    }

    /** Only ever called with nothing left over. */
    method TargetCreate(e: CreateEnv) returns (ok: bool)
      requires Empty(Now())
      modifies this`mapping, this`backstore, this`target, this`history
      ensures ok == CreateComplete(e)
      ensures history == old(history) + CreateSteps(old(Now()), e)
      ensures Now() == Last(old(Now()), CreateSteps(old(Now()), e))
    {
      if !e.dmOk {
        mapping := e.dmLeft;
        Mark();
        return false;
      }
      mapping := true;
      Mark();
      if e.made >= 1 { backstore := true; }
      Mark();
      if e.made >= 2 { target := Partial; }
      Mark();
      if e.made >= 3 { target := Live; }
      Mark();
      return e.made >= 3;
    }

    method PersistDiskSession(active: bool)
      modifies this`journal, this`history
      ensures Now() == old(Now()).(journal := active) && history == old(history) + [Now()]
    {
      journal := active;
      Mark();
    }

    method ClearIfRemoved(e: RemoveEnv) returns (complete: bool)
      modifies this`mapping, this`backstore, this`target, this`journal, this`history
      ensures complete == RemoveComplete(e)
      ensures history == old(history) + ClearSteps(old(Now()), e)
      ensures Now() == Last(old(Now()), ClearSteps(old(Now()), e))
    {
      complete := TargetRemove(e);
      if complete && e.unlinkOk { PersistDiskSession(false); }
    }

    method FreshBuild(e: AcquireEnv) returns (ok: bool)
      requires Empty(Now())
      modifies this`mapping, this`backstore, this`target, this`journal, this`history
      ensures ok == CreateComplete(e.create)
      ensures history == old(history) + FreshSteps(old(Now()), e)
      ensures Now() == Last(old(Now()), FreshSteps(old(Now()), e))
    {
      PersistDiskSession(true);
      ok := TargetCreate(e.create);
      if !ok {
        var _ := ClearIfRemoved(e.undo);
      }
    }

    /** The part of acquiring that runs when nobody holds the disk. */
    method Build(e: AcquireEnv) returns (ok: bool)
      requires Safe(Now())
      modifies this`mapping, this`backstore, this`target, this`journal, this`history
      ensures ok == Built(old(Now()), e)
      ensures history == old(history) + BuildSteps(old(Now()), e)
      ensures Now() == Last(old(Now()), BuildSteps(old(Now()), e))
    {
      ghost var d, h := Now(), history;
      var clear := RetryRemoval(e);
      TwoParts(d, h, RetrySteps(d, e), []);
      if !clear || e.info.None? || !e.writeOk { return false; }
      TwoParts(d, h, RetrySteps(d, e), FreshSteps(Now(), e));
      ok := FreshBuild(e);
    }

    /** A journal that is still there means a removal to do again. */
    method RetryRemoval(e: AcquireEnv) returns (clear: bool)
      modifies this`mapping, this`backstore, this`target, this`journal, this`history
      ensures clear == !journal
      ensures clear <==> (old(journal) ==> RemoveComplete(e.retry) && e.retry.unlinkOk)
      ensures history == old(history) + RetrySteps(old(Now()), e)
      ensures Now() == Last(old(Now()), RetrySteps(old(Now()), e))
    {
      if journal {
        var removed := ClearIfRemoved(e.retry);
        return removed && e.retry.unlinkOk;
      }
      return true;
    }

    method AcquireDisk(c: Conn, e: AcquireEnv) returns (reply: Option<Info>)
      requires c in owned && Inv(Abs())
      modifies this
      ensures Abs() == Apply(old(Abs()), Acquire(c, e))
      ensures history == old(history) + Trace(old(Abs()), Acquire(c, e))
      ensures reply.Some? <==> Granted(old(Abs()), Acquire(c, e))
      ensures reply.Some? ==> reply == info
    {
      if !owned[c] {
        if refs == 0 {
          var ok := Build(e);
          if !ok { return None; }
          info := e.info;
        }
        refs := refs + 1;
        owned := owned[c := true];
      } else {
        assert c in Owners(owned);
      }
      return info;
    }

    /** The end of handle_client.  The count is never clamped: an owner is always counted. */
    method CloseConnection(c: Conn, e: RemoveEnv)
      requires c in owned && Inv(Abs())
      modifies this
      ensures Abs() == Apply(old(Abs()), Close(c, e))
      ensures history == old(history) + Trace(old(Abs()), Close(c, e))
      ensures refs == if old(owned[c]) then old(refs) - 1 else old(refs)
    {
      if owned[c] {
        assert c in Owners(owned);
        refs := if refs - 1 > 0 then refs - 1 else 0;
        if refs == 0 {
          var complete := TargetRemove(e);
          if complete {
            info := None;
            if e.unlinkOk { PersistDiskSession(false); }
          }
        }
      }
      owned := owned - {c};
    }

    /** A fresh process: module globals have their initial values, then recovery runs. */
    method StartHelper(e: RemoveEnv)
      requires Safe(Now())
      modifies this
      ensures Abs() == Apply(old(Abs()), Start(e))
      ensures history == old(history) + Trace(old(Abs()), Start(e))
    {
      refs, info, owned := 0, None, map[];
      if journal {
        var _ := ClearIfRemoved(e);
      }
    }
  }

  // --------------------------------------------------------------------------- theorems

  ghost predicate AllSafe(trace: seq<Disk>) {
    forall d :: d in trace ==> Safe(d)
  }

  lemma ClearIsSafe(d: Disk, e: RemoveEnv)
    requires d.journal
    ensures AllSafe(ClearSteps(d, e))
    ensures Last(d, ClearSteps(d, e)).journal ==> !(RemoveComplete(e) && e.unlinkOk)
  {
  }

  lemma FreshIsSafe(d: Disk, e: AcquireEnv)
    requires Empty(d)
    ensures AllSafe(FreshSteps(d, e))
    ensures CreateComplete(e.create) ==> Complete(Last(d, FreshSteps(d, e))) && Last(d, FreshSteps(d, e)).journal
  {
    var d1 := d.(journal := true);
    ClearIsSafe(Last(d1, CreateSteps(d1, e.create)), e.undo);
  }

  lemma BuildIsSafe(d: Disk, e: AcquireEnv)
    requires Safe(d)
    ensures AllSafe(BuildSteps(d, e))
    ensures Built(d, e) ==> Complete(Last(d, BuildSteps(d, e))) && Last(d, BuildSteps(d, e)).journal
  {
    if d.journal { ClearIsSafe(d, e.retry); }
    var d1 := Last(d, RetrySteps(d, e));
    if !d1.journal { FreshIsSafe(d1, e); }
  }

  /** Journal-first safety at every micro-step of every operation. */
  lemma EveryMicroStepIsSafe(s: State, op: Op)
    requires Safe(s.disk)
    ensures AllSafe(Trace(s, op)) && Safe(Last(s.disk, Trace(s, op)))
  {
    match op {
      case Open(_) =>
      case Acquire(_, e) => BuildIsSafe(s.disk, e);
      case Close(_, e) => if s.disk.journal { ClearIsSafe(s.disk, e); }
      case Start(e) => if s.disk.journal { ClearIsSafe(s.disk, e); }
    }
  }

  lemma AcquireKeepsInv(s: State, c: Conn, e: AcquireEnv)
    requires Inv(s)
    ensures Inv(Apply(s, Acquire(c, e)))
  {
    var op := Acquire(c, e);
    EveryMicroStepIsSafe(s, op);
    BuildIsSafe(s.disk, e);
    if c in s.owned && !s.owned[c] && Granted(s, op) {
      assert Owners(s.owned[c := true]) == Owners(s.owned) + {c};
    }
  }

  lemma CloseKeepsInv(s: State, c: Conn, e: RemoveEnv)
    requires Inv(s)
    ensures Inv(Apply(s, Close(c, e)))
  {
    EveryMicroStepIsSafe(s, Close(c, e));
    assert Owners(s.owned - {c}) == Owners(s.owned) - {c};
  }

  lemma ApplyKeepsInv(s: State, op: Op)
    requires Inv(s)
    ensures Inv(Apply(s, op))
  {
    match op {
      case Open(c) => assert c !in s.owned ==> Owners(s.owned[c := false]) == Owners(s.owned);
      case Acquire(c, e) => AcquireKeepsInv(s, c, e);
      case Close(c, e) => CloseKeepsInv(s, c, e);
      case Start(_) =>
        EveryMicroStepIsSafe(s, op);
        assert Owners(map[]) == {};
    }
  }

  /** An operation that completes, or one cut short by a kill after `steps` of its micro-steps. */
  datatype Event = Runs(op: Op) | KilledIn(op: Op, steps: nat)

  function Next(s: State, e: Event): State
    requires Safe(s.disk)
  {
    match e
    case Runs(op) => Apply(s, op)
    case KilledIn(op, n) =>
      var t := Trace(s, op);
      State(Last(s.disk, if n < |t| then t[..n] else t), 0, None, map[])
  }

  lemma NextKeepsInv(s: State, e: Event)
    requires Inv(s)
    ensures Inv(Next(s, e))
  {
    if e.Runs? {
      ApplyKeepsInv(s, e.op);
    } else {
      EveryMicroStepIsSafe(s, e.op);
      assert Owners(map[]) == {};
    }
  }

  ghost function Run(s: State, es: seq<Event>): State
    requires Inv(s)
    decreases |es|
  {
    if es == [] then s
    else
      NextKeepsInv(s, es[0]);
      Run(Next(s, es[0]), es[1..])
  }

  /** Every run, with kills at any micro-step and in any order: whatever exists is journalled, the
    * count is the number of owning connections, and a positive count means a live target. */
  lemma {:induction false} DiskLeaseIsSound(s: State, es: seq<Event>)
    requires Inv(s)
    ensures
      var t := Run(s, es);
      && (Empty(t.disk) || t.disk.journal)
      && t.refs == |Owners(t.owned)|
      && (t.refs > 0 ==> Complete(t.disk) && t.info.Some?)
    decreases |es|
  {
    if es != [] {
      NextKeepsInv(s, es[0]);
      DiskLeaseIsSound(Next(s, es[0]), es[1..]);
    }
  }

  lemma FreshMachineIsValid()
    ensures Inv(State(Disk(false, false, Absent, false), 0, None, map[]))
  {
    assert Owners(map[]) == {};
  }

  /** A removal that failed is the first thing the next acquire or restart does again, and nothing
    * is built before it has succeeded. */
  lemma FailedRemovalIsRetriedFirst(s: State, c: Conn, e: AcquireEnv, r: RemoveEnv)
    requires Inv(s) && s.disk.journal && s.refs == 0 && c in s.owned
    ensures RemoveSteps(s.disk, e.retry) <= Trace(s, Acquire(c, e))
    ensures RemoveSteps(s.disk, r) <= Trace(s, Start(r))
    ensures Granted(s, Acquire(c, e)) ==> RemoveComplete(e.retry)
  {
    assert c !in Owners(s.owned);
  }

  ghost predicate Maps(d: Disk, trace: seq<Disk>, i: nat)
    requires i < |trace|
  {
    trace[i].mapping && !(if i == 0 then d else trace[i - 1]).mapping
  }

  lemma ClearNeverMaps(d: Disk, e: RemoveEnv, i: nat)
    requires i < |ClearSteps(d, e)|
    ensures !Maps(d, ClearSteps(d, e), i)
  {
  }

  lemma FreshMapsOnce(d: Disk, e: AcquireEnv, i: nat)
    requires Empty(d) && i < |FreshSteps(d, e)| && Maps(d, FreshSteps(d, e), i)
    ensures i == 1
  {
    var d1 := d.(journal := true);
    var build := CreateSteps(d1, e.create);
    if i > |build| {
      ClearNeverMaps(Last(d1, build), e.undo, i - 1 - |build|);
    }
  }

  /** A target is never built over leftovers: the disk just before a mapping appears is empty and
    * already journalled. */
  lemma BuildStartsEmpty(d: Disk, e: AcquireEnv, i: nat)
    requires Safe(d) && i < |BuildSteps(d, e)| && Maps(d, BuildSteps(d, e), i)
    ensures i > 0 && Empty(BuildSteps(d, e)[i - 1]) && BuildSteps(d, e)[i - 1].journal
  {
    var retry := RetrySteps(d, e);
    if i < |retry| {
      ClearNeverMaps(d, e.retry, i);
    } else {
      FreshMapsOnce(Last(d, retry), e, i - |retry|);
    }
  }

  /** Once removal works, a restart leaves nothing behind. */
  lemma RestartCleansUp(s: State, r: RemoveEnv)
    requires Inv(s) && RemoveComplete(r) && r.unlinkOk
    ensures Apply(s, Start(r)) == State(Disk(false, false, Absent, false), 0, None, map[])
  {
  }

  // ------------------------------------------------------------ what callers are promised

  /** The last close takes the target down and forgets it; while its removal fails it stays journalled. */
  lemma LastCloseTakesDown(s: State, c: Conn, e: RemoveEnv)
    requires Inv(s) && Owners(s.owned) == {c}
    ensures
      var r := Apply(s, Close(c, e));
      && r.refs == 0 && c !in r.owned
      && (RemoveComplete(e) && e.unlinkOk ==> r.disk == Disk(false, false, Absent, false) && r.info.None?)
      && (!RemoveComplete(e) ==> r.disk.journal)
    ensures RemoveSteps(s.disk, e) <= Trace(s, Close(c, e))
  {
    assert c in Owners(s.owned);
  }

  /** Any other close leaves the target alone. */
  lemma OtherCloseLeavesTarget(s: State, c: Conn, e: RemoveEnv)
    requires Inv(s) && c in s.owned && Owners(s.owned) != {c}
    ensures
      var r := Apply(s, Close(c, e));
      && r.disk == s.disk && r.owned == s.owned - {c} && Trace(s, Close(c, e)) == []
      && r.refs == |Owners(s.owned) - {c}| && r.info == s.info
  {
    if s.owned[c] {
      assert c in Owners(s.owned);
      assert Owners(s.owned) - {c} != {};
      assert |Owners(s.owned) - {c}| == s.refs - 1;
    } else {
      assert Owners(s.owned) - {c} == Owners(s.owned);
    }
  }

  /** The first acquire is granted when nothing on the way fails, and then the target is live, counted
    * once, and described by what was measured. */
  lemma FirstAcquireBuilds(s: State, c: Conn, e: AcquireEnv)
    requires Inv(s) && c in s.owned && Owners(s.owned) == {}
    requires s.disk.journal ==> e.retry.deleted >= 2 && e.retry.dmOk && e.retry.unlinkOk
    requires e.info.Some? && e.writeOk && e.create.dmOk && e.create.made >= 3
    ensures Granted(s, Acquire(c, e))
    ensures Apply(s, Acquire(c, e)) == State(Disk(true, true, Live, true), 1, e.info, s.owned[c := true])
  {
    assert c !in Owners(s.owned);
    if s.disk.journal { ClearIsSafe(s.disk, e.retry); }
    BuildIsSafe(s.disk, e);
  }

  /** Another connection joins the live target without touching it. */
  lemma SecondAcquireJoins(s: State, c: Conn, e: AcquireEnv)
    requires Inv(s) && c in s.owned && Owners(s.owned) != {}
    ensures Granted(s, Acquire(c, e)) && Trace(s, Acquire(c, e)) == []
    ensures
      var r := Apply(s, Acquire(c, e));
      && r.disk == s.disk && r.info == s.info && r.owned == s.owned[c := true]
      && r.refs == |Owners(s.owned) + {c}|
  {
    if s.owned[c] {
      assert c in Owners(s.owned);
      assert Owners(s.owned) + {c} == Owners(s.owned) && s.owned[c := true] == s.owned;
    }
  }

  /** An acquire that fails grants nothing; when undoing a failed build works, nothing is left of it. */
  lemma FailedAcquireGrantsNothing(s: State, c: Conn, e: AcquireEnv)
    requires Inv(s) && c in s.owned && !Granted(s, Acquire(c, e))
    ensures
      var r := Apply(s, Acquire(c, e));
      && r.refs == s.refs && r.owned == s.owned && r.info == s.info
      && (Empty(s.disk) && !s.disk.journal && RemoveComplete(e.undo) && e.undo.unlinkOk ==>
            r.disk == Disk(false, false, Absent, false))
  {
  }

  /** The mapping is under the backstore and the backstore under the target. */
  predicate Layered(d: Disk) {
    (!d.target.Absent? ==> d.backstore) && (d.backstore ==> d.mapping)
  }

  /** Building goes from the bottom up and a removal that works from the top down, so the layers are in
    * order at every micro-step. */
  lemma LayersStayInOrder(d: Disk, create: CreateEnv, e: RemoveEnv)
    ensures Empty(d) ==> forall x :: x in CreateSteps(d, create) ==> Layered(x)
    ensures Layered(d) && e.deleted >= 2 ==> forall x :: x in ClearSteps(d, e) ==> Layered(x)
  {
  }
}
