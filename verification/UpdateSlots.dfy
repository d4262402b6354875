/** The A/B updater of moonlight-update, the boot menu of 09_moonlight_slots, and GRUB's one-shot
  * entry.
  *
  * A release is copied into the inactive slot by a fixed list of commands, tried once, and made the
  * default after 90 healthy seconds.  Any command may fail and power may be lost after any of them,
  * so an update is the list of machine states it passes through.
  *
  * Assumed of the environment: commands take effect in order; the `pending` file and GRUB's own
  * files are replaced atomically; GRUB clears the one-shot entry when it uses it; nobody picks a
  * menu entry by hand.
  */
module UpdateSlots {
  import opened Basics

  datatype Slot = A | B

  /** A boot file: absent, half written, or whole and built for the root with the given UUID. */
  datatype File = Missing | Torn | Image(root: int)

  /** slots.conf: the recorded UUIDs; None stands for an empty or missing value. */
  datatype SlotsConf = SlotsConf(a: Option<int>, b: Option<int>, boot: Option<int>)

  /** The root filesystem of a slot, with its slots.conf if there is one. */
  datatype Root = Root(uuid: int, copied: bool, restored: bool, slotFiles: bool, configured: bool,
                       slots: Option<SlotsConf>)

  /** A menu entry: the root it mounts and the boot partition it searches for the files. */
  datatype Entry = Entry(root: int, boot: Option<int>)

  /** A slot: its root, its pair of boot files with their `.new` forms, its menu entry. */
  datatype SlotState = SlotState(root: Root, kernel: File, initrd: File,
                                 kernelNew: File, initrdNew: File, entry: Option<Entry>)

  datatype Status = Quiet | Staged(slot: Slot) | Installed(slot: Slot) | RolledBack(slot: Slot)

  datatype State = State(
    a: SlotState, b: SlotState,
    bootUuid: int,                            // of the shared boot partition
    sharedKernel: File, sharedInitrd: File,   // /boot/vmlinuz-V and /boot/initrd.img-V
    saved: Slot,                              // GRUB's saved default
    next: Option<Slot>,                       // GRUB's one-shot entry
    pending: Option<Slot>,                    // /boot/moonlight/pending
    status: Status,
    running: Option<Slot>,                    // None while the machine is off
    ticked: bool)                             // the 90 second timer has fired in this boot

  function Other(x: Slot): Slot {
    if x == A then B else A
  }

  function At(s: State, x: Slot): SlotState {
    if x == A then s.a else s.b
  }

  function With(s: State, x: Slot, v: SlotState): State {
    if x == A then s.(a := v) else s.(b := v)
  }

  predicate CompleteRoot(r: Root) {
    r.copied && r.restored && r.slotFiles && r.configured
  }

  /** A complete root, its own intact kernel and initrd, and a menu entry for this very root that looks
    * for the files on the boot partition. */
  predicate Bootable(s: State, y: Slot) {
    var x := At(s, y);
    && CompleteRoot(x.root)
    && x.kernel == Image(x.root.uuid) && x.initrd == Image(x.root.uuid)
    && x.entry == Some(Entry(x.root.uuid, Some(s.bootUuid)))
  }

  /** What every micro-step keeps. */
  predicate Safe(s: State) {
    && Bootable(s, s.saved)
    && (s.pending.Some? ==> Bootable(s, s.pending.value))
    && (s.next.Some? ==> s.pending == s.next && s.next.value != s.saved)
    && (s.running.Some? ==> s.running.value == s.saved || s.pending == s.running)
  }

  /** Safe, and nothing was scheduled in a boot whose timer is still to fire. */
  predicate Inv(s: State) {
    Safe(s) && (s.running.Some? && !s.ticked ==> s.next.None?)
  }

  predicate Settled(s: State) {
    s.running == Some(s.saved) && s.pending.None? && s.next.None?
  }

  // --------------------------------------------------------------- the commands of an update

  /** New root's UUID, the slots.conf found in the settings archive if it has one, and the labels that
    * blkid resolves while update-grub runs: of the roots, and of the boot partition. */
  datatype Env = Env(uuid: int, archive: Option<SlotsConf>, probed: set<Slot>, bootProbed: bool)

  datatype Command =
    | Wipe | Mkfs | Rsync | InstallKernel | RestoreSettings | WriteSlotFiles | Configure
    | TearInitramfs | Initramfs
    | TearKernelCopy | CopyKernel | TearInitrdCopy | CopyInitrd | MoveKernel | MoveInitrd
    | UpdateGrub | WritePending | GrubReboot | WriteStatus
    | RemovePending | SetDefault(slot: Slot) | Report(status: Status)

  /** prepare_target in order.  `Wipe` and the `Tear` commands are the moments at which mkfs,
    * update-initramfs and cp are half done. */
  const SCRIPT: seq<Command> := [
    Wipe, Mkfs, Rsync, InstallKernel, RestoreSettings, WriteSlotFiles, Configure,
    TearInitramfs, Initramfs,
    TearKernelCopy, CopyKernel, TearInitrdCopy, CopyInitrd, MoveKernel, MoveInitrd,
    UpdateGrub, WritePending, GrubReboot, WriteStatus]

  /** The root UUID for x's entry: the one its label has now, or else the one recorded, if any. */
  function EntryUuid(s: State, conf: SlotsConf, probed: set<Slot>, x: Slot): Option<int> {
    if x in probed then Some(At(s, x).root.uuid) else if x == A then conf.a else conf.b
  }

  /** update-grub runs in the target's root: x gets an entry if a UUID and both files are found. */
  function EmitSlot(s: State, target: Slot, e: Env, x: Slot): Option<Entry> {
    match At(s, target).root.slots
    case None => None
    case Some(conf) =>
      var uuid := EntryUuid(s, conf, e.probed, x);
      if uuid.None? || At(s, x).kernel.Missing? || At(s, x).initrd.Missing? then None
      else Some(Entry(uuid.value, if e.bootProbed then Some(s.bootUuid) else conf.boot))
  }

  /** The UUIDs write_slot_files reads from the partitions. */
  function Current(s: State): SlotsConf {
    SlotsConf(Some(s.a.root.uuid), Some(s.b.root.uuid), Some(s.bootUuid))
  }

  function Exec(s: State, t: Slot, e: Env, c: Command): State {
    var x := At(s, t);
    match c
    case Wipe => With(s, t, x.(root := x.root.(copied := false, restored := false,
                                               slotFiles := false, configured := false)))
    case Mkfs => With(s, t, x.(root := x.root.(uuid := e.uuid, slots := None)))
    case Rsync => With(s, t, x.(root := x.root.(copied := true)))
    case InstallKernel => s.(sharedKernel := Image(x.root.uuid))
    case RestoreSettings => With(s, t, x.(root := x.root.(restored := true, slots := e.archive)))
    case WriteSlotFiles => With(s, t, x.(root := x.root.(slotFiles := true, slots := Some(Current(s)))))
    case Configure => With(s, t, x.(root := x.root.(configured := true)))
    case TearInitramfs => s.(sharedInitrd := Torn)
    case Initramfs => s.(sharedInitrd := Image(x.root.uuid))
    case TearKernelCopy => With(s, t, x.(kernelNew := Torn))
    case CopyKernel => With(s, t, x.(kernelNew := s.sharedKernel))
    case TearInitrdCopy => With(s, t, x.(initrdNew := Torn))
    case CopyInitrd => With(s, t, x.(initrdNew := s.sharedInitrd))
    case MoveKernel => With(s, t, x.(kernel := x.kernelNew, kernelNew := Missing))
    case MoveInitrd => With(s, t, x.(initrd := x.initrdNew, initrdNew := Missing))
    case UpdateGrub => s.(a := s.a.(entry := EmitSlot(s, t, e, A)), b := s.b.(entry := EmitSlot(s, t, e, B)))
    case WritePending => s.(pending := Some(t))
    case GrubReboot => s.(next := Some(t))
    case WriteStatus => s.(status := Staged(t))
    case RemovePending => s.(pending := None)
    case SetDefault(x) => s.(saved := x)
    case Report(status) => s.(status := status)
  }

  /** The machine after the first k commands of a list. */
  function After(s: State, t: Slot, e: Env, cs: seq<Command>, k: nat): State
    requires k <= |cs|
  {
    if k == 0 then s else Exec(After(s, t, e, cs, k - 1), t, e, cs[k - 1])
  }

  /** How far an update gets: it stops after n commands, or grub-reboot refuses and pending is
    * removed again. */
  datatype Ending = Stops(n: nat) | GrubRefuses

  function Commands(end: Ending): seq<Command> {
    match end
    case Stops(n) => if n < |SCRIPT| then SCRIPT[..n] else SCRIPT
    case GrubRefuses => SCRIPT[..17] + [RemovePending]
  }

  /** confirm_boot when the timer fires. */
  function ConfirmCommands(s: State): seq<Command> {
    if s.running.None? || s.pending.None? then []
    else if s.pending == s.running then
      [SetDefault(s.running.value), Report(Installed(s.running.value)), RemovePending]
    else [Report(RolledBack(s.pending.value)), RemovePending]
  }

  /** The boot menu for any root it is built in, stale records included: a label that is found decides, a
    * record counts only where no label is found, and an entry needs a UUID and both files. */
  lemma LabelsOverrideRecords(s: State, t: Slot, e: Env, x: Slot, conf: SlotsConf)
    requires At(s, t).root.slots == Some(conf)
    ensures
      var entry, recorded := EmitSlot(s, t, e, x), if x == A then conf.a else conf.b;
      && (entry.Some? <==>
            !At(s, x).kernel.Missing? && !At(s, x).initrd.Missing? && (x in e.probed || recorded.Some?))
      && (entry.Some? && x in e.probed ==> entry.value.root == At(s, x).root.uuid)
      && (entry.Some? && x !in e.probed ==> Some(entry.value.root) == recorded)
      && (entry.Some? ==> entry.value.boot == if e.bootProbed then Some(s.bootUuid) else conf.boot)
  {
  }

  // --------------------------------------------------------------------- update micro-steps

  /** The state in which update_menu reaches prepare_target. */
  predicate CanUpdate(s: State) {
    s.running.Some? && s.pending.None?
  }

  /** What holds after k commands of the script, started from s0 for the slot t that is not running. */
  predicate Progress(s0: State, s: State, t: Slot, e: Env, k: nat) {
    var x := At(s, t);
    var own := Image(e.uuid);
    && At(s, Other(t)) == At(s0, Other(t))
    && s.saved == s0.saved && s.running == s0.running && s.ticked == s0.ticked && s.bootUuid == s0.bootUuid
    && (k >= 2 ==> x.root.uuid == e.uuid)
    && (k >= 3 ==> x.root.copied)
    && (k >= 4 ==> s.sharedKernel == own)
    && (k >= 5 ==> x.root.restored)
    && (k >= 6 ==> x.root.slotFiles && x.root.slots == Some(Current(s)))
    && (k >= 7 ==> x.root.configured)
    && (k >= 9 ==> s.sharedInitrd == own)
    && (11 <= k <= 13 ==> x.kernelNew == own)
    && (13 <= k <= 14 ==> x.initrdNew == own)
    && (k >= 14 ==> x.kernel == own)
    && (k >= 15 ==> x.initrd == own)
    && (k >= 16 ==> x.entry == Some(Entry(e.uuid, Some(s.bootUuid))))
    && s.pending == (if k >= 17 then Some(t) else None)
    && s.next == (if k >= 18 then Some(t) else None)
  }

  lemma FillingRoot(s0: State, s: State, t: Slot, e: Env, k: nat)
    requires k < 7 && Progress(s0, s, t, e, k)
    ensures Progress(s0, Exec(s, t, e, SCRIPT[k]), t, e, k + 1)
  {
  }

  lemma PackingKernel(s0: State, s: State, t: Slot, e: Env, k: nat)
    requires 7 <= k < 11 && Progress(s0, s, t, e, k)
    ensures Progress(s0, Exec(s, t, e, SCRIPT[k]), t, e, k + 1)
  {
  }

  lemma StagingFiles(s0: State, s: State, t: Slot, e: Env, k: nat)
    requires 11 <= k < 15 && Progress(s0, s, t, e, k)
    ensures Progress(s0, Exec(s, t, e, SCRIPT[k]), t, e, k + 1)
  {
  }

  /** The menu is rebuilt with both entries correct, whether or not blkid finds the labels. */
  lemma Scheduling(s0: State, s: State, t: Slot, e: Env, k: nat)
    requires Bootable(s0, Other(t))
    requires 15 <= k < |SCRIPT| && Progress(s0, s, t, e, k)
    ensures Progress(s0, Exec(s, t, e, SCRIPT[k]), t, e, k + 1)
  {
  }

  lemma ProgressStep(s0: State, s: State, t: Slot, e: Env, k: nat)
    requires Bootable(s0, Other(t))
    requires k < |SCRIPT| && Progress(s0, s, t, e, k)
    ensures Progress(s0, Exec(s, t, e, SCRIPT[k]), t, e, k + 1)
  {
    if k < 7 { FillingRoot(s0, s, t, e, k); }
    else if k < 11 { PackingKernel(s0, s, t, e, k); }
    else if k < 15 { StagingFiles(s0, s, t, e, k); }
    else { Scheduling(s0, s, t, e, k); }
  }

  lemma {:induction false} ProgressAfter(s0: State, t: Slot, e: Env, k: nat)
    requires Bootable(s0, Other(t)) && s0.pending.None? && s0.next.None? && k <= |SCRIPT|
    ensures Progress(s0, After(s0, t, e, SCRIPT, k), t, e, k)
  {
    if k > 0 {
      ProgressAfter(s0, t, e, k - 1);
      ProgressStep(s0, After(s0, t, e, SCRIPT, k - 1), t, e, k - 1);
    }
  }

  lemma AfterPrefix(s: State, t: Slot, e: Env, cs: seq<Command>, ds: seq<Command>, k: nat)
    requires k <= |cs| && cs <= ds
    ensures After(s, t, e, cs, k) == After(s, t, e, ds, k)
  {
  }

  /** Crash safety of an update: whatever command it stops after, for whatever reason, the machine
    * is Safe at that moment and the default slot is not touched at all. */
  lemma UpdateMicroSteps(s: State, e: Env, end: Ending, k: nat)
    requires Safe(s) && CanUpdate(s) && k <= |Commands(end)|
    ensures
      var r := After(s, Other(s.running.value), e, Commands(end), k);
      && Safe(r) && r.saved == s.saved && At(r, s.saved) == At(s, s.saved)
      && r.running == s.running && r.ticked == s.ticked
  {
    var t := Other(s.running.value);
    var n := if end.GrubRefuses? && k == 18 then 17 else k;
    var cs := if end.GrubRefuses? then SCRIPT[..17] else Commands(end);
    ProgressAfter(s, t, e, n);
    AfterPrefix(s, t, e, cs, SCRIPT, n);
    AfterPrefix(s, t, e, cs, Commands(end), n);
  }

  lemma OnlyReportsChangeStatus(s: State, t: Slot, e: Env, c: Command)
    requires !c.WriteStatus? && !c.Report?
    ensures Exec(s, t, e, c).status == s.status
  {
  }

  lemma {:induction false} StatusKept(s: State, t: Slot, e: Env, k: nat)
    requires k <= 18
    ensures After(s, t, e, SCRIPT, k).status == s.status
  {
    if k > 0 {
      StatusKept(s, t, e, k - 1);
      OnlyReportsChangeStatus(After(s, t, e, SCRIPT, k - 1), t, e, SCRIPT[k - 1]);
    }
  }

  lemma RefusedUpdateEnds(s: State, t: Slot, e: Env)
    requires Bootable(s, Other(t)) && s.pending.None? && s.next.None?
    ensures
      var r := After(s, t, e, Commands(GrubRefuses), 18);
      r.pending.None? && r.next.None? && r.status == s.status
  {
    ProgressAfter(s, t, e, 17);
    StatusKept(s, t, e, 17);
    AfterPrefix(s, t, e, SCRIPT[..17], SCRIPT, 17);
    AfterPrefix(s, t, e, SCRIPT[..17], Commands(GrubRefuses), 17);
  }

  lemma FinishedUpdateEnds(s: State, t: Slot, e: Env)
    requires Bootable(s, Other(t)) && s.pending.None? && s.next.None?
    ensures
      var r := After(s, t, e, SCRIPT, 19);
      r.pending == r.next == Some(t) && r.status == Staged(t) && Bootable(r, t) && At(r, t).root.uuid == e.uuid
  {
    ProgressAfter(s, t, e, 19);
  }

  lemma UnfinishedUpdateEnds(s: State, t: Slot, e: Env, n: nat)
    requires Bootable(s, Other(t)) && s.pending.None? && s.next.None? && n < 17
    ensures
      var r := After(s, t, e, Commands(Stops(n)), n);
      r.pending.None? && r.next.None? && r.status == s.status
  {
    ProgressAfter(s, t, e, n);
    StatusKept(s, t, e, n);
    AfterPrefix(s, t, e, SCRIPT[..n], SCRIPT, n);
  }

  /** What an update leaves behind at its end.  One that grub-reboot refused leaves no mark of itself but
    * the inactive slot's contents; one that ran to its end has the new root staged and scheduled. */
  lemma UpdateEnds(s: State, e: Env, end: Ending)
    requires Safe(s) && s.running.Some? && s.pending.None?
    ensures
      var t := Other(s.running.value);
      var r := After(s, t, e, Commands(end), |Commands(end)|);
      && (end.GrubRefuses? || end.n < 17 ==> r.pending.None? && r.next.None? && r.status == s.status)
      && (end.Stops? && end.n >= 19 ==>
            r.pending == r.next == Some(t) && r.status == Staged(t) && Bootable(r, t) && At(r, t).root.uuid == e.uuid)
  {
    var t := Other(s.running.value);
    if end.GrubRefuses? {
      RefusedUpdateEnds(s, t, e);
    } else if end.n >= 19 {
      FinishedUpdateEnds(s, t, e);
    } else if end.n < 17 {
      UnfinishedUpdateEnds(s, t, e, end.n);
    }
  }

  // ----------------------------------------------------------------- boots and confirmations

  const NO_ENV := Env(0, None, {}, false)

  /** The entry GRUB picks. */
  function Choice(s: State): Slot {
    if s.next.Some? then s.next.value else s.saved
  }

  /** An update, a boot, or the 90 second timer; `steps` micro-steps of it happen, and `off` says
    * that power was lost there. */
  datatype Event =
    | Update(env: Env, end: Ending, steps: nat, off: bool)
    | Boot(up: bool)
    | Tick(steps: nat, off: bool)

  function Cut(s: State, t: Slot, e: Env, cs: seq<Command>, steps: nat, off: bool): State {
    var r := After(s, t, e, cs, if steps < |cs| then steps else |cs|);
    if off then r.(running := None) else r
  }

  function Next(s: State, e: Event): State {
    match e
    case Update(env, end, n, off) =>
      if CanUpdate(s) then Cut(s, Other(s.running.value), env, Commands(end), n, off) else s
    case Boot(up) =>
      s.(next := None, ticked := false,
         running := if up && Bootable(s, Choice(s)) then Some(Choice(s)) else None)
    case Tick(n, off) =>
      if s.running.Some? && !s.ticked
      then Cut(s.(ticked := true), A, NO_ENV, ConfirmCommands(s), n, off) else s
  }

  function Run(s: State, es: seq<Event>): State
    decreases |es|
  {
    if es == [] then s else Run(Next(s, es[0]), es[1..])
  }

  /** No update is started before the timer of its boot has fired. */
  ghost predicate Patient(s: State, es: seq<Event>)
    decreases |es|
  {
    es != [] ==> (es[0].Update? && CanUpdate(s) ==> s.ticked) && Patient(Next(s, es[0]), es[1..])
  }

  /** A confirmation is at most three commands: the machine after each of them, spelled out. */
  lemma ConfirmStates(s: State, cs: seq<Command>)
    ensures After(s, A, NO_ENV, cs, 0) == s
    ensures |cs| >= 1 ==> After(s, A, NO_ENV, cs, 1) == Exec(s, A, NO_ENV, cs[0])
    ensures |cs| >= 2 ==> After(s, A, NO_ENV, cs, 2) == Exec(After(s, A, NO_ENV, cs, 1), A, NO_ENV, cs[1])
    ensures |cs| >= 3 ==> After(s, A, NO_ENV, cs, 3) == Exec(After(s, A, NO_ENV, cs, 2), A, NO_ENV, cs[2])
  {
    assert After(s, A, NO_ENV, cs, 0) == s;
  }

  /** The machine during the confirmation of the staged slot. */
  lemma Confirming(s: State, k: nat)
    requires s.running.Some? && s.pending == s.running && k <= |ConfirmCommands(s)|
    ensures
      var r := After(s, A, NO_ENV, ConfirmCommands(s), k);
      var confirmed := s.(saved := s.running.value);
      r == if k == 0 then s else if k == 1 then confirmed
           else confirmed.(status := Installed(s.running.value), pending := if k == 2 then s.pending else None)
  {
    ConfirmStates(s, ConfirmCommands(s));
  }

  /** The machine while it notes that the staged slot was rolled back. */
  lemma NotConfirming(s: State, k: nat)
    requires s.running.Some? && s.pending.Some? && s.pending != s.running && k <= |ConfirmCommands(s)|
    ensures
      var r := After(s, A, NO_ENV, ConfirmCommands(s), k);
      r == if k == 0 then s
           else s.(status := RolledBack(s.pending.value), pending := if k == 1 then s.pending else None)
  {
    ConfirmStates(s, ConfirmCommands(s));
  }

  lemma ConfirmMicroSteps(s: State, k: nat)
    requires Safe(s) && s.next.None? && k <= |ConfirmCommands(s)|
    ensures
      var r := After(s, A, NO_ENV, ConfirmCommands(s), k);
      Safe(r) && r.next.None? && r.running == s.running && r.ticked == s.ticked
  {
    if s.running.None? || s.pending.None? {
      assert k == 0;
    } else if s.pending == s.running {
      Confirming(s, k);
    } else {
      NotConfirming(s, k);
    }
  }

  lemma NextKeepsInv(s: State, e: Event)
    requires Inv(s) && (e.Update? && CanUpdate(s) ==> s.ticked)
    ensures Inv(Next(s, e))
  {
    match e {
      case Update(env, end, n, off) =>
        if CanUpdate(s) {
          UpdateMicroSteps(s, env, end, if n < |Commands(end)| then n else |Commands(end)|);
        }
      case Boot(up) =>
      case Tick(n, off) =>
        if s.running.Some? && !s.ticked {
          var s1 := s.(ticked := true);
          ConfirmMicroSteps(s1, if n < |ConfirmCommands(s1)| then n else |ConfirmCommands(s1)|);
        }
    }
  }

  /** A/B crash safety.  Over any run of updates, failed updates, trial boots, confirmations and
    * power losses after any micro-step, the saved default names a complete root with its own intact
    * kernel pair and a menu entry carrying that root's UUID; so does whatever GRUB would pick. */
  lemma {:induction false} DefaultAlwaysBoots(s: State, es: seq<Event>)
    requires Inv(s) && Patient(s, es)
    ensures Inv(Run(s, es))
    ensures Bootable(Run(s, es), Run(s, es).saved) && Bootable(Run(s, es), Choice(Run(s, es)))
    decreases |es|
  {
    if es != [] {
      NextKeepsInv(s, es[0]);
      DefaultAlwaysBoots(Next(s, es[0]), es[1..]);
    }
  }

  /** A refused update can be repeated: nothing waits for a boot, and GRUB still picks the default. */
  lemma RefusedUpdateLeavesNoMark(s: State, e: Env, off: bool)
    requires Safe(s) && s.running.Some? && s.pending.None?
    ensures
      var r := Next(s, Update(e, GrubRefuses, 18, off));
      && r.pending.None? && r.next.None? && r.status == s.status && r.saved == s.saved == Choice(r)
      && r.running == (if off then None else s.running)
  {
    UpdateEnds(s, e, GrubRefuses);
    UpdateMicroSteps(s, e, GrubRefuses, 18);
  }

  /** A finished update is tried at the next boot and, if that boot stays up, becomes the default. */
  lemma FinishedUpdateIsInstalled(s: State, e: Env, off: bool)
    requires Safe(s) && s.running.Some? && s.pending.None?
    ensures
      var t := Other(s.running.value);
      var trial := Next(Next(s, Update(e, Stops(19), 19, off)), Boot(true));
      var r := Next(trial, Tick(3, false));
      && trial.running == Some(t) && trial.saved == s.saved && At(trial, t).root.uuid == e.uuid
      && Settled(r) && r.saved == t && r.status == Installed(t)
  {
    var t := Other(s.running.value);
    UpdateEnds(s, e, Stops(19));
    UpdateMicroSteps(s, e, Stops(19), 19);
    var trial := Next(Next(s, Update(e, Stops(19), 19, off)), Boot(true));
    assert trial.pending == trial.running == Some(t);
    Confirming(trial.(ticked := true), 3);
  }

  /** A trial that does not come up is not repeated: the boot after it is the old default's, and its timer
    * reports the trial rolled back. */
  lemma FailedTrialIsRolledBack(s: State, e: Env, off: bool)
    requires Safe(s) && s.running.Some? && s.pending.None?
    ensures
      var t := Other(s.running.value);
      var back := Next(Next(Next(s, Update(e, Stops(19), 19, off)), Boot(false)), Boot(true));
      var r := Next(back, Tick(2, false));
      back.running == Some(s.saved) && Settled(r) && r.saved == s.saved && r.status == RolledBack(t)
  {
    var t := Other(s.running.value);
    UpdateEnds(s, e, Stops(19));
    UpdateMicroSteps(s, e, Stops(19), 19);
    var back := Next(Next(Next(s, Update(e, Stops(19), 19, off)), Boot(false)), Boot(true));
    assert back.pending == Some(t) && back.running == Some(s.saved);
    NotConfirming(back.(ticked := true), 2);
  }

  /** While an update waits for its boot, or the machine is off, no other starts. */
  lemma OneUpdateAtATime(s: State, e: Env, end: Ending, n: nat, off: bool)
    requires s.pending.Some? || s.running.None?
    ensures Next(s, Update(e, end, n, off)) == s
  {
  }

  /** One healthy boot settles everything, from any state: the running slot is the default and nothing
    * is pending.  The status says `installed` exactly when the staged slot is the one that ran. */
  lemma HealthyBootSettles(s: State)
    requires Inv(s)
    ensures
      var r := Next(Next(s, Boot(true)), Tick(3, false));
      && Settled(r) && r.saved == Choice(s)
      && (s.pending.Some? ==>
            r.status == if s.pending.value == Choice(s) then Installed(Choice(s)) else RolledBack(s.pending.value))
      && (s.pending.None? ==> r.status == s.status)
  {
    var s1 := Next(s, Boot(true)).(ticked := true);
    ConfirmStates(s1, ConfirmCommands(s1));
  }

  /** Bounded recovery: with an update pending, whether the trial comes up, dies before the timer, or
    * loses power anywhere inside the confirmation, one more healthy boot settles the machine.  A
    * trial that never comes up leaves the old default in charge. */
  lemma BoundedRecovery(s: State, up: bool, steps: nat)
    requires Inv(s) && s.pending.Some?
    ensures
      var first := Next(s, Boot(up));
      var cut := Next(first, Tick(steps, true));
      && Settled(Next(Next(first, Boot(true)), Tick(3, false)))
      && Settled(Next(Next(cut, Boot(true)), Tick(3, false)))
      && (!up ==> Next(Next(first, Boot(true)), Tick(3, false)).saved == s.saved)
  {
    var first := Next(s, Boot(up));
    NextKeepsInv(s, Boot(up));
    NextKeepsInv(first, Tick(steps, true));
    HealthyBootSettles(first);
    HealthyBootSettles(Next(first, Tick(steps, true)));
  }

  // ------------------------------------------------------- where the assumption is needed

  /** The timer's confirmation is harmless exactly when nothing is scheduled. */
  lemma TickIsSafeIffNothingScheduled(s: State)
    requires Safe(s) && s.running.Some? && !s.ticked
    ensures Safe(Next(s, Tick(3, false))) <==> s.next.None?
  {
    var s1 := s.(ticked := true);
    ConfirmStates(s1, ConfirmCommands(s1));
  }

  /** What that costs.  A machine whose one-shot entry, if any, was set while the default ran keeps a
    * bootable default over every patient run exactly when Inv holds: when nothing is scheduled in a boot
    * whose timer is still to fire. */
  lemma DefaultStaysBootableIff(s: State)
    requires Safe(s) && (s.running.Some? && s.next.Some? ==> s.running == Some(s.saved))
    ensures (forall es :: Patient(s, es) ==> Bootable(Run(s, es), Run(s, es).saved)) <==> Inv(s)
  {
    if Inv(s) {
      forall es | Patient(s, es)
        ensures Bootable(Run(s, es), Run(s, es).saved)
      {
        DefaultAlwaysBoots(s, es);
      }
    } else {
      var tick, late := Tick(3, false), Update(NO_ENV, Stops(1), 1, true);
      var es := [tick, Boot(true), tick, late];
      ScheduledTickIsFatal(s);
      RunOfFour(s, tick, Boot(true), tick, late);
      assert Patient(s, es) && !Bootable(Run(s, es), Run(s, es).saved);
    }
  }

  /** The timer takes the pending mark away, the trial boot is never confirmed, and the next update begins
    * with the default slot. */
  lemma ScheduledTickIsFatal(s: State)
    requires Safe(s) && s.running == Some(s.saved) && !s.ticked && s.next.Some?
    ensures
      var tick, late := Tick(3, false), Update(NO_ENV, Stops(1), 1, true);
      var trial := Next(Next(Next(s, tick), Boot(true)), tick);
      var r := Next(trial, late);
      trial.ticked && CanUpdate(trial) && r.saved == s.saved && !Bootable(r, r.saved)
  {
    var tick := Tick(3, false);
    var s1 := s.(ticked := true);
    NotConfirming(s1, 2);
    assert Next(s, tick) == s1.(status := RolledBack(s.pending.value), pending := None);
    var trial := Next(Next(Next(s, tick), Boot(true)), tick);
    assert trial.running == s.next && trial.pending.None? && trial.saved == s.saved;
    assert Commands(Stops(1)) == [Wipe];
    assert After(trial, s.saved, NO_ENV, [Wipe], 0) == trial;
    assert After(trial, s.saved, NO_ENV, [Wipe], 1) == Exec(trial, s.saved, NO_ENV, Wipe);
  }

  lemma RunOfFour(s: State, a: Event, b: Event, c: Event, d: Event)
    ensures Run(s, [a, b, c, d]) == Next(Next(Next(Next(s, a), b), c), d)
    ensures Patient(s, [a, b, c, d]) <==>
      var t := Next(Next(Next(s, a), b), c);
      && (a.Update? && CanUpdate(s) ==> s.ticked)
      && (b.Update? && CanUpdate(Next(s, a)) ==> Next(s, a).ticked)
      && (c.Update? && CanUpdate(Next(Next(s, a), b)) ==> Next(Next(s, a), b).ticked)
      && (d.Update? && CanUpdate(t) ==> t.ticked)
  {
    var s1 := Next(s, a);
    var s2 := Next(s1, b);
    var s3 := Next(s2, c);
    assert [a, b, c, d][1..] == [b, c, d] && [b, c, d][1..] == [c, d] && [c, d][1..] == [d] && [d][1..] == [];
    assert Run(s3, [d]) == Next(s3, d) && Run(s2, [c, d]) == Run(s3, [d]) && Run(s1, [b, c, d]) == Run(s2, [c, d]);
    assert Patient(s3, [d]) <==> (d.Update? && CanUpdate(s3) ==> s3.ticked);
    assert Patient(s2, [c, d]) <==> (c.Update? && CanUpdate(s2) ==> s2.ticked) && Patient(s3, [d]);
    assert Patient(s1, [b, c, d]) <==> (b.Update? && CanUpdate(s1) ==> s1.ticked) && Patient(s2, [c, d]);
  }

  /** An update staged before the timer fires in the same boot loses its pending mark, is never
    * confirmed, and the next update started from it erases the saved default. */
  lemma EarlyUpdateCanEraseTheDefault(s: State, e: Env)
    requires Inv(s) && Settled(s) && !s.ticked
    ensures
      var staged := Next(s, Update(e, Stops(19), 19, false));
      var trial := Next(Next(staged, Tick(3, false)), Boot(true));
      var r := Next(trial, Update(e, Stops(19), 1, true));
      && trial.running == Some(Other(s.saved)) && trial.pending.None?
      && r.saved == s.saved && !Bootable(r, r.saved)
  {
    var t := Other(s.saved);
    var staged := Next(s, Update(e, Stops(19), 19, false));
    ProgressAfter(s, t, e, 19);
    assert Commands(Stops(19)) == SCRIPT;
    var s1 := staged.(ticked := true);
    ConfirmStates(s1, ConfirmCommands(s1));
    var trial := Next(Next(staged, Tick(3, false)), Boot(true));
    assert trial.running == Some(t);
    assert After(trial, s.saved, e, SCRIPT, 1) == Exec(trial, s.saved, e, Wipe);
  }

  // ------------------------------------------------------------------------ a fresh machine

  /** What the installer leaves: slot A complete and the default, slot B an empty filesystem. */
  function FreshMachine(a: int, b: int, boot: int): State {
    var conf := SlotsConf(Some(a), Some(b), Some(boot));
    State(SlotState(Root(a, true, true, true, true, Some(conf)), Image(a), Image(a), Missing, Missing,
                    Some(Entry(a, Some(boot)))),
          SlotState(Root(b, false, false, false, false, None), Missing, Missing, Missing, Missing, None),
          boot, Image(a), Image(a), A, None, None, Quiet, None, false)
  }

  /** A fresh machine satisfies the invariant, so every patient run from it is safe; its first healthy boot
    * leaves it settled, and an update that does not wait for the timer can erase its only system. */
  lemma FreshMachineIsValid(a: int, b: int, boot: int, es: seq<Event>, e: Env)
    ensures
      var s := FreshMachine(a, b, boot);
      && Inv(s) && (Patient(s, es) ==> Inv(Run(s, es)))
      && Settled(Next(s, Boot(true))) && !Next(s, Boot(true)).ticked
    ensures
      var early := Update(e, Stops(19), 19, false);
      var late := Update(e, Stops(19), 1, true);
      var r := Run(FreshMachine(a, b, boot), [Boot(true), early, Tick(3, false), Boot(true), late]);
      r.saved == A && !Bootable(r, A)
  {
    var s := FreshMachine(a, b, boot);
    if Patient(s, es) { DefaultAlwaysBoots(s, es); }
    var up := Next(s, Boot(true));
    EarlyUpdateCanEraseTheDefault(up, e);
    var early, late := Update(e, Stops(19), 19, false), Update(e, Stops(19), 1, true);
    RunOfFive(s, Boot(true), early, Tick(3, false), Boot(true), late);
  }

  lemma RunOfFive(s: State, a: Event, b: Event, c: Event, d: Event, e: Event)
    ensures Run(s, [a, b, c, d, e]) == Next(Next(Next(Next(Next(s, a), b), c), d), e)
  {
    assert [a, b, c, d, e][1..] == [b, c, d, e];
    RunOfFour(Next(s, a), b, c, d, e);
  }

  // ------------------------------------------------------------------ the scripts themselves

  /** The states the machine is to go through: a start, a target slot, an environment, a list of
    * commands, and the history before. */
  datatype Plan = Plan(s0: State, t: Slot, e: Env, cs: seq<Command>, h0: seq<State>) {
    ghost function State(k: nat): State
      requires k <= |cs|
    {
      After(s0, t, e, cs, k)
    }

    ghost function History(k: nat): (h: seq<State>)
      requires k <= |cs|
      ensures |h| == |h0| + k
    {
      if k == 0 then h0 else History(k - 1) + [State(k)]
    }

    ghost predicate Script(t: Slot, e: Env) {
      this.t == t && this.e == e && cs == SCRIPT
    }
  }

  /** The machine the scripts run on; `history` lists the states it has been in. */
  class Machine {
    var now: State
    ghost var history: seq<State>

    constructor (s: State)
      ensures now == s && history == []
    {
      now, history := s, [];
    }

    /** The machine has gone through the first k states of the plan and is in the last of them. */
    ghost predicate Went(run: Plan, k: nat)
      reads this
    {
      k <= |run.cs| && now == run.State(k) && history == run.History(k)
    }

    /** Records the state reached by command k of the plan. */
    ghost method Mark(run: Plan, k: nat)
      requires k < |run.cs| && history == run.History(k)
      requires now == Exec(run.State(k), run.t, run.e, run.cs[k])
      modifies this`history
      ensures Went(run, k + 1)
    {
      history := history + [now];
    }

    method SetSlot(t: Slot, x: SlotState)
      modifies this`now
      ensures now == With(old(now), t, x)
    {
      if t == A { now := now.(a := x); } else { now := now.(b := x); }
    }

    method SetRoot(t: Slot, r: Root)
      modifies this`now
      ensures now == With(old(now), t, At(old(now), t).(root := r))
    {
      SetSlot(t, At(now, t).(root := r));
    }

    /** mkfs.ext4 on the inactive partition.  `stop` commands of the update succeed. */
    method Format(t: Slot, e: Env, stop: nat, ghost run: Plan) returns (ok: bool)
      requires run.Script(t, e) && Went(run, 0) && stop >= 0
      modifies this
      ensures ok == (stop >= 2) && Went(run, if stop < 2 then stop else 2)
    {
      if stop == 0 { return false; }
      SetRoot(t, At(now, t).root.(copied := false, restored := false,
                                                 slotFiles := false, configured := false));
      Mark(run, 0);
      if stop == 1 { return false; }
      SetRoot(t, At(now, t).root.(uuid := e.uuid, slots := None));
      Mark(run, 1);
      return true;
    }

    /** rsync of the image, then its kernel into the shared boot partition. */
    method CopySystem(t: Slot, e: Env, stop: nat, ghost run: Plan) returns (ok: bool)
      requires run.Script(t, e) && Went(run, 2) && stop >= 2
      modifies this
      ensures ok == (stop >= 4) && Went(run, if stop < 4 then stop else 4)
    {
      if stop == 2 { return false; }
      SetRoot(t, At(now, t).root.(copied := true));
      Mark(run, 2);
      if stop == 3 { return false; }
      now := now.(sharedKernel := Image(At(now, t).root.uuid));
      Mark(run, 3);
      return true;
    }

    /** moonlight-backup --restore-to, then write_slot_files over whatever it restored. */
    method RestoreSettings(t: Slot, e: Env, stop: nat, ghost run: Plan) returns (ok: bool)
      requires run.Script(t, e) && Went(run, 4) && stop >= 4
      modifies this
      ensures ok == (stop >= 6) && Went(run, if stop < 6 then stop else 6)
    {
      if stop == 4 { return false; }
      SetRoot(t, At(now, t).root.(restored := true, slots := e.archive));
      Mark(run, 4);
      if stop == 5 { return false; }
      var conf := SlotsConf(Some(now.a.root.uuid), Some(now.b.root.uuid), Some(now.bootUuid));
      SetRoot(t, At(now, t).root.(slotFiles := true, slots := Some(conf)));
      Mark(run, 5);
      return true;
    }

    /** The services of the new root. */
    method ConfigureRoot(t: Slot, e: Env, stop: nat, ghost run: Plan) returns (ok: bool)
      requires run.Script(t, e) && Went(run, 6) && stop >= 6
      modifies this
      ensures ok == (stop >= 7) && Went(run, if stop < 7 then stop else 7)
    {
      if stop == 6 { return false; }
      SetRoot(t, At(now, t).root.(configured := true));
      Mark(run, 6);
      return true;
    }

    /** update-initramfs inside the new root. */
    method BuildInitramfs(t: Slot, e: Env, stop: nat, ghost run: Plan) returns (ok: bool)
      requires run.Script(t, e) && Went(run, 7) && stop >= 7
      modifies this
      ensures ok == (stop >= 9) && Went(run, if stop < 9 then stop else 9)
    {
      if stop == 7 { return false; }
      now := now.(sharedInitrd := Torn);
      Mark(run, 7);
      if stop == 8 { return false; }
      now := now.(sharedInitrd := Image(At(now, t).root.uuid));
      Mark(run, 8);
      return true;
    }

    /** cp of the pair to the slot's `.new` names. */
    method CopyKernel(t: Slot, e: Env, stop: nat, ghost run: Plan) returns (ok: bool)
      requires run.Script(t, e) && Went(run, 9) && stop >= 9
      modifies this
      ensures ok == (stop >= 11) && Went(run, if stop < 11 then stop else 11)
    {
      if stop == 9 { return false; }
      SetSlot(t, At(now, t).(kernelNew := Torn));
      Mark(run, 9);
      if stop == 10 { return false; }
      SetSlot(t, At(now, t).(kernelNew := now.sharedKernel));
      Mark(run, 10);
      return true;
    }

    method CopyInitrd(t: Slot, e: Env, stop: nat, ghost run: Plan) returns (ok: bool)
      requires run.Script(t, e) && Went(run, 11) && stop >= 11
      modifies this
      ensures ok == (stop >= 13) && Went(run, if stop < 13 then stop else 13)
    {
      if stop == 11 { return false; }
      SetSlot(t, At(now, t).(initrdNew := Torn));
      Mark(run, 11);
      if stop == 12 { return false; }
      SetSlot(t, At(now, t).(initrdNew := now.sharedInitrd));
      Mark(run, 12);
      return true;
    }

    /** mv of the pair into place. */
    method MoveFiles(t: Slot, e: Env, stop: nat, ghost run: Plan) returns (ok: bool)
      requires run.Script(t, e) && Went(run, 13) && stop >= 13
      modifies this
      ensures ok == (stop >= 15) && Went(run, if stop < 15 then stop else 15)
    {
      if stop == 13 { return false; }
      SetSlot(t, At(now, t).(kernel := At(now, t).kernelNew, kernelNew := Missing));
      Mark(run, 13);
      if stop == 14 { return false; }
      SetSlot(t, At(now, t).(initrd := At(now, t).initrdNew, initrdNew := Missing));
      Mark(run, 14);
      return true;
    }

    /** 09_moonlight_slots: without a slots.conf in the root it runs in there are no entries; what blkid
      * finds overrides what is recorded there; a slot without a UUID or without both files gets none. */
    method UpdateMenu(t: Slot, e: Env)
      modifies this`now
      ensures now == old(now).(a := old(now).a.(entry := EmitSlot(old(now), t, e, A)),
                               b := old(now).b.(entry := EmitSlot(old(now), t, e, B)))
    {
      var entryA: Option<Entry>, entryB: Option<Entry> := None, None;
      var slots := At(now, t).root.slots;
      if slots.Some? {
        var uuidA, uuidB, boot := slots.value.a, slots.value.b, slots.value.boot;
        if A in e.probed { uuidA := Some(now.a.root.uuid); }
        if B in e.probed { uuidB := Some(now.b.root.uuid); }
        if e.bootProbed { boot := Some(now.bootUuid); }
        entryA := MenuEntry(uuidA, boot, now.a);
        entryB := MenuEntry(uuidB, boot, now.b);
      }
      now := now.(a := now.a.(entry := entryA), b := now.b.(entry := entryB));
    }

    /** emit_slot. */
    method MenuEntry(uuid: Option<int>, boot: Option<int>, x: SlotState) returns (entry: Option<Entry>)
      ensures entry.Some? <==> uuid.Some? && !x.kernel.Missing? && !x.initrd.Missing?
      ensures entry.Some? ==> entry.value == Entry(uuid.value, boot)
    {
      if uuid.None? || x.kernel.Missing? || x.initrd.Missing? { return None; }
      return Some(Entry(uuid.value, boot));
    }

    /** update-grub and the pending file. */
    method Announce(t: Slot, e: Env, stop: nat, ghost run: Plan) returns (ok: bool)
      requires run.Script(t, e) && Went(run, 15) && stop >= 15
      modifies this
      ensures ok == (stop >= 17) && Went(run, if stop < 17 then stop else 17)
    {
      if stop == 15 { return false; }
      UpdateMenu(t, e);
      Mark(run, 15);
      if stop == 16 { return false; }
      now := now.(pending := Some(t));
      Mark(run, 16);
      return true;
    }

    /** grub-reboot and the status file. */
    method Schedule(t: Slot, e: Env, stop: nat, ghost run: Plan) returns (ok: bool)
      requires run.Script(t, e) && Went(run, 17) && stop >= 17
      modifies this
      ensures ok == (stop >= 19) && Went(run, if stop < 19 then stop else 19)
    {
      if stop == 17 { return false; }
      now := now.(next := Some(t));
      Mark(run, 17);
      if stop == 18 { return false; }
      now := now.(status := Staged(t));
      Mark(run, 18);
      return true;
    }

    /** The inactive root, up to its initramfs. */
    method InstallRoot(t: Slot, e: Env, stop: nat, ghost run: Plan) returns (ok: bool)
      requires run.Script(t, e) && Went(run, 0) && stop >= 0
      modifies this
      ensures ok == (stop >= 9) && Went(run, if stop < 9 then stop else 9)
    {
      ok := Format(t, e, stop, run);
      if ok { ok := CopySystem(t, e, stop, run); }
      if ok { ok := RestoreSettings(t, e, stop, run); }
      if ok { ok := ConfigureRoot(t, e, stop, run); }
      if ok { ok := BuildInitramfs(t, e, stop, run); }
    }

    /** The slot's boot files, the menu, and the one-shot entry. */
    method StageBoot(t: Slot, e: Env, stop: nat, ghost run: Plan) returns (ok: bool)
      requires run.Script(t, e) && Went(run, 9) && stop >= 9
      modifies this
      ensures ok == (stop >= 19) && Went(run, if stop < 19 then stop else 19)
    {
      ok := CopyKernel(t, e, stop, run);
      if ok { ok := CopyInitrd(t, e, stop, run); }
      if ok { ok := MoveFiles(t, e, stop, run); }
      if ok { ok := Announce(t, e, stop, run); }
      if ok { ok := Schedule(t, e, stop, run); }
    }

    /** prepare_target: it goes through exactly the states of the script, every one of them Safe. */
    method PrepareTarget(e: Env, end: Ending)
      requires CanUpdate(now)
      modifies this
      ensures
        var run := Plan(old(now), Other(old(now).running.value), e, Commands(end), old(history));
        Went(run, |run.cs|)
      ensures Safe(old(now)) ==> forall i :: |old(history)| <= i < |history| ==> Safe(history[i])
      ensures Safe(old(now)) && end.GrubRefuses? ==>
        now.pending.None? && now.next.None? && now.status == old(now).status
      ensures Safe(old(now)) && end.Stops? && end.n >= 19 ==>
        var t := Other(old(now).running.value);
        now.pending == now.next == Some(t) && now.status == Staged(t) && Bootable(now, t)
    {
      var t := Other(now.running.value);
      var stop := if end.GrubRefuses? then 17 else end.n;
      ghost var run := Plan(now, t, e, SCRIPT, history);
      var ok := InstallRoot(t, e, stop, run);
      if ok { ok := StageBoot(t, e, stop, run); }
      ghost var actual := run.(cs := Commands(end));
      SamePlan(run, actual, if stop < 19 then stop else 19);
      if end.GrubRefuses? { Withdraw(actual); }
      if Safe(run.s0) {
        PlanIsSafe(actual, end, |actual.cs|);
        UpdateEnds(run.s0, e, end);
      }
    }

    /** grub-reboot has refused: the pending file is removed again. */
    method Withdraw(ghost run: Plan)
      requires run.cs == Commands(GrubRefuses) && Went(run, 17)
      modifies this
      ensures Went(run, 18)
    {
      now := now.(pending := None);
      Mark(run, 17);
    }

    /** confirm_boot; `stop` commands of it happen. */
    method ConfirmBoot(stop: nat)
      requires now.running.Some?
      modifies this
      ensures
        var run := Plan(old(now), A, NO_ENV, ConfirmCommands(old(now)), old(history));
        Went(run, if stop < |run.cs| then stop else |run.cs|)
    {
      ghost var run := Plan(now, A, NO_ENV, ConfirmCommands(now), history);
      ConfirmStates(run.s0, run.cs);
      if now.pending.None? || stop == 0 { return; }
      if now.pending == now.running {
        now := now.(saved := now.running.value);
        Mark(run, 0);
        if stop == 1 { return; }
        now := now.(status := Installed(now.running.value));
        Mark(run, 1);
        if stop == 2 { return; }
        now := now.(pending := None);
        Mark(run, 2);
      } else {
        now := now.(status := RolledBack(now.pending.value));
        Mark(run, 0);
        if stop == 1 { return; }
        now := now.(pending := None);
        Mark(run, 1);
      }
    }

    /** Power on: GRUB takes the one-shot entry, or else the saved default. */
    method Start(up: bool)
      modifies this`now
      ensures now == Next(old(now), Boot(up))
    {
      var entry := now.saved;
      if now.next.Some? {
        entry := now.next.value;
        now := now.(next := None);
      }
      now := now.(ticked := false, running := if up && Bootable(now, entry) then Some(entry) else None);
    }
  }

  lemma {:induction false} SamePlan(p: Plan, q: Plan, k: nat)
    requires q == p.(cs := q.cs) && k <= |p.cs| && k <= |q.cs| && p.cs[..k] == q.cs[..k]
    ensures p.State(k) == q.State(k) && p.History(k) == q.History(k)
  {
    if k > 0 {
      assert p.cs[..k - 1] == p.cs[..k][..k - 1] == q.cs[..k - 1];
      assert p.cs[k - 1] == p.cs[..k][k - 1] == q.cs[k - 1];
      SamePlan(p, q, k - 1);
    }
  }

  lemma {:induction false} PlanIsSafe(p: Plan, end: Ending, k: nat)
    requires Safe(p.s0) && CanUpdate(p.s0) && p.t == Other(p.s0.running.value)
    requires p.cs == Commands(end) && k <= |p.cs|
    ensures forall i :: |p.h0| <= i < |p.h0| + k ==> Safe(p.History(k)[i])
  {
    if k > 0 {
      PlanIsSafe(p, end, k - 1);
      UpdateMicroSteps(p.s0, p.e, end, k);
    }
  }
}
