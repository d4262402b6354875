/** Which USB devices are handed over: devices() and offered() of mlos_host. */
module DevicePolicy {
  import opened Basics

  type BusId = string
  type HwId = string

  /** A surveyed device: its ids and the facts the policy looks at. */
  datatype Device = Device(
    busid: BusId,
    hwid: HwId,             // "" when the vendor id could not be read
    critical: bool,         // the boot medium or the routed network interface sits on it
    hub: bool,
    bootHid: bool, wireless: bool, audio: bool, playbackOnly: bool, video: bool, storage: bool)

  datatype Reason = Offered | RunningFromIt | Hub | NeverShare | Keyboard | Bluetooth | Speakers | Webcam | Storage

  datatype Judged = Judged(device: Device, isProtected: bool, reason: Reason)

  function LowerAll(ids: seq<HwId>): set<HwId> {
    set h | h in ids :: Lower(h)
  }

  predicate Lists(ids: seq<HwId>, d: Device) {
    d.hwid != "" && Lower(d.hwid) in LowerAll(ids)
  }

  /** Skipped by the "safe" policy: the stream carries it already, or USB/IP handles it badly. */
  predicate SkippedBySafe(d: Device) {
    d.bootHid || d.wireless || (d.audio && d.playbackOnly) || d.video || d.storage
  }

  /** The promise, independent of the order of the checks. */
  predicate MayBeHandedOver(d: Device, policy: string, always: seq<HwId>, never: seq<HwId>) {
    && !d.critical && !d.hub
    && !Lists(never, d)
    && (Lists(always, d) || policy == "all" || !SkippedBySafe(d))
  }

  /** The reason shown is true of the device. */
  predicate RightReason(j: Judged, policy: string, always: seq<HwId>, never: seq<HwId>) {
    var d := j.device;
    match j.reason
    case Offered => true
    case RunningFromIt => d.critical
    case Hub => d.hub
    case NeverShare => Lists(never, d)
    case Keyboard => d.bootHid && policy != "all" && !Lists(always, d)
    case Bluetooth => d.wireless && policy != "all" && !Lists(always, d)
    case Speakers => d.audio && d.playbackOnly && policy != "all" && !Lists(always, d)
    case Webcam => d.video && policy != "all" && !Lists(always, d)
    case Storage => d.storage && policy != "all" && !Lists(always, d)
  }

  /** The survey loop: every device, each with its verdict. */
  method Devices(names: seq<Device>, policy: string, always: seq<HwId>, never: seq<HwId>) returns (out: seq<Judged>)
    ensures |out| == |names|
    ensures forall i :: 0 <= i < |names| ==>
      && out[i].device == names[i]
      && (out[i].reason.Offered? <==> MayBeHandedOver(names[i], policy, always, never))
      && (out[i].isProtected <==> names[i].critical || names[i].hub)
    ensures forall i :: 0 <= i < |names| ==> RightReason(out[i], policy, always, never)
  {
    out := [];
    var included, excluded := LowerAll(always), LowerAll(never);
    for n := 0 to |names|
      invariant |out| == n
      invariant forall i :: 0 <= i < n ==>
        && out[i].device == names[i]
        && (out[i].reason.Offered? <==> MayBeHandedOver(names[i], policy, always, never))
        && (out[i].isProtected <==> names[i].critical || names[i].hub)
      invariant forall i :: 0 <= i < n ==> RightReason(out[i], policy, always, never)
    {
      var d := names[n];
      if d.critical {
        out := out + [Judged(d, true, RunningFromIt)];
        continue;
      }
      if d.hub {
        out := out + [Judged(d, true, Hub)];
        continue;
      }
      var hwid := Lower(d.hwid);
      if d.hwid != "" && hwid in excluded {
        out := out + [Judged(d, false, NeverShare)];
        continue;
      }
      if d.hwid != "" && hwid in included {
        out := out + [Judged(d, false, Offered)];
        continue;
      }
      var reason := Offered;
      if policy != "all" {
        if d.bootHid { reason := Keyboard; }
        else if d.wireless { reason := Bluetooth; }
        else if d.audio && d.playbackOnly { reason := Speakers; }
        else if d.video { reason := Webcam; }
        else if d.storage { reason := Storage; }
      }
      out := out + [Judged(d, false, reason)];
    }
  }

  /** offered(): the devices that may be handed over, in the order of the survey. */
  function OfferedDevices(names: seq<Device>, policy: string, always: seq<HwId>, never: seq<HwId>): seq<Device> {
    if names == [] then []
    else
      (if MayBeHandedOver(names[0], policy, always, never) then [names[0]] else [])
      + OfferedDevices(names[1..], policy, always, never)
  }

  method Survey(names: seq<Device>, policy: string, always: seq<HwId>, never: seq<HwId>) returns (offer: seq<Device>)
    ensures offer == OfferedDevices(names, policy, always, never)
  {
    var judged := Devices(names, policy, always, never);
    offer := [];
    for n := |judged| downto 0
      invariant offer == OfferedDevices(names[n..], policy, always, never)
    {
      assert names[n..] == [names[n]] + names[n + 1..];
      if judged[n].reason.Offered? { offer := [judged[n].device] + offer; }
    }
    assert names[0..] == names;
  }

  /** The bus ids of an offer, in order. */
  function BusIdsOf(ds: seq<Device>): seq<BusId> {
    seq(|ds|, i requires 0 <= i < |ds| => ds[i].busid)
  }

  /** Under every policy, whatever the include list says, nothing critical, no hub and nothing on the
    * never-share list is offered, and everything offered is plugged in. */
  lemma {:induction false} OfferIsExact(names: seq<Device>, policy: string, always: seq<HwId>, never: seq<HwId>,
                                        d: Device)
    ensures d in OfferedDevices(names, policy, always, never)
      <==> d in names && MayBeHandedOver(d, policy, always, never)
  {
    if names != [] {
      OfferIsExact(names[1..], policy, always, never, d);
      assert names == [names[0]] + names[1..];
    }
  }

  /** The lists compare ids without regard to case, and a device whose id is unknown is on neither. */
  lemma ListsIgnoreCase(ids: seq<HwId>, d: Device, i: nat)
    requires i < |ids| && |ids[i]| == |d.hwid| > 0
    requires forall k :: 0 <= k < |d.hwid| ==> LowerChar(ids[i][k]) == LowerChar(d.hwid[k])
    ensures Lists(ids, d) && !Lists(ids, d.(hwid := ""))
  {
    assert Lower(ids[i]) == Lower(d.hwid);
    assert ids[i] in ids;
  }

  /** "safe", with nothing listed, hands over wheels, pads and the like, and none of the skipped kinds; "all"
    * hands over everything but the hard rules; never-share beats include, and include beats the policy. */
  lemma WhatThePoliciesHandOver(names: seq<Device>, always: seq<HwId>, never: seq<HwId>, d: Device)
    requires d in names
    ensures d in OfferedDevices(names, "safe", [], []) <==>
      && !d.critical && !d.hub && !d.bootHid && !d.wireless && !d.video && !d.storage
      && !(d.audio && d.playbackOnly)
    ensures d in OfferedDevices(names, "all", [], []) <==> !d.critical && !d.hub
    ensures Lists(never, d) ==> d !in OfferedDevices(names, "all", always, never)
    ensures Lists(always, d) && !Lists(never, d) && !d.critical && !d.hub ==>
      d in OfferedDevices(names, "safe", always, never)
  {
    OfferIsExact(names, "safe", [], [], d);
    OfferIsExact(names, "all", [], [], d);
    OfferIsExact(names, "all", always, never, d);
    OfferIsExact(names, "safe", always, never, d);
  }

  /** The offer keeps the order of the survey. */
  lemma {:induction false} OfferOfBoth(a: seq<Device>, b: seq<Device>, policy: string, always: seq<HwId>,
                                       never: seq<HwId>)
    ensures OfferedDevices(a + b, policy, always, never)
         == OfferedDevices(a, policy, always, never) + OfferedDevices(b, policy, always, never)
  {
    if a == [] {
      assert a + b == b;
    } else {
      assert (a + b)[1..] == a[1..] + b && (a + b)[0] == a[0];
      OfferOfBoth(a[1..], b, policy, always, never);
      var first := if MayBeHandedOver(a[0], policy, always, never) then [a[0]] else [];
      Regroup(first, OfferedDevices(a[1..], policy, always, never), OfferedDevices(b, policy, always, never));
    }
  }
}
