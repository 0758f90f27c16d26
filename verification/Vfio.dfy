/** vfio-manage.sh: binding the NPUs of a host to vfio-pci and back, over the
    device state that sysfs exposes. The script stops at the first failing write
    and is simply started again. */
module Vfio {
  import opened Wrappers

  const VFIO: string := "vfio-pci"
  const VENDOR: string := "0x1eff"
  const CLASS: string := "0x120000"

  datatype Device = Device(vendor: string, class_: string, driver: Option<string>, override: string)

  predicate IsTarget(d: Device) { d.vendor == VENDOR && d.class_ == CLASS }

  predicate BoundToVfio(d: Device) { d.driver == Some(VFIO) }

  /** What a completed bind makes of a device. */
  function Bound(d: Device): Device {
    if IsTarget(d) && !BoundToVfio(d) then d.(driver := Some(VFIO), override := VFIO) else d
  }

  /** What a completed unbind makes of a device: a driverless one is left as it
      is, override included. */
  function Unbound(d: Device): Device {
    if IsTarget(d) && d.driver.Some? then d.(driver := None, override := "") else d
  }

  /** The states in which an unfinished bind can leave a device. */
  ghost predicate BindReach(before: Device, now: Device) {
    || now == before
    || (IsTarget(before) && !BoundToVfio(before) &&
        (|| now == Bound(before)
         || now == before.(driver := None, override := VFIO)
         || (before.driver.Some? && (now == before.(driver := None) || now == before.(driver := None, override := "")))))
  }

  ghost predicate UnbindReach(before: Device, now: Device) {
    || now == before
    || (IsTarget(before) && before.driver.Some? && (now == Unbound(before) || now == before.(driver := None)))
  }

  type Devices = seq<Device>

  function BoundAll(ds: Devices): (r: Devices)
    ensures |r| == |ds| && forall i :: 0 <= i < |ds| ==> r[i] == Bound(ds[i])
  {
    seq(|ds|, i requires 0 <= i < |ds| => Bound(ds[i]))
  }

  function UnboundAll(ds: Devices): (r: Devices)
    ensures |r| == |ds| && forall i :: 0 <= i < |ds| ==> r[i] == Unbound(ds[i])
  {
    seq(|ds|, i requires 0 <= i < |ds| => Unbound(ds[i]))
  }

  ghost predicate AllBindReach(before: Devices, now: Devices) {
    |now| == |before| && forall i :: 0 <= i < |now| ==> BindReach(before[i], now[i])
  }

  ghost predicate AllUnbindReach(before: Devices, now: Devices) {
    |now| == |before| && forall i :: 0 <= i < |now| ==> UnbindReach(before[i], now[i])
  }

  /** The devices the script is for. */
  ghost predicate IsNpu(d: Device) { d.vendor == "0x1eff" && d.class_ == "0x120000" }

  /** Each of them has vfio-pci as its driver. */
  ghost predicate OnVfio(ds: Devices) {
    forall i :: 0 <= i < |ds| && IsNpu(ds[i]) ==> ds[i].driver == Some("vfio-pci")
  }

  predicate AllBound(ds: Devices) {
    forall i :: 0 <= i < |ds| && IsTarget(ds[i]) ==> BoundToVfio(ds[i])
  }

  /** The PCI devices under /sys/bus/pci/devices, in glob order. On a healthy host
      no write fails without a reason the model knows. */
  class Sysfs {
    var devices: Devices
    var healthy: bool

    constructor (devices: Devices, healthy: bool)
      ensures this.devices == devices && this.healthy == healthy
    {
      this.devices, this.healthy := devices, healthy;
    }

    // ---------- single writes, each of which may fail ----------

    /** echo ADDR > DRIVER/unbind */
    method WriteUnbind(i: nat) returns (ok: bool)
      requires i < |devices| && devices[i].driver.Some?
      modifies this`devices
      ensures healthy ==> ok
      ensures devices == if ok then old(devices)[i := old(devices)[i].(driver := None)] else old(devices)
    {
      ok := *;
      ok := ok || healthy;
      if ok {
        devices := devices[i := devices[i].(driver := None)];
      }
    }

    /** echo VALUE > driver_override */
    method WriteOverride(i: nat, value: string) returns (ok: bool)
      requires i < |devices|
      modifies this`devices
      ensures healthy ==> ok
      ensures devices == if ok then old(devices)[i := old(devices)[i].(override := value)] else old(devices)
    {
      ok := *;
      ok := ok || healthy;
      if ok {
        devices := devices[i := devices[i].(override := value)];
      }
    }

    /** echo ADDR > vfio-pci/bind: the kernel takes only a driverless device that
        the override assigns to vfio-pci. */
    method WriteBind(i: nat) returns (ok: bool)
      requires i < |devices|
      modifies this`devices
      ensures ok ==> old(devices)[i].driver == None && old(devices)[i].override == VFIO
      ensures healthy && old(devices)[i].driver == None && old(devices)[i].override == VFIO ==> ok
      ensures devices == if ok then old(devices)[i := old(devices)[i].(driver := Some(VFIO))] else old(devices)
    {
      ok := *;
      ok := ok || healthy;
      if devices[i].driver != None || devices[i].override != VFIO {
        ok := false;
      }
      if ok {
        devices := devices[i := devices[i].(driver := Some(VFIO))];
      }
    }

    // ---------- per device ----------

    method UnbindFromDriver(i: nat) returns (ok: bool)
      requires i < |devices| && IsTarget(devices[i])
      modifies this`devices
      ensures |devices| == |old(devices)| && devices == old(devices)[i := devices[i]]
      ensures healthy ==> ok
      ensures UnbindReach(old(devices)[i], devices[i])
      ensures ok ==> devices[i] == Unbound(old(devices)[i])
    {
      if devices[i].driver.None? {
        return true;
      }
      ok := WriteUnbind(i);
      if !ok {
        return;
      }
      ok := WriteOverride(i, "");
    }

    /** Leaves a device that is already on vfio-pci alone. */
    method UnbindFromOtherDriver(i: nat) returns (ok: bool)
      requires i < |devices| && IsTarget(devices[i])
      modifies this`devices
      ensures |devices| == |old(devices)| && devices == old(devices)[i := devices[i]]
      ensures healthy ==> ok
      ensures BoundToVfio(old(devices)[i]) ==> ok && devices == old(devices)
      ensures !BoundToVfio(old(devices)[i]) ==> UnbindReach(old(devices)[i], devices[i])
      ensures !BoundToVfio(old(devices)[i]) && ok ==> devices[i] == Unbound(old(devices)[i])
    {
      if devices[i].driver.None? {
        return true;
      }
      if BoundToVfio(devices[i]) {
        return true;
      }
      ok := WriteUnbind(i);
      if !ok {
        return;
      }
      ok := WriteOverride(i, "");
    }

    method BindPciDevice(i: nat) returns (ok: bool)
      requires i < |devices| && IsTarget(devices[i])
      modifies this`devices
      ensures |devices| == |old(devices)| && devices == old(devices)[i := devices[i]]
      ensures healthy ==> ok
      ensures BindReach(old(devices)[i], devices[i])
      ensures ok ==> devices[i] == Bound(old(devices)[i])
    {
      if BoundToVfio(devices[i]) {
        return true;
      }
      ok := UnbindFromOtherDriver(i);
      if !ok {
        return;
      }
      ok := WriteOverride(i, VFIO);
      if !ok {
        return;
      }
      ok := WriteBind(i);
    }

    // ---------- --all ----------

    /** bind_all. With no device at all the glob stays literal and the first read
        fails. */
    method BindAll() returns (ok: bool)
      modifies this`devices
      ensures AllBindReach(old(devices), devices)
      ensures ok ==> devices == BoundAll(old(devices))
      ensures healthy ==> (ok <==> devices != [])
    {
      if |devices| == 0 {
        return false;
      }
      for i := 0 to |devices|
        invariant |devices| == |old(devices)|
        invariant forall j :: 0 <= j < i ==> devices[j] == Bound(old(devices)[j])
        invariant forall j :: i <= j < |devices| ==> devices[j] == old(devices)[j]
      {
        if devices[i].vendor == VENDOR {
          if devices[i].class_ == CLASS {
            ok := BindPciDevice(i);
            if !ok {
              return;
            }
          }
        }
      }
      ok := true;
    }

    /** unbind_all. */
    method UnbindAll() returns (ok: bool)
      modifies this`devices
      ensures AllUnbindReach(old(devices), devices)
      ensures ok ==> devices == UnboundAll(old(devices))
      ensures healthy ==> (ok <==> devices != [])
    {
      if |devices| == 0 {
        return false;
      }
      for i := 0 to |devices|
        invariant |devices| == |old(devices)|
        invariant forall j :: 0 <= j < i ==> devices[j] == Unbound(old(devices)[j])
        invariant forall j :: i <= j < |devices| ==> devices[j] == old(devices)[j]
      {
        if devices[i].vendor == VENDOR {
          if devices[i].class_ == CLASS {
            ok := UnbindFromDriver(i);
            if !ok {
              return;
            }
          }
        }
      }
      ok := true;
    }

    /** check_bind_all: counts the targets, then looks at each of them. */
    method CheckBindAll() returns (ok: bool)
      ensures ok <==> OnVfio(devices)
    {
      var count := 0;
      for i := 0 to |devices|
        invariant count == 0 <==> forall j :: 0 <= j < i ==> !IsTarget(devices[j])
        invariant count >= 0
      {
        if devices[i].vendor == VENDOR && devices[i].class_ == CLASS {
          count := count + 1;
        }
      }
      if count == 0 {
        return true;
      }
      ok := true;
      for i := 0 to |devices|
        invariant ok <==> forall j :: 0 <= j < i && IsTarget(devices[j]) ==> BoundToVfio(devices[j])
      {
        if devices[i].vendor == VENDOR && devices[i].class_ == CLASS {
          if !BoundToVfio(devices[i]) {
            ok := false;
          }
        }
      }
    }
  }

  // ---------- bind ----------

  /** A successful bind passes the check, is idempotent, and leaves every device
      of another vendor or class alone, as does an unfinished one. */
  lemma BindAllMeaning(ds: Devices)
    ensures OnVfio(BoundAll(ds)) && AllBound(BoundAll(ds))
    ensures BoundAll(BoundAll(ds)) == BoundAll(ds)
    ensures forall i :: 0 <= i < |ds| && ds[i].driver == Some("vfio-pci") ==> BoundAll(ds)[i] == ds[i]
    ensures forall i :: 0 <= i < |ds| && IsNpu(ds[i]) && ds[i].driver != Some("vfio-pci") ==>
              BoundAll(ds)[i] == ds[i].(driver := Some("vfio-pci"), override := "vfio-pci")
    ensures forall now, i :: AllBindReach(ds, now) && 0 <= i < |ds| && !IsNpu(ds[i]) ==> now[i] == ds[i]
  {
    forall i | 0 <= i < |ds| ensures Bound(Bound(ds[i])) == Bound(ds[i]) {
    }
  }

  /** An unfinished bind does not change where a finished one ends. */
  lemma UnfinishedBindIsHarmless(before: Devices, now: Devices)
    requires AllBindReach(before, now)
    ensures BoundAll(now) == BoundAll(before)
  {
    forall i | 0 <= i < |now| ensures Bound(now[i]) == Bound(before[i]) {
      assert BindReach(before[i], now[i]);
    }
  }

  /** Any number of unfinished binds, one after the other. */
  ghost predicate Restarts(run: seq<Devices>) {
    |run| > 0 && forall i :: 0 <= i < |run| - 1 ==> AllBindReach(run[i], run[i + 1])
  }

  /** However often the script was cut short, the next complete bind ends where
      the first would have ended. */
  lemma {:induction false} RestartedBindConverges(run: seq<Devices>)
    requires Restarts(run)
    ensures BoundAll(run[|run| - 1]) == BoundAll(run[0])
  {
    if |run| > 1 {
      var init := run[..|run| - 1];
      forall i | 0 <= i < |init| - 1 ensures AllBindReach(init[i], init[i + 1]) {
        assert AllBindReach(run[i], run[i + 1]);
      }
      RestartedBindConverges(init);
      assert AllBindReach(run[|run| - 2], run[|run| - 2 + 1]);
      UnfinishedBindIsHarmless(run[|run| - 2], run[|run| - 1]);
    }
  }

  // ---------- unbind ----------

  ghost predicate Released(d: Device) { d.driver == None && d.override == "" }

  /** After a complete bind, a complete unbind releases every target. */
  lemma BindThenUnbindReleases(ds: Devices)
    ensures forall i :: 0 <= i < |ds| ==>
              UnboundAll(BoundAll(ds))[i] ==
              if IsNpu(ds[i]) then ds[i].(driver := None, override := "") else ds[i]
  {
    forall i | 0 <= i < |ds| ensures UnboundAll(BoundAll(ds))[i] == Unbound(Bound(ds[i])) {
    }
  }

  /** On its own, a complete unbind takes every target off its driver but clears
      the override exactly where it found a driver or nothing to clear. */
  lemma UnbindReleasesIff(d: Device)
    requires IsNpu(d)
    ensures Unbound(d).driver == None
    ensures Released(Unbound(d)) <==> d.driver.Some? || d.override == ""
  {
  }

  /** A target that lost its driver in an unfinished unbind but not its override. */
  ghost predicate Stranded(before: Device, now: Device) {
    IsTarget(before) && before.driver.Some? && before.override != "" && now == before.(driver := None)
  }

  /** Any number of unfinished unbinds, one after the other. */
  ghost predicate UnbindRestarts(run: seq<Devices>) {
    |run| > 0 && forall i :: 0 <= i < |run| - 1 ==> AllUnbindReach(run[i], run[i + 1])
  }

  lemma UnbindReachComposes(a: Device, b: Device, c: Device)
    requires UnbindReach(a, b) && UnbindReach(b, c)
    ensures UnbindReach(a, c)
  {
  }

  lemma {:induction false} UnbindRestartsReach(run: seq<Devices>)
    requires UnbindRestarts(run)
    ensures AllUnbindReach(run[0], run[|run| - 1])
  {
    if |run| > 1 {
      var init := run[..|run| - 1];
      forall i | 0 <= i < |init| - 1 ensures AllUnbindReach(init[i], init[i + 1]) {
        assert AllUnbindReach(run[i], run[i + 1]);
      }
      UnbindRestartsReach(init);
      assert AllUnbindReach(run[|run| - 2], run[|run| - 2 + 1]);
      var (first, mid, last) := (run[0], run[|run| - 2], run[|run| - 1]);
      forall i | 0 <= i < |last| ensures UnbindReach(first[i], last[i]) {
        UnbindReachComposes(first[i], mid[i], last[i]);
      }
    }
  }

  /** Restarting unbind is therefore not harmless: after any number of unbinds cut
      short, the next complete one ends where the first would have exactly if no
      device was stranded between its two writes. */
  lemma RestartedUnbindConvergesIff(run: seq<Devices>)
    requires UnbindRestarts(run)
    ensures var (first, last) := (run[0], run[|run| - 1]);
            && |first| == |last|
            && (UnboundAll(last) == UnboundAll(first) <==>
                  forall i :: 0 <= i < |last| ==> !Stranded(first[i], last[i]))
  {
    UnbindRestartsReach(run);
    var (first, last) := (run[0], run[|run| - 1]);
    forall i | 0 <= i < |last| ensures Unbound(last[i]) == Unbound(first[i]) <==> !Stranded(first[i], last[i]) {
      StrandedIff(first[i], last[i]);
    }
    if UnboundAll(last) == UnboundAll(first) {
      forall i | 0 <= i < |last| ensures !Stranded(first[i], last[i]) {
        assert UnboundAll(last)[i] == UnboundAll(first)[i];
      }
    }
  }

  lemma StrandedIff(before: Device, now: Device)
    requires UnbindReach(before, now)
    ensures Unbound(now) == Unbound(before) <==> !Stranded(before, now)
  {
    if Stranded(before, now) {
      assert Unbound(now) == now && Unbound(before) == before.(driver := None, override := "");
    }
  }

  /** The same gap after a bind that was cut short before its last write: the
      preStop unbind leaves the device reserved for vfio-pci. */
  lemma UnfinishedBindSurvivesUnbind(before: Device)
    requires IsTarget(before) && !BoundToVfio(before)
    ensures exists now :: BindReach(before, now) && Unbound(now).driver == None && Unbound(now).override == VFIO
  {
    var now := before.(driver := None, override := VFIO);
    assert BindReach(before, now);
    assert Unbound(now) == now;
  }
}
