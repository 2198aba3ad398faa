/** Device pass-through: one validated host-to-container device mapping
    (`Device`) and the collection that refuses a container path twice
    (`Devices`), as in library/2.0.0/device.py. */
module DeviceLowering {
  import opened Wrappers
  import opened Strings
  import opened Validations
  import opened Sequences

  /** A validated mapping. `cgroupPerm == ""` means the runtime default. */
  datatype Device = Device(hostDevice: string, containerDevice: string, cgroupPerm: string) {

    /** The `host:container[:perm]` entry of a compose `devices` list. */
    function Render(): string {
      hostDevice + ":" + containerDevice + (if cgroupPerm != "" then ":" + cgroupPerm else "")
    }
  }

  /** Rendering loses nothing when no field contains a colon: splitting the
      entry at its colons gives back host, container and, only when it is set,
      the permission. */
  lemma RenderReadsBack(d: Device)
    requires ':' !in d.hostDevice && ':' !in d.containerDevice && ':' !in d.cgroupPerm
    ensures SplitOnColon(d.Render()) ==
            [d.hostDevice, d.containerDevice] + (if d.cgroupPerm != "" then [d.cgroupPerm] else [])
  {
    var h, c, p := d.hostDevice, d.containerDevice, d.cgroupPerm;
    var tail := if p != "" then c + ":" + p else c;
    assert d.Render() == h + ":" + tail;
    SplitField(h, tail);
    if p != "" {
      SplitField(c, p);
      SplitNoColon(p);
    } else {
      SplitNoColon(c);
    }
  }

  /** Two colon-free devices render alike only when they are the same mapping. */
  lemma RenderInjective(d: Device, e: Device)
    requires ':' !in d.hostDevice && ':' !in d.containerDevice && ':' !in d.cgroupPerm
    requires ':' !in e.hostDevice && ':' !in e.containerDevice && ':' !in e.cgroupPerm
    requires d.Render() == e.Render()
    ensures d == e
  {
    RenderReadsBack(d);
    RenderReadsBack(e);
    var fields := SplitOnColon(d.Render());
    assert fields[0] == d.hostDevice == e.hostDevice;
    assert fields[1] == d.containerDevice == e.containerDevice;
    if d.cgroupPerm != "" {
      assert e.cgroupPerm != "";
      assert fields[2] == d.cgroupPerm == e.cgroupPerm;
    } else {
      assert |fields| == 2;
    }
  }

  /** `Device(host_device, container_device, cgroup_perm, allow_disallowed)`:
      strip and validate both paths, require both to be set, validate the
      permission, and run the allow-list on the host path unless overridden. */
  function NewDevice(v: Validators, hostDevice: string, containerDevice: string, cgroupPerm: string,
                     allowDisallowed: bool): (r: Result<Device>)
    ensures var hd := v.validFsPath(StripTrailingSlashes(hostDevice));
            var cd := v.validFsPath(StripTrailingSlashes(containerDevice));
            && (hd.Err? ==> r == Err(hd.error))
            && (hd.Ok? && cd.Err? ==> r == Err(cd.error))
            && (hd.Ok? && cd.Ok? && (hd.value == "" || cd.value == "") ==>
                  r == Err(DevicePathsNotSet(hostDevice, containerDevice)))
            && (hd.Ok? && cd.Ok? && hd.value != "" && cd.value != "" && v.validCgroupPerm(cgroupPerm).Err? ==>
                  r == Err(v.validCgroupPerm(cgroupPerm).error))
            && (hd.Ok? && cd.Ok? && hd.value != "" && cd.value != "" && v.validCgroupPerm(cgroupPerm).Ok?
                && !allowDisallowed && v.allowedDevice(hd.value).Err? ==>
                  r == Err(v.allowedDevice(hd.value).error))
    ensures r.Ok? <==>
            var hd := v.validFsPath(StripTrailingSlashes(hostDevice));
            var cd := v.validFsPath(StripTrailingSlashes(containerDevice));
            && hd.Ok? && hd.value != ""
            && cd.Ok? && cd.value != ""
            && v.validCgroupPerm(cgroupPerm).Ok?
            && (!allowDisallowed ==> v.allowedDevice(hd.value).Ok?)
    ensures r.Ok? ==>
            var hd := v.validFsPath(StripTrailingSlashes(hostDevice)).value;
            && v.validFsPath(StripTrailingSlashes(containerDevice)) == Ok(r.value.containerDevice)
            && r.value.containerDevice != ""
            && v.validCgroupPerm(cgroupPerm) == Ok(r.value.cgroupPerm)
            && r.value.hostDevice == (if allowDisallowed then hd else v.allowedDevice(hd).value)
  {
    var hd :- v.validFsPath(StripTrailingSlashes(hostDevice));
    var cd :- v.validFsPath(StripTrailingSlashes(containerDevice));
    if hd == "" || cd == "" then
      Err(DevicePathsNotSet(hostDevice, containerDevice))
    else
      var perm :- v.validCgroupPerm(cgroupPerm);
      var host :- if allowDisallowed then Ok(hd) else v.allowedDevice(hd);
      Ok(Device(host, cd, perm))
  }

  /** The allow-list is consulted only for the host path and only when it is not
      overridden: replacing it by any other check changes nothing when
      `allowDisallowed` holds, and nothing otherwise as long as the two agree on
      the validated host path. The container path is never allow-list checked. */
  lemma AllowListOnlyOnHost(v: Validators, allowList: string -> Result<string>, hostDevice: string,
                            containerDevice: string, cgroupPerm: string, allowDisallowed: bool)
    requires !allowDisallowed ==>
             var hd := v.validFsPath(StripTrailingSlashes(hostDevice));
             hd.Ok? ==> allowList(hd.value) == v.allowedDevice(hd.value)
    ensures NewDevice(v.(allowedDevice := allowList), hostDevice, containerDevice, cgroupPerm, allowDisallowed)
         == NewDevice(v, hostDevice, containerDevice, cgroupPerm, allowDisallowed)
  {
  }

  /** The abstract value of `Devices`: one member per successful add (a Python
      `Device` has no `__eq__`, so the set never merges two of them) and the
      container paths claimed so far, exactly as the caller spelled them. */
  datatype DeviceSet = DeviceSet(members: seq<Device>, claimed: set<string>)

  const Empty := DeviceSet([], {})

  /** As many members as claimed paths, and every member has a non-empty
      container path. */
  ghost predicate WellFormed(s: DeviceSet) {
    && |s.members| == |s.claimed|
    && forall i :: 0 <= i < |s.members| ==> s.members[i].containerDevice != ""
  }

  /** `Devices.add_device`: refuse a claimed container path, build the device,
      then record it and claim the raw path. */
  function Add(v: Validators, s: DeviceSet, hostDevice: string, containerDevice: string,
               cgroupPerm: string, allowDisallowed: bool): (r: Result<DeviceSet>)
    ensures containerDevice in s.claimed ==> r == Err(DuplicateContainerDevice(containerDevice))
    ensures r.Ok? <==>
            containerDevice !in s.claimed && NewDevice(v, hostDevice, containerDevice, cgroupPerm, allowDisallowed).Ok?
    ensures containerDevice !in s.claimed ==>
            match NewDevice(v, hostDevice, containerDevice, cgroupPerm, allowDisallowed)
            case Ok(d) => r == Ok(DeviceSet(s.members + [d], s.claimed + {containerDevice}))
            case Err(e) => r == Err(e)
  {
    if containerDevice in s.claimed then
      Err(DuplicateContainerDevice(containerDevice))
    else
      var d :- NewDevice(v, hostDevice, containerDevice, cgroupPerm, allowDisallowed);
      Ok(DeviceSet(s.members + [d], s.claimed + {containerDevice}))
  }

  /** A successful add keeps the collection well formed. */
  lemma AddPreservesWellFormed(v: Validators, s: DeviceSet, hostDevice: string, containerDevice: string,
                               cgroupPerm: string, allowDisallowed: bool)
    requires WellFormed(s)
    ensures var r := Add(v, s, hostDevice, containerDevice, cgroupPerm, allowDisallowed);
            r.Ok? ==> WellFormed(r.value)
  {
  }

  /** Once a container path is claimed, every later add of that raw path fails,
      whatever the host device. */
  lemma ClaimIsFinal(v: Validators, s: DeviceSet, host1: string, host2: string, containerDevice: string,
                     perm1: string, perm2: string, allow1: bool, allow2: bool)
    requires Add(v, s, host1, containerDevice, perm1, allow1).Ok?
    ensures var s1 := Add(v, s, host1, containerDevice, perm1, allow1).value;
            Add(v, s1, host2, containerDevice, perm2, allow2) == Err(DuplicateContainerDevice(containerDevice))
  {
  }

  /** Host paths are not deduplicated: one host device under two different
      container paths is accepted both times. */
  lemma SameHostTwice(v: Validators, s: DeviceSet, hostDevice: string, c1: string, c2: string,
                      cgroupPerm: string, allowDisallowed: bool)
    requires c1 != c2 && c1 !in s.claimed && c2 !in s.claimed
    requires NewDevice(v, hostDevice, c1, cgroupPerm, allowDisallowed).Ok?
    requires NewDevice(v, hostDevice, c2, cgroupPerm, allowDisallowed).Ok?
    ensures var s1 := Add(v, s, hostDevice, c1, cgroupPerm, allowDisallowed);
            && s1.Ok?
            && var s2 := Add(v, s1.value, hostDevice, c2, cgroupPerm, allowDisallowed);
            && s2.Ok?
            && |s2.value.members| == |s.members| + 2
            && s2.value.claimed == s.claimed + {c1, c2}
  {
  }

  /** The claimed set holds raw paths while members hold stripped ones, so
      `/dev/x` and `/dev/x/` are both accepted and give two members with the
      same container path (whenever the path validator keeps `/dev/x`). */
  lemma TrailingSlashVariantAccepted(v: Validators, hostDevice: string)
    requires v.validFsPath(StripTrailingSlashes(hostDevice)) == Ok(hostDevice) && hostDevice != ""
    requires v.allowedDevice(hostDevice) == Ok(hostDevice)
    requires v.validFsPath("/dev/x") == Ok("/dev/x")
    requires v.validCgroupPerm("") == Ok("")
    ensures var s1 := Add(v, Empty, hostDevice, "/dev/x", "", false);
            && s1.Ok?
            && var s2 := Add(v, s1.value, hostDevice, "/dev/x/", "", false);
            && s2.Ok?
            && s2.value.members == [Device(hostDevice, "/dev/x", ""), Device(hostDevice, "/dev/x", "")]
            && s2.value.claimed == {"/dev/x", "/dev/x/"}
  {
    assert StripTrailingSlashes("/dev/x") == "/dev/x";
    StripIgnoresSlash("/dev/x");
    assert "/dev/x" + "/" == "/dev/x/";
  }

  const Dri := "/dev/dri"

  /** `Devices._auto_add_devices_from_values`: with `use_all_gpus` set, add
      `/dev/dri` under the same container path past the allow-list, then claim
      the path once more (which the add already did). */
  function AutoAdd(v: Validators, s: DeviceSet, useAllGpus: bool): (r: Result<DeviceSet>)
    ensures !useAllGpus ==> r == Ok(s)
    ensures useAllGpus ==> r == Add(v, s, Dri, Dri, "", true)
  {
    if !useAllGpus then
      Ok(s)
    else
      var s' :- Add(v, s, Dri, Dri, "", true);
      Ok(s'.(claimed := s'.claimed + {Dri}))
  }

  /** A fresh collection with `use_all_gpus` set holds exactly the mapping
      `/dev/dri:/dev/dri` with `/dev/dri` claimed, so a later explicit add of
      that container path fails; without the flag it starts empty. */
  lemma GpuAutoAdd(v: Validators, useAllGpus: bool, hostDevice: string, cgroupPerm: string, allowDisallowed: bool)
    requires v.validFsPath(Dri) == Ok(Dri) && v.validCgroupPerm("") == Ok("")
    ensures !useAllGpus ==> AutoAdd(v, Empty, useAllGpus) == Ok(Empty)
    ensures useAllGpus ==>
            && AutoAdd(v, Empty, useAllGpus) == Ok(DeviceSet([Device(Dri, Dri, "")], {Dri}))
            && Device(Dri, Dri, "").Render() == "/dev/dri:/dev/dri"
            && Add(v, AutoAdd(v, Empty, useAllGpus).value, hostDevice, Dri, cgroupPerm, allowDisallowed)
               == Err(DuplicateContainerDevice(Dri))
  {
    assert Dri[|Dri| - 1] == 'i';
    assert StripTrailingSlashes(Dri) == Dri;
    assert NewDevice(v, Dri, Dri, "", true) == Ok(Device(Dri, Dri, ""));
    assert Empty.members + [Device(Dri, Dri, "")] == [Device(Dri, Dri, "")];
    assert Empty.claimed + {Dri} == {Dri};
    assert Add(v, Empty, Dri, Dri, "", true) == Ok(DeviceSet([Device(Dri, Dri, "")], {Dri}));
  }

  function RenderOf(d: Device): string {
    d.Render()
  }

  /** `[d.render() for d in devices]`. */
  function Renderings(ds: seq<Device>): (r: seq<string>)
    ensures |r| == |ds|
    ensures forall i :: 0 <= i < |ds| ==> r[i] == ds[i].Render()
  {
    Apply(RenderOf, ds)
  }

  /** The rendered list depends only on which devices are members, not on the
      order they were added in. */
  lemma RenderingOrderIrrelevant(a: seq<string>, b: seq<string>, ds: seq<Device>, es: seq<Device>)
    requires multiset(ds) == multiset(es)
    requires Sorted(a) && multiset(a) == multiset(Renderings(ds))
    requires Sorted(b) && multiset(b) == multiset(Renderings(es))
    ensures a == b
  {
    ApplyRespectsMultiset(RenderOf, ds, es);
    SortedUnique(a, b);
  }

  /** `Devices`: the collection one render pass fills with `add_device`. */
  class Devices {
    const validators: Validators
    var devices: seq<Device>
    var containerDevicePaths: set<string>

    ghost function Model(): DeviceSet
      reads this
    {
      DeviceSet(devices, containerDevicePaths)
    }

    ghost predicate Valid()
      reads this
    {
      WellFormed(Model())
    }

    /** The empty collection; the auto-add is `AutoAddDevicesFromValues`. */
    constructor (validators: Validators)
      ensures Valid() && Model() == Empty && this.validators == validators
    {
      this.validators := validators;
      devices := [];
      containerDevicePaths := {};
    }

    method AddDevice(hostDevice: string, containerDevice: string, cgroupPerm: string, allowDisallowed: bool)
      returns (outcome: Outcome)
      requires Valid()
      modifies this
      ensures Valid()
      ensures match Add(validators, old(Model()), hostDevice, containerDevice, cgroupPerm, allowDisallowed)
              case Ok(s) => outcome == Pass && Model() == s
              case Err(e) => outcome == Fail(e) && Model() == old(Model())
    {
      if containerDevice in containerDevicePaths {
        return Fail(DuplicateContainerDevice(containerDevice));
      }
      var d := NewDevice(validators, hostDevice, containerDevice, cgroupPerm, allowDisallowed);
      if d.Err? {
        return Fail(d.error);
      }
      devices := devices + [d.value];
      containerDevicePaths := containerDevicePaths + {containerDevice};
      outcome := Pass;
    }

    method AutoAddDevicesFromValues(useAllGpus: bool) returns (outcome: Outcome)
      requires Valid()
      modifies this
      ensures Valid()
      ensures match AutoAdd(validators, old(Model()), useAllGpus)
              case Ok(s) => outcome == Pass && Model() == s
              case Err(e) => outcome == Fail(e) && Model() == old(Model())
    {
      outcome := Pass;
      if useAllGpus {
        outcome := AddDevice(Dri, Dri, "", true);
        if outcome.Pass? {
          containerDevicePaths := containerDevicePaths + {Dri};
        }
      }
    }

    /** `has_devices`: true exactly when some device was added, which is
        exactly when some container path is claimed. */
    function HasDevices(): (b: bool)
      reads this
      requires Valid()
      ensures b <==> devices != []
      ensures b <==> containerDevicePaths != {}
    {
      |devices| > 0
    }

    /** `render`: every member's entry, sorted. */
    method Render() returns (rendered: seq<string>)
      ensures Sorted(rendered)
      ensures multiset(rendered) == multiset(Renderings(devices))
    {
      rendered := [];
      var i := 0;
      while i < |devices|
        invariant 0 <= i <= |devices|
        invariant Sorted(rendered)
        invariant multiset(rendered) == multiset(Renderings(devices[..i]))
      {
        assert devices[..i + 1][..i] == devices[..i];
        assert Renderings(devices[..i + 1]) == Renderings(devices[..i]) + [devices[i].Render()];
        rendered := Insert(rendered, devices[i].Render());
        i := i + 1;
      }
      assert devices[..i] == devices;
    }
  }

  /** `Devices(render_instance)`: an empty collection followed by the auto-add;
      a failure of the auto-add is reported with the collection left empty. */
  method NewDevices(validators: Validators, useAllGpus: bool) returns (devices: Devices, outcome: Outcome)
    ensures fresh(devices) && devices.Valid() && devices.validators == validators
    ensures match AutoAdd(validators, Empty, useAllGpus)
            case Ok(s) => outcome == Pass && devices.Model() == s
            case Err(e) => outcome == Fail(e) && devices.Model() == Empty
  {
    devices := new Devices(validators);
    outcome := devices.AutoAddDevicesFromValues(useAllGpus);
  }
}
