# Device and volume lowering

A Dafny model of the two resource-lowering components of an application
templating library. Each validates a user descriptor, stores it in a
collection of one render pass, and lowers the collection into what a
compose-style manifest expects.

- **Devices** (`DeviceLowering`, device.dfy). `NewDevice` is `Device(...)`:
  it strips trailing `/` from the host and container paths, validates them,
  requires both to be set, validates the cgroup permission and, unless
  `allowDisallowed` holds, runs the host path through the device allow-list.
  `Device.Render` gives `host:container[:perm]`. The `Devices` class holds
  one member per successful add and the set of container paths claimed so
  far, exactly as the caller spelled them. `AddDevice` refuses a claimed
  path. The GPU flag auto-adds `/dev/dri`, and `Render` returns the sorted
  entries. Its abstract value is `DeviceSet`, and the pure `Add` and
  `AutoAdd` functions specify the class's methods.
- **Volumes** (`VolumeLowering`, volumes.dfy). `CreateVolume` is
  `Volume(...)`: it dispatches on the `type` tag to `HostPathParser` or
  `IxVolumeParser`, and each of them yields a bind mount with no top-level
  declaration. The `Volumes` class is an identifier-to-volume map. The pure
  `Register` and `Lookup` functions specify `add_volume` and `get_volume`.
- **Shared** (wrappers.dfy, validations.dfy, strings.dfy, sequences.dfy). `RenderError` is
  the failure case of `Result`/`Outcome`. `Validators` carries the three
  path, allow-list and permission checks as parameters. `Strings` models
  `str.rstrip("/")`, Python's order on `str` with insertion into a sorted
  list, and splitting at `:`. `Sequences` maps a function over a sequence,
  as a list comprehension does.

The path, allow-list and permission validators live in a `validations`
module that is not part of this model. Every operation takes them as a
`Validators` value. The operations' contracts and the general lemmas hold
for every choice of validators. The example lemmas `GpuAutoAdd`,
`TrailingSlashVariantAccepted` and `OnlyIxVolumeStrips` name, in their
`requires`, the validator answers they assume. Of the render context, the model takes only the slice the code
reads: the `use_all_gpus` flag and the `ix_volumes` map.

Modelled as the code behaves:

- The claimed-path set holds the raw `container_device` argument, while the
  member holds the stripped, validated path. So `/dev/x` and `/dev/x/` are
  both accepted and yield two members with the same container path. A
  descriptive reading suggests container paths are never repeated; the code
  does not ensure it. `TrailingSlashVariantAccepted` shows this.
- `Volumes.has_volumes` falls off its loop and returns `None`. The model
  returns `false`.
- `Volumes.render` builds its `result` mapping but returns nothing. The
  model returns the mapping it builds, which is empty for every registry
  the library can build.

## Model

| member | source | states |
|---|---|---|
| Strings.StripTrailingSlashes | library/2.0.0/device.py:11-12 | `rstrip("/")`: the result is a prefix of the input, does not end in `/`, and only slashes were removed |
| Strings.StripIdempotent | library/2.0.0/device.py:11-12 | stripping an already stripped path changes nothing |
| Strings.StripIgnoresSlash | library/2.0.0/volumes.py:118 | a path and the same path with one more trailing `/` strip to the same string |
| Strings.Insert | library/2.0.0/device.py:65 | inserting into a sorted list (Python `str` order) gives a sorted list with exactly one more occurrence of the element |
| Strings.SortedUnique | library/2.0.0/device.py:65 | two sorted lists with the same elements are equal, so `sorted` is deterministic |
| DeviceLowering.NewDevice | library/2.0.0/device.py:10-25 | errors of the path validators come first; empty validated host or container path fails with `DevicePathsNotSet`; then a rejecting permission validator's error, then (unless overridden) a rejecting allow-list's error, is returned unchanged; success exactly when both paths validate non-empty, the permission validates and, unless overridden, the allow-list accepts the host path; the stored fields are the validators' answers |
| DeviceLowering.AllowListOnlyOnHost | library/2.0.0/device.py:19-21 | the allow-list is consulted only on the validated host path and only when `allow_disallowed` is false; the container path is never allow-list checked |
| DeviceLowering.RenderReadsBack | library/2.0.0/device.py:27-31 | for colon-free fields, splitting the rendered entry at `:` gives host, container and the permission exactly when it is non-empty |
| DeviceLowering.RenderInjective | library/2.0.0/device.py:27-31 | two colon-free devices with equal renderings are the same mapping |
| DeviceLowering.Add | library/2.0.0/device.py:52-59 | a claimed raw container path fails with `DuplicateContainerDevice` and changes nothing; a failed `Device` construction changes nothing; success appends exactly one member and claims exactly the raw path |
| DeviceLowering.AddPreservesWellFormed | library/2.0.0/device.py:52-59 | one member per claimed path, and every member has a non-empty container path, is kept by every add |
| DeviceLowering.ClaimIsFinal | library/2.0.0/device.py:55-56 | after a successful add of a container path, every add of the same raw path fails whatever the host |
| DeviceLowering.SameHostTwice | library/2.0.0/device.py:53-59 | one host path under two different container paths is accepted both times |
| DeviceLowering.TrailingSlashVariantAccepted | library/2.0.0/device.py:12 | `/dev/x` and `/dev/x/` are different claims, so both adds succeed and give two members with container path `/dev/x` |
| DeviceLowering.AutoAdd | library/2.0.0/device.py:45-50 | without `use_all_gpus` the collection is unchanged; with it the result is that of adding `/dev/dri:/dev/dri` past the allow-list, and re-claiming the path is a no-op |
| DeviceLowering.GpuAutoAdd | library/2.0.0/device.py:35-50 | a fresh collection with the GPU flag holds exactly `/dev/dri:/dev/dri` with `/dev/dri` claimed, and a later add of that container path fails; without the flag it is empty |
| DeviceLowering.Renderings | library/2.0.0/device.py:65 | the list has one entry per member, in member order, each that member's rendering |
| DeviceLowering.RenderingOrderIrrelevant | library/2.0.0/device.py:64-65 | the sorted rendering depends only on which devices are members, not on the order of their adds |
| DeviceLowering.Devices.constructor | library/2.0.0/device.py:35-40 | a new collection has no members and no claimed paths |
| DeviceLowering.Devices.AddDevice | library/2.0.0/device.py:52-59 | the new state and outcome are those of `Add`; the collection stays well formed |
| DeviceLowering.Devices.AutoAddDevicesFromValues | library/2.0.0/device.py:45-50 | the new state and outcome are those of `AutoAdd`; on failure nothing changes |
| DeviceLowering.Devices.HasDevices | library/2.0.0/device.py:61-62 | true exactly when there is a member, which is exactly when a container path is claimed |
| DeviceLowering.Devices.Render | library/2.0.0/device.py:64-65 | the result is sorted and is a permutation of the members' renderings |
| DeviceLowering.NewDevices | library/2.0.0/device.py:35-43 | a fresh collection whose state and outcome are those of `AutoAdd` on the empty collection |
| VolumeLowering.Volume.GetReadOnly | library/2.0.0/volumes.py:124-125 | true exactly when `read_only` is present and true; absent means false |
| VolumeLowering.Volume.Render | library/2.0.0/volumes.py:145-148 | the top-level declaration for a top-level volume, an empty mapping otherwise |
| VolumeLowering.VolumeTypeProcessor | library/2.0.0/volumes.py:71-82 | exactly `host_path` and `ix_volume` are accepted, each selecting its own parser; any other name fails listing both |
| VolumeLowering.HostPathParser | library/2.0.0/volumes.py:84-104 | a missing or empty `host_path_config` fails, then a missing `path` fails even when ACL is enabled; with ACL enabled a missing `acl.path` fails and otherwise the validated `acl.path` is the source; without ACL the validated `path` is; a rejecting path validator's error is returned unchanged; the result is a bind mount with the `host_path_config` and no top-level spec |
| VolumeLowering.IxVolumeParser | library/2.0.0/volumes.py:106-122 | a missing config, a missing dataset name and a name absent from `ix_volumes` each fail, the last listing the known names; a rejecting path validator's error is returned unchanged; otherwise the source is the validated mapped path with trailing `/` stripped, in a bind mount with the `ix_volume_config` and no top-level spec |
| VolumeLowering.CreateVolume | library/2.0.0/volumes.py:67-69 | the `type` tag defaults to `""`; an unsupported tag fails listing the valid ones; otherwise exactly the matching parser runs |
| VolumeLowering.CreatedVolumeIsBind | library/2.0.0/volumes.py:101-104 | every constructed volume keeps its raw descriptor, has mount type `bind`, is not top-level and renders to an empty mapping |
| VolumeLowering.OnlyIxVolumeStrips | library/2.0.0/volumes.py:97-99 | with a validator accepting paths unchanged, a host path keeps its trailing `/` while a dataset path loses it |
| VolumeLowering.AclStillNeedsPath | library/2.0.0/volumes.py:88-89 | ACL enabled with an `acl.path` but no `path` fails with `MissingHostPath` |
| VolumeLowering.Register | library/2.0.0/volumes.py:31-37 | an empty identifier and a registered identifier fail and change nothing; a failed construction changes nothing; success adds exactly that identifier with the constructed volume and keeps every other entry |
| VolumeLowering.RegisterPreservesValid | library/2.0.0/volumes.py:31-37 | registering keeps identifiers non-empty and every entry equal to what its own descriptor constructs |
| VolumeLowering.Lookup | library/2.0.0/volumes.py:20-26 | a registered identifier gives its volume; any other fails listing the registered identifiers |
| VolumeLowering.LookupAfterRegister | library/2.0.0/volumes.py:20-37 | after a registration, looking the identifier up gives the constructed volume, and lookups of other identifiers are unaffected |
| VolumeLowering.NoTopLevelVolumes | library/2.0.0/volumes.py:139-140 | in a registry built by `add_volume` no volume is top-level |
| VolumeLowering.Volumes.constructor | library/2.0.0/volumes.py:10-12 | a new registry is empty |
| VolumeLowering.Volumes.AddVolume | library/2.0.0/volumes.py:31-37 | the new registry and outcome are those of `Register`; the registry invariant is kept |
| VolumeLowering.Volumes.GetVolume | library/2.0.0/volumes.py:20-26 | the answer is `Lookup` on the current registry |
| VolumeLowering.Volumes.VolumeIdentifiers | library/2.0.0/volumes.py:28-29 | exactly the identifiers that `get_volume` finds |
| VolumeLowering.Volumes.HasVolumes | library/2.0.0/volumes.py:14-18 | true exactly when some registered volume is top-level; false for every registry `add_volume` builds |
| VolumeLowering.Volumes.Render | library/2.0.0/volumes.py:39-44 | each entry is a top-level volume's rendering under its generated name, and every top-level volume's name is present; empty for every registry `add_volume` builds |

## Left out

- The validators `valid_fs_path_or_raise`, `allowed_device_or_raise` and `valid_cgroup_perm_or_raise` are not part of this model. They are parameters. The general contracts hold for every validator, and the example lemmas state the validator answers they assume.
- Error messages: each `RenderError` variant keeps the offending value and the listed alternatives, not the formatted text. Error listings use sets of names where Python joins dict keys in insertion order.
- The `print` in `get_vol_type_spec` (console output). Only the returned mount type is modelled.
- The render context: only `use_all_gpus` and `ix_volumes` are passed. A missing `ix_volumes` is the empty map.
- Descriptor keys the code never reads. A `host_path_config` is empty, and so false in Python, only when none of `path`, `acl_enable` and `acl` is present. Extra keys that would make the dict non-empty are not modelled.
- Values of the wrong Python type (for example a non-string `type` or a non-boolean `read_only`): the descriptor fields are typed.
- Dict and set iteration order. `Volumes.Render` and `Volumes.HasVolumes` visit identifiers in an unspecified order. Two top-level volumes would collide on the generated name `""`, and only the order-free facts are stated.
- Python object identity: `Devices` keeps a sequence with one entry per successful add, which is what a set of objects without `__eq__` holds.
- DeviceLowering.Devices.constructor: a Dafny constructor cannot fail, so Python's `Devices.__init__` is split. `NewDevices` runs the empty constructor followed by `AutoAddDevicesFromValues`, and it returns the collection even when the auto-add fails, where Python raises.
- DeviceLowering.Device.Render, Volume.GetVolTypeSpec, Volume.GetSource, Volume.GetConfig, Volume.GetName and Volume.IsTopLevelVolume are plain accessors or formatting without contracts of their own. What `Device.Render` returns is stated by `RenderReadsBack`. The mount type, config and top-level status are stated by `CreatedVolumeIsBind`. The source path is stated by the `ensures` of `HostPathParser` and `IxVolumeParser`. `GetName` is always `""`, which only its body states.
