/** Volume declarations: one validated mount descriptor (`Volume`), chosen by
    its `type` tag, and the registry of named volumes (`Volumes`), as in
    library/2.0.0/volumes.py. */
module VolumeLowering {
  import opened Wrappers
  import opened Strings
  import opened Validations

  /** `host_path_config.acl`. */
  datatype AclConfig = AclConfig(path: Option<string>)

  /** `host_path_config`: the keys the library reads. */
  datatype HostPathConfig = HostPathConfig(path: Option<string>, aclEnable: Option<bool>, acl: Option<AclConfig>) {
    /** An empty dict, which Python treats as false. */
    predicate IsEmpty() {
      path.None? && aclEnable.None? && acl.None?
    }
  }

  /** `ix_volume_config`: the keys the library reads. */
  datatype IxVolumeConfig = IxVolumeConfig(datasetName: Option<string>) {
    predicate IsEmpty() {
      datasetName.None?
    }
  }

  /** The raw descriptor a caller passes to `add_volume`. */
  datatype VolumeConfig = VolumeConfig(
    volType: Option<string>,
    hostPathConfig: Option<HostPathConfig>,
    ixVolumeConfig: Option<IxVolumeConfig>,
    readOnly: Option<bool>
  )

  /** Python truthiness of an optional string: present and non-empty. */
  predicate IsSet(s: Option<string>) {
    s.Some? && s.value != ""
  }

  /** The sub-config relevant to the chosen type. */
  datatype TypeConfig = HostPathSettings(hostPath: HostPathConfig) | IxVolumeSettings(ixVolume: IxVolumeConfig)

  /** A compose top-level volume declaration. */
  type VolumeSpec = map<string, string>

  /** A constructed volume: its raw descriptor and the fields the parser fills.
      `spec` is `None` for a bind mount, which needs no top-level declaration. */
  datatype Volume = Volume(rawConfig: VolumeConfig, mountType: string, source: string, config: TypeConfig,
                           spec: Option<VolumeSpec>) {

    /** `get_read_only`: `read_only` when present, false otherwise. */
    function GetReadOnly(): (b: bool)
      ensures b <==> rawConfig.readOnly == Some(true)
    {
      rawConfig.readOnly.GetOr(false)
    }

    function GetVolTypeSpec(): string {
      mountType
    }

    function GetSource(): string {
      source
    }

    function GetConfig(): TypeConfig {
      config
    }

    function GetName(): string {
      ""
    }

    predicate IsTopLevelVolume() {
      spec.Some?
    }

    /** `render`: the top-level declaration, or an empty one for a bind mount. */
    function Render(): (r: VolumeSpec)
      ensures !IsTopLevelVolume() ==> r == map[]
      ensures IsTopLevelVolume() ==> r == spec.value
    {
      if spec.Some? then spec.value else map[]
    }
  }

  /** A bind mount of `source`: no top-level declaration. */
  function BindMount(cfg: VolumeConfig, source: string, config: TypeConfig): Volume {
    Volume(cfg, "bind", source, config, None)
  }

  datatype VolumeKind = HostPath | IxVolume

  /** The type names the library accepts, in the order its error lists them. */
  const VolumeTypes: seq<string> := ["host_path", "ix_volume"]

  /** `_volume_type_processor_mapping`: the parser for a type name. */
  function VolumeTypeProcessor(volType: string): (r: Result<VolumeKind>)
    ensures r == Ok(HostPath) <==> volType == "host_path"
    ensures r == Ok(IxVolume) <==> volType == "ix_volume"
    ensures r.Ok? <==> volType in VolumeTypes
    ensures r.Err? ==> r.error == InvalidVolumeType(volType, VolumeTypes)
  {
    if volType == "host_path" then Ok(HostPath)
    else if volType == "ix_volume" then Ok(IxVolume)
    else Err(InvalidVolumeType(volType, VolumeTypes))
  }

  predicate AclEnabled(hpc: HostPathConfig) {
    hpc.aclEnable == Some(true)
  }

  /** `_host_path_parser`: `host_path_config.path` is required even with ACL
      enabled; with ACL enabled the source is `acl.path`, otherwise `path`, as
      the path validator returns it (no trailing-slash stripping). */
  function HostPathParser(v: Validators, cfg: VolumeConfig): (r: Result<Volume>)
    ensures cfg.hostPathConfig.None? || cfg.hostPathConfig.value.IsEmpty() ==> r == Err(MissingHostPathConfig)
    ensures cfg.hostPathConfig.Some? && !cfg.hostPathConfig.value.IsEmpty() && !IsSet(cfg.hostPathConfig.value.path)
            ==> r == Err(MissingHostPath)
    ensures r.Ok? ==>
            && cfg.hostPathConfig.Some?
            && var hpc := cfg.hostPathConfig.value;
            && IsSet(hpc.path)
            && r.value == BindMount(cfg, r.value.source, HostPathSettings(hpc))
            && (AclEnabled(hpc) ==> hpc.acl.Some? && IsSet(hpc.acl.value.path)
                                    && v.validFsPath(hpc.acl.value.path.value) == Ok(r.value.source))
            && (!AclEnabled(hpc) ==> v.validFsPath(hpc.path.value) == Ok(r.value.source))
    ensures cfg.hostPathConfig.Some? ==>
            var hpc := cfg.hostPathConfig.value;
            && (IsSet(hpc.path) && AclEnabled(hpc) && (hpc.acl.None? || !IsSet(hpc.acl.value.path))
                ==> r == Err(MissingAclPath))
            && (IsSet(hpc.path) && AclEnabled(hpc) && hpc.acl.Some? && IsSet(hpc.acl.value.path)
                ==> r.Ok? == v.validFsPath(hpc.acl.value.path.value).Ok?)
            && (IsSet(hpc.path) && AclEnabled(hpc) && hpc.acl.Some? && IsSet(hpc.acl.value.path)
                && v.validFsPath(hpc.acl.value.path.value).Err?
                ==> r == Err(v.validFsPath(hpc.acl.value.path.value).error))
            && (IsSet(hpc.path) && !AclEnabled(hpc) ==> r.Ok? == v.validFsPath(hpc.path.value).Ok?)
            && (IsSet(hpc.path) && !AclEnabled(hpc) && v.validFsPath(hpc.path.value).Err?
                ==> r == Err(v.validFsPath(hpc.path.value).error))
  {
    if cfg.hostPathConfig.None? || cfg.hostPathConfig.value.IsEmpty() then
      Err(MissingHostPathConfig)
    else
      var hpc := cfg.hostPathConfig.value;
      if !IsSet(hpc.path) then
        Err(MissingHostPath)
      else if AclEnabled(hpc) then
        if hpc.acl.None? || !IsSet(hpc.acl.value.path) then
          Err(MissingAclPath)
        else
          var path :- v.validFsPath(hpc.acl.value.path.value);
          Ok(BindMount(cfg, path, HostPathSettings(hpc)))
      else
        var path :- v.validFsPath(hpc.path.value);
        Ok(BindMount(cfg, path, HostPathSettings(hpc)))
  }

  /** `_ix_volume_parser`: the dataset must be named and known; the source is
      its mapped path, trailing slashes stripped, as the path validator
      returns it. */
  function IxVolumeParser(v: Validators, ixVolumes: map<string, string>, cfg: VolumeConfig): (r: Result<Volume>)
    ensures cfg.ixVolumeConfig.None? || cfg.ixVolumeConfig.value.IsEmpty() ==> r == Err(MissingIxVolumeConfig)
    ensures cfg.ixVolumeConfig.Some? && !cfg.ixVolumeConfig.value.IsEmpty() ==>
            var name := cfg.ixVolumeConfig.value.datasetName;
            && (!IsSet(name) ==> r == Err(MissingDatasetName))
            && (IsSet(name) && name.value !in ixVolumes ==> r == Err(UnknownDataset(name.value, ixVolumes.Keys)))
            && (IsSet(name) && name.value in ixVolumes ==>
                  r.Ok? == v.validFsPath(StripTrailingSlashes(ixVolumes[name.value])).Ok?)
            && (IsSet(name) && name.value in ixVolumes
                && v.validFsPath(StripTrailingSlashes(ixVolumes[name.value])).Err? ==>
                  r == Err(v.validFsPath(StripTrailingSlashes(ixVolumes[name.value])).error))
    ensures r.Ok? ==>
            && cfg.ixVolumeConfig.Some?
            && var name := cfg.ixVolumeConfig.value.datasetName;
            && IsSet(name) && name.value in ixVolumes
            && v.validFsPath(StripTrailingSlashes(ixVolumes[name.value])) == Ok(r.value.source)
            && r.value == BindMount(cfg, r.value.source, IxVolumeSettings(cfg.ixVolumeConfig.value))
  {
    if cfg.ixVolumeConfig.None? || cfg.ixVolumeConfig.value.IsEmpty() then
      Err(MissingIxVolumeConfig)
    else if !IsSet(cfg.ixVolumeConfig.value.datasetName) then
      Err(MissingDatasetName)
    else
      var datasetName := cfg.ixVolumeConfig.value.datasetName.value;
      if datasetName !in ixVolumes then
        Err(UnknownDataset(datasetName, ixVolumes.Keys))
      else
        var path :- v.validFsPath(StripTrailingSlashes(ixVolumes[datasetName]));
        Ok(BindMount(cfg, path, IxVolumeSettings(cfg.ixVolumeConfig.value)))
  }

  /** `Volume(render_instance, identifier, config)`: dispatch on `type`
      (default `""`) to exactly one parser. */
  function CreateVolume(v: Validators, ixVolumes: map<string, string>, cfg: VolumeConfig): (r: Result<Volume>)
    ensures cfg.volType.GetOr("") !in VolumeTypes ==> r == Err(InvalidVolumeType(cfg.volType.GetOr(""), VolumeTypes))
    ensures cfg.volType == Some("host_path") ==> r == HostPathParser(v, cfg)
    ensures cfg.volType == Some("ix_volume") ==> r == IxVolumeParser(v, ixVolumes, cfg)
  {
    var kind :- VolumeTypeProcessor(cfg.volType.GetOr(""));
    match kind
    case HostPath => HostPathParser(v, cfg)
    case IxVolume => IxVolumeParser(v, ixVolumes, cfg)
  }

  /** Every volume the library can build is a bind mount of its own descriptor:
      never top-level, with an empty rendering. */
  lemma CreatedVolumeIsBind(v: Validators, ixVolumes: map<string, string>, cfg: VolumeConfig)
    requires CreateVolume(v, ixVolumes, cfg).Ok?
    ensures var vol := CreateVolume(v, ixVolumes, cfg).value;
            && vol.rawConfig == cfg
            && vol.GetVolTypeSpec() == "bind"
            && !vol.IsTopLevelVolume()
            && vol.Render() == map[]
            && (cfg.volType == Some("host_path") <==> vol.GetConfig().HostPathSettings?)
  {
  }

  /** Only `ix_volume` strips trailing slashes from its source: with a path
      validator that accepts every path unchanged, a host path keeps its slash
      while a dataset path loses it. */
  lemma OnlyIxVolumeStrips(v: Validators)
    requires forall p :: v.validFsPath(p) == Ok(p)
    ensures var hostCfg := VolumeConfig(Some("host_path"),
                                       Some(HostPathConfig(Some("/mnt/data/"), None, None)), None, None);
            CreateVolume(v, map[], hostCfg) == Ok(BindMount(hostCfg, "/mnt/data/",
                                                            HostPathSettings(hostCfg.hostPathConfig.value)))
    ensures var ixCfg := VolumeConfig(Some("ix_volume"), None, Some(IxVolumeConfig(Some("mydata"))), None);
            CreateVolume(v, map["mydata" := "/mnt/pool/mydata/"], ixCfg)
            == Ok(BindMount(ixCfg, "/mnt/pool/mydata", IxVolumeSettings(ixCfg.ixVolumeConfig.value)))
  {
    var p := "/mnt/pool/mydata";
    assert p[|p| - 1] == 'a';
    assert StripTrailingSlashes(p) == p;
    StripIgnoresSlash(p);
    assert p + "/" == "/mnt/pool/mydata/";
  }

  /** ACL does not replace the plain path requirement: an ACL path alone fails. */
  lemma AclStillNeedsPath(v: Validators, aclPath: string)
    ensures var cfg := VolumeConfig(Some("host_path"),
                                   Some(HostPathConfig(None, Some(true), Some(AclConfig(Some(aclPath))))), None, None);
            CreateVolume(v, map[], cfg) == Err(MissingHostPath)
  {
  }

  /** The registry invariant: identifiers are non-empty and each entry is what
      `CreateVolume` built from the entry's own descriptor. */
  ghost predicate RegistryValid(v: Validators, ixVolumes: map<string, string>, vols: map<string, Volume>) {
    && "" !in vols
    && forall id :: id in vols ==> CreateVolume(v, ixVolumes, vols[id].rawConfig) == Ok(vols[id])
  }

  /** `Volumes.add_volume`: refuse an empty or taken identifier, then build the
      volume and register it under that identifier. */
  function Register(v: Validators, ixVolumes: map<string, string>, vols: map<string, Volume>,
                    identifier: string, cfg: VolumeConfig): (r: Result<map<string, Volume>>)
    ensures identifier == "" ==> r == Err(EmptyVolumeName)
    ensures identifier != "" && identifier in vols ==> r == Err(DuplicateVolume(identifier))
    ensures identifier != "" && identifier !in vols && CreateVolume(v, ixVolumes, cfg).Err? ==>
            r == Err(CreateVolume(v, ixVolumes, cfg).error)
    ensures r.Ok? <==> identifier != "" && identifier !in vols && CreateVolume(v, ixVolumes, cfg).Ok?
    ensures r.Ok? ==>
            && r.value.Keys == vols.Keys + {identifier}
            && r.value[identifier] == CreateVolume(v, ixVolumes, cfg).value
            && forall id :: id in vols ==> r.value[id] == vols[id]
  {
    if identifier == "" then
      Err(EmptyVolumeName)
    else if identifier in vols then
      Err(DuplicateVolume(identifier))
    else
      var vol :- CreateVolume(v, ixVolumes, cfg);
      Ok(vols[identifier := vol])
  }

  /** Registering keeps the registry invariant. */
  lemma RegisterPreservesValid(v: Validators, ixVolumes: map<string, string>, vols: map<string, Volume>,
                               identifier: string, cfg: VolumeConfig)
    requires RegistryValid(v, ixVolumes, vols)
    ensures var r := Register(v, ixVolumes, vols, identifier, cfg);
            r.Ok? ==> RegistryValid(v, ixVolumes, r.value)
  {
    var r := Register(v, ixVolumes, vols, identifier, cfg);
    if r.Ok? {
      forall id | id in r.value
        ensures CreateVolume(v, ixVolumes, r.value[id].rawConfig) == Ok(r.value[id])
      {
        if id == identifier {
          CreatedVolumeIsBind(v, ixVolumes, cfg);
        }
      }
    }
  }

  /** `Volumes.get_volume`: the registered volume, or an error listing the
      registered identifiers. */
  function Lookup(vols: map<string, Volume>, identifier: string): (r: Result<Volume>)
    ensures identifier in vols <==> r.Ok?
    ensures r.Ok? ==> r.value == vols[identifier]
    ensures r.Err? ==> r.error == VolumeNotFound(identifier, vols.Keys)
  {
    if identifier !in vols then Err(VolumeNotFound(identifier, vols.Keys)) else Ok(vols[identifier])
  }

  /** What `add_volume` registers is what `get_volume` then returns. */
  lemma LookupAfterRegister(v: Validators, ixVolumes: map<string, string>, vols: map<string, Volume>,
                            identifier: string, cfg: VolumeConfig, other: string)
    requires Register(v, ixVolumes, vols, identifier, cfg).Ok?
    ensures var vols' := Register(v, ixVolumes, vols, identifier, cfg).value;
            && Lookup(vols', identifier) == CreateVolume(v, ixVolumes, cfg)
            && (other != identifier ==> Lookup(vols', other).Ok? == Lookup(vols, other).Ok?)
            && (other != identifier && other in vols ==> Lookup(vols', other) == Lookup(vols, other))
  {
  }

  /** In a valid registry no volume is top-level. */
  lemma NoTopLevelVolumes(v: Validators, ixVolumes: map<string, string>, vols: map<string, Volume>)
    requires RegistryValid(v, ixVolumes, vols)
    ensures forall id :: id in vols ==> !vols[id].IsTopLevelVolume()
  {
    forall id | id in vols ensures !vols[id].IsTopLevelVolume() {
      CreatedVolumeIsBind(v, ixVolumes, vols[id].rawConfig);
    }
  }

  /** `Volumes`: the registry one render pass fills with `add_volume`. */
  class Volumes {
    const validators: Validators
    const ixVolumes: map<string, string>
    var volumes: map<string, Volume>

    ghost predicate Valid()
      reads this
    {
      RegistryValid(validators, ixVolumes, volumes)
    }

    constructor (validators: Validators, ixVolumes: map<string, string>)
      ensures Valid() && volumes == map[]
      ensures this.validators == validators && this.ixVolumes == ixVolumes
    {
      this.validators := validators;
      this.ixVolumes := ixVolumes;
      volumes := map[];
    }

    method AddVolume(identifier: string, cfg: VolumeConfig) returns (outcome: Outcome)
      requires Valid()
      modifies this
      ensures Valid()
      ensures match Register(validators, ixVolumes, old(volumes), identifier, cfg)
              case Ok(vols) => outcome == Pass && volumes == vols
              case Err(e) => outcome == Fail(e) && volumes == old(volumes)
    {
      if identifier == "" {
        return Fail(EmptyVolumeName);
      }
      if identifier in volumes {
        return Fail(DuplicateVolume(identifier));
      }
      var vol := CreateVolume(validators, ixVolumes, cfg);
      if vol.Err? {
        return Fail(vol.error);
      }
      RegisterPreservesValid(validators, ixVolumes, volumes, identifier, cfg);
      volumes := volumes[identifier := vol.value];
      outcome := Pass;
    }

    function GetVolume(identifier: string): (r: Result<Volume>)
      reads this
      ensures r == Lookup(volumes, identifier)
    {
      Lookup(volumes, identifier)
    }

    /** `volume_identifiers`: exactly the identifiers `get_volume` finds. */
    function VolumeIdentifiers(): (ids: set<string>)
      reads this
      ensures forall id :: id in ids <==> GetVolume(id).Ok?
    {
      volumes.Keys
    }

    /** `has_volumes`: whether some registered volume is top-level; in a
        registry the library built, never. */
    method HasVolumes() returns (b: bool)
      ensures b <==> exists id :: id in volumes && volumes[id].IsTopLevelVolume()
      ensures Valid() ==> !b
    {
      var remaining := volumes.Keys;
      while remaining != {}
        invariant remaining <= volumes.Keys
        invariant forall id :: id in volumes && id !in remaining ==> !volumes[id].IsTopLevelVolume()
        decreases remaining
      {
        var id :| id in remaining;
        if volumes[id].IsTopLevelVolume() {
          if Valid() {
            NoTopLevelVolumes(validators, ixVolumes, volumes);
          }
          return true;
        }
        remaining := remaining - {id};
      }
      return false;
    }

    /** `render`: each top-level volume's declaration under its generated
        name; in a registry the library built, nothing. */
    method Render() returns (result: map<string, VolumeSpec>)
      ensures forall name :: name in result ==>
                exists id :: id in volumes && volumes[id].IsTopLevelVolume()
                             && volumes[id].GetName() == name && result[name] == volumes[id].Render()
      ensures forall id :: id in volumes && volumes[id].IsTopLevelVolume() ==> volumes[id].GetName() in result
      ensures Valid() ==> result == map[]
    {
      result := map[];
      var remaining := volumes.Keys;
      while remaining != {}
        invariant remaining <= volumes.Keys
        invariant forall name :: name in result ==>
                    exists id :: id in volumes && volumes[id].IsTopLevelVolume()
                                 && volumes[id].GetName() == name && result[name] == volumes[id].Render()
        invariant forall id :: id in volumes && id !in remaining && volumes[id].IsTopLevelVolume() ==>
                    volumes[id].GetName() in result
        decreases remaining
      {
        var id :| id in remaining;
        if volumes[id].IsTopLevelVolume() {
          result := result[volumes[id].GetName() := volumes[id].Render()];
        }
        remaining := remaining - {id};
      }
      if Valid() {
        NoTopLevelVolumes(validators, ixVolumes, volumes);
        assert result.Keys == {};
      }
    }
  }
}
