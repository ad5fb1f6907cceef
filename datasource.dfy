/** The OVF datasource itself: `DataSourceOVF._get_data` decides where the
    instance's metadata comes from (a seed directory, VMware image
    customization with raw cloud-init data or with a customization config,
    or an OVF transport), reports customization status to the VMware
    platform and fills the datasource's fields. Everything the datasource
    learns from the outside world is a field of the `Env` record; everything
    it does to the outside world is an `Event` appended to `trace`, except
    the marker directory, which is an object it changes in place. */
module DataSource {
  import opened Common
  import opened Paths
  import opened OvfEnv
  import opened Imc
  import opened Markers

  // ---------------------------------------------------------------------
  // Vocabulary

  /** Guest-customization states reported to the platform. */
  datatype CustState = StateRunning | StateDone

  /** Guest-customization events and error codes reported with a state. */
  datatype CustCode = EventCustomizeFailed | EventNetworkSetupFailed | ErrorWrongMetaFormat | ErrorSuccess

  /** An effect on the world outside the datasource object. */
  datatype Event =
    | SetCustStatus(state: CustState, code: CustCode)  // set_customization_status
    | SetGcStatus(message: string)                     // set_gc_status
    | DelDir(path: string)                             // util.del_dir
    | EnableNics(nics: string)                         // enable_nics
    | ConfigurePassword(adminPassword: string, resetPassword: bool)
    | ConfigureNics                                    // NicConfigurator(...).generate(configure=True)
    | ProbeTransport(name: string)                     // a transport function is called

  /** The exceptions `_get_data` lets escape. */
  datatype Fault =
    | MaxWaitTypeError                                 // get_max_wait_from_cfg
    | CustConfigUnreadable                             // ConfigFile/Config on cust.cfg
    | Customization(prefix: string, configFile: string)  // re-raised by _raise_error_status
    | Ovf(error: XmlError)                             // read_ovf_environment
    | SeedfromNotString                                // seedfrom.startswith on a non-string
    | ReadSeededFailed                                 // util.read_seeded

  /** How `_get_data` ends: it returns a boolean or raises. */
  datatype Outcome = Returned(ok: bool) | Raised(fault: Fault)

  const FilesMissing := "File(s) missing in directory"
  const MetaDataParseError := "Error parsing the cloud-init meta data"
  const CloudInitLoadError := "Error loading cloud-init configuration"
  const CustConfigParseError := "Error parsing the customization Config File"
  const NetworkPrepError := "Error preparing Network Configuration"
  const PasswordError := "Error applying Password Configuration"
  const MarkerError := "Error creating marker files"

  const CustomizationPrefixes: set<string> :=
    {FilesMissing, MetaDataParseError, CloudInitLoadError, CustConfigParseError,
     NetworkPrepError, PasswordError, MarkerError}

  /** The event each error prefix is reported with. */
  function CodeOf(prefix: string): CustCode {
    if prefix == MetaDataParseError then ErrorWrongMetaFormat
    else if prefix == NetworkPrepError then EventNetworkSetupFailed
    else EventCustomizeFailed
  }

  const Started := "Started"
  const Successful := "Successful"
  const VmwareTools := "vmware-tools"
  const GuestInfo := "com.vmware.guestInfo"
  const Iso := "iso"
  const Transports: seq<string> := [GuestInfo, Iso]
  const CustCfgName := "cust.cfg"
  const NapLen := 5
  const DefaultInstanceId := "iid-dsovf"

  function Defaults(): map<string, Value> {
    map["instance-id" := Str(DefaultInstanceId)]
  }

  /** What `_raise_error_status` reports before re-raising: the running
      state with the event, the prefix as guest-customization status, and
      the removal of the customization directory. */
  function ErrorEvents(prefix: string, code: CustCode, configFile: string): seq<Event> {
    [SetCustStatus(StateRunning, code), SetGcStatus(prefix), DelDir(Dirname(configFile))]
  }

  /** The two flavours of the datasource: `DataSourceOVF` reads seeds from
      the filesystem and may use VMware customization, `DataSourceOVFNet`
      only follows network seeds. */
  datatype Settings = Settings(supportedSeedStarts: seq<string>, vmwareCustomizationSupported: bool)

  const OvfSettings := Settings(["/", "file://"], true)
  const OvfNetSettings := Settings(["http://", "https://"], false)

  /** Everything `_get_data` learns from outside: the filesystem, DMI, the
      configuration, the VMware helpers and the transports. `None` from a
      helper stands for an exception it raises. */
  datatype Env = Env(
    seedDir: string,                                   // paths.seed_dir
    seedFiles: string -> FileState,                    // files under the seed directory
    systemProduct: Option<string>,                     // DMI system-product-name
    disableVmwareCustomization: bool,                  // system config option, default true
    allowRawData: bool,                                // datasource config option, default true
    dsCfg: map<string, Value>,                         // the datasource configuration
    pluginFound: bool,                                 // libdeployPkgPlugin.so found
    cfgFilePresent: (string, int) -> bool,             // is the path a file after t seconds
    custConfig: Option<CustConfig>,                    // the parsed cust.cfg
    custReadOk: bool,                                  // reading the customization settings succeeds
    imcFileExists: string -> bool,                     // os.path.exists under the IMC directory
    imcFiles: string -> Option<string>,                // util.load_file
    loadYaml: string -> Option<map<string, Value>>,    // the YAML loader
    fallbackNetwork: Value,                            // distro.generate_fallback_config()
    nicsToEnable: Option<string> -> string,            // get_nics_to_enable(nicspath)
    generatedNics: Option<seq<Value>>,                 // NicConfigurator(...).generate(...)
    passwordOk: bool,                                  // PasswordConfigurator.configure succeeds
    markerSetupOk: bool,                               // the marker directory can be listed
    transport: string -> string,                       // contents a transport returns, "" for none
    codecs: Codecs,
    readSeeded: string -> Option<(map<string, Value>, Value, Value)>,  // util.read_seeded
    merge: (map<string, Value>, map<string, Value>) -> map<string, Value>)  // util.mergemanydict

  /** What `util.mergemanydict` is taken to do with keys: the merged
      dictionary has the keys of both inputs. Which side's value wins is
      left open. */
  ghost predicate MergeUnitesKeys(merge: (map<string, Value>, map<string, Value>) -> map<string, Value>) {
    forall a, b :: merge(a, b).Keys == a.Keys + b.Keys
  }

  /** The observable state: the datasource's fields, the events so far and
      the marker directory. */
  datatype State = State(
    seed: Option<string>,
    environment: Option<string>,
    metadata: map<string, Value>,
    userdataRaw: Value,
    vendordataRaw: Value,
    cfg: map<string, Value>,
    networkConfig: Value,
    nicsToEnable: Option<string>,
    custConf: Option<CustConfig>,
    custFound: bool,
    trace: seq<Event>,
    markerFiles: set<string>)

  /** The local variables of `_get_data` that outlive a phase. */
  datatype Locals = Locals(found: seq<string>, md: map<string, Value>, ud: Value, vd: Value, cfg: map<string, Value>)

  const InitialLocals := Locals([], map[], Str(""), Str(""), map[])

  /** The customization file found by the VMware branch, its parsed config
      and the companion paths. */
  datatype ImcFile = ImcFile(path: string, conf: CustConfig, paths: ImcPaths)

  /** The result of the first phase: the state, the locals and the VMware
      customization to perform, if any; or the end of `_get_data`. */
  datatype Found =
    | Found(s: State, l: Locals, imc: Option<ImcFile>)
    | Stopped(s: State, l: Locals, outcome: Outcome)

  /** The result of a later phase. */
  datatype Step =
    | Go(s: State, l: Locals)
    | Halt(s: State, l: Locals, outcome: Outcome)

  /** The state after `_raise_error_status`. */
  function Raise(s: State, prefix: string, configFile: string): State {
    s.(trace := s.trace + ErrorEvents(prefix, CodeOf(prefix), configFile))
  }

  predicate IsVmwarePlatform(product: Option<string>) {
    product.Some? && Contains(Lower(product.value), "vmware")
  }

  function AllowCust(st: Settings, env: Env): bool {
    st.vmwareCustomizationSupported && !env.disableVmwareCustomization
  }

  function AllowRaw(st: Settings, env: Env): bool {
    st.vmwareCustomizationSupported && env.allowRawData
  }

  // ---------------------------------------------------------------------
  // The phases of _get_data as functions

  /** Lines 87-179: the seed directory, else the VMware branch. */
  function StartSpec(st: Settings, env: Env, s: State): Found {
    match FirstEnvFile(env.seedDir, env.seedFiles)
    case Some((name, contents)) =>
      (match OvfEnvironmentOf(contents, false, env.codecs)
       case Failure(e) => Stopped(s, InitialLocals, Raised(Ovf(e)))
       case Success(d) =>
         Found(s.(environment := Some(contents)),
               Locals([PathJoin(env.seedDir, name)], d.md, d.ud, Str(""), d.cfg), None))
    case None =>
      if IsVmwarePlatform(env.systemProduct) then VmwareSpec(st, env, s, InitialLocals)
      else Found(s, InitialLocals, None)
  }

  /** The customization file the poll finds, or why the poll cannot run. */
  function WaitSpec(env: Env): Result<Option<string>, Fault> {
    if !env.pluginFound then Success(None)
    else
      match GetMaxWaitFromCfg(env.dsCfg)
      case Failure(_) => Failure(MaxWaitTypeError)
      case Success(maxWait) =>
        Success(Poll(PathJoin(VmwareImcDir, CustCfgName), maxWait, Nap(maxWait, NapLen), 0, env.cfgFilePresent))
  }

  /** Lines 99-179: the VMware branch. */
  function VmwareSpec(st: Settings, env: Env, s: State, l: Locals): Found {
    if !(AllowCust(st, env) || AllowRaw(st, env)) then Found(s, l, None)
    else
      match WaitSpec(env)
      case Failure(e) => Stopped(s, l, Raised(e))
      case Success(None) => Found(s, l, None)
      case Success(Some(path)) =>
        match env.custConfig
        case None => Stopped(s, l, Raised(CustConfigUnreadable))
        case Some(conf) =>
          var s1 := s.(custConf := Some(conf));
          match CollectImcFilePaths(conf, env.imcFileExists)
          case Failure(_) => Stopped(Raise(s1, FilesMissing, path), l, Raised(Customization(FilesMissing, path)))
          case Success(paths) =>
            var keep := !(paths.mdPath.Some? && !AllowRaw(st, env)) && !(paths.mdPath.None? && !AllowCust(st, env));
            Found(s1, l, if keep then Some(ImcFile(path, conf, paths)) else None)
  }

  /** Lines 180-216: customization with raw cloud-init data. */
  function RawDataSpec(env: Env, s: State, l: Locals, f: ImcFile): Step
    requires f.paths.mdPath.Some?
  {
    var s1 := s.(trace := s.trace + [SetGcStatus(Started)]);
    match LoadCloudinitData(f.paths.mdPath.value, f.paths.udPath, env.imcFiles, env.loadYaml)
    case Failure(YamlError) =>
      Halt(Raise(s1, MetaDataParseError, f.path), l, Raised(Customization(MetaDataParseError, f.path)))
    case Failure(_) =>
      Halt(Raise(s1, CloudInitLoadError, f.path), l, Raised(Customization(CloudInitLoadError, f.path)))
    case Success(raw) =>
      Go(s1.(networkConfig := if Truthy(raw.network) then raw.network else env.fallbackNetwork,
             custFound := true,
             trace := s1.trace + [DelDir(Dirname(f.path)), SetCustStatus(StateDone, ErrorSuccess), SetGcStatus(Successful)]),
         Locals(l.found + [VmwareTools], raw.md, raw.ud, l.vd, map[]))
  }

  /** `special_customization`: a marker id whose marker file is not there. */
  predicate Special(conf: CustConfig, markerFiles: set<string>) {
    conf.markerId != "" && !CheckMarkerExists(conf.markerId, markerFiles)
  }

  /** Whether the password configurator is called. */
  predicate ChangesPassword(conf: CustConfig, markerFiles: set<string>) {
    Special(conf, markerFiles) && (conf.adminPassword != "" || conf.resetPassword)
  }

  /** Lines 217-295: customization from the customization config, up to the
      network configuration. */
  function ImcSpec(env: Env, s: State, l: Locals, f: ImcFile): Step {
    var s1 := s.(nicsToEnable := Some(""), trace := s.trace + [SetGcStatus(Started)]);
    if !env.custReadOk then
      Halt(Raise(s1, CustConfigParseError, f.path), l, Raised(Customization(CustConfigParseError, f.path)))
    else
      var d := ReadVmwareImc(f.conf);
      ImcNetworkSpec(env, s1.(nicsToEnable := Some(env.nicsToEnable(f.paths.nicsPath))),
                     l.(md := d.md, ud := d.ud, cfg := d.cfg), f)
  }

  /** Lines 282-295: the network configuration from the generated NIC list. */
  function ImcNetworkSpec(env: Env, s: State, l: Locals, f: ImcFile): Step
    requires s.nicsToEnable.Some?
  {
    var s1 := s.(trace := s.trace + [ConfigureNics]);
    match env.generatedNics
    case None => Halt(Raise(s1, NetworkPrepError, f.path), l, Raised(Customization(NetworkPrepError, f.path)))
    case Some(generated) => ImcFinishSpec(env, s1.(networkConfig := NetworkConfigOf(f.conf, generated)), l, f)
  }

  /** Lines 297-353: password, marker and the success report. */
  function ImcFinishSpec(env: Env, s: State, l: Locals, f: ImcFile): Step
    requires s.nicsToEnable.Some?
  {
    var pw := ChangesPassword(f.conf, s.markerFiles);
    var s1 := if pw then s.(trace := s.trace + [ConfigurePassword(f.conf.adminPassword, f.conf.resetPassword)]) else s;
    if pw && !env.passwordOk then
      Halt(Raise(s1, PasswordError, f.path), l, Raised(Customization(PasswordError, f.path)))
    else if f.conf.markerId != "" && !env.markerSetupOk then
      Halt(Raise(s1, MarkerError, f.path), l, Raised(Customization(MarkerError, f.path)))
    else
      var s2 := if f.conf.markerId != "" then s1.(markerFiles := AfterSetup(s1.markerFiles, f.conf.markerId)) else s1;
      Go(s2.(custFound := true,
             trace := s2.trace + [DelDir(Dirname(f.path)), EnableNics(s2.nicsToEnable.value),
                                  SetCustStatus(StateDone, ErrorSuccess), SetGcStatus(Successful)]),
         l.(found := l.found + [VmwareTools]))
  }

  /** The index of the transport whose contents are used: the first that
      returns something, else the last one tried. */
  function ChosenTransport(env: Env, i: nat): (k: nat)
    requires i < |Transports|
    ensures i <= k < |Transports|
    decreases |Transports| - i
  {
    if env.transport(Transports[i]) != "" || i == |Transports| - 1 then i
    else ChosenTransport(env, i + 1)
  }

  /** The probes made: every transport up to and including the chosen one. */
  function Probes(n: nat): seq<Event>
    requires n <= |Transports|
  {
    seq(n, j requires 0 <= j < n => ProbeTransport(Transports[j]))
  }

  /** Lines 355-368: the OVF transports. */
  function TransportSpec(env: Env, s: State, l: Locals): Step {
    var k := ChosenTransport(env, 0);
    var name := Transports[k];
    var contents := env.transport(name);
    AdoptSpec(env, s.(trace := s.trace + Probes(k + 1)), l, name, contents)
  }

  /** Lines 363-368: the contents a transport returned, parsed and adopted. */
  function AdoptSpec(env: Env, s: State, l: Locals, name: string, contents: string): Step {
    if contents == "" then Go(s, l)
    else
      match OvfEnvironmentOf(contents, true, env.codecs)
      case Failure(e) => Halt(s, l, Raised(Ovf(e)))
      case Success(d) =>
        Go(s.(environment := Some(contents),
              networkConfig := if "network-config" in d.md && Truthy(d.md["network-config"])
                               then d.md["network-config"] else s.networkConfig),
           Locals(l.found + [name], d.md, d.ud, l.vd, d.cfg))
  }

  /** Whether a seed location starts with one of the supported prefixes. */
  predicate SupportedSeed(seedfrom: string, starts: seq<string>) {
    exists i :: 0 <= i < |starts| && StartsWith(seedfrom, starts[i])
  }

  /** `%s` of the `seed` field: the text, or `None` before any source. */
  function SeedText(seed: Option<string>): string {
    if seed.Some? then seed.value else "None"
  }

  /** The datasource fields once `_get_data` succeeds. */
  function Publish(env: Env, s: State, l: Locals): State {
    s.(seed := Some(JoinWith(",", l.found)),
       metadata := env.merge(l.md, Defaults()),
       userdataRaw := l.ud,
       vendordataRaw := l.vd,
       cfg := l.cfg)
  }

  /** Lines 370-400: no source found, the `seedfrom` redirection, the
      defaults and the published fields. */
  function ConcludeSpec(st: Settings, env: Env, s: State, l: Locals): (r: Step)
    ensures r.Halt?
  {
    if l.found == [] then Halt(s, l, Returned(false))
    else if "seedfrom" in l.md && Truthy(l.md["seedfrom"]) then
      match l.md["seedfrom"]
      case Str(sf) =>
        if !SupportedSeed(sf, st.supportedSeedStarts) then Halt(s, l, Returned(false))
        else
          (match env.readSeeded(sf)
           case None => Halt(s, l, Raised(ReadSeededFailed))
           case Some((mdSeed, ud, vd)) =>
             var l2 := Locals(l.found + [sf], env.merge(l.md, mdSeed), ud, vd, l.cfg);
             Halt(Publish(env, s, l2), l2, Returned(true)))
      case _ => Halt(s, l, Raised(SeedfromNotString))
    else Halt(Publish(env, s, l), l, Returned(true))
  }

  /** The middle phase chosen by the VMware branch's result. */
  function CustomizeSpec(env: Env, s: State, l: Locals, imc: Option<ImcFile>): Step {
    match imc
    case Some(f) => if f.paths.mdPath.Some? then RawDataSpec(env, s, l, f) else ImcSpec(env, s, l, f)
    case None => TransportSpec(env, s, l)
  }

  /** `_get_data` as a whole; it always ends, with a result or an
      exception. */
  function Run(st: Settings, env: Env, s: State): (r: Step)
    ensures r.Halt?
  {
    match StartSpec(st, env, s)
    case Stopped(s1, l1, o) => Halt(s1, l1, o)
    case Found(s1, l1, imc) =>
      match CustomizeSpec(env, s1, l1, imc)
      case Halt(s2, l2, o) => Halt(s2, l2, o)
      case Go(s2, l2) => ConcludeSpec(st, env, s2, l2)
  }

  /** The transport loop of lines 357-362: each transport in order is
      called until one returns something; the last name and contents are
      kept either way. */
  method ProbeTransports(env: Env) returns (name: string, contents: string, probes: seq<Event>)
    ensures name == Transports[ChosenTransport(env, 0)]
    ensures contents == env.transport(name)
    ensures probes == Probes(ChosenTransport(env, 0) + 1)
    ensures contents != "" ==> forall j :: 0 <= j < ChosenTransport(env, 0) ==> env.transport(Transports[j]) == ""
    ensures contents == "" ==> forall j :: 0 <= j < |Transports| ==> env.transport(Transports[j]) == ""
  {
    name := "";
    contents := "";
    probes := [];
    ghost var k: nat := |Transports| - 1;
    for i := 0 to |Transports|
      invariant probes == Probes(i)
      invariant forall j :: 0 <= j < i ==> env.transport(Transports[j]) == ""
      invariant ChosenTransport(env, 0) == ChosenTransport(env, if i < |Transports| then i else |Transports| - 1)
      invariant i > 0 ==> name == Transports[i - 1] && contents == env.transport(name)
    {
      name := Transports[i];
      probes := probes + [ProbeTransport(name)];
      assert Probes(i) + [ProbeTransport(name)] == Probes(i + 1);
      contents := env.transport(name);
      if contents != "" {
        k := i;
        break;
      }
    }
    assert ChosenTransport(env, 0) == k && name == Transports[k] && contents == env.transport(name);
  }

  // ---------------------------------------------------------------------
  // The datasource object

  class DataSourceOVF {
    const settings: Settings
    const markers: MarkerDir
    var seed: Option<string>
    var environment: Option<string>
    var metadata: map<string, Value>
    var userdataRaw: Value
    var vendordataRaw: Value
    var cfg: map<string, Value>
    var networkConfig: Value
    var vmwareNicsToEnable: Option<string>
    var vmwareCustConf: Option<CustConfig>
    var vmwareCustFound: bool
    var trace: seq<Event>

    function Snapshot(): State
      reads this, markers
    {
      State(seed, environment, metadata, userdataRaw, vendordataRaw, cfg, networkConfig,
            vmwareNicsToEnable, vmwareCustConf, vmwareCustFound, trace, markers.files)
    }

    /** A fresh datasource of the given flavour over a marker directory. */
    constructor (settings: Settings, markerFiles: set<string>)
      ensures this.settings == settings
      ensures Snapshot() == State(None, None, map[], Null, Null, map[], Null, None, None, false, [], markerFiles)
    {
      this.settings := settings;
      markers := new MarkerDir(markerFiles);
      seed := None;
      environment := None;
      metadata := map[];
      userdataRaw := Null;
      vendordataRaw := Null;
      cfg := map[];
      networkConfig := Null;
      vmwareNicsToEnable := None;
      vmwareCustConf := None;
      vmwareCustFound := false;
      trace := [];
    }

    /** `_raise_error_status(prefix, error, event, config_file, conf)` up to
        the re-raise, which the caller performs. */
    method RaiseErrorStatus(prefix: string, code: CustCode, configFile: string)
      modifies this
      ensures Snapshot() == old(Snapshot()).(trace := old(trace) + ErrorEvents(prefix, code, configFile))
    {
      trace := trace + [SetCustStatus(StateRunning, code)];
      trace := trace + [SetGcStatus(prefix)];
      trace := trace + [DelDir(Dirname(configFile))];
    }

    /** Lines 75-179. */
    method Start(env: Env) returns (f: Found)
      modifies this
      ensures f == StartSpec(settings, env, old(Snapshot()))
      ensures Snapshot() == f.s
    {
      var l := InitialLocals;
      var seedFile := GetOvfEnv(env.seedDir, env.seedFiles);
      if seedFile.Some? {
        var (name, contents) := seedFile.value;
        var seedPath := PathJoin(env.seedDir, name);
        var parsed := ReadOvfEnvironment(contents, false, env.codecs);
        if parsed.Failure? {
          return Stopped(Snapshot(), l, Raised(Ovf(parsed.error)));
        }
        environment := Some(contents);
        l := Locals([seedPath], parsed.value.md, parsed.value.ud, Str(""), parsed.value.cfg);
        return Found(Snapshot(), l, None);
      }
      if IsVmwarePlatform(env.systemProduct) {
        f := FindImcConfig(env, l);
        return;
      }
      return Found(Snapshot(), l, None);
    }

    /** Lines 99-179: the VMware branch. */
    method FindImcConfig(env: Env, l: Locals) returns (f: Found)
      modifies this
      ensures f == VmwareSpec(settings, env, old(Snapshot()), l)
      ensures Snapshot() == f.s
    {
      var allowCust := false;
      var allowRaw := false;
      if settings.vmwareCustomizationSupported {
        allowCust := !env.disableVmwareCustomization;
        allowRaw := env.allowRawData;
      }
      if !(allowCust || allowRaw) {
        return Found(Snapshot(), l, None);
      }
      var configPath: Option<string> := None;
      if env.pluginFound {
        var maxWait := GetMaxWaitFromCfg(env.dsCfg);
        if maxWait.Failure? {
          return Stopped(Snapshot(), l, Raised(MaxWaitTypeError));
        }
        configPath := WaitForImcCfgFile(CustCfgName, maxWait.value, NapLen, VmwareImcDir, env.cfgFilePresent);
      }
      if configPath.None? {
        return Found(Snapshot(), l, None);
      }
      var path := configPath.value;
      if env.custConfig.None? {
        return Stopped(Snapshot(), l, Raised(CustConfigUnreadable));
      }
      var conf := env.custConfig.value;
      vmwareCustConf := Some(conf);
      var paths := CollectImcFilePaths(conf, env.imcFileExists);
      if paths.Failure? {
        RaiseErrorStatus(FilesMissing, EventCustomizeFailed, path);
        return Stopped(Snapshot(), l, Raised(Customization(FilesMissing, path)));
      }
      var keep := true;
      if paths.value.mdPath.Some? && !allowRaw {
        keep := false;
      }
      if paths.value.mdPath.None? && !allowCust {
        keep := false;
      }
      return Found(Snapshot(), l, if keep then Some(ImcFile(path, conf, paths.value)) else None);
    }

    /** Lines 180-216: customization with raw cloud-init data. */
    method UseRawData(env: Env, l: Locals, f: ImcFile) returns (step: Step)
      requires f.paths.mdPath.Some?
      modifies this
      ensures step == RawDataSpec(env, old(Snapshot()), l, f)
      ensures Snapshot() == step.s
    {
      ghost var s0 := Snapshot();
      trace := trace + [SetGcStatus(Started)];
      ghost var s1 := s0.(trace := s0.trace + [SetGcStatus(Started)]);
      assert Snapshot() == s1;
      var loaded := LoadCloudinitData(f.paths.mdPath.value, f.paths.udPath, env.imcFiles, env.loadYaml);
      if loaded.Failure? {
        if loaded.error == YamlError {
          RaiseErrorStatus(MetaDataParseError, ErrorWrongMetaFormat, f.path);
          return Halt(Snapshot(), l, Raised(Customization(MetaDataParseError, f.path)));
        }
        RaiseErrorStatus(CloudInitLoadError, EventCustomizeFailed, f.path);
        return Halt(Snapshot(), l, Raised(Customization(CloudInitLoadError, f.path)));
      }
      var raw := loaded.value;
      if Truthy(raw.network) {
        networkConfig := raw.network;
      } else {
        networkConfig := env.fallbackNetwork;
      }
      vmwareCustFound := true;
      var found := l.found + [VmwareTools];
      trace := trace + [DelDir(Dirname(f.path)), SetCustStatus(StateDone, ErrorSuccess), SetGcStatus(Successful)];
      return Go(Snapshot(), Locals(found, raw.md, raw.ud, l.vd, map[]));
    }

    /** Lines 217-353: customization from the customization config. */
    method CustomizeFromImc(env: Env, l: Locals, f: ImcFile) returns (step: Step)
      modifies this, markers
      ensures step == ImcSpec(env, old(Snapshot()), l, f)
      ensures Snapshot() == step.s
    {
      ghost var s0 := Snapshot();
      vmwareNicsToEnable := Some("");
      trace := trace + [SetGcStatus(Started)];
      ghost var s1 := s0.(nicsToEnable := Some(""), trace := s0.trace + [SetGcStatus(Started)]);
      assert Snapshot() == s1;
      if !env.custReadOk {
        RaiseErrorStatus(CustConfigParseError, EventCustomizeFailed, f.path);
        return Halt(Snapshot(), l, Raised(Customization(CustConfigParseError, f.path)));
      }
      var d := ReadVmwareImc(f.conf);
      var l2 := l.(md := d.md, ud := d.ud, cfg := d.cfg);
      vmwareNicsToEnable := Some(env.nicsToEnable(f.paths.nicsPath));
      step := ImcNetwork(env, l2, f);
    }

    /** Lines 282-295: the network configuration from the generated NIC list. */
    method ImcNetwork(env: Env, l: Locals, f: ImcFile) returns (step: Step)
      requires vmwareNicsToEnable.Some?
      modifies this, markers
      ensures step == ImcNetworkSpec(env, old(Snapshot()), l, f)
      ensures Snapshot() == step.s
    {
      var productMarker := f.conf.markerId;
      var hasMarkerFile := CheckMarkerExists(productMarker, markers.files);
      var specialCustomization := productMarker != "" && !hasMarkerFile;
      trace := trace + [ConfigureNics];
      if env.generatedNics.None? {
        RaiseErrorStatus(NetworkPrepError, EventNetworkSetupFailed, f.path);
        return Halt(Snapshot(), l, Raised(Customization(NetworkPrepError, f.path)));
      }
      networkConfig := GetNetworkConfigFromConf(f.conf, env.generatedNics.value);
      step := FinishImc(env, l, f, specialCustomization);
    }

    /** Lines 297-353: password, marker and the success report. */
    method FinishImc(env: Env, l: Locals, f: ImcFile, specialCustomization: bool) returns (step: Step)
      requires specialCustomization == Special(f.conf, markers.files)
      requires vmwareNicsToEnable.Some?
      modifies this, markers
      ensures step == ImcFinishSpec(env, old(Snapshot()), l, f)
      ensures Snapshot() == step.s
    {
      if specialCustomization {
        var adminpwd := f.conf.adminPassword;
        var resetpwd := f.conf.resetPassword;
        if adminpwd != "" || resetpwd {
          trace := trace + [ConfigurePassword(adminpwd, resetpwd)];
          if !env.passwordOk {
            RaiseErrorStatus(PasswordError, EventCustomizeFailed, f.path);
            return Halt(Snapshot(), l, Raised(Customization(PasswordError, f.path)));
          }
        }
      }
      var productMarker := f.conf.markerId;
      if productMarker != "" {
        if !env.markerSetupOk {
          RaiseErrorStatus(MarkerError, EventCustomizeFailed, f.path);
          return Halt(Snapshot(), l, Raised(Customization(MarkerError, f.path)));
        }
        markers.SetupMarkerFiles(productMarker);
      }
      vmwareCustFound := true;
      var found := l.found + [VmwareTools];
      trace := trace + [DelDir(Dirname(f.path)), EnableNics(vmwareNicsToEnable.value),
                        SetCustStatus(StateDone, ErrorSuccess), SetGcStatus(Successful)];
      return Go(Snapshot(), l.(found := found));
    }

    /** Lines 355-368: the OVF transports, tried in order until one returns
        something. */
    method TryTransports(env: Env, l: Locals) returns (step: Step)
      modifies this
      ensures step == TransportSpec(env, old(Snapshot()), l)
      ensures Snapshot() == step.s
    {
      var name, contents, probes := ProbeTransports(env);
      trace := trace + probes;
      step := AdoptEnvironment(env, l, name, contents);
    }

    /** Lines 363-368. */
    method AdoptEnvironment(env: Env, l: Locals, name: string, contents: string) returns (step: Step)
      modifies this
      ensures step == AdoptSpec(env, old(Snapshot()), l, name, contents)
      ensures Snapshot() == step.s
    {
      if contents == "" {
        return Go(Snapshot(), l);
      }
      var parsed := ReadOvfEnvironment(contents, true, env.codecs);
      if parsed.Failure? {
        return Halt(Snapshot(), l, Raised(Ovf(parsed.error)));
      }
      var d := parsed.value;
      environment := Some(contents);
      if "network-config" in d.md && Truthy(d.md["network-config"]) {
        networkConfig := d.md["network-config"];
      }
      return Go(Snapshot(), Locals(l.found + [name], d.md, d.ud, l.vd, d.cfg));
    }

    /** Lines 370-400. */
    method Conclude(env: Env, l: Locals) returns (outcome: Outcome)
      modifies this
      ensures outcome == ConcludeSpec(settings, env, old(Snapshot()), l).outcome
      ensures Snapshot() == ConcludeSpec(settings, env, old(Snapshot()), l).s
    {
      if |l.found| == 0 {
        return Returned(false);
      }
      var md := l.md;
      var ud := l.ud;
      var vd := l.vd;
      var found := l.found;
      if "seedfrom" in md && Truthy(md["seedfrom"]) {
        if !md["seedfrom"].Str? {
          return Raised(SeedfromNotString);
        }
        var seedfrom := md["seedfrom"].s;
        var seedfound := false;
        var starts := settings.supportedSeedStarts;
        for i := 0 to |starts|
          invariant seedfound <==> exists j :: 0 <= j < i && StartsWith(seedfrom, starts[j])
          invariant seedfound ==> SupportedSeed(seedfrom, starts)
        {
          if StartsWith(seedfrom, starts[i]) {
            seedfound := true;
            break;
          }
        }
        if !seedfound {
          return Returned(false);
        }
        var seeded := env.readSeeded(seedfrom);
        if seeded.None? {
          return Raised(ReadSeededFailed);
        }
        var (mdSeed, ud', vd') := seeded.value;
        md := env.merge(md, mdSeed);
        ud := ud';
        vd := vd';
        found := found + [seedfrom];
      }
      PublishData(env, Locals(found, md, ud, vd, l.cfg));
      return Returned(true);
    }

    /** Lines 391-399: the defaults merged in and the found data published. */
    method PublishData(env: Env, l: Locals)
      modifies this
      ensures Snapshot() == Publish(env, old(Snapshot()), l)
    {
      seed := Some(JoinWith(",", l.found));
      metadata := env.merge(l.md, Defaults());
      userdataRaw := l.ud;
      vendordataRaw := l.vd;
      cfg := l.cfg;
    }

    /** `_get_data()`: the outcome and the new state are those of `Run`. */
    method GetData(env: Env) returns (outcome: Outcome)
      modifies this, markers
      ensures outcome == Run(settings, env, old(Snapshot())).outcome
      ensures Snapshot() == Run(settings, env, old(Snapshot())).s
    {
      var f := Start(env);
      if f.Stopped? {
        return f.outcome;
      }
      var step: Step;
      if f.imc.Some? && f.imc.value.paths.mdPath.Some? {
        step := UseRawData(env, f.l, f.imc.value);
      } else if f.imc.Some? {
        step := CustomizeFromImc(env, f.l, f.imc.value);
      } else {
        step := TryTransports(env, f.l);
      }
      if step.Halt? {
        return step.outcome;
      }
      outcome := Conclude(env, step.l);
    }

    /** `_get_subplatform()`: `vmware (<seed>)` when the product name is
        exactly `vmware` in any case, `ovf (<seed>)` otherwise; a missing
        product name raises, shown as `None`. */
    function GetSubplatform(product: Option<string>): (r: Option<string>)
      reads this
      ensures r.Some? <==> product.Some?
      ensures r.Some? ==> StartsWith(r.value, if Lower(product.value) == "vmware" then "vmware (" else "ovf (")
      ensures r.Some? ==> EndsWith(r.value, SeedText(seed) + ")")
      ensures r.Some? ==> |r.value| == (if Lower(product.value) == "vmware" then 8 else 5) + |SeedText(seed)| + 1
    {
      match product
      case None => None
      case Some(p) =>
        var t := (if Lower(p) == "vmware" then "vmware (" else "ovf (") + SeedText(seed) + ")";
        assert t[|t| - |SeedText(seed) + ")"|..] == SeedText(seed) + ")";
        Some(t)
    }

    /** `get_public_ssh_keys()`: the `public-keys` metadata entry as a list,
        a single key becoming a one-element list. */
    function GetPublicSshKeys(): (r: seq<Value>)
      reads this
      ensures "public-keys" !in metadata ==> r == []
      ensures "public-keys" in metadata ==>
        (if metadata["public-keys"].List? then r == metadata["public-keys"].items else r == [metadata["public-keys"]])
    {
      if "public-keys" !in metadata then []
      else
        match metadata["public-keys"]
        case List(keys) => keys
        case pks => [pks]
    }
  }
}
