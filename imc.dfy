/** The VMware image-customization (IMC) helpers: the wait budget for the
    customization file, the polling loop that waits for it, the lookup of
    the companion files, the metadata derived from the customization
    config, and the assembly of the version-1 network configuration. */
module Imc {
  import opened Common
  import opened Paths
  import opened OvfEnv

  const VmwareImcDir := "/var/run/vmware-imc"
  const DefaultMaxWait := 15
  const MaxWaitKey := "vmware_cust_file_max_wait"

  // ---------------------------------------------------------------------
  // get_max_wait_from_cfg

  /** What Python's `int(x)` raises. */
  datatype IntError = ValueError | TypeError

  function DigitValue(c: char): nat
    requires '0' <= c <= '9'
  {
    c as int - '0' as int
  }

  predicate AllDigits(s: string) {
    forall i :: 0 <= i < |s| ==> '0' <= s[i] <= '9'
  }

  /** The number a string of decimal digits denotes. */
  function DigitsValue(s: string): nat
    requires AllDigits(s)
  {
    if s == [] then 0 else DigitsValue(s[..|s| - 1]) * 10 + DigitValue(s[|s| - 1])
  }

  /** `int(s)` for a string: an optional sign followed by one or more
      decimal digits. */
  function ParseInt(s: string): Option<int> {
    if s != [] && (s[0] == '-' || s[0] == '+') then
      var digits := s[1..];
      if digits != [] && AllDigits(digits) then
        Some(if s[0] == '-' then -(DigitsValue(digits) as int) else DigitsValue(digits))
      else None
    else if s != [] && AllDigits(s) then Some(DigitsValue(s))
    else None
  }

  /** `str(n)` for a natural number. */
  function DigitsOf(n: nat): (s: string)
    ensures s != [] && AllDigits(s)
  {
    if n < 10 then [('0' as int + n) as char]
    else DigitsOf(n / 10) + [('0' as int + n % 10) as char]
  }

  /** `str(n)` for any integer. */
  function DecimalString(n: int): string {
    if n < 0 then "-" + DigitsOf(-n) else DigitsOf(n)
  }

  /** Reading back the digits of a number gives the number. */
  lemma {:induction false} DigitsRoundTrip(n: nat)
    ensures DigitsValue(DigitsOf(n)) == n
  {
    if n >= 10 {
      DigitsRoundTrip(n / 10);
      var s := DigitsOf(n);
      assert s[..|s| - 1] == DigitsOf(n / 10);
    }
  }

  /** `int(str(n)) == n`. */
  lemma ParseIntRoundTrip(n: int)
    ensures ParseInt(DecimalString(n)) == Some(n)
  {
    if n < 0 {
      DigitsRoundTrip(-n);
      ParseNegative(DigitsOf(-n));
    } else {
      DigitsRoundTrip(n);
      ParseUnsigned(DigitsOf(n));
    }
  }

  /** `int()` of unsigned digits. */
  lemma ParseUnsigned(d: string)
    requires d != [] && AllDigits(d)
    ensures ParseInt(d) == Some(DigitsValue(d) as int)
  {
    assert '0' <= d[0] <= '9';
  }

  /** `int()` of a minus sign followed by digits. */
  lemma ParseNegative(d: string)
    requires d != [] && AllDigits(d)
    ensures ParseInt("-" + d) == Some(-(DigitsValue(d) as int))
  {
    var s := "-" + d;
    assert s[0] == '-' && s[1..] == d;
  }

  function IntOfText(s: string): Result<int, IntError> {
    match ParseInt(s)
    case Some(i) => Success(i)
    case None => Failure(ValueError)
  }

  /** `int(v)` for a configuration value. */
  function IntOf(v: Value): Result<int, IntError> {
    match v
    case Int(i) => Success(i)
    case Bool(b) => Success(if b then 1 else 0)
    case Str(s) => IntOfText(s)
    case Blob(bytes) => IntOfText(seq(|bytes|, k requires 0 <= k < |bytes| => bytes[k] as int as char))
    case _ => Failure(TypeError)
  }

  /** `get_max_wait_from_cfg(cfg)`: the configured wait budget, 15 when the
      configuration is empty, the key absent, the value not an integer or
      negative; a value `int()` refuses with `TypeError` (such as `None`)
      escapes as an error. */
  function GetMaxWaitFromCfg(cfg: map<string, Value>): (r: Result<int, IntError>)
    ensures r.Success? ==> r.value >= 0
    ensures r.Failure? <==> cfg != map[] && MaxWaitKey in cfg && IntOf(cfg[MaxWaitKey]) == Failure(TypeError)
  {
    if cfg == map[] then Success(DefaultMaxWait)
    else
      var raw := if MaxWaitKey in cfg then cfg[MaxWaitKey] else Int(DefaultMaxWait);
      match IntOf(raw)
      case Failure(TypeError) => Failure(TypeError)
      case Failure(ValueError) => Success(DefaultMaxWait)
      case Success(i) => Success(if i < 0 then DefaultMaxWait else i)
  }

  /** The budget is 15 for an empty configuration, a missing key, a
      non-integer string and a negative number; any other integer, 0
      included, is taken as given. */
  lemma MaxWaitCases(cfg: map<string, Value>)
    ensures cfg == map[] ==> GetMaxWaitFromCfg(cfg) == Success(DefaultMaxWait)
    ensures MaxWaitKey !in cfg ==> GetMaxWaitFromCfg(cfg) == Success(DefaultMaxWait)
    ensures MaxWaitKey in cfg && IntOf(cfg[MaxWaitKey]) == Failure(ValueError) ==>
      GetMaxWaitFromCfg(cfg) == Success(DefaultMaxWait)
    ensures MaxWaitKey in cfg && IntOf(cfg[MaxWaitKey]).Success? ==>
      var i := IntOf(cfg[MaxWaitKey]).value;
      GetMaxWaitFromCfg(cfg) == Success(if i < 0 then DefaultMaxWait else i)
  {
  }

  /** A decimal string such as `"0"` or `"30"` under the key is the budget. */
  lemma MaxWaitFromDecimalString(cfg: map<string, Value>, n: nat)
    requires MaxWaitKey in cfg && cfg[MaxWaitKey] == Str(DecimalString(n))
    ensures GetMaxWaitFromCfg(cfg) == Success(n)
  {
    ParseIntRoundTrip(n);
  }

  /** A negative decimal string falls back to the default. */
  lemma MaxWaitFromNegativeString(cfg: map<string, Value>, n: int)
    requires n < 0 && MaxWaitKey in cfg && cfg[MaxWaitKey] == Str(DecimalString(n))
    ensures GetMaxWaitFromCfg(cfg) == Success(DefaultMaxWait)
  {
    ParseIntRoundTrip(n);
  }

  // ---------------------------------------------------------------------
  // wait_for_imc_cfg_file

  /** The pause between polls: `naplen`, or one second when the whole
      budget does not exceed it. */
  function Nap(maxwait: int, naplen: int): int {
    if maxwait <= naplen then 1 else naplen
  }

  /** The value of `waited` at the `k`-th poll. */
  function PollTime(k: nat, nap: int): int {
    k * nap
  }

  /** The path found by polling from `waited` on, or `None` once the budget
      is spent. */
  function Poll(path: string, maxwait: int, nap: int, waited: int, present: (string, int) -> bool): Option<string>
    requires nap > 0 || waited >= maxwait
    decreases if waited < maxwait then maxwait - waited else 0
  {
    if waited >= maxwait then None
    else if present(path, waited) then Some(path)
    else Poll(path, maxwait, nap, waited + nap, present)
  }

  /** `wait_for_imc_cfg_file(filename, maxwait, naplen, dirpath)`. Whether
      the file is there after `t` seconds is the oracle `present(path, t)`;
      `sleep` advances `waited`. The path is polled at `waited` = 0, nap,
      2·nap, … while below `maxwait`, and returned at the first poll that
      finds it. A non-positive `naplen` below `maxwait` never advances the
      clock and loops for ever unless `maxwait` is not positive, so it is
      excluded. */
  method WaitForImcCfgFile(filename: string, maxwait: int, naplen: int, dirpath: string,
                           present: (string, int) -> bool)
    returns (r: Option<string>)
    requires naplen > 0 || maxwait <= naplen || maxwait <= 0
    ensures r == Poll(PathJoin(dirpath, filename), maxwait, Nap(maxwait, naplen), 0, present)
    ensures r.Some? ==> r.value == PathJoin(dirpath, filename)
    ensures r.Some? ==>
      exists k: nat :: (0 <= PollTime(k, Nap(maxwait, naplen)) < maxwait &&
        present(r.value, PollTime(k, Nap(maxwait, naplen))) &&
        forall j: nat :: j < k ==> !present(r.value, PollTime(j, Nap(maxwait, naplen))))
    ensures r.None? ==> forall k: nat :: 0 <= PollTime(k, Nap(maxwait, naplen)) < maxwait ==>
      !present(PathJoin(dirpath, filename), PollTime(k, Nap(maxwait, naplen)))
  {
    var nap := naplen;
    if maxwait <= nap {
      nap := 1;
    }
    var waited := 0;
    ghost var k: nat := 0;
    var fullPath := PathJoin(dirpath, filename);
    while waited < maxwait
      invariant nap == Nap(maxwait, naplen)
      invariant waited == PollTime(k, nap)
      invariant nap > 0 || (k == 0 && waited >= maxwait)
      invariant forall j: nat :: j < k ==> !present(fullPath, PollTime(j, nap))
      invariant Poll(fullPath, maxwait, nap, 0, present) == Poll(fullPath, maxwait, nap, waited, present)
      decreases maxwait - waited
    {
      if present(fullPath, waited) {
        return Some(fullPath);
      }
      waited := waited + nap;
      k := k + 1;
    }
    forall j: nat | 0 <= PollTime(j, nap) < maxwait
      ensures !present(fullPath, PollTime(j, nap))
    {
      PollTimeMonotone(k, j, nap);
    }
    return None;
  }

  /** With a positive pause, a poll time reached later is at least as large;
      with a non-positive one no poll time is positive. */
  lemma PollTimeMonotone(k: nat, j: nat, nap: int)
    ensures nap > 0 && k <= j ==> PollTime(k, nap) <= PollTime(j, nap)
    ensures nap <= 0 ==> PollTime(j, nap) <= 0
  {
    if nap > 0 && k <= j {
      assert k * nap <= j * nap by {
        assert (j - k) * nap >= 0;
      }
    }
    if nap <= 0 {
      assert j * nap <= 0 by {
        assert j * (-nap) >= 0;
      }
    }
  }

  // ---------------------------------------------------------------------
  // The customization configuration and collect_imc_file_paths

  /** The fields of the parsed `cust.cfg` the datasource consults; an absent
      or empty setting is `""`. */
  datatype CustConfig = CustConfig(
    hostName: string,
    domainName: string,
    timezone: string,
    adminPassword: string,
    resetPassword: bool,
    markerId: string,
    nameServers: Value,
    dnsSuffixes: Value,
    metaDataName: string,
    userDataName: string)

  /** The three companion paths: metadata, user-data and `nics.txt`. */
  datatype ImcPaths = ImcPaths(mdPath: Option<string>, udPath: Option<string>, nicsPath: Option<string>)

  /** `FileNotFoundError` for a declared file that is not there. */
  datatype FileNotFound = FileNotFound(path: string)

  /** `collect_imc_file_paths(cust_conf)`, with `exists` standing for
      `os.path.exists`. */
  function CollectImcFilePaths(conf: CustConfig, pathExists: string -> bool): (r: Result<ImcPaths, FileNotFound>)
    ensures r.Success? ==> r.value.mdPath.None? || r.value.nicsPath.None?
    ensures r.Success? && r.value.udPath.Some? ==> r.value.mdPath.Some?
    ensures r.Success? ==> forall p :: p in [r.value.mdPath, r.value.udPath, r.value.nicsPath] && p.Some? ==> pathExists(p.value)
    ensures r.Failure? <==>
      conf.metaDataName != "" &&
      (!pathExists(PathJoin(VmwareImcDir, conf.metaDataName)) ||
       (conf.userDataName != "" && !pathExists(PathJoin(VmwareImcDir, conf.userDataName))))
  {
    if conf.metaDataName != "" then
      var mdPath := PathJoin(VmwareImcDir, conf.metaDataName);
      if !pathExists(mdPath) then Failure(FileNotFound(mdPath))
      else if conf.userDataName != "" then
        var udPath := PathJoin(VmwareImcDir, conf.userDataName);
        if !pathExists(udPath) then Failure(FileNotFound(udPath))
        else Success(ImcPaths(Some(mdPath), Some(udPath), None))
      else Success(ImcPaths(Some(mdPath), None, None))
    else
      var nicsPath := PathJoin(VmwareImcDir, "nics.txt");
      Success(ImcPaths(None, None, if pathExists(nicsPath) then Some(nicsPath) else None))
  }

  /** Declared metadata wins over `nics.txt`: with a metadata name the
      network file is never looked up, and without one only `nics.txt` can
      be found; the error names the first declared file that is missing. */
  lemma CollectImcFilePathsCases(conf: CustConfig, pathExists: string -> bool)
    ensures conf.metaDataName != "" && CollectImcFilePaths(conf, pathExists).Success? ==>
      CollectImcFilePaths(conf, pathExists).value.mdPath == Some(PathJoin(VmwareImcDir, conf.metaDataName)) &&
      CollectImcFilePaths(conf, pathExists).value.nicsPath.None?
    ensures conf.metaDataName == "" ==>
      CollectImcFilePaths(conf, pathExists).Success? &&
      CollectImcFilePaths(conf, pathExists).value.mdPath.None? &&
      CollectImcFilePaths(conf, pathExists).value.udPath.None? &&
      (CollectImcFilePaths(conf, pathExists).value.nicsPath.Some? <==> pathExists(PathJoin(VmwareImcDir, "nics.txt")))
    ensures conf.metaDataName != "" && !pathExists(PathJoin(VmwareImcDir, conf.metaDataName)) ==>
      CollectImcFilePaths(conf, pathExists) == Failure(FileNotFound(PathJoin(VmwareImcDir, conf.metaDataName)))
  {
  }

  // ---------------------------------------------------------------------
  // load_cloudinit_data

  /** Why loading the raw cloud-init data failed: the YAML parser refused
      the metadata, or a file could not be read. */
  datatype LoadError = YamlError | FileUnreadable(path: string)

  /** The metadata, user-data and network configuration of the raw-data
      route. */
  datatype RawData = RawData(md: map<string, Value>, ud: Value, network: Value)

  /** `text.replace("\r", "")`. */
  function RemoveCarriageReturns(text: string): (r: string)
    ensures '\r' !in r
    ensures |r| <= |text|
  {
    if text == [] then []
    else (if text[0] == '\r' then [] else [text[0]]) + RemoveCarriageReturns(text[1..])
  }

  /** Text without carriage returns is left as it is, and the removal works
      piece by piece. */
  lemma {:induction false} RemoveCarriageReturnsSpec(a: string, b: string)
    ensures '\r' !in a ==> RemoveCarriageReturns(a) == a
    ensures RemoveCarriageReturns(a + b) == RemoveCarriageReturns(a) + RemoveCarriageReturns(b)
  {
    if a != [] {
      RemoveCarriageReturnsSpec(a[1..], b);
      assert (a + b)[1..] == a[1..] + b;
    } else {
      assert a + b == b;
    }
  }

  /** `load_cloudinit_data(md_path, ud_path)`: the file reads are
      `files(path)` (`None` when the file cannot be read) and the YAML
      loader is `loadYaml` (`None` for a `YAMLError`); empty metadata is an
      empty dictionary. */
  function LoadCloudinitData(mdPath: string, udPath: Option<string>, files: string -> Option<string>,
                             loadYaml: string -> Option<map<string, Value>>): (r: Result<RawData, LoadError>)
    ensures r == Failure(YamlError) <==>
      files(mdPath).Some? && files(mdPath).value != "" && loadYaml(files(mdPath).value).None?
    ensures r.Success? <==>
      r != Failure(YamlError) && files(mdPath).Some? && (udPath.Some? ==> files(udPath.value).Some?)
    ensures r.Failure? && r.error.FileUnreadable? ==>
      files(r.error.path).None? && (r.error.path == mdPath || (udPath.Some? && r.error.path == udPath.value))
    ensures r.Success? ==>
      r.value.md == (if files(mdPath).value == "" then map[] else loadYaml(files(mdPath).value).value)
    ensures r.Success? && udPath.None? ==> r.value.ud == Null
    ensures r.Success? && udPath.Some? ==>
      r.value.ud == Str(RemoveCarriageReturns(files(udPath.value).value)) && '\r' !in r.value.ud.s
    ensures r.Success? ==>
      ("network" in r.value.md ==> r.value.network == r.value.md["network"]) &&
      ("network" !in r.value.md ==> r.value.network == Null)
  {
    match files(mdPath)
    case None => Failure(FileUnreadable(mdPath))
    case Some(text) =>
      var loaded := if text == "" then Some(map[]) else loadYaml(text);
      match loaded
      case None => Failure(YamlError)
      case Some(md) =>
        var network := if "network" in md then md["network"] else Null;
        match udPath
        case None => Success(RawData(md, Null, network))
        case Some(path) =>
          match files(path)
          case None => Failure(FileUnreadable(path))
          case Some(udText) => Success(RawData(md, Str(RemoveCarriageReturns(udText)), network))
  }

  /** An empty metadata file loads as an empty dictionary with no network. */
  lemma EmptyMetadataLoads(mdPath: string, files: string -> Option<string>,
                           loadYaml: string -> Option<map<string, Value>>)
    requires files(mdPath) == Some("")
    ensures LoadCloudinitData(mdPath, None, files, loadYaml) == Success(RawData(map[], Null, Null))
  {
  }

  // ---------------------------------------------------------------------
  // read_vmware_imc

  const ImcInstanceId := "iid-vmware-imc"

  /** `read_vmware_imc(config)`: metadata, user-data and config derived from
      the customization config alone. */
  function ReadVmwareImc(conf: CustConfig): (r: OvfData)
    ensures r.md.Keys <= {"local-hostname", "instance-id"}
    ensures "instance-id" in r.md && r.md["instance-id"] == Str(ImcInstanceId)
    ensures ("local-hostname" in r.md) <==> conf.hostName != ""
    ensures conf.hostName != "" ==>
      r.md["local-hostname"] == Str(if conf.domainName == "" then conf.hostName
                                    else conf.hostName + "." + conf.domainName)
    ensures r.cfg.Keys <= {"timezone"}
    ensures ("timezone" in r.cfg) <==> conf.timezone != ""
    ensures "timezone" in r.cfg ==> r.cfg["timezone"] == Str(conf.timezone)
    ensures r.ud == Null
  {
    var md: map<string, Value> :=
      if conf.hostName == "" then map[]
      else if conf.domainName == "" then map["local-hostname" := Str(conf.hostName)]
      else map["local-hostname" := Str(conf.hostName + "." + conf.domainName)];
    var cfg: map<string, Value> := if conf.timezone == "" then map[] else map["timezone" := Str(conf.timezone)];
    OvfData(md["instance-id" := Str(ImcInstanceId)], Null, cfg)
  }

  /** The host and domain are recoverable from the hostname: a host name
      without dots is its first dot-separated label, and the domain is the
      rest. */
  lemma ImcHostnameSplits(conf: CustConfig)
    requires conf.hostName != "" && '.' !in conf.hostName
    ensures var h := ReadVmwareImc(conf).md["local-hostname"].s;
      Split(h, '.')[0] == conf.hostName &&
      (conf.domainName == "" ==> h == conf.hostName) &&
      (conf.domainName != "" ==> h[|conf.hostName| + 1..] == conf.domainName)
  {
    var h := ReadVmwareImc(conf).md["local-hostname"].s;
    if conf.domainName == "" {
      SplitPlain(conf.hostName, '.');
    } else {
      assert h == conf.hostName + ['.'] + conf.domainName;
      SplitConcat(conf.hostName, conf.domainName, '.');
    }
  }

  // ---------------------------------------------------------------------
  // get_network_config

  /** A Python list of network-config entries that callers share and
      `get_network_config` extends in place. */
  class ConfigList {
    var items: seq<Value>

    constructor (items: seq<Value>)
      ensures this.items == items
    {
      this.items := items;
    }
  }

  /** Calling `append` on `None`. */
  datatype AttributeError = AttributeError

  function NameserverRecord(nameservers: Value, search: Value): Value {
    Dict(map["type" := Str("nameserver"), "address" := nameservers, "search" := search])
  }

  /** `get_network_config(nics, nameservers, search)`: the caller's list
      gets a trailing nameserver record when either argument is truthy, and
      the result wraps the (same) list as a version-1 configuration; with no
      list and a nameserver to add it raises. */
  method GetNetworkConfig(nics: ConfigList?, nameservers: Value, search: Value)
    returns (r: Result<Value, AttributeError>)
    modifies nics
    ensures nics == null && (Truthy(nameservers) || Truthy(search)) ==> r == Failure(AttributeError)
    ensures nics == null && !(Truthy(nameservers) || Truthy(search)) ==>
      r == Success(Dict(map["version" := Int(1), "config" := Null]))
    ensures nics != null ==>
      nics.items == old(nics.items) +
        (if Truthy(nameservers) || Truthy(search) then [NameserverRecord(nameservers, search)] else []) &&
      r == Success(Dict(map["version" := Int(1), "config" := List(nics.items)]))
  {
    if Truthy(nameservers) || Truthy(search) {
      if nics == null {
        return Failure(AttributeError);
      }
      nics.items := nics.items + [NameserverRecord(nameservers, search)];
    }
    var configList := if nics == null then Null else List(nics.items);
    return Success(Dict(map["version" := Int(1), "config" := configList]));
  }

  /** `get_network_config_from_conf(config)`: the NIC configurator's
      generated entries (an input here) in a fresh list, followed by the
      nameserver record of the config's name servers and DNS suffixes. */
  method GetNetworkConfigFromConf(conf: CustConfig, generated: seq<Value>) returns (r: Value)
    ensures r == NetworkConfigOf(conf, generated)
  {
    var nics := new ConfigList(generated);
    var got := GetNetworkConfig(nics, conf.nameServers, conf.dnsSuffixes);
    r := got.value;
  }

  /** The version-1 configuration for generated entries and a config. */
  function NetworkConfigOf(conf: CustConfig, generated: seq<Value>): Value {
    var extra := if Truthy(conf.nameServers) || Truthy(conf.dnsSuffixes)
                 then [NameserverRecord(conf.nameServers, conf.dnsSuffixes)] else [];
    Dict(map["version" := Int(1), "config" := List(generated + extra)])
  }

  /** The generated entries come first and unchanged, and at most one record
      follows them: the nameserver record, exactly when there is something
      to put in it. */
  lemma NetworkConfigShape(conf: CustConfig, generated: seq<Value>)
    ensures var c := NetworkConfigOf(conf, generated).entries["config"].items;
      c[..|generated|] == generated &&
      (|c| == |generated| + 1 <==> Truthy(conf.nameServers) || Truthy(conf.dnsSuffixes)) &&
      (|c| == |generated| + 1 ==> c[|generated|].entries["type"] == Str("nameserver"))
    ensures NetworkConfigOf(conf, generated).entries["version"] == Int(1)
  {
  }
}
