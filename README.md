# cloud-init OVF datasource, modelled in Dafny

This project models `cloudinit/sources/DataSourceOVF.py` from cloud-init, the
datasource that finds instance metadata for virtual machines deployed from
OVF packages. It has two ways in:

- the OVF environment document (DMTF DSP0243, clause 11). This comes from a
  seed directory, the VMware guestinfo RPC or an ISO9660 CD-ROM;
- VMware image customization (IMC), from a `cust.cfg` file that VMware Tools
  drops into `/var/run/vmware-imc`, optionally with raw cloud-init
  metadata and user-data files.

## Modules

- `Common` (common.dfy): `Option` and `Result`, and a `Value` datatype for
  the Python values held in metadata and config. It also has truthiness,
  `str.startswith`, the substring test, ASCII lower-casing, `join` and
  `split` with their round trips.
- `Paths` (paths.dfy): POSIX `os.path.join`, `dirname` and `normpath`.
- `Cdrom` (cdrom.dfy): `maybe_cdrom_device`, the device-name filter. Its
  default pattern `^(sr[0-9]+|hd[a-z]|xvd.*)` is written as a predicate and
  shown equal to prefix matching.
- `OvfEnv` (ovf_env.dfy): the OVF environment.
  - The parsed document is a `Node` tree.
  - `find_child` and `get_properties` are methods with loops, proved
    against functions.
  - The property dictionary is an association list that keeps Python's
    insertion order.
  - `read_ovf_environment` sorts properties into metadata, config and
    user-data.
  - `get_ovf_env` tries the four environment file names.
- `Imc` (imc.dfy): the IMC helpers.
  - `int()` parsing for the wait budget, `get_max_wait_from_cfg`, and the
    polling loop of `wait_for_imc_cfg_file`.
  - `collect_imc_file_paths`, `load_cloudinit_data` and `read_vmware_imc`.
  - `get_network_config`, which appends to the caller's list in place, so
    that list is a class.
- `Markers` (markers.dfy): the marker directory. It is a class holding the
  set of entry names, with `check_marker_exists` and `setup_marker_files`.
- `DataSource` (datasource.dfy): the `DataSourceOVF` class and `_get_data`.
  - `_get_data` is split into phase methods, in the source's order of
    effects.
  - Each phase is proved against a function over a `State` snapshot of the
    object's fields.
  - `_get_data` is proved against their composition `Run`.
  - Reports to the VMware platform and directory removals are appended to
    a `trace` field as `Event`s: `set_customization_status`,
    `set_gc_status`, `del_dir`, `enable_nics`, the NIC configurator's
    `generate(configure=True)`, the password configurator and each transport
    probe.
  - Everything the method reads from outside is a field of an `Env` record:
    - the seed directory's files, the DMI product name and the two flags;
    - whether the IMC plugin is present, and when `cust.cfg` appears;
    - the parsed `cust.cfg`, what the VMware helpers return, the transports'
      contents, `read_seeded` and `mergemanydict`.
- `DataSourceProperties` (datasource_props.dfy): what `_get_data`
  guarantees, stated over `Run` and its phases.

A structurally invalid OVF document read from the seed directory or from a
transport does not count as "no data from this transport": the call
`read_ovf_environment` at `_get_data` lines 96 and 364 is not inside a
`try`, so the `XmlError` propagates out of `_get_data`. In the model `Run`
ends with `Raised(Ovf(e))`.

The description of `maybe_cdrom_device` (lines 570-571) says that paths outside `/dev/` are not allowed. The code
instead judges an absolute path outside `/dev/` by its last component (lines 587-589), so `/foo/bar/xvdc` is
accepted. The model follows the code: see `Cdrom.AbsoluteNameJudgedByLastComponent` and `Cdrom.AcceptedOutsideDev`.

## Model

| member | source | states |
|---|---|---|
| Cdrom.MaybeCdromDevice | cloudinit/sources/DataSourceOVF.py:567-603 | the empty name is rejected; any other name is accepted exactly when its candidate exists and matches the pattern (the candidate itself, for each shape of name, is stated by the Cdrom lemmas below) |
| Cdrom.CdromPatternMatchIsPrefixMatch | cloudinit/sources/DataSourceOVF.py:597-603 | `re.match` of the default pattern holds exactly when some prefix of the name is `sr` plus digits, `hd` plus a letter, or `xvd` plus anything |
| Cdrom.ChooseUnderDev | cloudinit/sources/DataSourceOVF.py:582-591 | after stripping `/dev/`, a relative remainder is kept whole when it has no `/` and rejected when it has one |
| Cdrom.ChooseRelative | cloudinit/sources/DataSourceOVF.py:587-591 | a relative name without `/` is kept whole; one with a `/` is rejected |
| Cdrom.ChooseAbsolute | cloudinit/sources/DataSourceOVF.py:587-589 | an absolute name not under `/dev/` is replaced by its last component |
| Cdrom.KernelNameJudgedByPattern | cloudinit/sources/DataSourceOVF.py:567-603 | a bare kernel name, and the same name under `/dev/`, are accepted exactly when the pattern matches it |
| Cdrom.DevPathNormal | cloudinit/sources/DataSourceOVF.py:579-580 | `normpath` leaves `/dev/` followed by plain components unchanged |
| Cdrom.SlashInJoin | cloudinit/sources/DataSourceOVF.py:590 | a join of plain components contains `/` exactly when there are at least two |
| Cdrom.CandidateUnderDev | cloudinit/sources/DataSourceOVF.py:579-595 | under `/dev/`, a single component is the candidate; two or more give no candidate |
| Cdrom.NestedNamesRejected | cloudinit/sources/DataSourceOVF.py:590-591 | a name with a directory part, bare or under `/dev/`, is rejected (`foo/bar/xvdc`, `/dev/foo/bar/xvdc`) |
| Cdrom.DevPrefixOfComponent | cloudinit/sources/DataSourceOVF.py:583 | a component followed by nothing or by `/` starts with `dev/` only when it is `dev` |
| Cdrom.JoinShape | cloudinit/sources/DataSourceOVF.py:588-589 | a join of plain components is its first component, followed by a `/` when there are more |
| Cdrom.NotUnderDev | cloudinit/sources/DataSourceOVF.py:583 | an absolute path whose first component is not `dev` does not start with `/dev/` |
| Cdrom.ComponentNotUnderDev | cloudinit/sources/DataSourceOVF.py:583 | the same for one component followed by a tail that is empty or starts with `/` |
| Cdrom.ChooseLastComponent | cloudinit/sources/DataSourceOVF.py:587-589 | an absolute path of plain components outside `/dev/` yields its last component as the candidate |
| Cdrom.AbsoluteNameJudgedByLastComponent | cloudinit/sources/DataSourceOVF.py:587-603 | an absolute name outside `/dev/` is accepted exactly when its last component matches the pattern |
| Cdrom.AcceptedScsiCdrom | cloudinit/sources/DataSourceOVF.py:567-603 | `sr0` and `/dev/sr0` are accepted |
| Cdrom.AcceptedIdeName | cloudinit/sources/DataSourceOVF.py:567-603 | the IDE name `hda` is accepted |
| Cdrom.AcceptedXenName | cloudinit/sources/DataSourceOVF.py:567-603 | the Xen name `xvdc` is accepted |
| Cdrom.AcceptedOutsideDev | cloudinit/sources/DataSourceOVF.py:587-589 | `/foo/bar/xvdc`, a path outside `/dev/`, is accepted |
| Cdrom.RejectedDeviceNames | cloudinit/sources/DataSourceOVF.py:574-575 | the empty name is rejected, and so are `sda` and `/dev/sda` |
| Cdrom.RejectedNestedNames | cloudinit/sources/DataSourceOVF.py:590-591 | `foo/bar/xvdc` and `/dev/foo/bar/xvdc` are rejected |
| Paths.NormPathRelative | cloudinit/sources/DataSourceOVF.py:580 | `normpath` of a relative join of plain components is that join |
| Paths.NormPathAbsolute | cloudinit/sources/DataSourceOVF.py:580 | `normpath` of `/` followed by plain components is unchanged |
| Paths.DirnameOfJoin | cloudinit/sources/DataSourceOVF.py:776 | the directory removed for a config file `dir/name` is `dir` |
| OvfEnv.FindChild | cloudinit/sources/DataSourceOVF.py:663-670 | `find_child` returns the node's children with the given local name, in document order, and nothing for a node without children |
| OvfEnv.ChildrenNamedMembers | cloudinit/sources/DataSourceOVF.py:663-670 | a node is returned exactly when it is a child with that name |
| OvfEnv.FirstChildNamed | cloudinit/sources/DataSourceOVF.py:685-693 | the first child returned is the first child with that name, so only the first `PropertySection` is read |
| OvfEnv.NoneNamed | cloudinit/sources/DataSourceOVF.py:663-670 | with no child of that name the result is empty |
| OvfEnv.PutLookup | cloudinit/sources/DataSourceOVF.py:699 | `props[key] = val` makes the key map to the new value and leaves every other key alone |
| OvfEnv.PutKeys | cloudinit/sources/DataSourceOVF.py:699 | assigning a new key adds it at the end; an existing key keeps its place |
| OvfEnv.PutUnique | cloudinit/sources/DataSourceOVF.py:699 | the dictionary keeps each key once |
| OvfEnv.KeysOfCons | cloudinit/sources/DataSourceOVF.py:699 | the keys of a dictionary with one more leading pair start with that pair's key |
| OvfEnv.KeysMembership | cloudinit/sources/DataSourceOVF.py:699 | the key list names the pairs' keys position by position |
| OvfEnv.DictOfSpec | cloudinit/sources/DataSourceOVF.py:694-699 | the dictionary built by the loop has each key once, in first-occurrence order, mapped to the value of its last occurrence |
| OvfEnv.GetProperties | cloudinit/sources/DataSourceOVF.py:673-701 | the loop over `Property` elements returns the function `PropertiesOf` of the parsed document, error cases included |
| OvfEnv.PairsOfFailsAt | cloudinit/sources/DataSourceOVF.py:696-698 | once a `Property` lacks a namespaced attribute, `get_properties` fails with that error |
| OvfEnv.PairsOfFailure | cloudinit/sources/DataSourceOVF.py:696-698 | reading the pairs fails exactly when some `Property` lacks `key` or `value` |
| OvfEnv.PropertiesFailure | cloudinit/sources/DataSourceOVF.py:673-701 | `get_properties` succeeds exactly when all hold: the root is `Environment`, it has children, some child is a `PropertySection`, and that section's `Property` children all have both attributes |
| OvfEnv.PropertiesContent | cloudinit/sources/DataSourceOVF.py:690-701 | on success the keys are those of the first `PropertySection`'s `Property` children, each once, and a repeated key keeps its last value |
| OvfEnv.ReadOvfEnvironment | cloudinit/sources/DataSourceOVF.py:523-549 | the sorting loop returns the function `OvfEnvironmentOf` of the document, or its `XmlError` |
| OvfEnv.SortAllKeys | cloudinit/sources/DataSourceOVF.py:529-544 | metadata holds only `seedfrom`, `local-hostname`, `public-keys` and `instance-id`, plus `network-config` when reading the network; config holds only `password` |
| OvfEnv.SortAllValues | cloudinit/sources/DataSourceOVF.py:531-538 | each identity key and `password` holds the last property that lands on it; `hostname` lands on `local-hostname`; other properties are dropped |
| OvfEnv.SortAllMdValue | cloudinit/sources/DataSourceOVF.py:531-538 | an identity key is in the metadata exactly when some property lands on it (`hostname` lands on `local-hostname`), and then holds the last such value |
| OvfEnv.SortAllPassword | cloudinit/sources/DataSourceOVF.py:537-538 | `password` is in the config exactly when some property is named `password`, and then holds the last one |
| OvfEnv.SortAllNetwork | cloudinit/sources/DataSourceOVF.py:539-544 | `network-config` reaches the metadata only when reading the network, and then as the last value that decodes; one that fails to decode is ignored |
| OvfEnv.SortAllUserData | cloudinit/sources/DataSourceOVF.py:545-549 | user-data is `None` without a `user-data` property; otherwise it is the last one, base64-decoded, or its raw bytes when decoding fails |
| OvfEnv.NetworkConfigRoundTrip | cloudinit/sources/DataSourceOVF.py:539-542 | a base64-encoded YAML document with a `network` entry comes back in the metadata as that entry |
| OvfEnv.OnlyNetworkConfig | cloudinit/sources/DataSourceOVF.py:539-544 | a single `network-config` property that decodes is the one used |
| OvfEnv.FirstFileSpec | cloudinit/sources/DataSourceOVF.py:554-564 | the search over file names returns the first name whose file loads, every earlier one failing to load, or none when no file loads |
| OvfEnv.GetOvfEnv | cloudinit/sources/DataSourceOVF.py:554-564 | returns the first of the four names whose file exists and loads, with its contents, skipping any that fails to load; returns none when no file loads |
| Imc.DigitsRoundTrip | cloudinit/sources/DataSourceOVF.py:452 | reading back the decimal digits of a number gives the number |
| Imc.ParseIntRoundTrip | cloudinit/sources/DataSourceOVF.py:452 | `int(str(n)) == n` for every integer |
| Imc.ParseUnsigned | cloudinit/sources/DataSourceOVF.py:452 | `int()` of a string of digits is the number they denote |
| Imc.ParseNegative | cloudinit/sources/DataSourceOVF.py:452 | `int()` of `-` followed by digits is the negated number |
| Imc.GetMaxWaitFromCfg | cloudinit/sources/DataSourceOVF.py:444-463 | the budget is never negative; it raises `TypeError` exactly when the config is non-empty and holds the key with a value `int()` refuses by type, such as `None` |
| Imc.MaxWaitCases | cloudinit/sources/DataSourceOVF.py:444-463 | 15 for an empty config, a missing key, a non-integer value or a negative value; otherwise the integer, 0 included |
| Imc.MaxWaitFromDecimalString | cloudinit/sources/DataSourceOVF.py:451-452 | a decimal string such as `"0"` or `"30"` is taken as the budget |
| Imc.MaxWaitFromNegativeString | cloudinit/sources/DataSourceOVF.py:458-461 | a negative decimal string falls back to 15 |
| Imc.WaitForImcCfgFile | cloudinit/sources/DataSourceOVF.py:466-479 | the loop checks `dirpath/filename` at waited = 0, nap, 2·nap, … below maxwait; nap is forced to 1 when maxwait ≤ naplen. It returns the joined path at the first check that finds the file, else none; maxwait ≤ 0 makes no check |
| Imc.PollTimeMonotone | cloudinit/sources/DataSourceOVF.py:476-477 | with a positive nap the check times increase, so the first hit is the earliest |
| Imc.CollectImcFilePaths | cloudinit/sources/DataSourceOVF.py:819-857 | `md_path` and `nics_path` are never both set; `ud_path` only with `md_path`; every returned path exists; it fails exactly when a declared metadata or user-data file is missing |
| Imc.CollectImcFilePathsCases | cloudinit/sources/DataSourceOVF.py:835-855 | declared metadata wins over `nics.txt`; without it, `nics.txt` is returned when present; the error names the first declared file that is missing |
| Imc.RemoveCarriageReturns | cloudinit/sources/DataSourceOVF.py:802 | the user-data has no carriage return left and is no longer than before |
| Imc.RemoveCarriageReturnsSpec | cloudinit/sources/DataSourceOVF.py:802 | text without carriage returns is unchanged, and removal distributes over concatenation |
| Imc.LoadCloudinitData | cloudinit/sources/DataSourceOVF.py:782-816 | raises a YAML error exactly when the metadata loads but does not parse; succeeds exactly when there is no YAML error and both files load; a file error names the metadata or user-data file that could not be read; the metadata is the YAML load of the file, or `{}` when it is empty; `network` is the metadata's `network` entry, or `None`; user-data is exactly the file with carriage returns removed, or `None` without a user-data file |
| Imc.EmptyMetadataLoads | cloudinit/sources/DataSourceOVF.py:808-815 | an empty metadata file loads as an empty dictionary with no network |
| Imc.ReadVmwareImc | cloudinit/sources/DataSourceOVF.py:504-518 | metadata always has `instance-id` `iid-vmware-imc`, and `local-hostname` exactly when there is a host name, namely `host.domain`, or the host alone without a domain; config has `timezone` exactly when one is set; user-data is `None` |
| Imc.ImcHostnameSplits | cloudinit/sources/DataSourceOVF.py:508-512 | host and domain can be read back from `local-hostname` when the host name has no dot |
| Imc.ConfigList.constructor | cloudinit/sources/DataSourceOVF.py:492-493 | a list of network entries starts with the given items |
| Imc.GetNetworkConfig | cloudinit/sources/DataSourceOVF.py:492-499 | appends the nameserver record to the caller's list in place exactly when nameservers or search are truthy, and returns a version-1 config over that list; `AttributeError` when the list is `None` and a record is due |
| Imc.GetNetworkConfigFromConf | cloudinit/sources/DataSourceOVF.py:482-489 | the configuration is `NetworkConfigOf` the generated NIC entries and the config's name servers and suffixes |
| Imc.NetworkConfigShape | cloudinit/sources/DataSourceOVF.py:492-499 | version 1; the generated entries come first and unchanged, then at most one nameserver record, present exactly when nameservers or search are truthy |
| Markers.CheckMarkerExists | cloudinit/sources/DataSourceOVF.py:732-746 | an empty id never has a marker; a marker is found only in a directory holding a `.markerfile` entry (what setup leaves behind is stated by the Markers lemmas below) |
| Markers.MarkerDir.constructor | cloudinit/sources/DataSourceOVF.py:750-765 | a marker directory holds the given entries |
| Markers.MarkerDir.SetupMarkerFiles | cloudinit/sources/DataSourceOVF.py:750-765 | the loop deletes every entry starting with `.markerfile`, then the marker of the id is created |
| Markers.MarkerFileIsMarker | cloudinit/sources/DataSourceOVF.py:758-762 | the marker file's own name starts with `.markerfile` |
| Markers.SetupLeavesOneMarker | cloudinit/sources/DataSourceOVF.py:732-765 | after setup the only `.markerfile` entry is the new marker, and `check_marker_exists` holds for a non-empty id |
| Markers.SetupKeepsOtherEntries | cloudinit/sources/DataSourceOVF.py:750-765 | non-marker entries are untouched, and the marker of any other id is gone |
| Markers.MarkerNameInjective | cloudinit/sources/DataSourceOVF.py:742 | different ids have different marker file names |
| Markers.SetupIdempotent | cloudinit/sources/DataSourceOVF.py:750-765 | repeating setup with the same id leaves the same directory |
| DataSource.ConcludeSpec | cloudinit/sources/DataSourceOVF.py:370-400 | the last phase always ends `_get_data`, with a result or an exception |
| DataSource.Run | cloudinit/sources/DataSourceOVF.py:75-400 | `_get_data` always ends with a result or an exception |
| DataSource.ChosenTransport | cloudinit/sources/DataSourceOVF.py:355-362 | the transport used is one of the transports, at or after the first one tried |
| DataSource.ProbeTransports | cloudinit/sources/DataSourceOVF.py:355-362 | transports are called in order until one returns contents; every earlier one returned nothing, and the last name is kept when all are empty |
| DataSource.DataSourceOVF.constructor | cloudinit/sources/DataSourceOVF.py:58-69 | a fresh datasource has no seed, empty metadata and config, and an empty trace |
| DataSource.DataSourceOVF.RaiseErrorStatus | cloudinit/sources/DataSourceOVF.py:768-779 | appends the RUNNING status with the event, the prefix as gc status and the removal of the config's directory; nothing else changes |
| DataSource.DataSourceOVF.Start | cloudinit/sources/DataSourceOVF.py:75-179 | the seed directory is read first; otherwise the VMware branch runs on a VMware product. The result and new state are `StartSpec` |
| DataSource.DataSourceOVF.FindImcConfig | cloudinit/sources/DataSourceOVF.py:99-179 | flag gating, the poll for `cust.cfg`, `collect_imc_file_paths` and the discard rules; the result and new state are `VmwareSpec` |
| DataSource.DataSourceOVF.UseRawData | cloudinit/sources/DataSourceOVF.py:180-216 | the raw-data route, with its two error prefixes and the success report; the result and new state are `RawDataSpec` |
| DataSource.DataSourceOVF.CustomizeFromImc | cloudinit/sources/DataSourceOVF.py:217-268 | the config route: Started, the NICs to enable, the parsed config, then the network step; the result and new state are `ImcSpec` |
| DataSource.DataSourceOVF.ImcNetwork | cloudinit/sources/DataSourceOVF.py:282-295 | the NIC configurator is called (a `ConfigureNics` event, whether or not it succeeds), then the network configuration is built from the generated NIC entries, or the network-preparation error is raised; the result and new state are `ImcNetworkSpec` |
| DataSource.DataSourceOVF.FinishImc | cloudinit/sources/DataSourceOVF.py:297-353 | password, marker and the success report; the result and new state are `ImcFinishSpec` |
| DataSource.DataSourceOVF.TryTransports | cloudinit/sources/DataSourceOVF.py:355-368 | the transports and the parse of the chosen contents; the result and new state are `TransportSpec` |
| DataSource.DataSourceOVF.AdoptEnvironment | cloudinit/sources/DataSourceOVF.py:363-368 | empty contents change nothing; otherwise the document is parsed, becomes `environment`, sets the network config when `network-config` is truthy, and the transport's name is appended to `found`; the result and new state are `AdoptSpec` |
| DataSource.DataSourceOVF.Conclude | cloudinit/sources/DataSourceOVF.py:370-400 | no source, the `seedfrom` redirection, the defaults and the published fields; the result and new state are `ConcludeSpec` |
| DataSource.DataSourceOVF.PublishData | cloudinit/sources/DataSourceOVF.py:391-399 | the defaults are merged into the metadata, `seed` is `found` joined by commas, and user-data, vendor-data and config are published; nothing else changes |
| DataSource.DataSourceOVF.GetData | cloudinit/sources/DataSourceOVF.py:75-400 | the return value or exception, and the new fields, marker directory and trace, are those of `Run` |
| DataSource.DataSourceOVF.GetSubplatform | cloudinit/sources/DataSourceOVF.py:402-406 | `vmware (<seed>)` exactly when the lower-cased product name equals `vmware`, else `ovf (<seed>)`; `<seed>` is the `seed` field's text, or `None` before any source (`SeedText`) |
| DataSource.DataSourceOVF.GetPublicSshKeys | cloudinit/sources/DataSourceOVF.py:408-415 | no keys without a `public-keys` entry; a list entry as it is; any other entry as a one-element list |
| DataSourceProperties.RaiseEndsTrace | cloudinit/sources/DataSourceOVF.py:768-779 | an error report adds exactly the three error events at the end of the trace |
| DataSourceProperties.ConcludeEnds | cloudinit/sources/DataSourceOVF.py:370-400 | the last phase always ends `_get_data`, reports nothing and touches no marker |
| DataSourceProperties.NothingFoundReturnsFalse | cloudinit/sources/DataSourceOVF.py:370-372 | when no source was found, the concluding phase returns false and changes nothing |
| DataSourceProperties.NothingFoundRunReturnsFalse | cloudinit/sources/DataSourceOVF.py:87-372 | over the whole run: no seed file, a product name without `vmware` and two empty transports make `_get_data` return false, with the two probes as the only change |
| DataSourceProperties.NothingProbed | cloudinit/sources/DataSourceOVF.py:355-368 | two empty transports add both probes to the trace and leave the locals alone |
| DataSourceProperties.SuccessHasInstanceId | cloudinit/sources/DataSourceOVF.py:391-400 | when `_get_data` returns true the metadata has `instance-id`, and its keys are those collected plus `instance-id`, provided `mergemanydict` keeps the keys of both sides |
| DataSourceProperties.ConcludeHasInstanceId | cloudinit/sources/DataSourceOVF.py:391-400 | the same for the concluding phase |
| DataSourceProperties.StartStopsRaise | cloudinit/sources/DataSourceOVF.py:87-179 | the first phase ends `_get_data` only by raising |
| DataSourceProperties.CustomizeStopsRaise | cloudinit/sources/DataSourceOVF.py:180-368 | the customization and transport phases end `_get_data` only by raising, so only the concluding phase returns |
| DataSourceProperties.SeedfromMustBeSupported | cloudinit/sources/DataSourceOVF.py:374-393 | an unsupported truthy `seedfrom` returns false and changes nothing; a success after `seedfrom` means it was supported, and it is appended to `found` |
| DataSourceProperties.SupportedSeedsByFlavour | cloudinit/sources/DataSourceOVF.py:436-441 | `DataSourceOVF` follows `/` and `file://` seeds; `DataSourceOVFNet` follows `http://` and `https://` |
| DataSourceProperties.PublishedSeedListsSources | cloudinit/sources/DataSourceOVF.py:386-400 | on success `seed` is `found` joined by commas, which splits back into `found` when no name holds a comma; metadata is merged with the defaults |
| DataSourceProperties.StartReports | cloudinit/sources/DataSourceOVF.py:75-179 | the first phase reports only a missing IMC file, with the `File(s) missing in directory` prefix |
| DataSourceProperties.GatingFollowsFlags | cloudinit/sources/DataSourceOVF.py:99-179 | IMC customization needs a VMware product, no seed file and the plugin, with the file found at `/var/run/vmware-imc/cust.cfg`; raw data needs `allow_raw_data`, config customization needs VMware customization enabled |
| DataSourceProperties.PollFindsPath | cloudinit/sources/DataSourceOVF.py:472-479 | the poll finds nothing or the path it polls for |
| DataSourceProperties.OvfNetNeverCustomizes | cloudinit/sources/DataSourceOVF.py:436-441 | `DataSourceOVFNet` never takes an IMC route and reports nothing in its first phase |
| DataSourceProperties.RawDataReport | cloudinit/sources/DataSourceOVF.py:180-216 | succeeds exactly when the data loads. Trace: Started, directory removal, DONE/SUCCESS, Successful. Network is the raw `network` when truthy, else the fallback. A YAML error gives the parse prefix; any other error the load prefix |
| DataSourceProperties.ImcReport | cloudinit/sources/DataSourceOVF.py:217-353 | succeeds exactly when every helper does; the NIC configurator is always called and the network config always computed; the password is configured only for a special customization with a password or reset; the marker is written for any marker id; the trace is Started, the NIC configuration, the password configuration when called, then directory removal, enable nics, DONE/SUCCESS, Successful |
| DataSourceProperties.ImcFailureReport | cloudinit/sources/DataSourceOVF.py:217-353 | a failure names the first helper that failed, ends the trace with the error report and leaves the markers alone |
| DataSourceProperties.MarkerMakesRerunOrdinary | cloudinit/sources/DataSourceOVF.py:224-229 | after a successful customization with a marker id, the same configuration is no longer special, so a reboot does not reset the password |
| DataSourceProperties.TransportProbes | cloudinit/sources/DataSourceOVF.py:355-368 | guestinfo is probed first, and the ISO only when guestinfo returned nothing |
| DataSourceProperties.CustomizationErrorsAreReported | cloudinit/sources/DataSourceOVF.py:768-779 | every customization error of `_get_data` carries one of the seven prefixes, and the trace ends with RUNNING plus the event, the prefix as gc status, and the directory removal |
| DataSourceProperties.GuestInfoAdopted | cloudinit/sources/DataSourceOVF.py:355-368 | a guestinfo environment that parses is adopted after a single probe, and `com.vmware.guestInfo` is appended to `found` |
| DataSourceProperties.TransportsTriedWithoutCustomization | cloudinit/sources/DataSourceOVF.py:355-368 | when no IMC route is taken the transports are probed, even after a seed file was read, and nothing else is reported |
| DataSourceProperties.SeedFileThenGuestInfo | cloudinit/sources/DataSourceOVF.py:94-98 | a seed file followed by guestinfo contents without `seedfrom` succeeds; `seed` names the seed file, then `com.vmware.guestInfo`; the environment is guestinfo's |
| DataSourceProperties.VmwareProductsAreNotVmwareSubplatform | cloudinit/sources/DataSourceOVF.py:99 | any product name `VMware…` longer than `VMware` takes the VMware branch (substring test) yet is reported as an `ovf` subplatform (equality at line 404) |
| DataSourceProperties.ExactVmwareProduct | cloudinit/sources/DataSourceOVF.py:402-406 | the product `VMware` takes the VMware branch and is the `vmware` subplatform |
| DataSourceProperties.NonVmwareProductGoesToTransports | cloudinit/sources/DataSourceOVF.py:99 | without a seed file and without `vmware` in the product name, no VMware route is tried |

## Left out

- XML text parsing (`minidom.parseString`, line 675). The parsed tree is the input, and the parse is a `Codecs` function that may fail.
- YAML loading, base64 decoding and `str.encode` are functions of the `Codecs` record and of `Env`.
  - base64 is not claimed to be strict RFC 4648, because Python's `b64decode` discards characters outside the alphabet.
- The transports `transport_vmware_guestinfo` and `transport_iso9660` (608-660) are not modelled. They run a subprocess and mount devices; only their contents enter the model, as `Env.transport`.
- `search_file` (704-712) is not modelled, because the order of `os.walk` depends on the OS. The plugin search is the flag `Env.pluginFound`.
- The DMI product-name reads (89, 403) are `Env.systemProduct` and a parameter of `GetSubplatform`.
- The VMware helpers are not part of this model. They are outcomes in `Env` and events in the trace:
  - the NIC and password configurators;
  - `get_nics_to_enable`, `enable_nics`, `set_customization_status` and `set_gc_status`;
  - `ConfigFile` and `Config`.
- `util.mergemanydict` and `util.read_seeded` (386-393) are `Env.merge` and `Env.readSeeded`. The model does not fix which side of a merge wins. That the merge keeps the keys of both sides is the predicate `DataSource.MergeUnitesKeys`, required only by the lemmas about `instance-id`.
- The custom-script branches (235-256, 270-280, 316-328) are dead code, because the script is the constant `None` (231). They are not modelled.
- The `CLOUD_INIT_CDROM_DEV_REGEX` override (600) can be any user regex. Only the default pattern is modelled.
- Logging, the wall-clock side of `time.sleep` and `util.log_time` are not modelled. A poll advances the `waited` counter only.
- The registration table `datasources` and `get_datasource_list` (720-728) are not modelled.
- `__str__`, `get_config_obj`, `check_instance_id` (always true) and the `network_config` property (71, 420-434) are plain field reads and are not modelled.
- Imc.WaitForImcCfgFile requires `naplen > 0` whenever `0 < maxwait` and `naplen < maxwait`. With `naplen <= 0` there, Python never advances `waited`, so it polls forever unless the file appears. The only caller passes 5.
- `distro.generate_fallback_config()` (191) is the value `Env.fallbackNetwork` and cannot fail. In Python an exception there would be reported as `Error loading cloud-init configuration`.
- Cdrom.MaybeCdromDevice: a non-`str` device name raises `ValueError`. The model takes strings only.
- Common.Lower lower-cases ASCII letters only. Python's `str.lower` covers all of Unicode.
- Imc.IntOf accepts an optional sign and decimal digits. It does not accept surrounding whitespace, underscores, or floats, which `int()` truncates.
- Imc.LoadCloudinitData: a YAML document that is not a mapping is treated as a YAML error. In Python, the `'network' in md` test on such a value behaves in a type-dependent way.
- Markers.MarkerDir.SetupMarkerFiles keeps one directory as a set of names. Marker ids containing `/` are treated as plain names.
- DataSource.DataSourceOVF.GetSubplatform returns none when there is no product name. Python raises `AttributeError` there.
- DataSource.ImcSpec:
  - One failure point stands for everything in the `try` at 219-261: reading the config, the NICs to enable, and the marker check. It is modelled right after "Started".
  - `ConfigurePassword` records that the configurator was called, whether or not it succeeded. `ConfigureNics` does the same for the NIC configurator. Neither records what these change on the host.
  - The `Config` property reads are modelled as unable to fail. These are `admin_password`, `reset_password` (300-301), `marker_id` and the host, domain, timezone, DNS and NIC settings. In Python a failing `reset_password` read inside the `try` at 300-313 would be reported as `Error applying Password Configuration`, even with no password to set.
  - A failed marker setup is modelled as failing before any deletion.
- Imc.GetNetworkConfig: the model shows the caller's list being updated in place. It does not follow that list's aliasing after `_get_data` returns.
