/** What `_get_data` guarantees, stated over its functional model `Run`
    and the phases it is built from. */
module DataSourceProperties {
  import opened Common
  import opened Paths
  import opened OvfEnv
  import opened Imc
  import opened Markers
  import opened DataSource

  // ---------------------------------------------------------------------
  // Phase by phase

  /** `_raise_error_status` leaves its three reports at the end of the
      trace. */
  lemma RaiseEndsTrace(s: State, prefix: string, configFile: string)
    ensures |Raise(s, prefix, configFile).trace| == |s.trace| + 3
    ensures Raise(s, prefix, configFile).trace[..|s.trace|] == s.trace
    ensures Raise(s, prefix, configFile).trace[|s.trace|..] == ErrorEvents(prefix, CodeOf(prefix), configFile)
  {
  }

  /** The concluding phase always ends `_get_data` and reports nothing to
      the platform. */
  lemma ConcludeEnds(st: Settings, env: Env, s: State, l: Locals)
    ensures ConcludeSpec(st, env, s, l).Halt?
    ensures ConcludeSpec(st, env, s, l).s.trace == s.trace
    ensures ConcludeSpec(st, env, s, l).s.markerFiles == s.markerFiles
    ensures !ConcludeSpec(st, env, s, l).outcome.Raised? ||
            !ConcludeSpec(st, env, s, l).outcome.fault.Customization?
  {
  }

  /** Without a source `_get_data` returns false and changes nothing. */
  lemma NothingFoundReturnsFalse(st: Settings, env: Env, s: State, l: Locals)
    requires l.found == []
    ensures ConcludeSpec(st, env, s, l) == Halt(s, l, Returned(false))
  {
  }

  /** Over the whole run: with no seed file, a product name without
      `vmware` and both transports empty, `_get_data` returns false, and
      the only change is the two transport probes in the trace. */
  lemma NothingFoundRunReturnsFalse(st: Settings, env: Env, s: State)
    requires FirstEnvFile(env.seedDir, env.seedFiles).None?
    requires !IsVmwarePlatform(env.systemProduct)
    requires env.transport(GuestInfo) == "" && env.transport(Iso) == ""
    ensures Run(st, env, s).outcome == Returned(false)
    ensures Run(st, env, s).s == s.(trace := s.trace + [ProbeTransport(GuestInfo), ProbeTransport(Iso)])
  {
    var s1 := s.(trace := s.trace + [ProbeTransport(GuestInfo), ProbeTransport(Iso)]);
    NonVmwareProductGoesToTransports(st, env, s);
    NothingProbed(env, s, InitialLocals);
    NothingFoundReturnsFalse(st, env, s1, InitialLocals);
  }

  /** Two empty transports leave the locals alone and add the two probes. */
  lemma NothingProbed(env: Env, s: State, l: Locals)
    requires env.transport(GuestInfo) == "" && env.transport(Iso) == ""
    ensures TransportSpec(env, s, l) == Go(s.(trace := s.trace + [ProbeTransport(GuestInfo), ProbeTransport(Iso)]), l)
  {
    assert ChosenTransport(env, 0) == 1;
    assert Probes(2) == [ProbeTransport(GuestInfo), ProbeTransport(Iso)];
  }

  /** A truthy `seedfrom` string must start with a supported prefix: when
      it does not, `_get_data` returns false and publishes nothing, and
      whenever `_get_data` succeeds the seed it followed was supported. */
  lemma SeedfromMustBeSupported(st: Settings, env: Env, s: State, l: Locals, sf: string)
    requires l.found != [] && "seedfrom" in l.md && l.md["seedfrom"] == Str(sf) && sf != ""
    ensures !SupportedSeed(sf, st.supportedSeedStarts) ==> ConcludeSpec(st, env, s, l) == Halt(s, l, Returned(false))
    ensures ConcludeSpec(st, env, s, l).outcome == Returned(true) ==>
      SupportedSeed(sf, st.supportedSeedStarts) &&
      ConcludeSpec(st, env, s, l).l.found == l.found + [sf]
  {
  }

  /** For `DataSourceOVF` the supported seeds are local paths and `file://`
      URLs; for `DataSourceOVFNet` they are HTTP and HTTPS URLs. */
  lemma SupportedSeedsByFlavour(sf: string)
    ensures SupportedSeed(sf, OvfSettings.supportedSeedStarts) <==> StartsWith(sf, "/") || StartsWith(sf, "file://")
    ensures SupportedSeed(sf, OvfNetSettings.supportedSeedStarts) <==> StartsWith(sf, "http://") || StartsWith(sf, "https://")
  {
    if StartsWith(sf, "/") {
      assert OvfSettings.supportedSeedStarts[0] == "/";
    }
    if StartsWith(sf, "file://") {
      assert OvfSettings.supportedSeedStarts[1] == "file://";
    }
    if StartsWith(sf, "http://") {
      assert OvfNetSettings.supportedSeedStarts[0] == "http://";
    }
    if StartsWith(sf, "https://") {
      assert OvfNetSettings.supportedSeedStarts[1] == "https://";
    }
  }

  /** On success `seed` is the comma-joined list of the sources used, which
      splits back into that list when no source name holds a comma, and the
      metadata is the collected metadata merged with the defaults. */
  lemma PublishedSeedListsSources(st: Settings, env: Env, s: State, l: Locals)
    requires ConcludeSpec(st, env, s, l).outcome == Returned(true)
    ensures var r := ConcludeSpec(st, env, s, l);
      r.l.found != [] &&
      r.s.seed == Some(JoinWith(",", r.l.found)) &&
      r.s.metadata == env.merge(r.l.md, Defaults()) &&
      r.s.cfg == l.cfg &&
      ((forall i :: 0 <= i < |r.l.found| ==> ',' !in r.l.found[i]) ==> Split(r.s.seed.value, ',') == r.l.found)
  {
    var r := ConcludeSpec(st, env, s, l);
    if forall i :: 0 <= i < |r.l.found| ==> ',' !in r.l.found[i] {
      SplitJoin(r.l.found, ',');
    }
  }

  /** When `_get_data` returns true the published metadata has an
      `instance-id`, because the defaults are merged in last; its keys are
      those collected plus `instance-id`. */
  lemma SuccessHasInstanceId(st: Settings, env: Env, s: State)
    requires MergeUnitesKeys(env.merge)
    requires Run(st, env, s).outcome == Returned(true)
    ensures "instance-id" in Run(st, env, s).s.metadata
    ensures Run(st, env, s).s.metadata.Keys == Run(st, env, s).l.md.Keys + {"instance-id"}
  {
    StartStopsRaise(st, env, s);
    match StartSpec(st, env, s)
    case Stopped(_, _, _) =>
    case Found(s1, l1, imc) =>
      CustomizeStopsRaise(env, s1, l1, imc);
      match CustomizeSpec(env, s1, l1, imc)
      case Halt(_, _, _) =>
      case Go(s2, l2) => ConcludeHasInstanceId(st, env, s2, l2);
  }

  /** The first phase ends `_get_data` only by raising. */
  lemma StartStopsRaise(st: Settings, env: Env, s: State)
    ensures StartSpec(st, env, s).Stopped? ==> StartSpec(st, env, s).outcome.Raised?
  {
  }

  /** The customization and transport phases end `_get_data` only by
      raising: only the concluding phase returns. */
  lemma CustomizeStopsRaise(env: Env, s: State, l: Locals, imc: Option<ImcFile>)
    ensures CustomizeSpec(env, s, l, imc).Halt? ==> CustomizeSpec(env, s, l, imc).outcome.Raised?
  {
  }

  /** The same for the concluding phase alone. */
  lemma ConcludeHasInstanceId(st: Settings, env: Env, s: State, l: Locals)
    requires MergeUnitesKeys(env.merge)
    requires ConcludeSpec(st, env, s, l).outcome == Returned(true)
    ensures ConcludeSpec(st, env, s, l).s.metadata.Keys == ConcludeSpec(st, env, s, l).l.md.Keys + {"instance-id"}
  {
    PublishedSeedListsSources(st, env, s, l);
    var r := ConcludeSpec(st, env, s, l);
    assert env.merge(r.l.md, Defaults()).Keys == r.l.md.Keys + Defaults().Keys;
  }

  /** The first phase changes the trace only by an error report, and only
      ends `_get_data` with a customization error when it made that report. */
  lemma StartReports(st: Settings, env: Env, s: State)
    ensures var f := StartSpec(st, env, s);
      (f.Found? ==> f.s.trace == s.trace && f.s.markerFiles == s.markerFiles) &&
      (f.Stopped? && f.outcome.Raised? && f.outcome.fault.Customization? ==>
        f.outcome.fault.prefix == FilesMissing &&
        f.s.trace == s.trace + ErrorEvents(FilesMissing, CodeOf(FilesMissing), f.outcome.fault.configFile)) &&
      (f.Stopped? && !(f.outcome.Raised? && f.outcome.fault.Customization?) ==> f.s.trace == s.trace)
  {
  }

  /** VMware customization is only attempted on a VMware platform without a
      seed file, with the customization file polled for in the IMC
      directory, and only in the form the flags allow: raw cloud-init data
      needs `allow_raw_data`, a customization config needs VMware
      customization to be enabled. */
  lemma GatingFollowsFlags(st: Settings, env: Env, s: State)
    requires StartSpec(st, env, s).Found? && StartSpec(st, env, s).imc.Some?
    ensures var f := StartSpec(st, env, s).imc.value;
      FirstEnvFile(env.seedDir, env.seedFiles).None? &&
      IsVmwarePlatform(env.systemProduct) &&
      env.pluginFound &&
      f.path == PathJoin(VmwareImcDir, CustCfgName) &&
      Some(f.conf) == env.custConfig &&
      (f.paths.mdPath.Some? ==> AllowRaw(st, env)) &&
      (f.paths.mdPath.None? ==> AllowCust(st, env))
  {
    var path :| WaitSpec(env) == Success(Some(path));
    var mw := GetMaxWaitFromCfg(env.dsCfg).value;
    assert Poll(PathJoin(VmwareImcDir, CustCfgName), mw, Nap(mw, NapLen), 0, env.cfgFilePresent) == Some(path);
    PollFindsPath(PathJoin(VmwareImcDir, CustCfgName), mw, Nap(mw, NapLen), 0, env.cfgFilePresent);
  }

  /** Polling can only find the path it polls for. */
  lemma {:induction false} PollFindsPath(path: string, maxwait: int, nap: int, waited: int, present: (string, int) -> bool)
    requires nap > 0 || waited >= maxwait
    ensures Poll(path, maxwait, nap, waited, present) == None || Poll(path, maxwait, nap, waited, present) == Some(path)
    decreases if waited < maxwait then maxwait - waited else 0
  {
    if waited < maxwait && !present(path, waited) {
      PollFindsPath(path, maxwait, nap, waited + nap, present);
    }
  }

  /** `DataSourceOVFNet` never customizes through VMware and reports
      nothing in its first phase. */
  lemma OvfNetNeverCustomizes(env: Env, s: State)
    ensures StartSpec(OvfNetSettings, env, s).s.trace == s.trace
    ensures StartSpec(OvfNetSettings, env, s).Found? ==> StartSpec(OvfNetSettings, env, s).imc.None?
  {
  }

  /** Raw-data customization reports "Started", then on success the
      directory removal, DONE/SUCCESS and "Successful"; its network
      configuration is the metadata's `network` entry when that is truthy
      and the distribution's fallback otherwise. */
  lemma RawDataReport(env: Env, s: State, l: Locals, f: ImcFile)
    requires f.paths.mdPath.Some?
    ensures var r := RawDataSpec(env, s, l, f);
      var loaded := LoadCloudinitData(f.paths.mdPath.value, f.paths.udPath, env.imcFiles, env.loadYaml);
      (r.Go? <==> loaded.Success?) &&
      (r.Go? ==>
        r.s.trace == s.trace + [SetGcStatus(Started), DelDir(Dirname(f.path)),
                                SetCustStatus(StateDone, ErrorSuccess), SetGcStatus(Successful)] &&
        r.s.networkConfig == (if Truthy(loaded.value.network) then loaded.value.network else env.fallbackNetwork) &&
        r.s.custFound &&
        r.l.found == l.found + [VmwareTools] &&
        r.l.md == loaded.value.md && r.l.cfg == map[] &&
        r.s.markerFiles == s.markerFiles) &&
      (r.Halt? ==>
        r.outcome.Raised? && r.outcome.fault.Customization? &&
        r.outcome.fault.configFile == f.path &&
        (loaded == Failure(YamlError) <==> r.outcome.fault.prefix == MetaDataParseError) &&
        (loaded != Failure(YamlError) ==> r.outcome.fault.prefix == CloudInitLoadError) &&
        r.s.trace == s.trace + [SetGcStatus(Started)] +
          ErrorEvents(r.outcome.fault.prefix, CodeOf(r.outcome.fault.prefix), f.path))
  {
  }

  /** The events of a successful customization from a customization
      config. */
  function ImcSuccessEvents(s: State, f: ImcFile, nics: string): seq<Event> {
    [SetGcStatus(Started), ConfigureNics] +
    (if ChangesPassword(f.conf, s.markerFiles)
     then [ConfigurePassword(f.conf.adminPassword, f.conf.resetPassword)] else []) +
    [DelDir(Dirname(f.path)), EnableNics(nics), SetCustStatus(StateDone, ErrorSuccess), SetGcStatus(Successful)]
  }

  /** Customization from a customization config succeeds exactly when every
      helper it needs succeeds. It then always calls the NIC configurator
      and computes the network configuration, calls the password configurator only for a special
      customization with a password to set or reset, writes the marker
      whenever there is a marker id, and ends with the success report. */
  lemma ImcReport(env: Env, s: State, l: Locals, f: ImcFile)
    ensures var r := ImcSpec(env, s, l, f);
      (r.Go? <==>
        env.custReadOk && env.generatedNics.Some? &&
        (ChangesPassword(f.conf, s.markerFiles) ==> env.passwordOk) &&
        (f.conf.markerId != "" ==> env.markerSetupOk)) &&
      (r.Go? ==>
        var nics := env.nicsToEnable(f.paths.nicsPath);
        r.s.trace == s.trace + ImcSuccessEvents(s, f, nics) &&
        r.s.nicsToEnable == Some(nics) &&
        r.s.networkConfig == NetworkConfigOf(f.conf, env.generatedNics.value) &&
        r.s.markerFiles == (if f.conf.markerId != "" then AfterSetup(s.markerFiles, f.conf.markerId) else s.markerFiles) &&
        r.s.custFound &&
        r.l.found == l.found + [VmwareTools] &&
        r.l == l.(found := r.l.found, md := ReadVmwareImc(f.conf).md, ud := Null, cfg := ReadVmwareImc(f.conf).cfg))
  {
  }

  /** A failed customization from a customization config reports the error
      of the first helper that failed, after what ran before it. */
  lemma ImcFailureReport(env: Env, s: State, l: Locals, f: ImcFile)
    requires ImcSpec(env, s, l, f).Halt?
    ensures var r := ImcSpec(env, s, l, f);
      var p := r.outcome.fault.prefix;
      r.outcome.Raised? && r.outcome.fault.Customization? && r.outcome.fault.configFile == f.path &&
      (!env.custReadOk ==> p == CustConfigParseError) &&
      (env.custReadOk && env.generatedNics.None? ==> p == NetworkPrepError) &&
      (p == PasswordError ==> ChangesPassword(f.conf, s.markerFiles) && !env.passwordOk) &&
      (p == MarkerError ==> f.conf.markerId != "" && !env.markerSetupOk) &&
      p in CustomizationPrefixes &&
      |r.s.trace| >= 3 &&
      r.s.trace[|r.s.trace| - 3..] == ErrorEvents(p, CodeOf(p), f.path) &&
      r.s.markerFiles == s.markerFiles
  {
    var r := ImcSpec(env, s, l, f);
    var s1 := s.(nicsToEnable := Some(""), trace := s.trace + [SetGcStatus(Started)]);
    if env.custReadOk && env.generatedNics.Some? {
      var s3 := s1.(nicsToEnable := Some(env.nicsToEnable(f.paths.nicsPath)),
                    trace := s1.trace + [ConfigureNics],
                    networkConfig := NetworkConfigOf(f.conf, env.generatedNics.value));
      var pw := ChangesPassword(f.conf, s3.markerFiles);
      var s4 := if pw then s3.(trace := s3.trace + [ConfigurePassword(f.conf.adminPassword, f.conf.resetPassword)]) else s3;
      if pw && !env.passwordOk {
        RaiseEndsTrace(s4, PasswordError, f.path);
      } else {
        RaiseEndsTrace(s4, MarkerError, f.path);
      }
    } else if env.custReadOk {
      RaiseEndsTrace(s1.(nicsToEnable := Some(env.nicsToEnable(f.paths.nicsPath)), trace := s1.trace + [ConfigureNics]),
                     NetworkPrepError, f.path);
    } else {
      RaiseEndsTrace(s1, CustConfigParseError, f.path);
    }
  }

  /** After a successful customization with a marker id, the same
      configuration is no longer special: a reboot does not set the
      password again. */
  lemma MarkerMakesRerunOrdinary(env: Env, s: State, l: Locals, f: ImcFile)
    requires ImcSpec(env, s, l, f).Go? && f.conf.markerId != ""
    ensures CheckMarkerExists(f.conf.markerId, ImcSpec(env, s, l, f).s.markerFiles)
    ensures !Special(f.conf, ImcSpec(env, s, l, f).s.markerFiles)
    ensures !ChangesPassword(f.conf, ImcSpec(env, s, l, f).s.markerFiles)
  {
    ImcReport(env, s, l, f);
    SetupLeavesOneMarker(s.markerFiles, f.conf.markerId);
  }

  /** Adopting a transport's contents reports nothing and leaves the marker
      files alone. */
  lemma AdoptKeepsTraceAndMarkers(env: Env, s: State, l: Locals, name: string, contents: string)
    ensures AdoptSpec(env, s, l, name, contents).s.trace == s.trace
    ensures AdoptSpec(env, s, l, name, contents).s.markerFiles == s.markerFiles
  {
  }

  /** The transport phase probes the guestinfo transport first and the ISO
      transport only when guestinfo returned nothing, and reports nothing
      else. */
  lemma TransportProbes(env: Env, s: State, l: Locals)
    ensures var r := TransportSpec(env, s, l);
      r.s.trace == s.trace + Probes(ChosenTransport(env, 0) + 1) &&
      r.s.markerFiles == s.markerFiles &&
      (env.transport(GuestInfo) != "" ==> r.s.trace == s.trace + [ProbeTransport(GuestInfo)]) &&
      (env.transport(GuestInfo) == "" ==> r.s.trace == s.trace + [ProbeTransport(GuestInfo), ProbeTransport(Iso)])
  {
    var k := ChosenTransport(env, 0);
    AdoptKeepsTraceAndMarkers(env, s.(trace := s.trace + Probes(k + 1)), l, Transports[k], env.transport(Transports[k]));
    if env.transport(GuestInfo) != "" {
      assert ChosenTransport(env, 0) == 0;
      assert Probes(1) == [ProbeTransport(GuestInfo)];
    } else {
      assert ChosenTransport(env, 0) == 1;
      assert Probes(2) == [ProbeTransport(GuestInfo), ProbeTransport(Iso)];
    }
  }

  // ---------------------------------------------------------------------
  // _get_data as a whole

  /** Every customization error escapes through `_raise_error_status`: the
      trace ends with the running state and the error's event, the error's
      prefix as status, and the removal of the customization directory. */
  lemma CustomizationErrorsAreReported(st: Settings, env: Env, s: State)
    ensures var r := Run(st, env, s);
      r.Halt? &&
      (r.outcome.Raised? && r.outcome.fault.Customization? ==>
        var p := r.outcome.fault.prefix;
        p in CustomizationPrefixes &&
        |r.s.trace| >= 3 &&
        r.s.trace[|r.s.trace| - 3..] == ErrorEvents(p, CodeOf(p), r.outcome.fault.configFile))
  {
    StartReports(st, env, s);
    match StartSpec(st, env, s)
    case Stopped(s1, l1, o) =>
      if o.Raised? && o.fault.Customization? {
        RaiseEndsTrace(s.(custConf := env.custConfig), FilesMissing, o.fault.configFile);
      }
    case Found(s1, l1, imc) =>
      match imc
      case Some(f) =>
        if f.paths.mdPath.Some? {
          RawDataReport(env, s1, l1, f);
          var r := RawDataSpec(env, s1, l1, f);
          if r.Halt? {
            var s2 := s1.(trace := s1.trace + [SetGcStatus(Started)]);
            RaiseEndsTrace(s2, r.outcome.fault.prefix, f.path);
          } else {
            ConcludeEnds(st, env, r.s, r.l);
          }
        } else {
          var r := ImcSpec(env, s1, l1, f);
          if r.Halt? {
            ImcFailureReport(env, s1, l1, f);
          } else {
            ConcludeEnds(st, env, r.s, r.l);
          }
        }
      case None =>
        var r := TransportSpec(env, s1, l1);
        if r.Go? {
          ConcludeEnds(st, env, r.s, r.l);
        }
  }

  /** When no VMware customization is performed, whether or not a seed file
      was read, the transports are probed (guestinfo, then ISO only if
      guestinfo returned nothing) and nothing else is reported. */
  lemma TransportsTriedWithoutCustomization(st: Settings, env: Env, s: State)
    requires StartSpec(st, env, s).Found? && StartSpec(st, env, s).imc.None?
    ensures Run(st, env, s).s.trace == s.trace + Probes(ChosenTransport(env, 0) + 1)
    ensures Run(st, env, s).s.markerFiles == s.markerFiles
    ensures Run(st, env, s).s.trace[|s.trace|] == ProbeTransport(GuestInfo)
  {
    var f := StartSpec(st, env, s);
    StartReports(st, env, s);
    TransportProbes(env, f.s, f.l);
    var r := TransportSpec(env, f.s, f.l);
    if r.Go? {
      ConcludeEnds(st, env, r.s, r.l);
    }
  }

  /** A seed file does not stop the transports: when the seed file parses
      and the guestinfo transport returns an environment without `seedfrom`,
      both are used and `seed` names the seed file, then guestinfo. */
  lemma SeedFileThenGuestInfo(st: Settings, env: Env, s: State, name: string, contents: string,
                              seedData: OvfData, guest: OvfData)
    requires FirstEnvFile(env.seedDir, env.seedFiles) == Some((name, contents))
    requires OvfEnvironmentOf(contents, false, env.codecs) == Success(seedData)
    requires env.transport(GuestInfo) != ""
    requires OvfEnvironmentOf(env.transport(GuestInfo), true, env.codecs) == Success(guest)
    requires "seedfrom" !in guest.md
    ensures Run(st, env, s).outcome == Returned(true)
    ensures Run(st, env, s).s.seed == Some(PathJoin(env.seedDir, name) + "," + GuestInfo)
    ensures Run(st, env, s).s.trace == s.trace + [ProbeTransport(GuestInfo)]
    ensures Run(st, env, s).s.environment == Some(env.transport(GuestInfo))
  {
    var f := StartSpec(st, env, s);
    assert f.Found? && f.imc.None? && f.l.found == [PathJoin(env.seedDir, name)];
    GuestInfoAdopted(env, f.s, f.l, guest);
    var r := TransportSpec(env, f.s, f.l);
    assert JoinWith(",", r.l.found) == PathJoin(env.seedDir, name) + "," + GuestInfo;
  }

  /** A guestinfo environment that parses is adopted after a single probe. */
  lemma GuestInfoAdopted(env: Env, s: State, l: Locals, guest: OvfData)
    requires env.transport(GuestInfo) != ""
    requires OvfEnvironmentOf(env.transport(GuestInfo), true, env.codecs) == Success(guest)
    ensures var r := TransportSpec(env, s, l);
      r.Go? && r.l == Locals(l.found + [GuestInfo], guest.md, guest.ud, l.vd, guest.cfg) &&
      r.s.trace == s.trace + [ProbeTransport(GuestInfo)] &&
      r.s.environment == Some(env.transport(GuestInfo))
  {
    assert ChosenTransport(env, 0) == 0;
    assert Probes(1) == [ProbeTransport(GuestInfo)];
  }

  // ---------------------------------------------------------------------
  // The platform test and the subplatform

  /** The branch test is a substring test on the lower-cased product name
      while the subplatform test is an equality: any product name that
      starts with `VMware` and goes on selects the VMware branch, yet is
      reported as an `ovf` subplatform. */
  lemma VmwareProductsAreNotVmwareSubplatform(ds: DataSourceOVF, t: string)
    requires t != ""
    ensures IsVmwarePlatform(Some("VMware" + t))
    ensures ds.GetSubplatform(Some("VMware" + t)).Some?
    ensures StartsWith(ds.GetSubplatform(Some("VMware" + t)).value, "ovf (")
  {
    var p := "VMware" + t;
    var lp := Lower(p);
    assert lp[..6] == "vmware" by {
      forall i | 0 <= i < 6 ensures lp[i] == "vmware"[i] {
        assert p[i] == "VMware"[i];
      }
    }
    assert |lp| > 6;
  }

  /** The exact product name `VMware` is both: the VMware branch and the
      `vmware` subplatform. */
  lemma ExactVmwareProduct(ds: DataSourceOVF)
    ensures IsVmwarePlatform(Some("VMware"))
    ensures ds.GetSubplatform(Some("VMware")).Some?
    ensures StartsWith(ds.GetSubplatform(Some("VMware")).value, "vmware (")
  {
    var lp := Lower("VMware");
    assert lp == "vmware" by {
      forall i | 0 <= i < 6 ensures lp[i] == "vmware"[i] {
        assert "VMware"[i] == "VMware"[i];
      }
    }
  }

  /** A product name without `vmware` in any case takes neither VMware
      route: without a seed file `_get_data` goes straight to the
      transports. */
  lemma NonVmwareProductGoesToTransports(st: Settings, env: Env, s: State)
    requires FirstEnvFile(env.seedDir, env.seedFiles).None?
    requires !IsVmwarePlatform(env.systemProduct)
    ensures StartSpec(st, env, s) == Found(s, InitialLocals, None)
  {
  }
}
