/** Configuration validation and derivation (src/t64_conf_file.c).

    The configuration-file reader and the system calls the parser makes are
    outside this model: what the reader returns for each option is a
    `ConfFileEntries` value, and the user, group and processor-count
    lookups are answered by a `SystemDatabase` value. A crash of the C code
    (`t64f_log__crash`) is an error result here. */
module T64ConfFile {
  import opened Wrappers
  import opened IpAddresses

  datatype IoMode = InheritedFds | Tun

  /** Values of T64C_CONF_FILE__IO_MODE_INHERITED_FDS, T64C_CONF_FILE__IO_MODE_TUN
      and T64C_TUNDRA__DEFAULT_TUN_DEVICE_PATH; the headers that define them are
      not part of this model. The proofs rely only on the two mode strings
      differing and on the default path being non-empty. */
  const IoModeInheritedFdsString: string := "inherited-fds"
  const IoModeTunString: string := "tun"
  const DefaultTunDevicePath: string := "/dev/net/tun"

  /** The fatal configuration errors, one per `t64f_log__crash` call. */
  datatype ConfError =
    | UserNotFound(username: string)
    | GroupNotFound(groupname: string)
    | InvalidIoMode(ioModeString: string)
    | TranslatorPrefixTailNotZero
    | TranslatorIpv4EqualsRouterIpv4
    | TranslatorIpv6EqualsRouterIpv6

  /** What the configuration-file reader yields for each option key. An
      empty string stands for an option the reader returned as empty. */
  datatype ConfFileEntries = ConfFileEntries(
    programTranslatorThreads: nat,
    programChrootDir: string,
    programPrivilegeDropUser: string,
    programPrivilegeDropGroup: string,
    ioMode: string,
    ioTunDevicePath: string,
    ioTunInterfaceName: string,
    ioTunOwnerUser: string,
    ioTunOwnerGroup: string,
    translatorPrefix: IPv6Address,
    translatorIpv4: IPv4Address,
    translatorIpv6: IPv6Address,
    translatorAllowTranslationOfPrivateIps: bool,
    translatorIpv4OutboundMtu: nat,
    translatorIpv6OutboundMtu: nat,
    translator6to4CopyDscpAndEcn: bool,
    translator4to6CopyDscpAndEcn: bool,
    translatorChecksumCheckIpv4Header: bool,
    translatorChecksumCheckIcmpv4: bool,
    translatorChecksumCheckIcmpv6: bool,
    translatorChecksumCheckTcp: bool,
    translatorChecksumCheckUdp: bool,
    routerIpv4: IPv4Address,
    routerIpv6: IPv6Address)

  /** The answers of `get_nprocs`, `getpwnam` and `getgrnam`. */
  datatype SystemDatabase = SystemDatabase(processorCount: nat, users: map<string, nat>, groups: map<string, nat>)

  /** _t64f_conf_file__get_uid_by_username: fatal when the user is unknown. */
  function UidByUsername(sys: SystemDatabase, username: string): (r: Result<nat, ConfError>)
    ensures r.Ok? <==> username in sys.users
    ensures r.Ok? ==> r.value == sys.users[username]
    ensures r.Err? ==> r.error == UserNotFound(username)
  {
    if username in sys.users then Ok(sys.users[username]) else Err(UserNotFound(username))
  }

  /** _t64f_conf_file__get_gid_by_groupname: fatal when the group is unknown. */
  function GidByGroupname(sys: SystemDatabase, groupname: string): (r: Result<nat, ConfError>)
    ensures r.Ok? <==> groupname in sys.groups
    ensures r.Ok? ==> r.value == sys.groups[groupname]
    ensures r.Err? ==> r.error == GroupNotFound(groupname)
  {
    if groupname in sys.groups then Ok(sys.groups[groupname]) else Err(GroupNotFound(groupname))
  }

  /** _t64f_conf_file__determine_io_mode_from_string: the two known strings
      select their mode, any other string is fatal. */
  function DetermineIoModeFromString(ioModeString: string): (r: Result<IoMode, ConfError>)
    ensures r == Ok(InheritedFds) <==> ioModeString == IoModeInheritedFdsString
    ensures r == Ok(Tun) <==> ioModeString == IoModeTunString
    ensures r.Err? ==> r.error == InvalidIoMode(ioModeString)
  {
    if ioModeString == IoModeInheritedFdsString then Ok(InheritedFds)
    else if ioModeString == IoModeTunString then Ok(Tun)
    else Err(InvalidIoMode(ioModeString))
  }

  /** The option string naming each mode. */
  function IoModeString(mode: IoMode): string
  {
    match mode
    case InheritedFds => IoModeInheritedFdsString
    case Tun => IoModeTunString
  }

  /** The mode lookup is total on the named strings and inverts IoModeString. */
  lemma IoModeStringRoundTrip(mode: IoMode)
    ensures DetermineIoModeFromString(IoModeString(mode)) == Ok(mode)
  {
  }

  /** Distinct accepted strings select distinct modes. */
  lemma DetermineIoModeInjective(s1: string, s2: string)
    requires DetermineIoModeFromString(s1).Ok?
    requires DetermineIoModeFromString(s1) == DetermineIoModeFromString(s2)
    ensures s1 == s2
  {
  }

  /** T64M_UTILS__MEMORY_EQUAL: compares the first `n` bytes of two buffers. */
  method MemoryEqual(a: seq<byte>, b: seq<byte>, n: nat) returns (equal: bool)
    requires n <= |a| && n <= |b|
    ensures equal <==> a[..n] == b[..n]
  {
    var i := 0;
    while i < n
      invariant i <= n
      invariant a[..i] == b[..i]
    {
      if a[i] != b[i] {
        assert a[..n][i] != b[..n][i];
        return false;
      }
      assert a[..i + 1] == a[..i] + [a[i]];
      assert b[..i + 1] == b[..i] + [b[i]];
      i := i + 1;
    }
    return true;
  }

  /** The invariant enforced at load time: the last 4 bytes of the
      translator prefix are zero. */
  predicate PrefixTailIsZero(prefix: IPv6Address)
  {
    prefix[12] == 0 && prefix[13] == 0 && prefix[14] == 0 && prefix[15] == 0
  }


  /** The fatal error of a failed step, if any. */
  function ErrorOf<T>(r: Result<T, ConfError>): Option<ConfError>
  {
    if r.Err? then Some(r.error) else None
  }

  /** The program.* fields of the parsed configuration. */
  datatype ProgramConfiguration = ProgramConfiguration(
    translatorThreads: nat,
    chrootDir: string,
    privilegeDropUserPerform: bool,
    privilegeDropUserUid: nat,
    privilegeDropGroupPerform: bool,
    privilegeDropGroupGid: nat)

  /** The io.tun.* fields of the parsed configuration; None is a NULL string. */
  datatype IoTunConfiguration = IoTunConfiguration(
    devicePath: Option<string>,
    interfaceName: Option<string>,
    ownerUserSet: bool,
    ownerUserUid: nat,
    ownerGroupSet: bool,
    ownerGroupGid: nat)

  /** The translator.* fields of the parsed configuration. */
  datatype TranslatorConfiguration = TranslatorConfiguration(
    prefix: IPv6Address,
    ipv4: IPv4Address,
    ipv6: IPv6Address,
    allowTranslationOfPrivateIps: bool,
    ipv4OutboundMtu: nat,
    ipv6OutboundMtu: nat,
    copyDscpAndEcn6to4: bool,
    copyDscpAndEcn4to6: bool,
    checksumCheckIpv4Header: bool,
    checksumCheckIcmpv4: bool,
    checksumCheckIcmpv6: bool,
    checksumCheckTcp: bool,
    checksumCheckUdp: bool)

  /** The router.* fields of the parsed configuration. */
  datatype RouterConfiguration = RouterConfiguration(ipv4: IPv4Address, ipv6: IPv6Address)

  /** The program section the parser derives from the entries: a thread
      count of 0 means one thread per processor; an empty user or group
      name disables that privilege drop (id 0), any other name must be
      known to the system. The user is looked up before the group. */
  function ProgramSection(e: ConfFileEntries, sys: SystemDatabase): (r: Result<ProgramConfiguration, ConfError>)
    ensures r.Ok? <==>
      (e.programPrivilegeDropUser == "" || e.programPrivilegeDropUser in sys.users) &&
      (e.programPrivilegeDropGroup == "" || e.programPrivilegeDropGroup in sys.groups)
    ensures r.Err? && e.programPrivilegeDropUser != "" && e.programPrivilegeDropUser !in sys.users ==>
      r.error == UserNotFound(e.programPrivilegeDropUser)
    ensures r.Err? && (e.programPrivilegeDropUser == "" || e.programPrivilegeDropUser in sys.users) ==>
      r.error == GroupNotFound(e.programPrivilegeDropGroup)
    ensures r.Ok? && e.programTranslatorThreads == 0 ==> r.value.translatorThreads == sys.processorCount
    ensures r.Ok? && e.programTranslatorThreads != 0 ==> r.value.translatorThreads == e.programTranslatorThreads
    ensures r.Ok? ==> r.value.chrootDir == e.programChrootDir
    ensures r.Ok? ==> (r.value.privilegeDropUserPerform <==> e.programPrivilegeDropUser != "")
    ensures r.Ok? && !r.value.privilegeDropUserPerform ==> r.value.privilegeDropUserUid == 0
    ensures r.Ok? && r.value.privilegeDropUserPerform ==>
      r.value.privilegeDropUserUid == sys.users[e.programPrivilegeDropUser]
    ensures r.Ok? ==> (r.value.privilegeDropGroupPerform <==> e.programPrivilegeDropGroup != "")
    ensures r.Ok? && !r.value.privilegeDropGroupPerform ==> r.value.privilegeDropGroupGid == 0
    ensures r.Ok? && r.value.privilegeDropGroupPerform ==>
      r.value.privilegeDropGroupGid == sys.groups[e.programPrivilegeDropGroup]
  {
    var uid := if e.programPrivilegeDropUser == "" then Ok(0) else UidByUsername(sys, e.programPrivilegeDropUser);
    var gid := if e.programPrivilegeDropGroup == "" then Ok(0) else GidByGroupname(sys, e.programPrivilegeDropGroup);
    if uid.Err? then Err(uid.error)
    else if gid.Err? then Err(gid.error)
    else Ok(ProgramConfiguration(
      if e.programTranslatorThreads == 0 then sys.processorCount else e.programTranslatorThreads,
      e.programChrootDir,
      e.programPrivilegeDropUser != "", uid.value,
      e.programPrivilegeDropGroup != "", gid.value))
  }

  /** The TUN fields outside TUN mode: no strings, no owner, ids 0. */
  const IoTunCleared: IoTunConfiguration := IoTunConfiguration(None, None, false, 0, false, 0)

  /** The TUN fields the parser derives in TUN mode: an empty device path
      falls back to the default one; the owner user and group are optional
      and, when named, must be known (the user is looked up first). */
  function IoTunSection(e: ConfFileEntries, sys: SystemDatabase): (r: Result<IoTunConfiguration, ConfError>)
    ensures r.Ok? <==>
      (e.ioTunOwnerUser == "" || e.ioTunOwnerUser in sys.users) &&
      (e.ioTunOwnerGroup == "" || e.ioTunOwnerGroup in sys.groups)
    ensures r.Err? && e.ioTunOwnerUser != "" && e.ioTunOwnerUser !in sys.users ==>
      r.error == UserNotFound(e.ioTunOwnerUser)
    ensures r.Err? && (e.ioTunOwnerUser == "" || e.ioTunOwnerUser in sys.users) ==>
      r.error == GroupNotFound(e.ioTunOwnerGroup)
    ensures r.Ok? && e.ioTunDevicePath == "" ==> r.value.devicePath == Some(DefaultTunDevicePath)
    ensures r.Ok? && e.ioTunDevicePath != "" ==> r.value.devicePath == Some(e.ioTunDevicePath)
    ensures r.Ok? ==> r.value.devicePath.Some? && r.value.devicePath.value != ""
    ensures r.Ok? ==> r.value.interfaceName == Some(e.ioTunInterfaceName)
    ensures r.Ok? ==> (r.value.ownerUserSet <==> e.ioTunOwnerUser != "")
    ensures r.Ok? && !r.value.ownerUserSet ==> r.value.ownerUserUid == 0
    ensures r.Ok? && r.value.ownerUserSet ==> r.value.ownerUserUid == sys.users[e.ioTunOwnerUser]
    ensures r.Ok? ==> (r.value.ownerGroupSet <==> e.ioTunOwnerGroup != "")
    ensures r.Ok? && !r.value.ownerGroupSet ==> r.value.ownerGroupGid == 0
    ensures r.Ok? && r.value.ownerGroupSet ==> r.value.ownerGroupGid == sys.groups[e.ioTunOwnerGroup]
  {
    var uid := if e.ioTunOwnerUser == "" then Ok(0) else UidByUsername(sys, e.ioTunOwnerUser);
    var gid := if e.ioTunOwnerGroup == "" then Ok(0) else GidByGroupname(sys, e.ioTunOwnerGroup);
    if uid.Err? then Err(uid.error)
    else if gid.Err? then Err(gid.error)
    else Ok(IoTunConfiguration(
      Some(if e.ioTunDevicePath == "" then DefaultTunDevicePath else e.ioTunDevicePath),
      Some(e.ioTunInterfaceName),
      e.ioTunOwnerUser != "", uid.value,
      e.ioTunOwnerGroup != "", gid.value))
  }

  /** The I/O section: the mode, then the TUN fields, which are derived in
      TUN mode and cleared in any other mode. */
  function IoSection(e: ConfFileEntries, sys: SystemDatabase): (r: Result<(IoMode, IoTunConfiguration), ConfError>)
    ensures r.Ok? <==>
      DetermineIoModeFromString(e.ioMode).Ok? && (e.ioMode == IoModeTunString ==> IoTunSection(e, sys).Ok?)
    ensures r.Err? && DetermineIoModeFromString(e.ioMode).Err? ==> r.error == InvalidIoMode(e.ioMode)
    ensures r.Err? && DetermineIoModeFromString(e.ioMode).Ok? ==> r.error == IoTunSection(e, sys).error
    ensures r.Ok? ==> DetermineIoModeFromString(e.ioMode) == Ok(r.value.0)
    ensures r.Ok? && r.value.0 == Tun ==> Ok(r.value.1) == IoTunSection(e, sys)
    ensures r.Ok? && r.value.0 != Tun ==>
      r.value.1.devicePath.None? && r.value.1.interfaceName.None? &&
      !r.value.1.ownerUserSet && r.value.1.ownerUserUid == 0 &&
      !r.value.1.ownerGroupSet && r.value.1.ownerGroupGid == 0
  {
    var mode := DetermineIoModeFromString(e.ioMode);
    if mode.Err? then Err(mode.error)
    else if mode.value == Tun then
      var tun := IoTunSection(e, sys);
      if tun.Err? then Err(tun.error) else Ok((Tun, tun.value))
    else Ok((mode.value, IoTunCleared))
  }

  /** The translator section: a prefix whose last 4 bytes are not all zero
      is fatal; everything else is stored as the reader returned it. */
  function TranslatorSection(e: ConfFileEntries): (r: Result<TranslatorConfiguration, ConfError>)
    ensures r.Ok? <==> PrefixTailIsZero(e.translatorPrefix)
    ensures r.Err? ==> r.error == TranslatorPrefixTailNotZero
    ensures r.Ok? ==> PrefixTailIsZero(r.value.prefix)
    ensures r.Ok? ==>
      r.value.prefix == e.translatorPrefix && r.value.ipv4 == e.translatorIpv4 && r.value.ipv6 == e.translatorIpv6
  {
    if !PrefixTailIsZero(e.translatorPrefix) then Err(TranslatorPrefixTailNotZero)
    else Ok(TranslatorConfiguration(
      e.translatorPrefix, e.translatorIpv4, e.translatorIpv6,
      e.translatorAllowTranslationOfPrivateIps,
      e.translatorIpv4OutboundMtu, e.translatorIpv6OutboundMtu,
      e.translator6to4CopyDscpAndEcn, e.translator4to6CopyDscpAndEcn,
      e.translatorChecksumCheckIpv4Header, e.translatorChecksumCheckIcmpv4,
      e.translatorChecksumCheckIcmpv6, e.translatorChecksumCheckTcp,
      e.translatorChecksumCheckUdp))
  }

  /** The router section: both addresses as the reader returned them. */
  function RouterSection(e: ConfFileEntries): RouterConfiguration
  {
    RouterConfiguration(e.routerIpv4, e.routerIpv6)
  }

  /** The final check: the translator must not use the router's address,
      in either family; IPv4 is compared first. */
  function ParsedConfigurationError(translator: TranslatorConfiguration, router: RouterConfiguration): Option<ConfError>
  {
    if translator.ipv4 == router.ipv4 then Some(TranslatorIpv4EqualsRouterIpv4)
    else if translator.ipv6 == router.ipv6 then Some(TranslatorIpv6EqualsRouterIpv6)
    else None
  }

  /** The first fatal error loading meets, in the order the steps run:
      program, I/O, translator, router, final check. */
  function LoadError(e: ConfFileEntries, sys: SystemDatabase): Option<ConfError>
  {
    if ProgramSection(e, sys).Err? then ErrorOf(ProgramSection(e, sys))
    else if IoSection(e, sys).Err? then ErrorOf(IoSection(e, sys))
    else if TranslatorSection(e).Err? then ErrorOf(TranslatorSection(e))
    else ParsedConfigurationError(TranslatorSection(e).value, RouterSection(e))
  }

  /** Whatever loads without error meets the configuration invariants:
      zero prefix tail, translator and router addresses distinct per
      family, a recognised I/O mode and known users and groups. */
  lemma AcceptedEntriesAreConsistent(e: ConfFileEntries, sys: SystemDatabase)
    requires LoadError(e, sys).None?
    ensures PrefixTailIsZero(e.translatorPrefix)
    ensures e.translatorIpv4 != e.routerIpv4 && e.translatorIpv6 != e.routerIpv6
    ensures e.ioMode == IoModeInheritedFdsString || e.ioMode == IoModeTunString
    ensures e.programPrivilegeDropUser == "" || e.programPrivilegeDropUser in sys.users
    ensures e.programPrivilegeDropGroup == "" || e.programPrivilegeDropGroup in sys.groups
  {
  }

  /** The parsed configuration, `t64ts_tundra__conf_file`: the parsing
      steps assign its fields one by one. The fields are grouped by
      configuration section. */
  class ConfFile {
    var program: ProgramConfiguration
    var ioMode: IoMode
    var ioTun: IoTunConfiguration
    var translator: TranslatorConfiguration
    var router: RouterConfiguration

    /** The invariants every accepted configuration satisfies. */
    ghost predicate Consistent()
      reads this`translator, this`router
    {
      PrefixTailIsZero(translator.prefix) &&
      translator.ipv4 != router.ipv4 && translator.ipv6 != router.ipv6
    }

    /** Every field is what the parser derives from the entries. */
    ghost predicate Loaded(e: ConfFileEntries, sys: SystemDatabase)
      reads this
    {
      ProgramSection(e, sys) == Ok(program) &&
      IoSection(e, sys) == Ok((ioMode, ioTun)) &&
      TranslatorSection(e) == Ok(translator) &&
      router == RouterSection(e)
    }

    /** The allocation in _t64fa_conf_file__parse_configuration_file; every
        field is then assigned by the parsing steps. */
    constructor ()
    {
    }

    /** _t64fa_conf_file__parse_program_configuration_entries. */
    method ParseProgramConfigurationEntries(e: ConfFileEntries, sys: SystemDatabase) returns (err: Option<ConfError>)
      modifies this`program
      ensures err == ErrorOf(ProgramSection(e, sys))
      ensures err.None? ==> program == ProgramSection(e, sys).value
    {
      program := program.(translatorThreads := e.programTranslatorThreads);
      if program.translatorThreads == 0 {
        program := program.(translatorThreads := sys.processorCount);
      }

      program := program.(chrootDir := e.programChrootDir);

      if e.programPrivilegeDropUser == "" {
        program := program.(privilegeDropUserPerform := false, privilegeDropUserUid := 0);
      } else {
        program := program.(privilegeDropUserPerform := true);
        var uid := UidByUsername(sys, e.programPrivilegeDropUser);
        if uid.Err? {
          return Some(uid.error);
        }
        program := program.(privilegeDropUserUid := uid.value);
      }

      if e.programPrivilegeDropGroup == "" {
        program := program.(privilegeDropGroupPerform := false, privilegeDropGroupGid := 0);
      } else {
        program := program.(privilegeDropGroupPerform := true);
        var gid := GidByGroupname(sys, e.programPrivilegeDropGroup);
        if gid.Err? {
          return Some(gid.error);
        }
        program := program.(privilegeDropGroupGid := gid.value);
      }
      return None;
    }

    /** _t64fa_conf_file__parse_io_configuration_entries. */
    method ParseIoConfigurationEntries(e: ConfFileEntries, sys: SystemDatabase) returns (err: Option<ConfError>)
      modifies this`ioMode, this`ioTun
      ensures err == ErrorOf(IoSection(e, sys))
      ensures err.None? ==> (ioMode, ioTun) == IoSection(e, sys).value
    {
      var mode := DetermineIoModeFromString(e.ioMode);
      if mode.Err? {
        return Some(mode.error);
      }
      ioMode := mode.value;

      if ioMode == Tun {
        err := ParseIoTunConfigurationEntries(e, sys);
      } else {
        ioTun := ioTun.(devicePath := None, interfaceName := None,
                        ownerUserSet := false, ownerUserUid := 0,
                        ownerGroupSet := false, ownerGroupGid := 0);
        err := None;
      }
    }

    /** _t64fa_conf_file__parse_io_tun_configuration_entries. */
    method ParseIoTunConfigurationEntries(e: ConfFileEntries, sys: SystemDatabase) returns (err: Option<ConfError>)
      modifies this`ioTun
      ensures err == ErrorOf(IoTunSection(e, sys))
      ensures err.None? ==> ioTun == IoTunSection(e, sys).value
    {
      ioTun := ioTun.(devicePath := Some(if e.ioTunDevicePath == "" then DefaultTunDevicePath else e.ioTunDevicePath));
      ioTun := ioTun.(interfaceName := Some(e.ioTunInterfaceName));

      if e.ioTunOwnerUser == "" {
        ioTun := ioTun.(ownerUserSet := false, ownerUserUid := 0);
      } else {
        ioTun := ioTun.(ownerUserSet := true);
        var uid := UidByUsername(sys, e.ioTunOwnerUser);
        if uid.Err? {
          return Some(uid.error);
        }
        ioTun := ioTun.(ownerUserUid := uid.value);
      }

      if e.ioTunOwnerGroup == "" {
        ioTun := ioTun.(ownerGroupSet := false, ownerGroupGid := 0);
      } else {
        ioTun := ioTun.(ownerGroupSet := true);
        var gid := GidByGroupname(sys, e.ioTunOwnerGroup);
        if gid.Err? {
          return Some(gid.error);
        }
        ioTun := ioTun.(ownerGroupGid := gid.value);
      }
      return None;
    }

    /** _t64f_conf_file__parse_translator_configuration_entries: the prefix
        is stored first and its tail checked at once. */
    method ParseTranslatorConfigurationEntries(e: ConfFileEntries) returns (err: Option<ConfError>)
      modifies this`translator
      ensures err == ErrorOf(TranslatorSection(e))
      ensures err.None? ==> translator == TranslatorSection(e).value
    {
      translator := translator.(prefix := e.translatorPrefix);
      var tailIsZero := MemoryEqual(translator.prefix[12..], [0, 0, 0, 0], 4);
      assert tailIsZero <==> PrefixTailIsZero(translator.prefix) by {
        assert translator.prefix[12..][..4] == translator.prefix[12..];
        assert forall i :: 0 <= i < 4 ==> translator.prefix[12..][i] == translator.prefix[12 + i];
      }
      if !tailIsZero {
        return Some(TranslatorPrefixTailNotZero);
      }

      translator := translator.(ipv4 := e.translatorIpv4);
      translator := translator.(ipv6 := e.translatorIpv6);
      translator := translator.(allowTranslationOfPrivateIps := e.translatorAllowTranslationOfPrivateIps);
      translator := translator.(ipv4OutboundMtu := e.translatorIpv4OutboundMtu);
      translator := translator.(ipv6OutboundMtu := e.translatorIpv6OutboundMtu);
      translator := translator.(copyDscpAndEcn6to4 := e.translator6to4CopyDscpAndEcn);
      translator := translator.(copyDscpAndEcn4to6 := e.translator4to6CopyDscpAndEcn);
      translator := translator.(checksumCheckIpv4Header := e.translatorChecksumCheckIpv4Header);
      translator := translator.(checksumCheckIcmpv4 := e.translatorChecksumCheckIcmpv4);
      translator := translator.(checksumCheckIcmpv6 := e.translatorChecksumCheckIcmpv6);
      translator := translator.(checksumCheckTcp := e.translatorChecksumCheckTcp);
      translator := translator.(checksumCheckUdp := e.translatorChecksumCheckUdp);
      return None;
    }

    /** _t64f_conf_file__parse_router_configuration_entries. */
    method ParseRouterConfigurationEntries(e: ConfFileEntries)
      modifies this`router
      ensures router == RouterSection(e)
    {
      router := router.(ipv4 := e.routerIpv4);
      router := router.(ipv6 := e.routerIpv6);
    }

    /** _t64f_conf_file__check_parsed_configuration: fatal when the
        translator uses the router's address, in either family; IPv4 is
        compared first. */
    method CheckParsedConfiguration() returns (err: Option<ConfError>)
      ensures err == ParsedConfigurationError(translator, router)
      ensures err.None? <==> translator.ipv4 != router.ipv4 && translator.ipv6 != router.ipv6
      ensures translator.ipv4 == router.ipv4 ==> err == Some(TranslatorIpv4EqualsRouterIpv4)
      ensures translator.ipv4 != router.ipv4 && translator.ipv6 == router.ipv6 ==>
        err == Some(TranslatorIpv6EqualsRouterIpv6)
    {
      var ipv4Equal := MemoryEqual(translator.ipv4, router.ipv4, 4);
      if ipv4Equal {
        return Some(TranslatorIpv4EqualsRouterIpv4);
      }
      var ipv6Equal := MemoryEqual(translator.ipv6, router.ipv6, 16);
      if ipv6Equal {
        return Some(TranslatorIpv6EqualsRouterIpv6);
      }
      return None;
    }
  }

  /** _t64fa_conf_file__parse_configuration_file: runs the parsing steps in
      order and then the final check. It fails exactly when some step meets
      a fatal error, with the first such error; a configuration it returns
      holds what the parser derives from the entries and satisfies the
      load-time invariants. */
  method ParseConfigurationFile(e: ConfFileEntries, sys: SystemDatabase) returns (r: Result<ConfFile, ConfError>)
    ensures r.Err? <==> LoadError(e, sys).Some?
    ensures r.Err? ==> r.error == LoadError(e, sys).value
    ensures r.Ok? ==> r.value.Loaded(e, sys) && r.value.Consistent()
  {
    var conf := new ConfFile();

    var err := conf.ParseProgramConfigurationEntries(e, sys);
    if err.Some? {
      return Err(err.value);
    }
    err := conf.ParseIoConfigurationEntries(e, sys);
    if err.Some? {
      return Err(err.value);
    }
    err := conf.ParseTranslatorConfigurationEntries(e);
    if err.Some? {
      return Err(err.value);
    }
    conf.ParseRouterConfigurationEntries(e);

    err := conf.CheckParsedConfiguration();
    if err.Some? {
      return Err(err.value);
    }
    return Ok(conf);
  }
}
