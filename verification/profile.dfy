/** The per-user Linux profile: its record types, the default profile, the
    partial update produced by extraction and commands, and the field-level
    last-write-wins merge (src/types.ts).

    Every enumerable field is a `string` whose "unset" sentinel is
    `"unknown"`; values are never checked against the enumerations, exactly
    as the original stores whatever string it is given. */
module Profile {
  import opened Options

  const Unknown := "unknown"

  const Beginner := "beginner"
  const Intermediate := "intermediate"
  const Advanced := "advanced"

  /** One of the three experience levels. */
  predicate IsLevel(s: string) {
    s == Beginner || s == Intermediate || s == Advanced
  }

  datatype HardwareInfo = HardwareInfo(
    gpuVendor: string,
    gpuDriver: string,
    cpuVendor: string,
    cpuArch: string,
    formFactor: string,
    hasTouchscreen: bool,
    hasSecureBoot: bool,
    hasTpm: bool,
    ramGB: Option<int>,
    storageType: string)

  datatype LinuxUserState = LinuxUserState(
    distro: string,
    distroVersion: string,
    distroCodename: string,
    distroBase: string,
    releaseType: string,
    packageManager: string,
    secondaryPackageManagers: seq<string>,
    aurHelper: Option<string>,
    desktop: string,
    displayServer: string,
    displayManager: string,
    initSystem: string,
    filesystem: string,
    bootType: string,
    bootMode: string,
    bootloader: string,
    hardware: HardwareInfo,
    shell: string,
    terminal: string,
    audioSystem: string,
    networkManager: string,
    firewall: string,
    containerRuntime: string,
    experienceLevel: string,
    primaryUseCase: string,
    preferredEditors: seq<string>,
    createdAt: int,
    updatedAt: int)

  /** A partial hardware record: `None` is a key absent from the object. */
  datatype HardwareUpdate = HardwareUpdate(
    gpuVendor: Option<string>,
    gpuDriver: Option<string>,
    cpuVendor: Option<string>,
    cpuArch: Option<string>,
    formFactor: Option<string>,
    hasTouchscreen: Option<bool>,
    hasSecureBoot: Option<bool>,
    hasTpm: Option<bool>,
    ramGB: Option<Option<int>>,
    storageType: Option<string>)

  /** `PartialLinuxUserState`: any subset of the profile's fields except the
      two timestamps; `None` is a key absent from the object. */
  datatype PartialState = PartialState(
    distro: Option<string>,
    distroVersion: Option<string>,
    distroCodename: Option<string>,
    distroBase: Option<string>,
    releaseType: Option<string>,
    packageManager: Option<string>,
    secondaryPackageManagers: Option<seq<string>>,
    aurHelper: Option<Option<string>>,
    desktop: Option<string>,
    displayServer: Option<string>,
    displayManager: Option<string>,
    initSystem: Option<string>,
    filesystem: Option<string>,
    bootType: Option<string>,
    bootMode: Option<string>,
    bootloader: Option<string>,
    hardware: Option<HardwareUpdate>,
    shell: Option<string>,
    terminal: Option<string>,
    audioSystem: Option<string>,
    networkManager: Option<string>,
    firewall: Option<string>,
    containerRuntime: Option<string>,
    experienceLevel: Option<string>,
    primaryUseCase: Option<string>,
    preferredEditors: Option<seq<string>>)

  const NoHardwareUpdate := HardwareUpdate(None, None, None, None, None, None, None, None, None, None)

  /** The update with no keys at all (`{}`). */
  const EmptyUpdate := PartialState(
    None, None, None, None, None, None, None, None, None, None, None, None, None,
    None, None, None, None, None, None, None, None, None, None, None, None, None)

  /** `Object.keys(updates).length === 0`: no top-level key is present. A
      present `hardware` key counts even when its record is empty. */
  predicate IsEmpty(u: PartialState) {
    u == EmptyUpdate
  }

  // ---------------------------------------------------------------------
  // A key-by-key view of the records, matching the object property names.
  // ---------------------------------------------------------------------

  /** The top-level profile keys other than `hardware` and the timestamps. */
  datatype Key =
    | Distro | DistroVersion | DistroCodename | DistroBase | ReleaseType
    | PackageManager | SecondaryPackageManagers | AurHelper
    | Desktop | DisplayServer | DisplayManager
    | InitSystem | Filesystem
    | BootType | BootMode | Bootloader
    | Shell | Terminal
    | AudioSystem | NetworkManager | Firewall
    | ContainerRuntime
    | ExperienceLevel | PrimaryUseCase | PreferredEditors

  /** The keys of `HardwareInfo`. */
  datatype HardwareKey =
    | GpuVendor | GpuDriver | CpuVendor | CpuArch | FormFactor
    | HasTouchscreen | HasSecureBoot | HasTpm | RamGB | StorageType

  /** A property value of any of the record's field types. */
  datatype Value =
    | Str(s: string)
    | List(items: seq<string>)
    | Nullable(o: Option<string>)
    | Flag(b: bool)
    | Amount(n: Option<int>)

  function Field(p: LinuxUserState, k: Key): Value {
    match k
    case Distro => Str(p.distro)
    case DistroVersion => Str(p.distroVersion)
    case DistroCodename => Str(p.distroCodename)
    case DistroBase => Str(p.distroBase)
    case ReleaseType => Str(p.releaseType)
    case PackageManager => Str(p.packageManager)
    case SecondaryPackageManagers => List(p.secondaryPackageManagers)
    case AurHelper => Nullable(p.aurHelper)
    case Desktop => Str(p.desktop)
    case DisplayServer => Str(p.displayServer)
    case DisplayManager => Str(p.displayManager)
    case InitSystem => Str(p.initSystem)
    case Filesystem => Str(p.filesystem)
    case BootType => Str(p.bootType)
    case BootMode => Str(p.bootMode)
    case Bootloader => Str(p.bootloader)
    case Shell => Str(p.shell)
    case Terminal => Str(p.terminal)
    case AudioSystem => Str(p.audioSystem)
    case NetworkManager => Str(p.networkManager)
    case Firewall => Str(p.firewall)
    case ContainerRuntime => Str(p.containerRuntime)
    case ExperienceLevel => Str(p.experienceLevel)
    case PrimaryUseCase => Str(p.primaryUseCase)
    case PreferredEditors => List(p.preferredEditors)
  }

  function HardwareField(h: HardwareInfo, k: HardwareKey): Value {
    match k
    case GpuVendor => Str(h.gpuVendor)
    case GpuDriver => Str(h.gpuDriver)
    case CpuVendor => Str(h.cpuVendor)
    case CpuArch => Str(h.cpuArch)
    case FormFactor => Str(h.formFactor)
    case HasTouchscreen => Flag(h.hasTouchscreen)
    case HasSecureBoot => Flag(h.hasSecureBoot)
    case HasTpm => Flag(h.hasTpm)
    case RamGB => Amount(h.ramGB)
    case StorageType => Str(h.storageType)
  }

  function StrKey(o: Option<string>): Option<Value> {
    match o
    case Some(s) => Some(Str(s))
    case None => None
  }

  function FlagKey(o: Option<bool>): Option<Value> {
    match o
    case Some(b) => Some(Flag(b))
    case None => None
  }

  /** The value an update carries for key `k`, or `None` when the key is absent. */
  function UpdateField(u: PartialState, k: Key): Option<Value> {
    match k
    case Distro => StrKey(u.distro)
    case DistroVersion => StrKey(u.distroVersion)
    case DistroCodename => StrKey(u.distroCodename)
    case DistroBase => StrKey(u.distroBase)
    case ReleaseType => StrKey(u.releaseType)
    case PackageManager => StrKey(u.packageManager)
    case SecondaryPackageManagers =>
      (match u.secondaryPackageManagers case Some(l) => Some(List(l)) case None => None)
    case AurHelper => (match u.aurHelper case Some(o) => Some(Nullable(o)) case None => None)
    case Desktop => StrKey(u.desktop)
    case DisplayServer => StrKey(u.displayServer)
    case DisplayManager => StrKey(u.displayManager)
    case InitSystem => StrKey(u.initSystem)
    case Filesystem => StrKey(u.filesystem)
    case BootType => StrKey(u.bootType)
    case BootMode => StrKey(u.bootMode)
    case Bootloader => StrKey(u.bootloader)
    case Shell => StrKey(u.shell)
    case Terminal => StrKey(u.terminal)
    case AudioSystem => StrKey(u.audioSystem)
    case NetworkManager => StrKey(u.networkManager)
    case Firewall => StrKey(u.firewall)
    case ContainerRuntime => StrKey(u.containerRuntime)
    case ExperienceLevel => StrKey(u.experienceLevel)
    case PrimaryUseCase => StrKey(u.primaryUseCase)
    case PreferredEditors =>
      (match u.preferredEditors case Some(l) => Some(List(l)) case None => None)
  }

  /** The value a partial hardware record carries for `k`; every key is
      absent when the whole `hardware` key is absent. */
  function HardwareUpdateField(h: Option<HardwareUpdate>, k: HardwareKey): Option<Value> {
    match h
    case None => None
    case Some(hu) =>
      match k
      case GpuVendor => StrKey(hu.gpuVendor)
      case GpuDriver => StrKey(hu.gpuDriver)
      case CpuVendor => StrKey(hu.cpuVendor)
      case CpuArch => StrKey(hu.cpuArch)
      case FormFactor => StrKey(hu.formFactor)
      case HasTouchscreen => FlagKey(hu.hasTouchscreen)
      case HasSecureBoot => FlagKey(hu.hasSecureBoot)
      case HasTpm => FlagKey(hu.hasTpm)
      case RamGB => (match hu.ramGB case Some(n) => Some(Amount(n)) case None => None)
      case StorageType => StrKey(hu.storageType)
  }

  /** Object spread for one key: a present key wins, an absent key keeps the old value. */
  function Spread(old_: Value, incoming: Option<Value>): Value {
    incoming.GetOr(old_)
  }

  /** The designated "unset" value of each key. */
  function Sentinel(k: Key): Value {
    match k
    case SecondaryPackageManagers => List([])
    case PreferredEditors => List([])
    case AurHelper => Nullable(None)
    case ContainerRuntime => Str("none")
    case _ => Str(Unknown)
  }

  function HardwareSentinel(k: HardwareKey): Value {
    match k
    case HasTouchscreen => Flag(false)
    case HasSecureBoot => Flag(false)
    case HasTpm => Flag(false)
    case RamGB => Amount(None)
    case _ => Str(Unknown)
  }

  /** Two hardware records that agree on every key are the same record. */
  lemma HardwareFieldsDetermine(h: HardwareInfo, g: HardwareInfo)
    requires forall k :: HardwareField(h, k) == HardwareField(g, k)
    ensures h == g
  {
    assert h.gpuVendor == g.gpuVendor by { assert HardwareField(h, GpuVendor) == HardwareField(g, GpuVendor); }
    assert h.gpuDriver == g.gpuDriver by { assert HardwareField(h, GpuDriver) == HardwareField(g, GpuDriver); }
    assert h.cpuVendor == g.cpuVendor by { assert HardwareField(h, CpuVendor) == HardwareField(g, CpuVendor); }
    assert h.cpuArch == g.cpuArch by { assert HardwareField(h, CpuArch) == HardwareField(g, CpuArch); }
    assert h.formFactor == g.formFactor by { assert HardwareField(h, FormFactor) == HardwareField(g, FormFactor); }
    assert h.hasTouchscreen == g.hasTouchscreen by { assert HardwareField(h, HasTouchscreen) == HardwareField(g, HasTouchscreen); }
    assert h.hasSecureBoot == g.hasSecureBoot by { assert HardwareField(h, HasSecureBoot) == HardwareField(g, HasSecureBoot); }
    assert h.hasTpm == g.hasTpm by { assert HardwareField(h, HasTpm) == HardwareField(g, HasTpm); }
    assert h.ramGB == g.ramGB by { assert HardwareField(h, RamGB) == HardwareField(g, RamGB); }
    assert h.storageType == g.storageType by { assert HardwareField(h, StorageType) == HardwareField(g, StorageType); }
  }

  /** Two profiles that agree on every key, every hardware key and both
      timestamps are the same profile: the key view loses nothing. */
  lemma FieldsDetermineState(p: LinuxUserState, q: LinuxUserState)
    requires forall k :: Field(p, k) == Field(q, k)
    requires forall k :: HardwareField(p.hardware, k) == HardwareField(q.hardware, k)
    requires p.createdAt == q.createdAt && p.updatedAt == q.updatedAt
    ensures p == q
  {
    HardwareFieldsDetermine(p.hardware, q.hardware);
    LeadingFieldsAgree(p, q);
    TrailingFieldsAgree(p, q);
    ClosingFieldsAgree(p, q);
  }

  lemma LeadingFieldsAgree(p: LinuxUserState, q: LinuxUserState)
    requires forall k :: Field(p, k) == Field(q, k)
    ensures p.distro == q.distro
    ensures p.distroVersion == q.distroVersion
    ensures p.distroCodename == q.distroCodename
    ensures p.distroBase == q.distroBase
    ensures p.releaseType == q.releaseType
    ensures p.packageManager == q.packageManager
    ensures p.secondaryPackageManagers == q.secondaryPackageManagers
    ensures p.aurHelper == q.aurHelper
    ensures p.desktop == q.desktop
    ensures p.displayServer == q.displayServer
    ensures p.displayManager == q.displayManager
    ensures p.initSystem == q.initSystem
  {
    assert p.distro == q.distro by { assert Field(p, Distro) == Field(q, Distro); }
    assert p.distroVersion == q.distroVersion by { assert Field(p, DistroVersion) == Field(q, DistroVersion); }
    assert p.distroCodename == q.distroCodename by { assert Field(p, DistroCodename) == Field(q, DistroCodename); }
    assert p.distroBase == q.distroBase by { assert Field(p, DistroBase) == Field(q, DistroBase); }
    assert p.releaseType == q.releaseType by { assert Field(p, ReleaseType) == Field(q, ReleaseType); }
    assert p.packageManager == q.packageManager by { assert Field(p, PackageManager) == Field(q, PackageManager); }
    assert p.secondaryPackageManagers == q.secondaryPackageManagers by { assert Field(p, SecondaryPackageManagers) == Field(q, SecondaryPackageManagers); }
    assert p.aurHelper == q.aurHelper by { assert Field(p, AurHelper) == Field(q, AurHelper); }
    assert p.desktop == q.desktop by { assert Field(p, Desktop) == Field(q, Desktop); }
    assert p.displayServer == q.displayServer by { assert Field(p, DisplayServer) == Field(q, DisplayServer); }
    assert p.displayManager == q.displayManager by { assert Field(p, DisplayManager) == Field(q, DisplayManager); }
    assert p.initSystem == q.initSystem by { assert Field(p, InitSystem) == Field(q, InitSystem); }
  }

  lemma TrailingFieldsAgree(p: LinuxUserState, q: LinuxUserState)
    requires forall k :: Field(p, k) == Field(q, k)
    ensures p.filesystem == q.filesystem
    ensures p.bootType == q.bootType
    ensures p.bootMode == q.bootMode
    ensures p.bootloader == q.bootloader
    ensures p.shell == q.shell
    ensures p.terminal == q.terminal
    ensures p.audioSystem == q.audioSystem
  {
    assert p.filesystem == q.filesystem by { assert Field(p, Filesystem) == Field(q, Filesystem); }
    assert p.bootType == q.bootType by { assert Field(p, BootType) == Field(q, BootType); }
    assert p.bootMode == q.bootMode by { assert Field(p, BootMode) == Field(q, BootMode); }
    assert p.bootloader == q.bootloader by { assert Field(p, Bootloader) == Field(q, Bootloader); }
    assert p.shell == q.shell by { assert Field(p, Shell) == Field(q, Shell); }
    assert p.terminal == q.terminal by { assert Field(p, Terminal) == Field(q, Terminal); }
    assert p.audioSystem == q.audioSystem by { assert Field(p, AudioSystem) == Field(q, AudioSystem); }
  }

  lemma ClosingFieldsAgree(p: LinuxUserState, q: LinuxUserState)
    requires forall k :: Field(p, k) == Field(q, k)
    ensures p.networkManager == q.networkManager
    ensures p.firewall == q.firewall
    ensures p.containerRuntime == q.containerRuntime
    ensures p.experienceLevel == q.experienceLevel
    ensures p.primaryUseCase == q.primaryUseCase
    ensures p.preferredEditors == q.preferredEditors
  {
    assert p.networkManager == q.networkManager by { assert Field(p, NetworkManager) == Field(q, NetworkManager); }
    assert p.firewall == q.firewall by { assert Field(p, Firewall) == Field(q, Firewall); }
    assert p.containerRuntime == q.containerRuntime by { assert Field(p, ContainerRuntime) == Field(q, ContainerRuntime); }
    assert p.experienceLevel == q.experienceLevel by { assert Field(p, ExperienceLevel) == Field(q, ExperienceLevel); }
    assert p.primaryUseCase == q.primaryUseCase by { assert Field(p, PrimaryUseCase) == Field(q, PrimaryUseCase); }
    assert p.preferredEditors == q.preferredEditors by { assert Field(p, PreferredEditors) == Field(q, PreferredEditors); }
  }

  // ---------------------------------------------------------------------
  // createDefaultState and mergeState
  // ---------------------------------------------------------------------

  /** `createDefaultState()` at time `now`: every key at its sentinel except
      the experience level (the most cautious one) and the primary use case,
      no hardware known, and both timestamps equal to `now`. */
  function DefaultState(now: int): (r: LinuxUserState)
    ensures forall k :: k != ExperienceLevel && k != PrimaryUseCase ==> Field(r, k) == Sentinel(k)
    ensures r.experienceLevel == Beginner
    ensures r.primaryUseCase == "desktop-general"
    ensures forall k :: HardwareField(r.hardware, k) == HardwareSentinel(k)
    ensures r.createdAt == now && r.updatedAt == now
  {
    LinuxUserState(
      distro := Unknown,
      distroVersion := Unknown,
      distroCodename := Unknown,
      distroBase := Unknown,
      releaseType := Unknown,
      packageManager := Unknown,
      secondaryPackageManagers := [],
      aurHelper := None,
      desktop := Unknown,
      displayServer := Unknown,
      displayManager := Unknown,
      initSystem := Unknown,
      filesystem := Unknown,
      bootType := Unknown,
      bootMode := Unknown,
      bootloader := Unknown,
      hardware := HardwareInfo(
        gpuVendor := Unknown,
        gpuDriver := Unknown,
        cpuVendor := Unknown,
        cpuArch := Unknown,
        formFactor := Unknown,
        hasTouchscreen := false,
        hasSecureBoot := false,
        hasTpm := false,
        ramGB := None,
        storageType := Unknown),
      shell := Unknown,
      terminal := Unknown,
      audioSystem := Unknown,
      networkManager := Unknown,
      firewall := Unknown,
      containerRuntime := "none",
      experienceLevel := Beginner,
      primaryUseCase := "desktop-general",
      preferredEditors := [],
      createdAt := now,
      updatedAt := now)
  }

  function MergeHardware(h: HardwareInfo, u: HardwareUpdate): HardwareInfo {
    HardwareInfo(
      gpuVendor := u.gpuVendor.GetOr(h.gpuVendor),
      gpuDriver := u.gpuDriver.GetOr(h.gpuDriver),
      cpuVendor := u.cpuVendor.GetOr(h.cpuVendor),
      cpuArch := u.cpuArch.GetOr(h.cpuArch),
      formFactor := u.formFactor.GetOr(h.formFactor),
      hasTouchscreen := u.hasTouchscreen.GetOr(h.hasTouchscreen),
      hasSecureBoot := u.hasSecureBoot.GetOr(h.hasSecureBoot),
      hasTpm := u.hasTpm.GetOr(h.hasTpm),
      ramGB := u.ramGB.GetOr(h.ramGB),
      storageType := u.storageType.GetOr(h.storageType))
  }

  /** `mergeState(current, updates)` at time `now`: field-level last write
      wins. Every key present in the update takes the update's value and
      every absent key keeps the current one; the hardware record is merged
      key by key, never replaced wholesale; `createdAt` never changes and
      `updatedAt` becomes `now`. */
  function Merge(current: LinuxUserState, updates: PartialState, now: int): (r: LinuxUserState)
    ensures forall k :: Field(r, k) == Spread(Field(current, k), UpdateField(updates, k))
    ensures forall k :: HardwareField(r.hardware, k)
                        == Spread(HardwareField(current.hardware, k), HardwareUpdateField(updates.hardware, k))
    ensures r.createdAt == current.createdAt
    ensures r.updatedAt == now
  {
    var r := MergeRecord(current, updates, now);
    MergeRecordFieldwise(current, updates, now);
    r
  }

  function MergeRecord(current: LinuxUserState, u: PartialState, now: int): LinuxUserState {
    LinuxUserState(
      distro := u.distro.GetOr(current.distro),
      distroVersion := u.distroVersion.GetOr(current.distroVersion),
      distroCodename := u.distroCodename.GetOr(current.distroCodename),
      distroBase := u.distroBase.GetOr(current.distroBase),
      releaseType := u.releaseType.GetOr(current.releaseType),
      packageManager := u.packageManager.GetOr(current.packageManager),
      secondaryPackageManagers := u.secondaryPackageManagers.GetOr(current.secondaryPackageManagers),
      aurHelper := u.aurHelper.GetOr(current.aurHelper),
      desktop := u.desktop.GetOr(current.desktop),
      displayServer := u.displayServer.GetOr(current.displayServer),
      displayManager := u.displayManager.GetOr(current.displayManager),
      initSystem := u.initSystem.GetOr(current.initSystem),
      filesystem := u.filesystem.GetOr(current.filesystem),
      bootType := u.bootType.GetOr(current.bootType),
      bootMode := u.bootMode.GetOr(current.bootMode),
      bootloader := u.bootloader.GetOr(current.bootloader),
      hardware := MergeHardware(current.hardware, u.hardware.GetOr(NoHardwareUpdate)),
      shell := u.shell.GetOr(current.shell),
      terminal := u.terminal.GetOr(current.terminal),
      audioSystem := u.audioSystem.GetOr(current.audioSystem),
      networkManager := u.networkManager.GetOr(current.networkManager),
      firewall := u.firewall.GetOr(current.firewall),
      containerRuntime := u.containerRuntime.GetOr(current.containerRuntime),
      experienceLevel := u.experienceLevel.GetOr(current.experienceLevel),
      primaryUseCase := u.primaryUseCase.GetOr(current.primaryUseCase),
      preferredEditors := u.preferredEditors.GetOr(current.preferredEditors),
      createdAt := current.createdAt,
      updatedAt := now)
  }

  lemma MergeHardwareFieldwise(h: HardwareInfo, u: Option<HardwareUpdate>)
    ensures forall k :: HardwareField(MergeHardware(h, u.GetOr(NoHardwareUpdate)), k)
                        == Spread(HardwareField(h, k), HardwareUpdateField(u, k))
  {
    var r := MergeHardware(h, u.GetOr(NoHardwareUpdate));
    forall k
      ensures HardwareField(r, k) == Spread(HardwareField(h, k), HardwareUpdateField(u, k))
    {
      match k
      case GpuVendor =>
      case GpuDriver =>
      case CpuVendor =>
      case CpuArch =>
      case FormFactor =>
      case HasTouchscreen =>
      case HasSecureBoot =>
      case HasTpm =>
      case RamGB =>
      case StorageType =>
    }
  }

  lemma MergeRecordFieldwise(current: LinuxUserState, u: PartialState, now: int)
    ensures forall k :: Field(MergeRecord(current, u, now), k) == Spread(Field(current, k), UpdateField(u, k))
    ensures forall k :: HardwareField(MergeRecord(current, u, now).hardware, k)
                        == Spread(HardwareField(current.hardware, k), HardwareUpdateField(u.hardware, k))
  {
    var r := MergeRecord(current, u, now);
    MergeHardwareFieldwise(current.hardware, u.hardware);
    forall k
      ensures Field(r, k) == Spread(Field(current, k), UpdateField(u, k))
    {
      match k
      case Distro =>
      case DistroVersion =>
      case DistroCodename =>
      case DistroBase =>
      case ReleaseType =>
      case PackageManager =>
      case SecondaryPackageManagers =>
      case AurHelper =>
      case Desktop =>
      case DisplayServer =>
      case DisplayManager =>
      case InitSystem =>
      case Filesystem =>
      case BootType =>
      case BootMode =>
      case Bootloader =>
      case Shell =>
      case Terminal =>
      case AudioSystem =>
      case NetworkManager =>
      case Firewall =>
      case ContainerRuntime =>
      case ExperienceLevel =>
      case PrimaryUseCase =>
      case PreferredEditors =>
    }
  }

  // ---------------------------------------------------------------------
  // Properties of the merge
  // ---------------------------------------------------------------------

  /** Merging the empty update changes nothing but `updatedAt`; this is why
      the agent skips the merge for an empty update. */
  lemma MergeEmptyOnlyStamps(p: LinuxUserState, now: int)
    ensures Merge(p, EmptyUpdate, now) == p.(updatedAt := now)
  {
    var r := Merge(p, EmptyUpdate, now);
    var q := p.(updatedAt := now);
    forall k ensures Field(r, k) == Field(q, k) {
      match k
      case Distro =>
      case _ =>
    }
    FieldsDetermineState(r, q);
  }

  /** Applying the same update twice is applying it once, at the later time. */
  lemma MergeIdempotent(p: LinuxUserState, u: PartialState, t1: int, t2: int)
    ensures Merge(Merge(p, u, t1), u, t2) == Merge(p, u, t2)
  {
    var once, twice := Merge(p, u, t2), Merge(Merge(p, u, t1), u, t2);
    forall k ensures Field(twice, k) == Field(once, k) {
      if UpdateField(u, k).None? {}
    }
    forall k ensures HardwareField(twice.hardware, k) == HardwareField(once.hardware, k) {
      if HardwareUpdateField(u.hardware, k).None? {}
    }
    FieldsDetermineState(twice, once);
  }

  /** The update `{ experienceLevel: level }`. */
  function LevelUpdate(level: string): (u: PartialState)
    ensures UpdateField(u, ExperienceLevel) == Some(Str(level))
    ensures forall k :: k != ExperienceLevel ==> UpdateField(u, k).None?
    ensures u.hardware.None? && !IsEmpty(u)
  {
    EmptyUpdate.(experienceLevel := Some(level))
  }

  /** Merging a level-only update changes the experience level and the
      update time, and nothing else. */
  lemma MergeLevelOnly(p: LinuxUserState, level: string, now: int)
    ensures Merge(p, LevelUpdate(level), now) == p.(experienceLevel := level, updatedAt := now)
  {
    var r := Merge(p, LevelUpdate(level), now);
    var q := p.(experienceLevel := level, updatedAt := now);
    forall k ensures Field(r, k) == Field(q, k) {
      if k != ExperienceLevel {
        assert UpdateField(LevelUpdate(level), k).None?;
      }
    }
    FieldsDetermineState(r, q);
  }

  /** A profile whose experience level is one of the three levels. */
  predicate WellFormed(p: LinuxUserState) {
    IsLevel(p.experienceLevel)
  }

  /** An update that sets no experience level, or one of the three. */
  predicate WellFormedUpdate(u: PartialState) {
    u.experienceLevel.Some? ==> IsLevel(u.experienceLevel.value)
  }

  /** A merge keeps the experience level one of the three levels. */
  lemma MergeKeepsWellFormed(p: LinuxUserState, u: PartialState, now: int)
    requires WellFormed(p) && WellFormedUpdate(u)
    ensures WellFormed(Merge(p, u, now))
  {
    assert Field(Merge(p, u, now), ExperienceLevel) == Spread(Field(p, ExperienceLevel), UpdateField(u, ExperienceLevel));
  }
}
