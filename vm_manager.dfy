/**
 * The VM lifecycle registry (vm_manager.py): `VMManager` creates VM
 * instances (validating the task first and optionally calling a model
 * provider), records them in `active_vms`, starts them through the launcher
 * and the Firecracker API, stops and forgets them. Each VM has a manifest,
 * `results/<vm_id>/manifest.json`, whose `state` moves through `pending`,
 * `running` and `failed`; it is always written to a `.tmp` file first and
 * renamed into place.
 *
 * The shell commands that build the shared disk and the guest artifacts are
 * abstract outcomes (`diskOk`, `artifactsOk`); the images they produce are
 * opaque files.
 */
module VmManager {
  import opened Wrappers
  import opened Json
  import opened Files
  import opened Process
  import opened OrderedDict
  import Validation
  import ProviderResolver
  import Providers
  import Launcher
  import FirecrackerClient
  import Http

  /**
   * The configuration values `VMManager` reads. `imagesIsPath` says whether
   * `paths.ubuntu_images` holds a `Path` (as the schema's `PathsConfig`
   * makes it) or a plain string (as an OmegaConf configuration holds it);
   * `useRealInit` is `vm.use_real_init`.
   */
  datatype Settings = Settings(
    ubuntuImages: string, imagesIsPath: bool, shared: string, results: string,
    memoryMb: int, vcpus: int, shutdownTimeout: int, useJailer: bool, useRealInit: bool)

  function TapName(vmId: string): string { "tap" + vmId }
  function SocketPath(vmId: string): string { "/tmp/firecracker-" + vmId + ".socket" }
  function SharedDiskPath(vmId: string): string { "/tmp/shared-" + vmId + ".ext4" }
  function ConfigPath(vmId: string): string { "/tmp/vm-config-" + vmId + ".json" }
  function ResultsDir(s: Settings, vmId: string): string { PathJoin(s.results, vmId) }
  function GuestTarPath(s: Settings, vmId: string): string { PathJoin(ResultsDir(s, vmId), "guest.tar.gz") }
  function InitImgPath(s: Settings, vmId: string): string { PathJoin(ResultsDir(s, vmId), "init-overlay.img") }
  function ManifestTmpPath(s: Settings, vmId: string): string { PathJoin(ResultsDir(s, vmId), "manifest.json.tmp") }
  function ManifestPath(s: Settings, vmId: string): string { PathJoin(ResultsDir(s, vmId), "manifest.json") }

  /** The temporary manifest and the manifest are different files. */
  lemma ManifestPathsDiffer(s: Settings, vmId: string)
    ensures ManifestTmpPath(s, vmId) != ManifestPath(s, vmId)
  {
    var tmp := ManifestTmpPath(s, vmId);
    var final := ManifestPath(s, vmId);
    assert tmp[|tmp| - 1] == 'p';
    assert final[|final| - 1] == 'n';
  }

  // ----- the Firecracker configuration -----

  const BaseBootArgs := "console=ttyS0 reboot=k panic=1 pci=off init=/ssl_agent.sh VM_IP=172.50.0.2 GATEWAY_IP=172.50.0.1"

  datatype Drive = Drive(driveId: string, pathOnHost: string, isRootDevice: bool, isReadOnly: bool)

  /**
   * The dict `_generate_vm_config` builds, field by field; `initImg` is the
   * `init_img` key `create_vm` adds once the guest artifacts exist.
   */
  datatype VmConfig = VmConfig(
    kernelImagePath: string, bootArgs: string, drives: seq<Drive>, hostDevName: string,
    vcpuCount: int, memSizeMib: int, initImg: Option<string>)

  /**
   * `_generate_vm_config` for an image directory that is a `Path`: the
   * kernel and root image from the image directory, the shared disk second.
   */
  function GenerateVmConfig(s: Settings, sharedDisk: string, tap: string): (c: VmConfig)
    ensures |c.drives| == 2 && c.drives[0].isRootDevice && !c.drives[1].isRootDevice
    ensures c.drives[1].pathOnHost == sharedDisk && c.hostDevName == tap
    ensures c.vcpuCount == s.vcpus && c.memSizeMib == s.memoryMb && c.initImg.None?
    ensures |c.kernelImagePath| >= |"vmlinux.bin"| && |c.drives[0].pathOnHost| >= |"ubuntu-rootfs.ext4"|
    ensures s.ubuntuImages <= c.kernelImagePath || c.kernelImagePath == "vmlinux.bin"
    ensures s.ubuntuImages <= c.drives[0].pathOnHost || c.drives[0].pathOnHost == "ubuntu-rootfs.ext4"
  {
    VmConfig(
      PathJoin(s.ubuntuImages, "vmlinux.bin"), BaseBootArgs,
      [Drive("rootfs", PathJoin(s.ubuntuImages, "ubuntu-rootfs.ext4"), true, false),
       Drive("shared", sharedDisk, false, false)],
      tap, s.vcpus, s.memoryMb, None)
  }

  /**
   * `_generate_vm_config` as written: `self.config.paths.ubuntu_images /
   * "vmlinux.bin"` needs a `Path`, and raises `TypeError` where the setting
   * is a plain string.
   */
  function GenerateVmConfigAsWritten(s: Settings, sharedDisk: string, tap: string): (r: Result<VmConfig, CreateError>)
    ensures r.Ok? <==> s.imagesIsPath
    ensures r.Ok? ==> r.value == GenerateVmConfig(s, sharedDisk, tap)
    ensures r.Err? ==> r.error == ImagesNotPath
  {
    if s.imagesIsPath then Ok(GenerateVmConfig(s, sharedDisk, tap)) else Err(ImagesNotPath)
  }

  /**
   * Where the image directory is the empty string (pathlib's `.`), the
   * kernel and root image are the bare file names; otherwise both lie in
   * the directory, after one separator.
   */
  lemma {:induction false} ImagesUnderDirectory(s: Settings, sharedDisk: string, tap: string)
    requires s.ubuntuImages != "" && s.ubuntuImages[|s.ubuntuImages| - 1] != '/'
    ensures var c := GenerateVmConfig(s, sharedDisk, tap);
      && c.kernelImagePath == s.ubuntuImages + "/vmlinux.bin"
      && c.drives[0].pathOnHost == s.ubuntuImages + "/ubuntu-rootfs.ext4"
  {
    assert s.ubuntuImages + "/" + "vmlinux.bin" == s.ubuntuImages + "/vmlinux.bin";
    assert s.ubuntuImages + "/" + "ubuntu-rootfs.ext4" == s.ubuntuImages + "/ubuntu-rootfs.ext4";
  }

  function BootSourceJson(c: VmConfig): Json {
    Obj([("kernel_image_path", Str(c.kernelImagePath)), ("boot_args", Str(c.bootArgs))])
  }

  function MachineConfigJson(c: VmConfig): Json {
    Obj([("vcpu_count", Int(c.vcpuCount)), ("mem_size_mib", Int(c.memSizeMib)), ("smt", Bool(false))])
  }

  function DriveJson(d: Drive): Json {
    Obj([("drive_id", Str(d.driveId)), ("path_on_host", Str(d.pathOnHost)),
         ("is_root_device", Bool(d.isRootDevice)), ("is_read_only", Bool(d.isReadOnly))])
  }

  function DrivesJson(c: VmConfig): Json {
    Arr(seq(|c.drives|, i requires 0 <= i < |c.drives| => DriveJson(c.drives[i])))
  }

  function InterfacesJson(c: VmConfig): Json {
    Arr([Obj([("iface_id", Str("eth0")), ("guest_mac", Str("AA:FC:00:00:00:01")), ("host_dev_name", Str(c.hostDevName))])])
  }

  function ConfigBase(c: VmConfig): seq<(string, Json)> {
    [("boot-source", BootSourceJson(c)), ("drives", DrivesJson(c)),
     ("network-interfaces", InterfacesJson(c)), ("machine-config", MachineConfigJson(c))]
  }

  function InitImgField(c: VmConfig): seq<(string, Json)> {
    if c.initImg.Some? then [("init_img", Str(c.initImg.value))] else []
  }

  /** The document written to `/tmp/vm-config-<vm_id>.json`. */
  function ConfigJson(c: VmConfig): Json {
    Obj(ConfigBase(c) + InitImgField(c))
  }

  /** The written configuration reads back: its boot source, machine configuration and `init_img` entry. */
  lemma ConfigReadBack(c: VmConfig)
    ensures var j := ConfigJson(c);
      && Get(j, "boot-source") == Some(BootSourceJson(c))
      && Get(j, "machine-config") == Some(MachineConfigJson(c))
      && (Get(j, "init_img").Some? <==> c.initImg.Some?)
      && (c.initImg.Some? ==> Get(j, "init_img") == Some(Str(c.initImg.value)))
  {
    var base := ConfigBase(c);
    var extra := InitImgField(c);
    ConfigBaseLookups(base);
    LookupAppend(base, extra, "boot-source");
    LookupAppend(base, extra, "machine-config");
    LookupAppend(base, extra, "init_img");
    if c.initImg.Some? {
      LookupFirst(extra, 0, "init_img");
    }
  }

  lemma ConfigBaseLookups(base: seq<(string, Json)>)
    requires |base| == 4
    requires base[0].0 == "boot-source" && base[1].0 == "drives" && base[2].0 == "network-interfaces"
    requires base[3].0 == "machine-config"
    ensures Lookup(base, "boot-source") == Some(base[0].1) && Lookup(base, "machine-config") == Some(base[3].1)
    ensures Lookup(base, "init_img").None?
  {
    LookupFirst(base, 0, "boot-source");
    LookupFirst(base, 3, "machine-config");
  }

  /** `start_vm` appends the API key to the kernel command line when one is given. */
  function WithApiKey(c: VmConfig, apiKey: Option<string>): (r: VmConfig)
    ensures apiKey.Some? && apiKey.value != "" ==> r.bootArgs == c.bootArgs + " OPENAI_API_KEY=" + apiKey.value
    ensures !(apiKey.Some? && apiKey.value != "") ==> r == c
    ensures r == c.(bootArgs := r.bootArgs)
  {
    if apiKey.Some? && apiKey.value != "" then c.(bootArgs := c.bootArgs + " OPENAI_API_KEY=" + apiKey.value) else c
  }

  // ----- the manifest -----

  /**
   * `Path(p).name`: the last component, ignoring trailing slashes and `.`
   * components, which pathlib drops (so `Path(".").name` is empty).
   */
  function PathName(p: string): (r: string)
    ensures '/' !in r && |r| <= |p| && r != "."
    decreases |p|
  {
    if p == [] then []
    else if p[|p| - 1] == '/' then PathName(p[..|p| - 1])
    else if LastComponent(p) == "." then PathName(p[..|p| - 1])
    else LastComponent(p)
  }

  /** `Path(".").name` is empty. */
  lemma PathNameOfDot()
    ensures PathName(".") == "" && PathName("." + "/") == ""
  {
    var d: string := ".";
    assert d[..0] == [] && d[0] == '.';
    assert LastComponent(d) == LastComponent([]) + ['.'] == ".";
    assert PathName(d) == PathName(d[..0]) == "";
    PathNameTrailingSlash(d);
  }

  /** A trailing separator does not change the name. */
  lemma PathNameTrailingSlash(p: string)
    ensures PathName(p + "/") == PathName(p)
  {
    var q := p + "/";
    assert q[|q| - 1] == '/' && q[..|q| - 1] == p;
  }

  /** A trailing `.` component does not change the name. */
  lemma PathNameTrailingDot(p: string)
    ensures PathName(p + "/.") == PathName(p)
  {
    var q := p + "/.";
    assert q[|q| - 1] == '.' && q[..|q| - 1] == p + "/";
    assert LastComponent(p + "/") == [];
    assert LastComponent(q) == ".";
    PathNameTrailingSlash(p);
  }

  function LastComponent(p: string): (r: string)
    ensures '/' !in r
    ensures |r| <= |p| && r == p[|p| - |r|..]
    ensures |r| < |p| ==> p[|p| - |r| - 1] == '/'
    decreases |p|
  {
    if p == [] || p[|p| - 1] == '/' then [] else LastComponent(p[..|p| - 1]) + [p[|p| - 1]]
  }

  datatype Manifest = Manifest(
    vmId: string, image: string, memoryMb: int, vcpus: int, createdAt: string, state: string,
    providerResponse: Option<Json>)

  /** The JSON object `_write_manifest` dumps; `provider_response` is present only when there is one. */
  function ManifestJson(m: Manifest): Json {
    Obj(ManifestBase(m) + (if m.providerResponse.Some? then [("provider_response", m.providerResponse.value)] else []))
  }

  function ManifestBase(m: Manifest): seq<(string, Json)> {
    [("vm_id", Str(m.vmId)), ("image", Str(m.image)), ("memory_mb", Int(m.memoryMb)), ("vcpus", Int(m.vcpus)),
     ("network_mode", Str("slirp")), ("created_at", Str(m.createdAt)), ("state", Str(m.state))]
  }

  /** Reading the written manifest back gives the record's identity, sizes, mode and state. */
  lemma ManifestReadBack(m: Manifest)
    ensures var j := ManifestJson(m);
      && Get(j, "vm_id") == Some(Str(m.vmId))
      && Get(j, "memory_mb") == Some(Int(m.memoryMb)) && Get(j, "vcpus") == Some(Int(m.vcpus))
      && Get(j, "network_mode") == Some(Str("slirp"))
      && Get(j, "state") == Some(Str(m.state))
      && Get(j, "provider_response") == m.providerResponse
  {
    var base := ManifestBase(m);
    var extra := if m.providerResponse.Some? then [("provider_response", m.providerResponse.value)] else [];
    BaseLookups(m);
    LookupAppend(base, extra, "vm_id");
    LookupAppend(base, extra, "memory_mb");
    LookupAppend(base, extra, "vcpus");
    LookupAppend(base, extra, "network_mode");
    LookupAppend(base, extra, "state");
    LookupAppend(base, extra, "provider_response");
  }

  lemma BaseLookups(m: Manifest)
    ensures var base := ManifestBase(m);
      && Lookup(base, "vm_id") == Some(Str(m.vmId))
      && Lookup(base, "memory_mb") == Some(Int(m.memoryMb)) && Lookup(base, "vcpus") == Some(Int(m.vcpus))
      && Lookup(base, "network_mode") == Some(Str("slirp"))
      && Lookup(base, "state") == Some(Str(m.state))
      && Lookup(base, "provider_response").None?
  {
    var base := ManifestBase(m);
    BaseLookup(base, 0, "vm_id");
    BaseLookup(base, 2, "memory_mb");
    BaseLookup(base, 3, "vcpus");
    BaseLookup(base, 4, "network_mode");
    BaseLookup(base, 6, "state");
  }

  lemma BaseLookup(base: seq<(string, Json)>, i: nat, key: string)
    requires |base| == 7 && i < 7
    requires base[0].0 == "vm_id" && base[1].0 == "image" && base[2].0 == "memory_mb" && base[3].0 == "vcpus"
    requires base[4].0 == "network_mode" && base[5].0 == "created_at" && base[6].0 == "state"
    requires base[i].0 == key
    ensures Lookup(base, key) == Some(base[i].1)
  {
    LookupFirst(base, i, key);
  }

  /** The manifest of a VM: a provider response is included only when it is truthy. */
  function ManifestOf(s: Settings, vmId: string, providerResponse: Option<Json>, createdAt: string, state: string): (m: Manifest)
    ensures m.state == state && m.vmId == vmId
    ensures m.providerResponse.Some? <==> providerResponse.Some? && Truthy(providerResponse.value)
  {
    Manifest(vmId, PathName(s.ubuntuImages), s.memoryMb, s.vcpus, createdAt, state,
             if providerResponse.Some? && Truthy(providerResponse.value) then providerResponse else None)
  }

  /** The manifest file's content. */
  function ManifestDocument(s: Settings, vmId: string, providerResponse: Option<Json>, createdAt: string, state: string): Content {
    Document(ManifestJson(ManifestOf(s, vmId, providerResponse, createdAt, state)))
  }

  /**
   * The files after a write to `tmp` and a rename onto `final`: nothing
   * where the write fails, the temporary file left behind where the rename
   * fails, otherwise the document in place and no temporary file.
   */
  function AfterAtomicWrite(files: map<string, Content>, failing: set<string>, tmp: string, final: string, doc: Content)
    : map<string, Content>
  {
    if tmp in failing then files
    else if final in failing then files[tmp := doc]
    else (files - {tmp})[final := doc]
  }

  /** A write to `tmp` followed by a rename onto `final`; false where either step raises. */
  method AtomicWrite(fs: FileSystem, tmp: string, final: string, doc: Content) returns (ok: bool)
    requires tmp != final
    modifies fs
    ensures ok <==> tmp !in fs.failing && final !in fs.failing
    ensures fs.files == AfterAtomicWrite(old(fs.files), fs.failing, tmp, final, doc)
  {
    ok := fs.Write(tmp, doc);
    if !ok {
      return;
    }
    ok := fs.Rename(tmp, final);
  }

  /** The two PUTs `start_vm` makes once the VM is launched, in order. */
  function StartPuts(socket: string, c: VmConfig): (r: seq<Put>)
    ensures |r| == 2
    ensures r[0].url == FirecrackerClient.UnixSocketUrl(socket, "/boot-source") && r[0].body == BootSourceJson(c)
    ensures r[1].url == FirecrackerClient.UnixSocketUrl(socket, "/machine-config") && r[1].body == MachineConfigJson(c)
  {
    [Put(FirecrackerClient.UnixSocketUrl(socket, "/boot-source"), BootSourceJson(c)),
     Put(FirecrackerClient.UnixSocketUrl(socket, "/machine-config"), MachineConfigJson(c))]
  }

  /** The init overlay: the dry run's placeholder bytes, or the image the overlay script builds. */
  function InitImageContent(s: Settings): Content {
    if s.useRealInit then Opaque else Text("DUMMY-INIT-IMG")
  }

  /**
   * Whether both guest artifacts were made: the archive and the init
   * overlay were written, and the external steps (`artifactsOk`: the
   * archiving, and the overlay script where `use_real_init` is set) worked.
   */
  predicate ArtifactsReady(s: Settings, vmId: string, failing: set<string>, artifactsOk: bool) {
    artifactsOk && GuestTarPath(s, vmId) !in failing && InitImgPath(s, vmId) !in failing
  }

  /**
   * The files after the guest artifacts were prepared: the archive where it
   * could be written, then the init overlay unless the archive step raised.
   */
  function ArtifactFiles(files: map<string, Content>, failing: set<string>, s: Settings, vmId: string, artifactsOk: bool)
    : map<string, Content>
  {
    var withTar := Written(files, failing, GuestTarPath(s, vmId), Opaque);
    if GuestTarPath(s, vmId) in failing || !artifactsOk then withTar
    else Written(withTar, failing, InitImgPath(s, vmId), InitImageContent(s))
  }

  /** The guest archive and the init overlay are different files. */
  lemma ArtifactPathsDiffer(s: Settings, vmId: string)
    ensures GuestTarPath(s, vmId) != InitImgPath(s, vmId)
  {
    var tar := GuestTarPath(s, vmId);
    var img := InitImgPath(s, vmId);
    assert tar[|tar| - 1] == 'z';
    assert img[|img| - 1] == 'g';
  }

  /**
   * Artifact preparation touches only the archive and the overlay; when
   * both are ready they hold the archive and the overlay image, and the
   * overlay is never written without the archive.
   */
  lemma ArtifactFilesMeaning(files: map<string, Content>, failing: set<string>, s: Settings, vmId: string, artifactsOk: bool)
    ensures var r := ArtifactFiles(files, failing, s, vmId, artifactsOk);
      var tar := GuestTarPath(s, vmId);
      var img := InitImgPath(s, vmId);
      && (forall p :: p != tar && p != img ==> (p in r <==> p in files) && (p in r ==> r[p] == files[p]))
      && (ArtifactsReady(s, vmId, failing, artifactsOk) ==> r[tar] == Opaque && r[img] == InitImageContent(s))
      && (img in r && img !in files ==> tar in r)
  {
    var tar := GuestTarPath(s, vmId);
    var img := InitImgPath(s, vmId);
    ArtifactPathsDiffer(s, vmId);
    var withTar := Written(files, failing, tar, Opaque);
    assert tar !in failing ==> withTar[tar] == Opaque;
    if tar !in failing && artifactsOk {
      var r := Written(withTar, failing, img, InitImageContent(s));
      assert r == ArtifactFiles(files, failing, s, vmId, artifactsOk);
      assert img !in failing ==> r[img] == InitImageContent(s) && r[tar] == Opaque;
    }
  }

  /**
   * The shared-disk path and configuration `create_vm` records: the plain
   * disk, or the guest archive and the init overlay once the artifacts are
   * `ready`.
   */
  function Provisioned(s: Settings, vmId: string, ready: bool): (r: (string, VmConfig))
    ensures r.0 == if ready then GuestTarPath(s, vmId) else SharedDiskPath(vmId)
    ensures r.1 == GenerateVmConfig(s, SharedDiskPath(vmId), TapName(vmId)).(initImg := r.1.initImg)
    ensures r.1.initImg == if ready then Some(InitImgPath(s, vmId)) else None
  {
    var config := GenerateVmConfig(s, SharedDiskPath(vmId), TapName(vmId));
    if ready then (GuestTarPath(s, vmId), config.(initImg := Some(InitImgPath(s, vmId)))) else (SharedDiskPath(vmId), config)
  }

  /**
   * What `create_vm` leaves once the task is prepared: a disk failure, or
   * an image directory that is not a `Path`, leaves the disk file as far as
   * it was written and the registry as it was; success registers a new
   * instance with the tap name, the socket, the provisioned disk and
   * configuration, and no process, and leaves the disk, the guest artifacts
   * as far as they were made and the `pending` manifest (where it could be
   * written) on disk.
   */
  ghost predicate Built(r: Result<VmInstance, CreateError>, before: Dict<VmInstance>, after: Dict<VmInstance>,
                        files: map<string, Content>, oldFiles: map<string, Content>, failing: set<string>,
                        s: Settings, vmId: string, providerResponse: Option<Json>, diskOk: bool, artifactsOk: bool, now: string)
    requires before.Valid()
    reads if r.Ok? then {r.value} else {}
  {
    && (r.Err? <==> !diskOk || SharedDiskPath(vmId) in failing || !s.imagesIsPath)
    && (r.Err? ==> && r == Err(if !diskOk || SharedDiskPath(vmId) in failing then DiskFailed else ImagesNotPath)
                   && files == Written(oldFiles, failing, SharedDiskPath(vmId), Opaque))
    && (r.Ok? ==>
          && after == before.Put(vmId, r.value)
          && r.value.vmId == vmId
          && r.value.providerResponse == providerResponse
          && r.value.tapName == Some(TapName(vmId))
          && r.value.socketPath == Some(SocketPath(vmId))
          && r.value.process.None?
          && var made := Provisioned(s, vmId, ArtifactsReady(s, vmId, failing, artifactsOk));
             && r.value.sharedDiskPath == Some(made.0) && r.value.config == Some(made.1)
             && files == AfterAtomicWrite(ArtifactFiles(oldFiles[SharedDiskPath(vmId) := Opaque], failing, s, vmId, artifactsOk),
                                          failing, ManifestTmpPath(s, vmId), ManifestPath(s, vmId),
                                          ManifestDocument(s, vmId, providerResponse, now, "pending")))
  }

  /** What the two PUTs of `start_vm` came to: the error that escaped, if any, and the requests made. */
  datatype ApiOutcome = ApiOutcome(failure: Option<StartError>, puts: seq<Put>)

  /**
   * The boot source is PUT first and the machine configuration second; a
   * PUT that raises ends the sequence, one that merely returns False does
   * not.
   */
  function ApiCalls(socket: string, c: VmConfig, bootReply: Http.Reply, machineReply: Http.Reply): (r: ApiOutcome)
    ensures r.failure.None? <==> FirecrackerClient.PutJson(bootReply).Ok? && FirecrackerClient.PutJson(machineReply).Ok?
    ensures r.failure.None? ==> r.puts == StartPuts(socket, c)
    ensures r.failure.Some? ==> r.failure.value.PutFailed?
    ensures FirecrackerClient.PutJson(bootReply).Err? ==>
      r == ApiOutcome(Some(PutFailed("/boot-source", FirecrackerClient.PutJson(bootReply).error)), StartPuts(socket, c)[..1])
    ensures FirecrackerClient.PutJson(bootReply).Ok? && FirecrackerClient.PutJson(machineReply).Err? ==>
      r == ApiOutcome(Some(PutFailed("/machine-config", FirecrackerClient.PutJson(machineReply).error)), StartPuts(socket, c))
  {
    var puts := StartPuts(socket, c);
    match FirecrackerClient.PutJson(bootReply)
    case Err(e) => ApiOutcome(Some(PutFailed("/boot-source", e)), puts[..1])
    case Ok(_) =>
      match FirecrackerClient.PutJson(machineReply)
      case Err(e) => ApiOutcome(Some(PutFailed("/machine-config", e)), puts)
      case Ok(_) => ApiOutcome(None, puts)
  }

  /**
   * An atomic write never leaves a partial manifest: the final path holds
   * either the new document or what it held before, and the temporary file
   * survives only when the rename failed. Every other file is untouched.
   */
  lemma AtomicWriteOutcome(files: map<string, Content>, failing: set<string>, tmp: string, final: string, doc: Content)
    requires tmp != final
    ensures var r := AfterAtomicWrite(files, failing, tmp, final, doc);
      && (final in r ==> r[final] == doc || (final in files && r[final] == files[final]))
      && (tmp in r && tmp !in files ==> final in failing)
      && (tmp !in failing && final !in failing ==> final in r && r[final] == doc && tmp !in r)
      && (forall p :: p != tmp && p != final ==> (p in r <==> p in files) && (p in r ==> r[p] == files[p]))
  {
  }

  /** The files after the manifest was written atomically once per state, in order. */
  function ManifestTrail(files: map<string, Content>, failing: set<string>, s: Settings, vmId: string,
                         providerResponse: Option<Json>, now: string, states: seq<string>): map<string, Content>
    decreases |states|
  {
    if states == [] then files
    else ManifestTrail(AfterAtomicWrite(files, failing, ManifestTmpPath(s, vmId), ManifestPath(s, vmId),
                                        ManifestDocument(s, vmId, providerResponse, now, states[0])),
                       failing, s, vmId, providerResponse, now, states[1..])
  }

  /** Writing one more state extends the trail by one atomic write. */
  lemma {:induction false} ManifestTrailAppend(files: map<string, Content>, failing: set<string>, s: Settings, vmId: string,
                                               providerResponse: Option<Json>, now: string, states: seq<string>, state: string)
    ensures ManifestTrail(files, failing, s, vmId, providerResponse, now, states + [state])
         == AfterAtomicWrite(ManifestTrail(files, failing, s, vmId, providerResponse, now, states), failing,
                             ManifestTmpPath(s, vmId), ManifestPath(s, vmId),
                             ManifestDocument(s, vmId, providerResponse, now, state))
    decreases |states|
  {
    if states == [] {
      assert ([] + [state])[1..] == [];
    } else {
      var next := AfterAtomicWrite(files, failing, ManifestTmpPath(s, vmId), ManifestPath(s, vmId),
                                   ManifestDocument(s, vmId, providerResponse, now, states[0]));
      assert (states + [state])[1..] == states[1..] + [state];
      ManifestTrailAppend(next, failing, s, vmId, providerResponse, now, states[1..], state);
    }
  }

  /**
   * However many states were written, only the manifest and its temporary
   * file change; where both may be written the manifest holds the last
   * state and no temporary file is left; where the temporary file may not
   * be written nothing changes.
   */
  lemma {:induction false} ManifestTrailMeaning(files: map<string, Content>, failing: set<string>, s: Settings, vmId: string,
                                                providerResponse: Option<Json>, now: string, states: seq<string>)
    ensures var r := ManifestTrail(files, failing, s, vmId, providerResponse, now, states);
      var tmp := ManifestTmpPath(s, vmId);
      var final := ManifestPath(s, vmId);
      && (forall p :: p != tmp && p != final ==> (p in r <==> p in files) && (p in r ==> r[p] == files[p]))
      && (tmp in failing ==> r == files)
      && (states != [] && tmp !in failing && final !in failing ==>
            && final in r && r[final] == ManifestDocument(s, vmId, providerResponse, now, states[|states| - 1])
            && tmp !in r)
    decreases |states|
  {
    if states != [] {
      var tmp := ManifestTmpPath(s, vmId);
      var final := ManifestPath(s, vmId);
      ManifestPathsDiffer(s, vmId);
      var next := AfterAtomicWrite(files, failing, tmp, final, ManifestDocument(s, vmId, providerResponse, now, states[0]));
      AtomicWriteOutcome(files, failing, tmp, final, ManifestDocument(s, vmId, providerResponse, now, states[0]));
      ManifestTrailMeaning(next, failing, s, vmId, providerResponse, now, states[1..]);
      if |states| > 1 {
        assert states[1..][|states[1..]| - 1] == states[|states| - 1];
      }
    }
  }

  // ----- task data and the provider call -----

  /** What the provider dispatcher and the URL resolver see of the outside world. */
  datatype ProviderWorld = ProviderWorld(
    env: ProviderResolver.Environment, urls: Option<ProviderResolver.ProviderUrls>,
    apiKey: Option<string>, ollamaLoaded: bool, openaiLoaded: bool, answers: Providers.Answers)

  function StrField(j: Json, key: string): Option<string>
    requires j.Obj?
  {
    match Get(j, key)
    case Some(Str(v)) => Some(v)
    case _ => None
  }

  /**
   * The response `create_vm` records: the dispatcher's answer for the
   * resolved URL, or `{"error": message}` when the call raised.
   */
  function ProviderResponse(task: Json, w: ProviderWorld): (r: Json)
    requires task.Obj?
    ensures var provider := StrField(task, "provider").GetOr("");
      var url := ProviderResolver.ResolveProviderUrl(provider, w.env, w.urls);
      var answer := Providers.CallProvider(provider, url, StrField(task, "model"), StrField(task, "prompt").GetOr(""),
                                           w.apiKey, w.ollamaLoaded, w.openaiLoaded, w.answers);
      r == if answer.Ok? then answer.value else Obj([("error", Str(answer.error))])
  {
    var provider := StrField(task, "provider").GetOr("");
    var url := ProviderResolver.ResolveProviderUrl(provider, w.env, w.urls);
    match Providers.CallProvider(provider, url, StrField(task, "model"), StrField(task, "prompt").GetOr(""),
                                 w.apiKey, w.ollamaLoaded, w.openaiLoaded, w.answers)
    case Ok(resp) => resp
    case Err(msg) => Obj([("error", Str(msg))])
  }

  /** The caller's task dict after `create_vm`: `env_overrides` defaulted to `{}` and the response recorded. */
  function PreparedTask(task: Json, resp: Json): (r: Json)
    requires task.Obj?
    ensures r.Obj?
    ensures Get(r, "provider_response") == Some(resp)
    ensures Get(r, "env_overrides") == if Truthy(GetOrNull(task, "env_overrides")) then Get(task, "env_overrides") else Some(Obj([]))
    ensures forall k :: k != "provider_response" && k != "env_overrides" ==> Get(r, k) == Get(task, k)
  {
    var t := if Truthy(GetOrNull(task, "env_overrides")) then task else Set(task, "env_overrides", Obj([]));
    Set(t, "provider_response", resp)
  }

  /** What `create_vm` takes from the task data: the task as the caller then sees it, and the provider response. */
  datatype TaskPrep = TaskPrep(task: Option<Json>, providerResponse: Option<Json>)

  /**
   * The first part of `create_vm`: task data that is given (truthy) must be
   * a well-formed task; it then names a provider, which is called. Absent
   * or empty task data is passed through with no provider response.
   */
  function PrepareTask(taskData: Option<Json>, w: ProviderWorld): (r: Result<TaskPrep, CreateError>)
    ensures !(taskData.Some? && Truthy(taskData.value)) ==> r == Ok(TaskPrep(taskData, None))
    ensures taskData.Some? && Truthy(taskData.value) ==>
      && (r.Err? <==> !Validation.WellFormedTask(taskData.value))
      && (r.Err? ==> r.error == InvalidTask(Validation.ValidateMcpRequest(taskData.value).error))
      && (r.Ok? ==> var resp := ProviderResponse(taskData.value, w);
                    r.value == TaskPrep(Some(PreparedTask(taskData.value, resp)), Some(resp)))
    ensures r.Ok? && r.value.task.Some? && r.value.providerResponse.Some? ==>
      Get(r.value.task.value, "provider_response") == r.value.providerResponse
  {
    if !(taskData.Some? && Truthy(taskData.value)) then Ok(TaskPrep(taskData, None))
    else
      match Validation.ValidateMcpRequest(taskData.value)
      case Err(e) => Err(InvalidTask(e))
      case Ok(_) =>
        var resp := ProviderResponse(taskData.value, w);
        Ok(TaskPrep(Some(PreparedTask(taskData.value, resp)), Some(resp)))
  }

  /** The files a stopped VM leaves behind: each of its three files removed where it exists and may be removed. */
  function Unlink(files: map<string, Content>, failing: set<string>, p: Option<string>): (r: map<string, Content>)
    ensures p.Some? && p.value !in failing ==> r == files - {p.value}
    ensures !(p.Some? && p.value !in failing) ==> r == files
  {
    if p.Some? && p.value in files && p.value !in failing then files - {p.value} else files
  }

  function AfterCleanup(files: map<string, Content>, failing: set<string>, socket: Option<string>, disk: Option<string>,
                        vmId: string): map<string, Content>
  {
    Unlink(Unlink(Unlink(files, failing, socket), failing, disk), failing, Some(ConfigPath(vmId)))
  }

  /** `if p and p.exists(): p.unlink()`, with an `OSError` swallowed. */
  method UnlinkIfExists(fs: FileSystem, p: Option<string>)
    modifies fs
    ensures fs.files == Unlink(old(fs.files), fs.failing, p)
  {
    if p.Some? && p.value in fs.files {
      var _ := fs.Remove(p.value);
    }
  }

  /** Clean-up removes exactly the VM's removable files and keeps every other file as it was. */
  lemma AfterCleanupMeaning(files: map<string, Content>, failing: set<string>, socket: Option<string>,
                            disk: Option<string>, vmId: string)
    ensures var r := AfterCleanup(files, failing, socket, disk, vmId);
      var mine := (if socket.Some? then {socket.value} else {}) + (if disk.Some? then {disk.value} else {}) + {ConfigPath(vmId)};
      && (forall p :: p in mine && p !in failing ==> p !in r)
      && (forall p :: p in r <==> p in files && !(p in mine && p !in failing))
      && (forall p :: p in r ==> r[p] == files[p])
  {
  }

  // ----- cleanup_all_vms -----

  /** What `stop_vm` reads of an instance: its id, its two recorded paths and its process. */
  datatype VmSnap = VmSnap(vmId: string, socket: Option<string>, disk: Option<string>, process: Option<Proc>)

  /** The instances as `cleanup_all_vms` finds them. */
  function Snapshots(vms: seq<VmInstance>): (r: seq<VmSnap>)
    reads vms
    ensures |r| == |vms|
    ensures forall i :: 0 <= i < |vms| ==>
      r[i] == VmSnap(vms[i].vmId, vms[i].socketPath, vms[i].sharedDiskPath, vms[i].process)
  {
    seq(|vms|, i requires 0 <= i < |vms| reads vms =>
      VmSnap(vms[i].vmId, vms[i].socketPath, vms[i].sharedDiskPath, vms[i].process))
  }

  /** `stop_vm` raises for this process: it is alive and the system refuses to signal it. */
  predicate Refuses(p: Option<Proc>) {
    p.Some? && p.value.live && p.value.onTerminate == Refused
  }

  /** The process an instance holds after `stop_vm`. */
  function StoppedProcess(p: Option<Proc>): Option<Proc> {
    if p.Some? then Some(Launcher.AfterStop(p.value)) else None
  }

  /** How many instances the sweep stops before the first refusal (all of them when none refuses). */
  function FirstRefusal(snaps: seq<VmSnap>): (n: nat)
    ensures n <= |snaps|
    ensures forall j :: 0 <= j < n ==> !Refuses(snaps[j].process)
    ensures n < |snaps| ==> Refuses(snaps[n].process)
    decreases |snaps|
  {
    if snaps == [] || Refuses(snaps[0].process) then 0
    else
      var n := 1 + FirstRefusal(snaps[1..]);
      assert forall j :: 1 <= j < n ==> snaps[j] == snaps[1..][j - 1];
      n
  }

  /** The files after the clean-up of each of the stopped instances, in order. */
  function SweepFiles(files: map<string, Content>, failing: set<string>, snaps: seq<VmSnap>): map<string, Content>
    decreases |snaps|
  {
    if snaps == [] then files
    else
      var last := snaps[|snaps| - 1];
      AfterCleanup(SweepFiles(files, failing, snaps[..|snaps| - 1]), failing, last.socket, last.disk, last.vmId)
  }

  /** Sweeping one more instance cleans up its files after those of the instances before it. */
  lemma SweepFilesStep(files: map<string, Content>, failing: set<string>, snaps: seq<VmSnap>, i: nat)
    requires i < |snaps|
    ensures SweepFiles(files, failing, snaps[..i + 1])
         == AfterCleanup(SweepFiles(files, failing, snaps[..i]), failing, snaps[i].socket, snaps[i].disk, snaps[i].vmId)
  {
    assert snaps[..i + 1][..i] == snaps[..i];
    assert snaps[..i + 1][i] == snaps[i];
  }

  /** The files an instance owns: its socket, its shared disk and its configuration file. */
  function Owned(v: VmSnap): set<string> {
    (if v.socket.Some? then {v.socket.value} else {}) + (if v.disk.Some? then {v.disk.value} else {}) + {ConfigPath(v.vmId)}
  }

  /** The files the given instances own between them. */
  function AllOwned(snaps: seq<VmSnap>): (r: set<string>)
    ensures forall j :: 0 <= j < |snaps| ==> Owned(snaps[j]) <= r
    decreases |snaps|
  {
    if snaps == [] then {}
    else
      var r := AllOwned(snaps[..|snaps| - 1]) + Owned(snaps[|snaps| - 1]);
      assert forall j :: 0 <= j < |snaps| - 1 ==> snaps[j] == snaps[..|snaps| - 1][j];
      r
  }

  /**
   * The sweep removes exactly the removable files the stopped instances
   * own, and keeps every other file as it was.
   */
  lemma {:induction false} SweepFilesMeaning(files: map<string, Content>, failing: set<string>, snaps: seq<VmSnap>)
    ensures var r := SweepFiles(files, failing, snaps);
      && (forall p :: p in r <==> p in files && !(p in AllOwned(snaps) && p !in failing))
      && (forall p :: p in r ==> r[p] == files[p])
    decreases |snaps|
  {
    if snaps != [] {
      var init := snaps[..|snaps| - 1];
      var last := snaps[|snaps| - 1];
      SweepFilesMeaning(files, failing, init);
      AfterCleanupMeaning(SweepFiles(files, failing, init), failing, last.socket, last.disk, last.vmId);
    }
  }

  /** What `get_vm_status` reports (the float memory and CPU figures are not modelled). */
  datatype VmStatus = VmStatus(vmId: string, running: bool, pid: Option<nat>, memoryMb: int, vcpus: int)

  /** The status dict: five figures, the pid as None exactly when there is no process. */
  function StatusJson(st: VmStatus): (r: Json)
    ensures r.Obj? && |r.fields| == 5
    ensures r.fields[2] == ("pid", Null) <==> st.pid.None?
  {
    Obj([("vm_id", Str(st.vmId)), ("running", Bool(st.running)),
         ("pid", if st.pid.Some? then Int(st.pid.value) else Null),
         ("memory_mb", Int(st.memoryMb)), ("vcpus", Int(st.vcpus))])
  }

  /** Each figure of the status can be read back under its own key. */
  lemma StatusJsonFields(st: VmStatus)
    ensures var r := StatusJson(st);
      && Get(r, "vm_id") == Some(Str(st.vmId)) && Get(r, "running") == Some(Bool(st.running))
      && Get(r, "pid") == Some(if st.pid.Some? then Int(st.pid.value) else Null)
      && Get(r, "memory_mb") == Some(Int(st.memoryMb)) && Get(r, "vcpus") == Some(Int(st.vcpus))
  {
    var fields := StatusJson(st).fields;
    StatusField(fields, 0, "vm_id");
    StatusField(fields, 1, "running");
    StatusField(fields, 2, "pid");
    StatusField(fields, 3, "memory_mb");
    StatusField(fields, 4, "vcpus");
  }

  /** The `i`-th of five fields with the status keys is found under its key. */
  lemma StatusField(fields: seq<(string, Json)>, i: nat, key: string)
    requires |fields| == 5 && i < 5
    requires fields[0].0 == "vm_id" && fields[1].0 == "running" && fields[2].0 == "pid"
    requires fields[3].0 == "memory_mb" && fields[4].0 == "vcpus"
    requires key == fields[i].0
    ensures Lookup(fields, key) == Some(fields[i].1)
  {
    forall j | 0 <= j < i ensures fields[j].0 != key {
      assert |fields[j].0| != |key| || fields[j].0[1] != key[1];
    }
    LookupFirst(fields, i, key);
  }

  /** The requests `stop_vm` makes of a process still running; the kill path waits again. */
  function TerminationRequests(p: Proc): (r: seq<Request>)
    ensures r == [] <==> !p.live
    ensures p.live ==> r[0] == Terminate
    ensures Kill in r <==> p.live && p.onTerminate == Lingers
  {
    if !p.live then []
    else
      match p.onTerminate
      case Exits => [Terminate, WaitFor]
      case Lingers => [Terminate, WaitFor, Kill, WaitFor]
      case AlreadyGone => [Terminate]
      case Refused => [Terminate]
  }

  /** Why `create_vm` raised. */
  datatype CreateError =
    | InvalidTask(error: Validation.ValidationError)
    | DiskFailed
    | ImagesNotPath   // the `TypeError` of `str / str` in `_generate_vm_config`

  /** Why `start_vm` raised. */
  datatype StartError =
    | ConfigNotWritten
    | SocketNotRemoved
    | LaunchFailed(launch: Launcher.LaunchError)
    | ManifestNotWritten
    | PutFailed(path: string, put: FirecrackerClient.PutError)

  /** A PUT to the Firecracker API: the URL and the JSON body. */
  datatype Put = Put(url: string, body: Json)

  class VmInstance {
    const vmId: string
    var config: Option<VmConfig>
    var process: Option<Proc>
    var socketPath: Option<string>
    var sharedDiskPath: Option<string>
    var tapName: Option<string>
    /** The `provider_response` attribute, which exists only when the task data carried one. */
    var providerResponse: Option<Json>

    constructor (vmId: string)
      ensures this.vmId == vmId
      ensures config.None? && process.None? && socketPath.None? && sharedDiskPath.None? && tapName.None?
      ensures providerResponse.None?
    {
      this.vmId := vmId;
      config := None;
      process := None;
      socketPath := None;
      sharedDiskPath := None;
      tapName := None;
      providerResponse := None;
    }

    /** `get_vm_status`: running when the process is still alive and can be inspected. */
    function Status(s: Settings): (st: VmStatus)
      reads this
      ensures st.vmId == vmId && st.memoryMb == s.memoryMb && st.vcpus == s.vcpus
      ensures process.None? ==> !st.running && st.pid.None?
      ensures process.Some? ==> st.pid == Some(process.value.pid)
      ensures st.running <==> process.Some? && process.value.live && process.value.inspectable
    {
      match process
      case None => VmStatus(vmId, false, None, s.memoryMb, s.vcpus)
      case Some(p) => VmStatus(vmId, p.live && p.inspectable, Some(p.pid), s.memoryMb, s.vcpus)
    }
  }

  class VmManager {
    const settings: Settings
    const fs: FileSystem
    var activeVms: Dict<VmInstance>

    /** Every instance is registered under its own id. */
    predicate Valid()
      reads this
    {
      activeVms.Valid() && forall k :: k in activeVms.entries ==> activeVms.entries[k].vmId == k
    }

    constructor (settings: Settings, fs: FileSystem)
      ensures Valid()
      ensures this.settings == settings && this.fs == fs && activeVms == Empty()
    {
      this.settings := settings;
      this.fs := fs;
      activeVms := Empty();
    }

    /** `_write_manifest`: the document goes to the `.tmp` file, which is then renamed onto the manifest. */
    method WriteManifest(vmId: string, providerResponse: Option<Json>, now: string, state: string) returns (ok: bool)
      modifies fs
      ensures var tmp := ManifestTmpPath(settings, vmId);
        var final := ManifestPath(settings, vmId);
        && (ok <==> tmp !in fs.failing && final !in fs.failing)
        && fs.files == AfterAtomicWrite(old(fs.files), fs.failing, tmp, final, ManifestDocument(settings, vmId, providerResponse, now, state))
    {
      ManifestPathsDiffer(settings, vmId);
      ok := AtomicWrite(fs, ManifestTmpPath(settings, vmId), ManifestPath(settings, vmId),
                        ManifestDocument(settings, vmId, providerResponse, now, state));
    }

    /**
     * `create_vm`. The task data is validated and the provider called (see
     * `PrepareTask`); then the instance is filled in, the shared disk created
     * (its failure propagates), the guest artifacts prepared and the
     * `pending` manifest written (failures of these two are swallowed), and
     * the instance registered. `task` is the caller's task data afterwards.
     */
    method CreateVm(vmId: string, taskData: Option<Json>, world: ProviderWorld, diskOk: bool, artifactsOk: bool, now: string)
      returns (r: Result<VmInstance, CreateError>, task: Option<Json>)
      requires Valid()
      modifies this, fs
      ensures Valid()
      ensures var prep := PrepareTask(taskData, world);
        && (prep.Err? ==> r == Err(prep.error) && task == taskData && fs.files == old(fs.files))
        && (prep.Ok? ==> task == prep.value.task)
      ensures r.Err? ==> activeVms == old(activeVms)
      ensures r.Ok? ==> fresh(r.value)
      ensures PrepareTask(taskData, world).Ok? ==>
        Built(r, old(activeVms), activeVms, fs.files, old(fs.files), fs.failing, settings, vmId,
              PrepareTask(taskData, world).value.providerResponse, diskOk, artifactsOk, now)
    {
      var prep := PrepareTask(taskData, world);
      if prep.Err? {
        return Err(prep.error), taskData;
      }
      task := prep.value.task;
      r := BuildAndRegister(vmId, prep.value.providerResponse, diskOk, artifactsOk, now);
    }

    /**
     * The rest of `create_vm`: the shared disk (its failure propagates), the
     * configuration, the guest artifacts and the `pending` manifest
     * (failures of these two are swallowed), then registration. The
     * instance's fields are filled in as each is known; nothing observes
     * the instance before it is registered.
     */
    method BuildAndRegister(vmId: string, providerResponse: Option<Json>, diskOk: bool, artifactsOk: bool, now: string)
      returns (r: Result<VmInstance, CreateError>)
      requires Valid()
      modifies this, fs
      ensures Valid()
      ensures r.Err? ==> activeVms == old(activeVms)
      ensures r.Ok? ==> fresh(r.value)
      ensures Built(r, old(activeVms), activeVms, fs.files, old(fs.files), fs.failing, settings, vmId, providerResponse,
                    diskOk, artifactsOk, now)
    {
      var made := Provision(vmId, diskOk, artifactsOk);
      if made.Err? {
        return Err(made.error);
      }
      var vm := Register(vmId, providerResponse, made.value.0, made.value.1, now);
      r := Ok(vm);
    }

    /** The end of `create_vm`: the `pending` manifest (a failure is swallowed), then the new instance is registered. */
    method Register(vmId: string, providerResponse: Option<Json>, disk: string, config: VmConfig, now: string)
      returns (vm: VmInstance)
      requires Valid()
      modifies this, fs
      ensures Valid()
      ensures fresh(vm) && activeVms == old(activeVms).Put(vmId, vm)
      ensures vm.vmId == vmId && vm.process.None? && vm.providerResponse == providerResponse
      ensures vm.tapName == Some(TapName(vmId)) && vm.socketPath == Some(SocketPath(vmId))
      ensures vm.sharedDiskPath == Some(disk) && vm.config == Some(config)
      ensures fs.files == AfterAtomicWrite(old(fs.files), fs.failing, ManifestTmpPath(settings, vmId), ManifestPath(settings, vmId),
                                           ManifestDocument(settings, vmId, providerResponse, now, "pending"))
    {
      var _ := WriteManifest(vmId, providerResponse, now, "pending");
      vm := NewInstance(vmId, providerResponse, disk, config);
      activeVms := activeVms.Put(vmId, vm);
    }

    /** The instance `create_vm` fills in: its tap device, API socket, shared disk and configuration, and no process yet. */
    static method NewInstance(vmId: string, providerResponse: Option<Json>, disk: string, config: VmConfig) returns (vm: VmInstance)
      ensures fresh(vm) && vm.vmId == vmId && vm.process.None? && vm.providerResponse == providerResponse
      ensures vm.tapName == Some(TapName(vmId)) && vm.socketPath == Some(SocketPath(vmId))
      ensures vm.sharedDiskPath == Some(disk) && vm.config == Some(config)
    {
      vm := new VmInstance(vmId);
      vm.providerResponse := providerResponse;
      vm.tapName := Some(TapName(vmId));
      vm.socketPath := Some(SocketPath(vmId));
      vm.sharedDiskPath := Some(disk);
      vm.config := Some(config);
    }

    /**
     * The shared disk, the configuration and the guest artifacts of
     * `create_vm`: the disk failure and the configuration's `TypeError`
     * propagate; otherwise the recorded disk path and configuration, where
     * an artifact failure only leaves the plain disk and configuration.
     */
    method Provision(vmId: string, diskOk: bool, artifactsOk: bool) returns (made: Result<(string, VmConfig), CreateError>)
      modifies fs
      ensures made.Err? <==> !diskOk || SharedDiskPath(vmId) in fs.failing || !settings.imagesIsPath
      ensures made.Err? ==>
        && made.error == (if !diskOk || SharedDiskPath(vmId) in fs.failing then DiskFailed else ImagesNotPath)
        && fs.files == Written(old(fs.files), fs.failing, SharedDiskPath(vmId), Opaque)
      ensures made.Ok? ==>
        && made.value == Provisioned(settings, vmId, ArtifactsReady(settings, vmId, fs.failing, artifactsOk))
        && fs.files == ArtifactFiles(old(fs.files)[SharedDiskPath(vmId) := Opaque], fs.failing, settings, vmId, artifactsOk)
    {
      var disk := SharedDiskPath(vmId);
      var ok := fs.Write(disk, Opaque);
      if !ok || !diskOk {
        return Err(DiskFailed);
      }
      var generated := GenerateVmConfigAsWritten(settings, disk, TapName(vmId));
      if generated.Err? {
        return Err(generated.error);
      }
      var config := generated.value;
      var tar := GuestTarPath(settings, vmId);
      var tarWritten := fs.Write(tar, Opaque);
      if !tarWritten || !artifactsOk {
        return Ok((disk, config));
      }
      var img := InitImgPath(settings, vmId);
      var imgWritten := fs.Write(img, InitImageContent(settings));
      if !imgWritten {
        return Ok((disk, config));
      }
      return Ok((tar, config.(initImg := Some(img))));
    }

    /**
     * `start_vm`. The API key goes onto the kernel command line, the
     * configuration is written and a stale socket removed (failures of these
     * propagate as they are). Inside the `try`: the launcher starts the VM
     * with the kernel and root image as extra arguments, the manifest moves
     * to `running`, and the boot source and machine configuration are PUT
     * to the API socket. A failure there writes the `failed` manifest
     * (swallowing its own failure) and propagates. `spawned`, `bootReply` and
     * `machineReply` are what the process start and the two PUTs produced;
     * `puts` are the requests made and `states` the manifest states written.
     */
    method StartVm(vm: VmInstance, apiKey: Option<string>, jailer: Option<string>, spawned: Option<Proc>,
                   bootReply: Http.Reply, machineReply: Http.Reply, now: string)
      returns (r: Result<Proc, StartError>, puts: seq<Put>, states: seq<string>)
      requires vm.config.Some? && |vm.config.value.drives| >= 1 && vm.socketPath.Some?
      modifies vm`config, vm`process, fs
      ensures vm.config == Some(WithApiKey(old(vm.config.value), apiKey))
      ensures vm.socketPath == old(vm.socketPath) && vm.sharedDiskPath == old(vm.sharedDiskPath)
      ensures vm.tapName == old(vm.tapName) && vm.providerResponse == old(vm.providerResponse)
      ensures r == Err(ConfigNotWritten) <==> ConfigPath(vm.vmId) in fs.failing
      ensures r == Err(ConfigNotWritten) ==> fs.files == old(fs.files)
      ensures r == Err(SocketNotRemoved) ==> vm.socketPath.value in fs.failing
      ensures r == Err(ConfigNotWritten) || r == Err(SocketNotRemoved) ==> puts == [] && states == [] && vm.process == old(vm.process)
      ensures var api := ApiCalls(vm.socketPath.value, vm.config.value, bootReply, machineReply);
        && (r.Ok? ==> && spawned.Some? && r.value == spawned.value && vm.process == Some(spawned.value)
                      && states == ["running"] && api.failure.None? && puts == api.puts)
        && (r.Err? && r.error.PutFailed? ==> && states == ["running", "failed"] && vm.process == spawned
                                             && api.failure == Some(r.error) && puts == api.puts)
      ensures r.Err? && r.error.LaunchFailed? ==> states == ["failed"] && puts == [] && vm.process == old(vm.process)
      ensures spawned.None? ==> r.Err?
      ensures r.Err? && r.error.ManifestNotWritten? ==> states == ["running", "failed"] && puts == [] && vm.process == spawned
      ensures var written := old(fs.files)[ConfigPath(vm.vmId) := Document(ConfigJson(vm.config.value))];
        && (r == Err(SocketNotRemoved) <==> ConfigPath(vm.vmId) !in fs.failing && vm.socketPath.value in written
                                            && vm.socketPath.value in fs.failing)
        && (r == Err(SocketNotRemoved) ==> fs.files == written)
        && (r != Err(ConfigNotWritten) && r != Err(SocketNotRemoved) ==>
              fs.files == ManifestTrail(Launcher.LaunchFiles(written - {vm.socketPath.value}, fs.failing,
                                                             Launcher.ResultsDir(settings.results, vm.vmId), spawned),
                                        fs.failing, settings, vm.vmId, vm.providerResponse, now, states))
    {
      puts := [];
      states := [];
      var ok := WriteConfig(vm, apiKey);
      if !ok {
        return Err(ConfigNotWritten), puts, states;
      }
      var config := vm.config.value;
      var configPath := ConfigPath(vm.vmId);
      r, puts, states := ClearSocketAndLaunch(vm, config, configPath, jailer, spawned, bootReply, machineReply, now);
    }

    /** The start of `start_vm`: the API key goes onto the kernel command line and the configuration is written out. */
    method WriteConfig(vm: VmInstance, apiKey: Option<string>) returns (ok: bool)
      requires vm.config.Some?
      modifies vm`config, fs
      ensures vm.config == Some(WithApiKey(old(vm.config.value), apiKey))
      ensures ok <==> ConfigPath(vm.vmId) !in fs.failing
      ensures fs.files == if ok then old(fs.files)[ConfigPath(vm.vmId) := Document(ConfigJson(vm.config.value))] else old(fs.files)
    {
      vm.config := Some(WithApiKey(vm.config.value, apiKey));
      ok := fs.Write(ConfigPath(vm.vmId), Document(ConfigJson(vm.config.value)));
    }

    /** The part of `start_vm` after the configuration is written: the stale socket goes, then the `try`. */
    method ClearSocketAndLaunch(vm: VmInstance, config: VmConfig, configPath: string, jailer: Option<string>,
                                spawned: Option<Proc>, bootReply: Http.Reply, machineReply: Http.Reply, now: string)
      returns (r: Result<Proc, StartError>, puts: seq<Put>, states: seq<string>)
      requires |config.drives| >= 1 && vm.socketPath.Some?
      modifies vm`process, fs
      ensures r != Err(ConfigNotWritten)
      ensures r == Err(SocketNotRemoved) <==> vm.socketPath.value in old(fs.files) && vm.socketPath.value in fs.failing
      ensures r == Err(SocketNotRemoved) ==> fs.files == old(fs.files) && puts == [] && states == [] && vm.process == old(vm.process)
      ensures var api := ApiCalls(vm.socketPath.value, config, bootReply, machineReply);
        && (r.Ok? ==> && spawned.Some? && r.value == spawned.value && vm.process == Some(spawned.value)
                      && states == ["running"] && api.failure.None? && puts == api.puts)
        && (r.Err? && r.error.PutFailed? ==> && states == ["running", "failed"] && vm.process == spawned
                                             && api.failure == Some(r.error) && puts == api.puts)
      ensures r.Err? && r.error.LaunchFailed? ==> states == ["failed"] && puts == [] && vm.process == old(vm.process)
      ensures spawned.None? ==> r.Err?
      ensures r.Err? && r.error.ManifestNotWritten? ==> states == ["running", "failed"] && puts == [] && vm.process == spawned
      ensures r != Err(SocketNotRemoved) ==>
        fs.files == ManifestTrail(Launcher.LaunchFiles(old(fs.files) - {vm.socketPath.value}, fs.failing,
                                                       Launcher.ResultsDir(settings.results, vm.vmId), spawned),
                                  fs.failing, settings, vm.vmId, vm.providerResponse, now, states)
    {
      ghost var before := fs.files;
      var socket := vm.socketPath.value;
      if socket in fs.files {
        var ok := fs.Remove(socket);
        if !ok {
          return Err(SocketNotRemoved), [], [];
        }
      }
      assert fs.files == before - {socket};
      r, puts, states := LaunchAndConfigure(vm, config, configPath, jailer, spawned, bootReply, machineReply, now);
    }

    /** The `try` of `start_vm` and its handler. */
    method LaunchAndConfigure(vm: VmInstance, config: VmConfig, configPath: string, jailer: Option<string>,
                              spawned: Option<Proc>, bootReply: Http.Reply, machineReply: Http.Reply, now: string)
      returns (r: Result<Proc, StartError>, puts: seq<Put>, states: seq<string>)
      requires |config.drives| >= 1 && vm.socketPath.Some?
      modifies vm`process, fs
      ensures var api := ApiCalls(vm.socketPath.value, config, bootReply, machineReply);
        && (r.Ok? ==> && spawned.Some? && r.value == spawned.value && vm.process == Some(spawned.value)
                      && states == ["running"] && api.failure.None? && puts == api.puts)
        && (r.Err? && r.error.PutFailed? ==> && states == ["running", "failed"] && vm.process == spawned
                                             && api.failure == Some(r.error) && puts == api.puts)
      ensures r.Err? ==> r.error.LaunchFailed? || r.error.ManifestNotWritten? || r.error.PutFailed?
      ensures r.Err? && r.error.LaunchFailed? ==> states == ["failed"] && puts == [] && vm.process == old(vm.process)
      ensures spawned.None? ==> r.Err? && r.error.LaunchFailed?
      ensures r.Err? && r.error.ManifestNotWritten? ==> states == ["running", "failed"] && puts == [] && vm.process == spawned
      ensures var dir := Launcher.ResultsDir(settings.results, vm.vmId);
        && (r.Err? && r.error.LaunchFailed? <==> Launcher.LaunchResult(fs.failing, dir, spawned).Err?)
        && (r.Err? && r.error.LaunchFailed? ==> r.error.launch == Launcher.LaunchResult(fs.failing, dir, spawned).error)
        && fs.files == ManifestTrail(Launcher.LaunchFiles(old(fs.files), fs.failing, dir, spawned), fs.failing,
                                     settings, vm.vmId, vm.providerResponse, now, states)
    {
      var launched, _ := Launcher.StartLauncher(fs, vm.vmId, configPath, settings.results, settings.useJailer, jailer,
                                                [config.kernelImagePath, config.drives[0].pathOnHost], spawned);
      ghost var launchedFiles := fs.files;
      if launched.Err? {
        var _ := WriteManifest(vm.vmId, vm.providerResponse, now, "failed");
        ManifestTrailAppend(launchedFiles, fs.failing, settings, vm.vmId, vm.providerResponse, now, [], "failed");
        assert [] + ["failed"] == ["failed"];
        return Err(LaunchFailed(launched.error)), [], ["failed"];
      }
      var proc := launched.value.0;
      vm.process := Some(proc);
      r, puts, states := Configure(vm.vmId, vm.providerResponse, vm.socketPath.value, config, proc, bootReply, machineReply, now);
    }

    /**
     * The launched part of `start_vm`'s `try`: the `running` manifest, then
     * the two PUTs; any failure writes the `failed` manifest and propagates.
     */
    method Configure(vmId: string, providerResponse: Option<Json>, socket: string, config: VmConfig, proc: Proc,
                     bootReply: Http.Reply, machineReply: Http.Reply, now: string)
      returns (r: Result<Proc, StartError>, puts: seq<Put>, states: seq<string>)
      modifies fs
      ensures var api := ApiCalls(socket, config, bootReply, machineReply);
        && (r.Ok? ==> r.value == proc && states == ["running"] && api.failure.None? && puts == api.puts)
        && (r.Err? && r.error.PutFailed? ==> states == ["running", "failed"] && api.failure == Some(r.error) && puts == api.puts)
      ensures r.Err? ==> r.error.ManifestNotWritten? || r.error.PutFailed?
      ensures r.Err? && r.error.ManifestNotWritten? ==> states == ["running", "failed"] && puts == []
      ensures r == Err(ManifestNotWritten) <==> ManifestTmpPath(settings, vmId) in fs.failing || ManifestPath(settings, vmId) in fs.failing
      ensures fs.files == ManifestTrail(old(fs.files), fs.failing, settings, vmId, providerResponse, now, states)
    {
      states := ["running"];
      puts := [];
      ghost var files0 := fs.files;
      var ok := WriteManifest(vmId, providerResponse, now, "running");
      ManifestTrailAppend(files0, fs.failing, settings, vmId, providerResponse, now, [], "running");
      assert [] + ["running"] == ["running"];
      if !ok {
        r := Err(ManifestNotWritten);
      } else {
        var api := ApiCalls(socket, config, bootReply, machineReply);
        puts := api.puts;
        if api.failure.None? {
          return Ok(proc), puts, states;
        }
        r := Err(api.failure.value);
      }
      states := states + ["failed"];
      var _ := WriteManifest(vmId, providerResponse, now, "failed");
      ManifestTrailAppend(files0, fs.failing, settings, vmId, providerResponse, now, ["running"], "failed");
      assert ["running"] + ["failed"] == ["running", "failed"];
    }

    /**
     * `stop_vm`. A live process is terminated and waited for; one that
     * outlives the shutdown timeout is killed and waited for again, and one
     * already gone is ignored. A refused signal (`PermissionError`)
     * propagates before anything is cleaned up. Otherwise the socket, the
     * recorded shared disk and the configuration file are removed where they
     * exist (failures swallowed), and the VM is dropped from the registry.
     */
    method StopVm(vm: VmInstance) returns (r: Result<bool, string>, requests: seq<Request>)
      requires Valid()
      modifies this, vm`process, fs
      ensures Valid()
      ensures requests == if old(vm.process).Some? then TerminationRequests(old(vm.process).value) else []
      ensures vm.process == if old(vm.process).Some? then Some(Launcher.AfterStop(old(vm.process).value)) else None
      ensures r.Err? <==> old(vm.process).Some? && old(vm.process).value.live && old(vm.process).value.onTerminate == Refused
      ensures r.Err? ==> activeVms == old(activeVms) && fs.files == old(fs.files)
      ensures r.Ok? ==> activeVms.entries == old(activeVms.entries) - {vm.vmId}
      ensures r.Ok? ==>
        && activeVms == old(activeVms).Remove(vm.vmId)
        && fs.files == AfterCleanup(old(fs.files), fs.failing, vm.socketPath, vm.sharedDiskPath, vm.vmId)
    {
      requests := [];
      r := Ok(true);
      if vm.process.Some? {
        var p := vm.process.value;
        requests := TerminationRequests(p);
        vm.process := Some(Launcher.AfterStop(p));
        if p.live && p.onTerminate == Refused {
          return Err("PermissionError"), requests;
        }
      }
      CleanupVmFiles(vm);
      activeVms := activeVms.Remove(vm.vmId);
    }

    /** `_cleanup_vm_files`: each of the three files is removed if it exists; a failure is logged and skipped. */
    method CleanupVmFiles(vm: VmInstance)
      modifies fs
      ensures fs.files == AfterCleanup(old(fs.files), fs.failing, vm.socketPath, vm.sharedDiskPath, vm.vmId)
    {
      UnlinkIfExists(fs, vm.socketPath);
      UnlinkIfExists(fs, vm.sharedDiskPath);
      UnlinkIfExists(fs, Some(ConfigPath(vm.vmId)));
    }

    /**
     * The state of `cleanup_all_vms` after the first `i` instances of the
     * snapshot were stopped: their files are cleaned up and their keys are
     * gone; the first `signalled` of them hold their stopped processes (one
     * more than `i` when a refused stop has just signalled its process); the
     * rest are untouched.
     */
    ghost predicate Swept(vms: seq<VmInstance>, ks: seq<string>, snaps: seq<VmSnap>, i: nat, signalled: nat,
                          entries0: map<string, VmInstance>, files0: map<string, Content>)
      reads this, fs, vms
    {
      && i <= |vms| == |ks| == |snaps|
      && Valid()
      && OrderedDict.Distinct(ks)
      && (forall j :: 0 <= j < |ks| ==> vms[j].vmId == ks[j] == snaps[j].vmId)
      && (forall j :: 0 <= j < |ks| ==> vms[j].socketPath == snaps[j].socket && vms[j].sharedDiskPath == snaps[j].disk)
      && (forall j :: 0 <= j < |ks| ==> vms[j].process == if j < signalled then StoppedProcess(snaps[j].process) else snaps[j].process)
      && activeVms.keys == ks[i..]
      && (forall k :: k in activeVms.entries ==> k in entries0 && activeVms.entries[k] == entries0[k])
      && fs.files == SweepFiles(files0, fs.failing, snaps[..i])
    }

    /**
     * `cleanup_all_vms`: stops every registered VM, oldest first, over a
     * snapshot of the registry. A refused stop propagates and ends the
     * sweep: the VMs before it are stopped, cleaned up and forgotten, the
     * refusing one has been signalled, and the rest are untouched.
     */
    method CleanupAllVms() returns (r: Result<bool, string>)
      requires Valid()
      modifies this, fs, activeVms.Values()
      ensures Valid()
      ensures var vms := old(activeVms.Values());
        var snaps := old(Snapshots(activeVms.Values()));
        var n := FirstRefusal(snaps);
        && |snaps| == |vms|
        && (r.Ok? <==> n == |snaps|)
        && activeVms.keys == old(activeVms.keys)[n..]
        && (forall k :: k in activeVms.entries ==> activeVms.entries[k] == old(activeVms.entries)[k])
        && fs.files == SweepFiles(old(fs.files), fs.failing, snaps[..n])
        && (forall i :: 0 <= i < |snaps| ==> vms[i].process == if i <= n then StoppedProcess(snaps[i].process) else snaps[i].process)
    {
      var ks := activeVms.keys;
      var vms := activeVms.Values();
      ghost var snaps := Snapshots(vms);
      assert snaps == old(Snapshots(activeVms.Values())) && vms == old(activeVms.Values()) && ks == old(activeVms.keys);
      ghost var n := FirstRefusal(snaps);
      ghost var entries0, files0 := activeVms.entries, fs.files;
      SweptStart(vms, ks, snaps);
      var i := 0;
      while i < |vms|
        invariant i <= n
        invariant Swept(vms, ks, snaps, i, i, entries0, files0)
      {
        r := StopAt(vms[i], vms, ks, snaps, i, entries0, files0);
        if r.Err? {
          assert i == n;
          return;
        }
        assert i < n;
        i := i + 1;
      }
      assert i == n;
      r := Ok(true);
    }

    /** Before the sweep nothing is stopped: every instance is registered under its id, in snapshot order. */
    lemma SweptStart(vms: seq<VmInstance>, ks: seq<string>, snaps: seq<VmSnap>)
      requires Valid() && ks == activeVms.keys && vms == activeVms.Values() && snaps == Snapshots(vms)
      ensures Swept(vms, ks, snaps, 0, 0, activeVms.entries, fs.files)
    {
      assert snaps[..0] == [];
    }

    /**
     * One step of `cleanup_all_vms`: `stop_vm` on the `i`-th instance of the
     * snapshot. The two outcomes of `stop_vm` are proved apart, so the step
     * first asks whether the instance's process will refuse the signal.
     */
    method StopAt(vm: VmInstance, ghost vms: seq<VmInstance>, ghost ks: seq<string>, ghost snaps: seq<VmSnap>, ghost i: nat,
                  ghost entries0: map<string, VmInstance>, ghost files0: map<string, Content>)
      returns (r: Result<bool, string>)
      requires Swept(vms, ks, snaps, i, i, entries0, files0) && i < |vms| && vm == vms[i]
      modifies this, fs, vm`process
      ensures r.Err? <==> Refuses(snaps[i].process)
      ensures r.Ok? ==> Swept(vms, ks, snaps, i + 1, i + 1, entries0, files0)
      ensures r.Err? ==> Swept(vms, ks, snaps, i, i + 1, entries0, files0)
    {
      if vm.process.Some? && vm.process.value.live && vm.process.value.onTerminate == Refused {
        r := StopRefused(vm, vms, ks, snaps, i, entries0, files0);
      } else {
        r := StopGranted(vm, vms, ks, snaps, i, entries0, files0);
      }
    }

    /** `stop_vm` on the `i`-th instance when its process refuses the signal: only the process changes. */
    method StopRefused(vm: VmInstance, ghost vms: seq<VmInstance>, ghost ks: seq<string>, ghost snaps: seq<VmSnap>, ghost i: nat,
                       ghost entries0: map<string, VmInstance>, ghost files0: map<string, Content>)
      returns (r: Result<bool, string>)
      requires Swept(vms, ks, snaps, i, i, entries0, files0) && i < |vms| && vm == vms[i]
      requires Refuses(vm.process)
      modifies this, fs, vm`process
      ensures r.Err? && Swept(vms, ks, snaps, i, i + 1, entries0, files0)
    {
      var requests;
      r, requests := StopVm(vm);
      assert activeVms == old(activeVms) && fs.files == old(fs.files);
      OthersDiffer(vms, ks, i);
    }

    /** `stop_vm` on the `i`-th instance when its process takes the signal: the instance is cleaned up and forgotten. */
    method StopGranted(vm: VmInstance, ghost vms: seq<VmInstance>, ghost ks: seq<string>, ghost snaps: seq<VmSnap>, ghost i: nat,
                       ghost entries0: map<string, VmInstance>, ghost files0: map<string, Content>)
      returns (r: Result<bool, string>)
      requires Swept(vms, ks, snaps, i, i, entries0, files0) && i < |vms| && vm == vms[i]
      requires !Refuses(vm.process)
      modifies this, fs, vm`process
      ensures r.Ok? && Swept(vms, ks, snaps, i + 1, i + 1, entries0, files0)
    {
      var requests;
      r, requests := StopVm(vm);
      OthersDiffer(vms, ks, i);
      SweepFilesStep(files0, fs.failing, snaps, i);
      DropFirst(ks[i..]);
      assert ks[i..][1..] == ks[i + 1..];
      assert activeVms.keys == ks[i + 1..];
    }

    /** Instances registered under distinct ids are distinct objects. */
    static lemma OthersDiffer(vms: seq<VmInstance>, ks: seq<string>, i: nat)
      requires i < |vms| == |ks| && OrderedDict.Distinct(ks)
      requires forall j :: 0 <= j < |ks| ==> vms[j].vmId == ks[j]
      ensures forall j :: 0 <= j < |ks| && j != i ==> vms[j] != vms[i]
    {
      forall j | 0 <= j < |ks| && j != i
        ensures vms[j] != vms[i]
      {
        assert vms[j].vmId == ks[j] != ks[i] == vms[i].vmId;
      }
    }

    /** Removing the oldest key of a registry leaves the keys after it. */
    static lemma DropFirst(ks: seq<string>)
      requires OrderedDict.Distinct(ks) && ks != []
      ensures OrderedDict.Without(ks, ks[0]) == ks[1..]
    {
      assert ks[0] !in ks[1..];
      OrderedDict.WithoutAbsent(ks[1..], ks[0]);
    }
  }
}
