/**
 * The checks config_manager.py runs on top of the schema (paths, network,
 * resource limits), the way `validate_config` reports their failures, and
 * the flattening of a nested override dictionary into `a.b=value` strings.
 */
module ConfigManager {
  import opened Wrappers
  import opened Text
  import opened Json
  import opened Ipv4
  import Files

  /** The exception raised inside `validate_config`'s `try`. */
  datatype Raised =
    | ValidationError(message: string)  // omegaconf's ValidationError
    | NetmaskError                      // ipaddress.NetmaskValueError, raised through by the network check
    | OtherError(message: string)       // any other exception, such as omegaconf's ConfigKeyError

  /**
   * How `OmegaConf.merge` of the schema with the loaded configuration
   * failed: a value of the wrong type is a `ValidationError`; an unknown key
   * (`ConfigKeyError`) and the rest are other exceptions.
   */
  datatype MergeError = MergeValidation(message: string) | MergeOther(message: string)

  /** The exception a failed merge raises. */
  function MergeRaised(e: MergeError): (r: Raised)
    ensures r.ValidationError? <==> e.MergeValidation?
    ensures !r.NetmaskError? && r.message == e.message
  {
    match e
    case MergeValidation(m) => ValidationError(m)
    case MergeOther(m) => OtherError(m)
  }

  /** What `validate_config` lets escape. */
  datatype ConfigFailure =
    | ValidationFailed(message: string)   // ValidationError("Configuration validation failed: ...")
    | ConfigurationError(cause: Raised)   // ConfigurationError("Unexpected validation error: ...")

  /** The settings the business checks read from the merged configuration. */
  datatype Settings = Settings(ubuntuImages: string, networkCidr: string, memoryMb: int, timeout: int, bootTimeout: int)

  /** `_validate_paths`: the image directory, then the kernel, then the root file system must exist. */
  function ValidatePaths(s: Settings, exists_: string -> bool): (r: Option<Raised>)
    ensures r.None? <==> exists_(s.ubuntuImages) && exists_(Files.PathJoin(s.ubuntuImages, "vmlinux.bin"))
                         && exists_(Files.PathJoin(s.ubuntuImages, "ubuntu-rootfs.ext4"))
    ensures r.Some? ==> r.value.ValidationError?
  {
    var kernel := Files.PathJoin(s.ubuntuImages, "vmlinux.bin");
    var rootfs := Files.PathJoin(s.ubuntuImages, "ubuntu-rootfs.ext4");
    if !exists_(s.ubuntuImages) then
      Some(ValidationError("Ubuntu images directory not found: " + s.ubuntuImages + ". Run setup_vm_images_ubuntu.sh first."))
    else if !exists_(kernel) then Some(ValidationError("VM kernel not found: " + kernel))
    else if !exists_(rootfs) then Some(ValidationError("VM rootfs not found: " + rootfs))
    else None
  }

  /**
   * `_validate_network_settings`: the CIDR must parse and be private. A
   * malformed address is reported as a validation error; a malformed mask
   * is not caught there and escapes as an unexpected error.
   */
  function ValidateNetworkSettings(cidr: string): (r: Option<Raised>)
    ensures r.None? <==> ParseNetwork(cidr).Ok? && IsPrivate(ParseNetwork(cidr).value)
    ensures r == Some(NetmaskError) <==> ParseNetwork(cidr) == Err(NetmaskValueError)
    ensures ParseNetwork(cidr) == Err(AddressValueError) ==> r == Some(ValidationError("Invalid CIDR format: " + cidr))
  {
    match ParseNetwork(cidr)
    case Err(AddressValueError) => Some(ValidationError("Invalid CIDR format: " + cidr))
    case Err(NetmaskValueError) => Some(NetmaskError)
    case Ok(n) => if IsPrivate(n) then None else Some(ValidationError("VM network must be private: " + cidr))
  }

  /** The shipped default network is rejected by the network check. */
  lemma DefaultCidrRejected()
    ensures ValidateNetworkSettings("172.50.0.0/24") == Some(ValidationError("VM network must be private: " + "172.50.0.0/24"))
  {
    DefaultNetworkParses();
    DefaultNetworkNotPrivate();
    PublicRejected("172.50.0.0/24", Network(2888957952, 24));
  }

  lemma PublicRejected(cidr: string, n: Network)
    requires ParseNetwork(cidr) == Ok(n) && !IsPrivate(n)
    ensures ValidateNetworkSettings(cidr) == Some(ValidationError("VM network must be private: " + cidr))
  {
  }

  /** The outcome of `_validate_resource_limits`: whether it warned, and what it raised. */
  datatype LimitCheck = LimitCheck(warned: bool, raised: Option<Raised>)

  /**
   * `_validate_resource_limits`: more than 8192 MB only warns; a VM timeout
   * below the boot timeout is an error. The warning is issued first, so it
   * is issued even when the check then raises.
   */
  function ValidateResourceLimits(s: Settings): (r: LimitCheck)
    ensures r.warned <==> s.memoryMb > 8192
    ensures r.raised.None? <==> s.timeout >= s.bootTimeout
    ensures r.raised.Some? ==> r.raised.value == ValidationError("VM timeout must be greater than boot timeout")
  {
    LimitCheck(s.memoryMb > 8192,
               if s.timeout < s.bootTimeout then Some(ValidationError("VM timeout must be greater than boot timeout")) else None)
  }

  /** The result of `validate_config`, with whether a memory warning was issued along the way. */
  datatype Validation = Validation(warned: bool, outcome: Option<ConfigFailure>)

  function Wrap(e: Raised): (r: ConfigFailure)
    ensures e.ValidationError? ==> r == ValidationFailed("Configuration validation failed: " + e.message)
    ensures !e.ValidationError? ==> r == ConfigurationError(e)
  {
    match e
    case ValidationError(m) => ValidationFailed("Configuration validation failed: " + m)
    case _ => ConfigurationError(e)
  }

  /**
   * `validate_config`: the schema merge (an abstract outcome: the merged
   * settings or how the merge failed), then paths, network and resource
   * limits in that order. The first failure stops the sequence and is
   * reported through `Wrap`.
   */
  function ValidateConfig(merged: Result<Settings, MergeError>, exists_: string -> bool): (r: Validation)
    ensures r.outcome.None? <==> merged.Ok? && ValidatePaths(merged.value, exists_).None?
                                 && ValidateNetworkSettings(merged.value.networkCidr).None?
                                 && ValidateResourceLimits(merged.value).raised.None?
    ensures r.warned ==> merged.Ok? && merged.value.memoryMb > 8192
    ensures r.outcome.Some? && r.outcome.value.ConfigurationError?
            ==> r.outcome.value.cause == NetmaskError || (merged.Err? && merged.error.MergeOther?)
    ensures merged.Err? && merged.error.MergeValidation?
            ==> r.outcome == Some(ValidationFailed("Configuration validation failed: " + merged.error.message))
    ensures merged.Err? && merged.error.MergeOther?
            ==> r.outcome == Some(ConfigurationError(OtherError(merged.error.message)))
  {
    match merged
    case Err(e) => Validation(false, Some(Wrap(MergeRaised(e))))
    case Ok(s) =>
      if ValidatePaths(s, exists_).Some? then Validation(false, Some(Wrap(ValidatePaths(s, exists_).value)))
      else if ValidateNetworkSettings(s.networkCidr).Some? then Validation(false, Some(Wrap(ValidateNetworkSettings(s.networkCidr).value)))
      else
        var limits := ValidateResourceLimits(s);
        Validation(limits.warned, if limits.raised.Some? then Some(Wrap(limits.raised.value)) else None)
  }

  /** Whatever the images and limits, the shipped default network makes validation fail. */
  lemma DefaultCidrFailsValidation(s: Settings, exists_: string -> bool)
    requires s.networkCidr == "172.50.0.0/24"
    ensures ValidateConfig(Ok(s), exists_).outcome.Some?
  {
    DefaultCidrRejected();
  }

  // ----- create_override_list -----

  /** `f"{prefix}.{key}" if prefix else key`. */
  function FullKey(prefix: string, key: string): (r: string)
    ensures prefix == "" ==> r == key
    ensures prefix != "" ==> prefix + "." <= r && r[|prefix| + 1..] == key
  {
    if prefix != "" then prefix + "." + key else key
  }

  /**
   * The override strings for the entries of dict `d` from index `from` on:
   * a dict value contributes its own entries under the longer prefix, any
   * other value one `path=value` string, depth first in key order.
   */
  function Flatten(d: Json, prefix: string, from: nat): seq<string>
    requires d.Obj? && from <= |d.fields|
    decreases d, |d.fields| - from
  {
    if from == |d.fields| then []
    else
      var entry := d.fields[from];
      assert entry in d.fields;
      var key := FullKey(prefix, entry.0);
      (if entry.1.Obj? then Flatten(entry.1, key, 0) else [key + "=" + PyStr(entry.1)])
      + Flatten(d, prefix, from + 1)
  }

  /** One step of `Flatten`: entry `i`'s strings come before those of the later entries. */
  lemma FlattenStep(d: Json, prefix: string, i: nat, out: seq<string>)
    requires d.Obj? && i < |d.fields|
    ensures var entry := d.fields[i];
            var full := FullKey(prefix, entry.0);
            out + Flatten(d, prefix, i) ==
            (if entry.1.Obj? then out + Flatten(entry.1, full, 0) else out + [full + "=" + PyStr(entry.1)])
            + Flatten(d, prefix, i + 1)
  {
    var entry := d.fields[i];
    assert entry in d.fields;
    var full := FullKey(prefix, entry.0);
    var head := if entry.1.Obj? then Flatten(entry.1, full, 0) else [full + "=" + PyStr(entry.1)];
    var rest := Flatten(d, prefix, i + 1);
    assert Flatten(d, prefix, i) == head + rest;
    assert out + (head + rest) == (out + head) + rest;
  }

  /** The recursive closure `_flatten_dict`, appending to the shared list. */
  method FlattenInto(d: Json, prefix: string, acc: seq<string>) returns (out: seq<string>)
    requires d.Obj?
    ensures out == acc + Flatten(d, prefix, 0)
    decreases d
  {
    out := acc;
    var i := 0;
    while i < |d.fields|
      invariant 0 <= i <= |d.fields|
      invariant out + Flatten(d, prefix, i) == acc + Flatten(d, prefix, 0)
    {
      var entry := d.fields[i];
      var full := FullKey(prefix, entry.0);
      FlattenStep(d, prefix, i, out);
      if entry.1.Obj? {
        assert entry in d.fields;
        out := FlattenInto(entry.1, full, out);
      } else {
        out := out + [full + "=" + PyStr(entry.1)];
      }
      i := i + 1;
    }
  }

  /** `create_override_list`. */
  method CreateOverrideList(overrides: Json) returns (r: seq<string>)
    requires overrides.Obj?
    ensures r == Flatten(overrides, "", 0)
  {
    r := FlattenInto(overrides, "", []);
  }

  /** A dict with no nested dicts gives one `key=value` string per entry, in order. */
  lemma {:induction false} FlattenFlat(d: Json, prefix: string, from: nat)
    requires d.Obj? && from <= |d.fields|
    requires forall i :: from <= i < |d.fields| ==> !d.fields[i].1.Obj?
    ensures |Flatten(d, prefix, from)| == |d.fields| - from
    ensures forall i :: from <= i < |d.fields| ==>
              Flatten(d, prefix, from)[i - from] == FullKey(prefix, d.fields[i].0) + "=" + PyStr(d.fields[i].1)
    decreases |d.fields| - from
  {
    if from < |d.fields| {
      FlattenFlat(d, prefix, from + 1);
      var rest := Flatten(d, prefix, from + 1);
      var entry := d.fields[from];
      var all := Flatten(d, prefix, from);
      assert all == [FullKey(prefix, entry.0) + "=" + PyStr(entry.1)] + rest;
      forall i | from < i < |d.fields|
        ensures all[i - from] == FullKey(prefix, d.fields[i].0) + "=" + PyStr(d.fields[i].1)
      {
        assert all[i - from] == rest[i - (from + 1)];
      }
    }
  }

  /** Under a non-empty prefix every string starts with the prefix and a dot: nested keys are dot-joined. */
  lemma {:induction false} FlattenUnderPrefix(d: Json, prefix: string, from: nat)
    requires d.Obj? && from <= |d.fields| && prefix != ""
    ensures forall s :: s in Flatten(d, prefix, from) ==> prefix + "." <= s
    decreases d, |d.fields| - from
  {
    if from < |d.fields| {
      var entry := d.fields[from];
      assert entry in d.fields;
      var key := FullKey(prefix, entry.0);
      FlattenUnderPrefix(d, prefix, from + 1);
      if entry.1.Obj? {
        FlattenUnderPrefix(entry.1, key, 0);
        forall s | s in Flatten(entry.1, key, 0)
          ensures prefix + "." <= s
        {
          assert key <= s;
          assert prefix + "." <= key;
        }
      }
    }
  }

  /** Number of non-dict leaves below index `from`; nested dicts count only through their leaves. */
  function Leaves(d: Json, from: nat): nat
    requires d.Obj? && from <= |d.fields|
    decreases d, |d.fields| - from
  {
    if from == |d.fields| then 0
    else
      var entry := d.fields[from];
      assert entry in d.fields;
      (if entry.1.Obj? then Leaves(entry.1, 0) else 1) + Leaves(d, from + 1)
  }

  /** One override string per leaf: an empty nested dict contributes none. */
  lemma {:induction false} FlattenCountsLeaves(d: Json, prefix: string, from: nat)
    requires d.Obj? && from <= |d.fields|
    ensures |Flatten(d, prefix, from)| == Leaves(d, from)
    decreases d, |d.fields| - from
  {
    if from < |d.fields| {
      var entry := d.fields[from];
      assert entry in d.fields;
      FlattenCountsLeaves(d, prefix, from + 1);
      if entry.1.Obj? {
        FlattenCountsLeaves(entry.1, FullKey(prefix, entry.0), 0);
      }
    }
  }
}
