# Firecracker task runner, modelled in Dafny

This project models the control logic of a small Python system that runs
coding tasks inside Firecracker microVMs. Every shell command, HTTP call,
spawn and file operation it issues is an abstract action here: the model
receives its outcome as a parameter, or reads and writes an in-memory file
system, and proves what the Python code does with it.

What is modelled, one Dafny module per Python file:

- `VmManager` (`vm_manager.py`): the `active_vms` registry, the manifest
  state machine (`pending`, `running`, `failed`, written through a `.tmp`
  file and a rename), VM creation, start, stop, status and clean-up.
- `NetworkManager` (`network_manager.py`): the per-VM table of tap
  interfaces, gateway and VM address arithmetic, the private-network check,
  the `ip route show default` parser, NAT rules and teardown.
- `Orchestrator` (`firecracker_orchestrator.py`): the legacy single-VM
  orchestrator's key check, VM configuration, networking set-up and
  teardown, start/stop outcomes, task-result shaping and the result-file
  string processing (safe file names, language detection, fenced-code
  extraction).
- `McpServer` (`mcp_server.py`): token loading, checking and rotation,
  bearer extraction, start/stop/list/create/result handlers with their HTTP
  status codes.
- `ProviderClient`, `Providers`, `ProviderResolver`: the retry loop with
  linear back-off, provider dispatch and response normalisation, and URL
  resolution (environment, then configuration, then default).
- `Validation`: the MCPTaskRequest JSON Schema and its validator.
- `FirecrackerClient`, `Launcher`: the control-socket PUT rule and the
  launcher's command choice, logs, pid file and stop sequence.
- `ConfigSchema`, `ConfigManager`: the configuration range checks, the
  network and resource-limit checks and the override flattening.
- `McpToken`: the token command-line tool.

Shared helper modules: `Wrappers` (Option, Result), `Text` (Python string
operations: `split`, `strip`, `lower`, `isalnum`, ...), `Json` (Python
values as JSON, with `str`/`repr` and truthiness), `OrderedDict`
(insertion-ordered dicts), `Files` (a mutable file system with failing
paths), `Host` and `Process` (commands and processes as oracles), `Http`,
and `Ipv4` (the parts of Python's `ipaddress` the code uses, with the
`is_private` table of Python 3.12).

The five source defects found while stating the contracts are listed under
"## Findings"; each has an as-written member with a lemma that exhibits it
and a corrected member that the rest of the model uses.

## Model

| member | source | states |
|---|---|---|
| ProviderClient.PostWithRetries | provider_client.py:10-20 | attempts are numbered from 1 and at most `retries` are made; the result is the body of the first attempt that passes `raise_for_status`, every earlier attempt failed and none follows; when all fail the last failure is raised (and `retries <= 0` raises the `None` it still holds); the k-th pause is `backoff * k`, one after every failed attempt including the last |
| ProviderClient.AttemptsFirstSuccess | provider_client.py:12-16 | the loop succeeds exactly when some attempt numbered from `k` to `retries` succeeds |
| ProviderClient.SleepsIncrease | provider_client.py:19 | with a positive back-off the pauses strictly increase |
| Providers.OrDefault | providers/__init__.py:44 | Python's `x or default`: a missing or empty string gives the default, any other the string |
| Providers.EnsureSchemeMeaning | providers/__init__.py:32-37 | `_ensure_scheme` gives None exactly for a missing or empty URL; otherwise the result starts with `http://` or `https://` and ends with the input, a URL that already has a scheme is unchanged, and the function is idempotent |
| Providers.CallPlanShape | providers/__init__.py:40-59 | `call_provider` makes at most one client call and then one POST of `{model, prompt}`; the client is tried exactly for `ollama` with its module loaded, or for `openai` with a non-empty `OPENAI_API_KEY` and its module loaded; the POST goes to the scheme-completed URL or the provider's default endpoint, which is the OpenAI one for every provider but `ollama`, so the `ValueError` is never reached |
| Providers.ClientAnswerWins | providers/__init__.py:40-44 | when the client call returns, it is the only call made: no POST follows, and the answer is the client's |
| Providers.EnsureScheme | providers/__init__.py:32-37 | None exactly for a missing or empty URL; any other result starts with `http://` or `https://` |
| Providers.CallsMade | providers/__init__.py:40-59 | the calls made are a non-empty prefix of the plan: every call before the last raised, and the last returned or was the POST |
| Providers.CallProvider | providers/__init__.py:40-59 | the answer is that of a planned call; an exception that escapes is the POST's |
| Providers.PostDecides | providers/__init__.py:45-48 | without a client, or when the client raises, the answer (or the exception) is that of the POST |
| Providers.ViaSchema | providers/__init__.py:80-98 | when the pydantic path succeeds the record has exactly `text`, `choices` and `raw`: the text by precedence, the choices when they are a list, and the input as `raw` |
| Providers.CanonicalRecord | providers/__init__.py:96-98 | the three-field record holds the given text, choices and raw input |
| Providers.Fallback | providers/__init__.py:103-117 | the best-effort path keeps the input under `raw` |
| Providers.NormalizeProviderResponse | providers/__init__.py:69-117 | the result always holds the input under `raw`; a non-dict input gives `{text: str(resp), raw: resp}` |
| Providers.NormalizeCanonical | providers/__init__.py:84-98 | when the canonical record can be built it is the answer, with its three fields as above |
| Providers.NormalizeRaisesIff | providers/__init__.py:105-107 | normalisation raises exactly for a dict whose non-empty `choices` list starts with a dict whose `text` is falsy and whose `message` is present but not a dict |
| ProviderResolver.ResolvePrecedence | utils/provider_resolver.py:20-36 | a non-empty `<PROVIDER>_URL` wins; otherwise a non-empty configured URL; otherwise the default; each source is used exactly when the earlier ones offer nothing |
| ProviderResolver.ResolveProviderUrl | utils/provider_resolver.py:15-36 | `ollama` and `openai` always resolve; a resolved URL is never empty and is an environment value, a configured URL or the default |
| ProviderResolver.ValidateFrom | utils/provider_resolver.py:49-55 | `validate_providers` maps exactly the required names, each to whether its URL resolves |
| ProviderResolver.Missing | utils/provider_resolver.py:60 | the missing list holds exactly the names whose flag is false |
| ProviderResolver.EnsureProviders | utils/provider_resolver.py:58-62 | returns exactly when every required provider resolves; otherwise raises a `ValueError` whose message starts with `Missing provider URL for: ` |
| ProviderResolver.MissingExactly | utils/provider_resolver.py:58-62 | the names `ensure_providers` lists are exactly the required providers that do not resolve, and there are none exactly when all resolve |
| FirecrackerClient.UnixSocketUrl | firecracker_client.py:13-18 | the URL is `http+unix://`, the socket path, a colon and the API path |
| FirecrackerClient.PutJson | firecracker_client.py:21-37 | True exactly for status 204; an `HTTPError` carrying the status exactly for 400 to 599; False for every other status; a request that gets no reply raises |
| FirecrackerClient.OtherSuccessIsFalse | firecracker_client.py:34-37 | a 2xx other than 204, or a 3xx, is reported as False without raising |
| Launcher.LauncherCommandChoice | launcher.py:26-36 | the jailer command when the jailer is wanted and found; else the development script with the VM id, the config path and the extra arguments when the script exists; else `/bin/sleep 60` |
| Launcher.JailerOnlyWhenWanted | launcher.py:26 | without `use_jailer` the jailer lookup has no effect on the command |
| Launcher.ExtraArgsOnlyForDevLauncher | launcher.py:33-34 | the extra arguments matter only in the development-script branch |
| Launcher.PidTextReadsBack | launcher.py:50-51 | the pid file's text is the decimal pid and reads back as it |
| Launcher.StartLauncher | launcher.py:21-53 | the command is the jailer's, the dev launcher's (when its file exists) or `/bin/sleep 60`; success exactly when the child spawns and `launcher.out`, `launcher.err` and `launcher.pid` can be written, returning the process and `results_root/vm_id`; on every path the files are those the launch leaves (see `LaunchMeaning`), the pid file only after a spawn |
| Launcher.LauncherCommand | launcher.py:26-36 | the command has at least two words: `/bin/sleep 60`, or a launcher command naming the vm id and the configuration path |
| Launcher.LaunchMeaning | launcher.py:38-51 | the launch succeeds exactly when the child spawns and the out, err and pid files can be written; then the two logs are empty and the pid file holds the pid; only those three files change, and the pid file not at all without a spawn |
| Launcher.StopRequestsMeaning | launcher.py:57-65 | only a live process is signalled, terminate first; a kill is sent exactly when the graceful stop did not finish; the process survives only when both signals were refused |
| Launcher.StopLauncher | launcher.py:56-72 | the signals are those above; the pid file is removed when present and removable, and no other file changes; it never raises |
| Validation.Violations | validation.py:31-35 | the validator finds no violation exactly when the instance satisfies the schema |
| Validation.RequiredErrors | validation.py:10 | `required` reports nothing exactly when every required name is present |
| Validation.PropertyErrors | validation.py:11-18 | `properties` reports nothing exactly when every declared property that is present satisfies its subschema |
| Validation.AdditionalErrors | validation.py:17 | `additionalProperties` reports nothing exactly when every undeclared member satisfies it |
| Validation.StringValuesFrom | validation.py:17 | the `env_overrides` subschema holds exactly when every value is a string |
| Validation.TypeOnlyMeaning | validation.py:12-16 | a `type`-only subschema holds exactly when the value has that JSON type (booleans are not integers) |
| Validation.TypedPropertyStep | validation.py:12-16 | one typed property holds exactly when it is absent or has its type |
| Validation.EnvOverridesStep | validation.py:17 | `env_overrides`, when present, must be an object of strings |
| Validation.ProviderStep | validation.py:14 | `provider`, when present, must be `"openai"` or `"ollama"` |
| Validation.McpPropertiesMeaning | validation.py:11-18 | the `properties` keyword holds exactly when each declared field that is present has its type, `provider` is in the enum and `env_overrides` holds strings |
| Validation.McpSchemaMeaning | validation.py:8-19 | the schema accepts exactly the objects with `task_id`, `prompt` and `provider`, with the field types above; undeclared keys are unconstrained |
| Validation.ValidateMcpRequest | validation.py:22-37 | True exactly for a well-formed payload; otherwise a `ValidationError` whose message starts with `Invalid MCPTaskRequest: ` |
| McpToken.ReadToken | scripts/mcp_token.py:21-28 | a non-empty `MCP_AUTH_TOKEN`, else the stripped file text when the file exists, else the empty string |
| McpToken.ReadBackWrittenToken | scripts/mcp_token.py:21-54 | a written token without whitespace reads back unchanged |
| McpToken.WriteToken | scripts/mcp_token.py:31-54 | the write succeeds exactly when neither the temporary file nor the token file fails, and then only the token file changes, to the token; otherwise nothing changes |
| McpToken.RotateLocal | scripts/mcp_token.py:57-62 | exit 0 and the new token printed and stored when the write succeeds, else exit 2 with nothing changed |
| McpToken.WithScheme | scripts/mcp_token.py:70-71 | the URL starts with `http`; one that did is unchanged, any other gets `http://` |
| McpToken.RotateEndpoint | scripts/mcp_token.py:72 | the endpoint is the scheme-completed URL with trailing slashes removed, then `/v1/token/rotate` |
| McpToken.WithSchemeIdempotent | scripts/mcp_token.py:70-71 | completing the scheme twice is completing it once |
| McpToken.RotateRemote | scripts/mcp_token.py:65-90 | no request without a current token; otherwise one POST to the endpoint with `Bearer <token>`; exit 0 exactly for a reply whose JSON has `token`, 1 for any other reply, 2 without a token or when the request fails |
| McpToken.RunCommand | scripts/mcp_token.py:97-110 | `main`: 1 for fewer than two arguments or an unknown command; `show` prints the token and gives 0; `rotate-remote` without a URL gives 2, with one the remote outcome; `rotate-local` gives 0 exactly when the write succeeds; only a successful local rotation changes a file |
| ConfigSchema.CheckVm | config/schema.py:25-34 | valid exactly when memory is 128 to 16384 MB, vCPUs 1 to 32 and the timeout at least 10, with the first failing check's message |
| ConfigSchema.CheckOpenAi | config/schema.py:63-78 | valid exactly when `max_tokens` is 1 to 4096, the temperature 0 to 2, the timeout at least 5 and the model one of the five listed, with the first failing check's message |
| ConfigSchema.CheckLogging | config/schema.py:92-101 | valid exactly when the upper-cased level and the format are allowed; the stored level is upper-cased |
| ConfigSchema.CheckLoggingIdempotent | config/schema.py:97 | checking a checked logging section again changes nothing |
| ConfigSchema.LevelCaseInsensitive | config/schema.py:95-97 | the level is accepted case-insensitively |
| ConfigSchema.CheckNetwork | config/schema.py:124-129 | valid exactly when the tap prefix is non-empty, alphanumeric and at most 10 characters; the empty prefix fails the alphanumeric check |
| ConfigSchema.CheckTasks | config/schema.py:139-144 | valid exactly when the default timeout is at least 10 and the retries 0 to 10 |
| ConfigSchema.CheckResults | config/schema.py:155-164 | valid exactly when the file-name length limit is 10 to 200 and the template contains `{vm_id}` |
| ConfigSchema.FirstHardFailure | config/schema.py:197-211 | directory creation fails only for an error other than a permission error, and reports a directory that failed |
| ConfigSchema.BuildConfig | config/schema.py:188-211 | the constructor stores the sections as given and runs only its own checks: it accepts exactly when no section it reads is a plain dict, `vm.timeout` does not exceed `tasks.default_timeout` and no directory creation fails other than by a permission error; a plain `vm` dict fails reading `timeout`; an accepted configuration is unchanged |
| ConfigSchema.ValidateConfig | config/schema.py:226-244 | `validate_config` accepts exactly what the constructor accepts, unchanged, and prefixes its error with `Configuration validation failed: ` |
| ConfigSchema.BuildSections | config/schema.py:25-164 | building the section dataclasses succeeds exactly when every section's own check passes, normalising the logging level; a failing VM check is the error |
| ConfigSchema.PlainDictSectionsRejected | config/schema.py:191 | as written, a configuration whose `vm` section is a plain dict is rejected whatever it holds: reading `vm.timeout` fails first |
| ConfigSchema.SectionChecksSkipped | config/schema.py:241 | as written, a configuration with a 1 MB VM, which `VMConfig` refuses, passes `validate_config` when its sections are OmegaConf nodes |
| ConfigSchema.ValidateConfigChecked | config/schema.py:226-244 | corrected: accepted exactly when every section check passes, the VM timeout fits and directory creation succeeds; a VM check failure comes back with the prefix |
| ConfigSchema.CheckedAcceptsDefaults | config/schema.py:16-186 | the corrected validation accepts the defaults unchanged |
| ConfigSchema.ValidateConfigCheckedIdempotent | config/schema.py:226-244 | an accepted configuration is a fixed point of the corrected validation |
| ConfigSchema.DefaultsAccepted | config/schema.py:16-186 | the default configuration is accepted unchanged |
| ConfigSchema.GetOpenAiApiKey | config/schema.py:213-223 | the key is returned exactly when it is set and starts with `sk-`; a missing or empty key gives the "required" error |
| ConfigManager.ValidatePaths | config_manager.py:160-183 | passes exactly when the images directory, its `vmlinux.bin` and its `ubuntu-rootfs.ext4` exist; otherwise a `ValidationError` |
| ConfigManager.ValidateNetworkSettings | config_manager.py:185-202 | passes exactly for a CIDR that parses and is private; a bad address is "Invalid CIDR format", a bad mask escapes as a `NetmaskValueError` |
| ConfigManager.DefaultCidrRejected | config_manager.py:195-199 | the shipped default `172.50.0.0/24` is rejected as not private |
| ConfigManager.PublicRejected | config_manager.py:198-199 | every parsable public network is rejected with the "must be private" message |
| ConfigManager.ValidateResourceLimits | config_manager.py:204-219 | memory above 8192 MB only warns; a timeout below the boot timeout raises |
| ConfigManager.Wrap | config_manager.py:155-158 | a `ValidationError` is re-raised with the "Configuration validation failed" prefix, anything else becomes a `ConfigurationError` |
| ConfigManager.MergeRaised | config_manager.py:148-158 | a failed merge raises a `ValidationError` exactly for a schema violation, never a mask error, with the merge's message |
| ConfigManager.ValidateConfig | config_manager.py:143-158 | passes exactly when the merge, the paths, the network and the limits all pass; a merge `ValidationError` is re-raised with the prefix; any other merge failure, and a mask error, become `ConfigurationError`; a warning only for memory above 8192 MB |
| ConfigManager.DefaultCidrFailsValidation | config_manager.py:152 | any configuration with the default CIDR fails validation |
| ConfigManager.FullKey | config_manager.py:300 | the key itself at top level, else the prefix, a dot and the key |
| ConfigManager.FlattenStep | config_manager.py:299-305 | one entry contributes its nested strings (a dict) or one `path=value` string before those of the later entries |
| ConfigManager.FlattenInto | config_manager.py:298-305 | the recursive closure appends exactly the flattened entries to the list it is given |
| ConfigManager.CreateOverrideList | config_manager.py:280-308 | `create_override_list` returns the flattening of the dict, depth first in key order |
| ConfigManager.FlattenFlat | config_manager.py:299-305 | a dict without nested dicts gives one `key=value` string per entry, in order |
| ConfigManager.FlattenUnderPrefix | config_manager.py:300-303 | under a prefix every string starts with the prefix and a dot |
| ConfigManager.FlattenCountsLeaves | config_manager.py:302-305 | there is one string per non-dict leaf: nested dicts add no entry of their own |
| Ipv4.ParseNetwork | network_manager.py:66 | `IPv4Network(text, strict=False)` yields only networks whose address is aligned to the prefix; more than one `/` or a bad address is an `AddressValueError`, a bad mask a `NetmaskValueError` |
| Ipv4.ParseMask | network_manager.py:66 | the mask is a prefix length of at most 32, given as a number, a netmask or a host mask; anything else is a `NetmaskValueError` |
| Ipv4.MaskAddress | network_manager.py:104 | `strict=False` clears the host bits: the result is the largest multiple of the block size not above the address |
| Ipv4.ParseFormatAddress | network_manager.py:105 | printing an address and parsing it back gives the address |
| Ipv4.ParseAddress | network_manager.py:66 | `IPv4Address` accepts only canonical dotted quads: an accepted address prints back as its own text |
| Ipv4.CanonicalAddress | network_manager.py:66 | four octet texts that parse give octets below 256, and the address prints back as the text |
| Ipv4.ParseFormatNetwork | network_manager.py:299 | printing a network (`str(network)`) and parsing it back gives the network |
| Ipv4.MaskAligned | network_manager.py:299 | re-parsing a stored network leaves its address unchanged |
| Ipv4.AddOffset | network_manager.py:105 | `network_address + k` is an address exactly when it stays below 2^32, else an `AddressValueError` |
| Ipv4.GatewayAndGuestInside | network_manager.py:105-132 | for a prefix of at most 30 the gateway (+1) and the VM address (+2) exist and lie inside the network |
| Ipv4.Rfc1918IsPrivate | network_manager.py:67 | every network inside one of the three RFC 1918 blocks is private |
| Ipv4.IsPrivate | network_manager.py:67 | `is_private` holds only for networks with a prefix of at least 4 |
| Ipv4.WithinPrivateRange | network_manager.py:67 | no network wider than a /4 lies inside one of the private ranges |
| Ipv4.DefaultNetworkParses | network_manager.py:66 | the shipped default `172.50.0.0/24` parses to the network 172.50.0.0 with prefix 24 |
| Ipv4.DefaultNetworkNotPrivate | network_manager.py:67 | that network is not private: 172.50.0.0 lies outside 172.16.0.0/12 |
| DefaultRoute.DefaultInterfaceFrom | network_manager.py:216-241 | a route command that cannot start raises; a failing one gives None; otherwise the device of the first line that yields one |
| DefaultRoute.IndexOf | network_manager.py:232 | `parts.index('dev')`: the first position of the word, or None exactly when it is absent |
| DefaultRoute.FirstDeviceIsFirst | network_manager.py:228-238 | the device found comes from a line that yields one, and no earlier line yields one; none is found exactly when no line yields one |
| DefaultRoute.LineDeviceIsWord | network_manager.py:229-234 | a device is a whitespace-free word of a line that contains `default` |
| DefaultRoute.LegacyAgrees | firecracker_orchestrator.py:325-331 | when the orchestrator's inline parser does not raise it finds the same device as the network manager's |
| DefaultRoute.LegacyRaisesIff | firecracker_orchestrator.py:325-331 | the inline parser raises `ValueError` exactly when, before any line yields a device, a line mentions `default` and `dev` but has no `dev` word |
| DefaultRoute.LegacyDefaultDevice | firecracker_orchestrator.py:325-331 | where the inline parser does not raise it finds the network manager's device for the same output |
| DefaultRoute.DevInsideWordDiffers | network_manager.py:229-236 | a line where `dev` is only part of a word (e.g. `default via ... dev0`) makes the inline parser raise and the network manager's skip it |
| NetworkManager.ValidateNetworkConfig | network_manager.py:63-70 | the configured network is accepted exactly when it parses and is private; a public network and a bad mask are told apart |
| NetworkManager.DefaultNetworkRefused | network_manager.py:63-70 | the shipped default `172.50.0.0/24` makes construction raise |
| NetworkManager.TapSetupStoresOnlyOnSuccess | network_manager.py:127-147 | a record is stored exactly when the TAP name is returned |
| NetworkManager.TapSetupSuccess | network_manager.py:92-140 | on success the four interface commands ran in order with the gateway (network + 1) and the original prefix length; the record holds the TAP name `tap<vm_id>`, the given CIDR, the gateway and the VM address (network + 2) |
| NetworkManager.PlanTapSetup | network_manager.py:72-150 | a record exactly when the TAP name is returned, holding that name and the given CIDR; a bad mask raises, any parse error issues nothing; at most the four interface commands, the TAP created first |
| NetworkManager.StoredAddressesPlacement | network_manager.py:105-132 | the stored addresses lie inside the network for a prefix up to 30; for /31 and /32 the VM address lies outside it |
| NetworkManager.TapSetupSucceedsOnWorkingHost | network_manager.py:104-140 | on a host where every command succeeds, a network with a prefix up to 30 gives the TAP name |
| NetworkManager.TapLeakedOnLastPair | network_manager.py:104-150 | for 255.255.255.254/31 the TAP is created and configured, then `network_address + 2` overflows and the call returns None without recording the interface |
| NetworkManager.NatSetupTrueIff | network_manager.py:152-214 | NAT set-up returns True exactly when forwarding is enabled, a default interface is found and the three rules (MASQUERADE, FORWARD out, FORWARD in) for the configured network are added, in that order |
| NetworkManager.NatSetupWithoutDefaultRoute | network_manager.py:176-180 | without a default interface it returns False after enabling forwarding and adds no rule |
| NetworkManager.PlanNatSetup | network_manager.py:152-214 | forwarding is switched on first and never off; at most five commands; True only after all five, the route query second |
| NetworkManager.PlanCleanup | network_manager.py:243-313 | tearing down one interface never switches forwarding off |
| NetworkManager.CleanupCompletes | network_manager.py:253-313 | with commands that complete, teardown looks up the default route, deletes the three rules when it finds one, deletes the interface and drops the record |
| NetworkManager.CleanupDeletesCreatedTap | network_manager.py:264-266 | the interface teardown deletes is the one set-up created (created at network_manager.py lines 108-110) |
| NetworkManager.CleanupRulesMatchSetup | network_manager.py:299-306 | the deleted MASQUERADE rule names the network stored at attach time; it matches the added rule exactly when that is the configured network (rules added at lines 183-190) |
| NetworkManager.ProbeConnectivity | network_manager.py:336-383 | the result names the vm id; the interface counts as up only if it exists, and the gateway counts as assigned only if `ip addr show` completed and printed it |
| NetworkManager.NetworkManager.constructor | network_manager.py:48-70 | the manager keeps a private configured network and starts with no interfaces |
| NetworkManager.NetworkManager.SetupTapInterface | network_manager.py:72-150 | the configured network is used when none is given; the result and commands are those of the plan above, and the table gains the record (replacing any earlier one) exactly when set-up succeeds; every record names `tap<vm_id>` |
| NetworkManager.NetworkManager.SetupNatRouting | network_manager.py:152-214 | the NAT plan for the configured network; a True result added its MASQUERADE rule for that network |
| NetworkManager.NetworkManager.GetDefaultInterface | network_manager.py:216-241 | `_get_default_interface` issues `ip route show default` and parses its output |
| NetworkManager.NetworkManager.CleanupNetworking | network_manager.py:243-282 | an unknown vm id issues nothing and changes nothing; otherwise the teardown plan runs with the CIDR stored for the vm and the record is removed when teardown completes |
| NetworkManager.NetworkManager.ValidateNetworkConnectivity | network_manager.py:319-383 | all flags false for an unknown vm id; the table is only read |
| NetworkManager.NetworkManager.GetInterfaceInfo | network_manager.py:385-394 | the record stored for the vm id, None exactly when there is none |
| NetworkManager.NetworkManager.ListActiveInterfaces | network_manager.py:396-402 | a copy of the table: exactly the vm ids `get_interface_info` knows, with the same records |
| NetworkManager.NetworkManager.CleanupAllNetworking | network_manager.py:404-428 | over a snapshot of the table, in table order: exactly the records whose clean-up fails on this host stay, in their order and unchanged; the commands issued are each vm id's teardown in turn, then `ip_forward=0` exactly when the table ended empty |
| NetworkManager.NetworkManager.CleanupEach | network_manager.py:414-416 | the loop cleans up each vm id of the snapshot in turn, keeping the sweep invariant to the end |
| NetworkManager.NetworkManager.CleanupOne | network_manager.py:415-416 | one turn of the loop extends the sweep invariant by one vm id |
| NetworkManager.Cleaned | network_manager.py:243-282 | the vm ids whose records a teardown drops are exactly those whose clean-up succeeds on this host |
| NetworkManager.KeptKeys | network_manager.py:414-416 | the ids left are exactly the snapshot's ids not dropped, no more of them than before |
| NetworkManager.KeptAfter | network_manager.py:414-416 | a record stays exactly when it was there and was not dropped, and it stays unchanged |
| NetworkManager.SweepCommands | network_manager.py:414-416 | the teardowns of the loop never switch forwarding off |
| NetworkManager.SweepLeavesUncleanable | network_manager.py:404-428 | after the sweep a record stays exactly when its clean-up fails on this host, so the table ends empty, and forwarding is switched off, exactly when every clean-up succeeds |
| VmManager.ManifestPathsDiffer | vm_manager.py:232-236 | the temporary manifest and the manifest are different files |
| VmManager.GenerateVmConfig | vm_manager.py:238-283 | for an image directory that is a `Path`: the root file system drive comes first and is the root device, the shared drive second and not the root device; the kernel and root image lie under the image directory (bare names for `.`); the interface is the VM's tap; vCPUs and memory from the configuration |
| VmManager.GenerateVmConfigAsWritten | vm_manager.py:247-249 | as written: succeeds exactly when the image directory is a `Path`, with the corrected configuration; a plain string raises `TypeError` |
| VmManager.ImagesUnderDirectory | vm_manager.py:249-259 | for a non-empty image directory without a trailing slash, the kernel and root image lie in it after one separator |
| VmManager.ConfigReadBack | vm_manager.py:247-281 | the configuration document holds the boot source and the machine configuration, and an `init_img` entry exactly when one was recorded (written at line 187) |
| VmManager.WithApiKey | vm_manager.py:418-420 | a non-empty API key is appended to the boot arguments as `OPENAI_API_KEY=<key>`; nothing else in the configuration changes |
| VmManager.PathName | vm_manager.py:214 | `Path(...).name` is a slash-free part of the path and never `.` |
| VmManager.PathNameOfDot | vm_manager.py:214 | `Path(".").name` and `Path("./").name` are empty |
| VmManager.PathNameTrailingSlash | vm_manager.py:214 | a trailing separator does not change the name |
| VmManager.PathNameTrailingDot | vm_manager.py:214 | a trailing `/.` does not change the name |
| VmManager.LastComponent | vm_manager.py:214 | the last component is the slash-free tail after the final slash |
| VmManager.ManifestReadBack | vm_manager.py:212-229 | the manifest holds the vm id, the configured memory and vCPUs, `network_mode` `slirp`, the state, and `provider_response` exactly when one is recorded |
| VmManager.BaseLookups | vm_manager.py:212-220 | the fixed manifest fields hold those values and no `provider_response` |
| VmManager.ManifestOf | vm_manager.py:222-229 | the manifest carries the given state and vm id, and a provider response exactly when it is truthy |
| VmManager.AtomicWrite | vm_manager.py:232-236 | the write succeeds exactly when neither the temporary nor the final file fails; the files are as `AfterAtomicWrite` says |
| VmManager.AtomicWriteOutcome | vm_manager.py:232-236 | after a write and a rename the manifest holds the new document or its previous content; a temporary file is left behind only when the rename failed; a successful write leaves the document and no temporary file; no other file changes |
| VmManager.StartPuts | vm_manager.py:444-446 | `/boot-source` is PUT before `/machine-config`, each with its part of the configuration |
| VmManager.Provisioned | vm_manager.py:162-187 | once the guest archive is written the recorded shared disk is the archive and the configuration gains `init_img`; otherwise the disk image stays; the configuration is otherwise the generated one |
| VmManager.ApiCalls | vm_manager.py:444-446 | the PUTs pass exactly when neither raises; a raising boot-source PUT stops before the machine configuration; a PUT that returns False does not stop anything |
| VmManager.ProviderResponse | vm_manager.py:133-146 | the provider response is the dispatcher's answer for the resolved URL, or `{"error": message}` when the call raised |
| VmManager.PreparedTask | vm_manager.py:148-150 | the task data gains the provider response, `env_overrides` becomes `{}` when falsy, and every other key is unchanged |
| VmManager.PrepareTask | vm_manager.py:124-150 | falsy task data is left alone; otherwise invalid data raises the validator's error, and valid data is prepared with the provider response |
| VmManager.Unlink | vm_manager.py:515-541 | a file is removed when it exists and can be removed; otherwise nothing changes |
| VmManager.UnlinkIfExists | vm_manager.py:516-522 | one best-effort removal, with `OSError` swallowed |
| VmManager.AfterCleanupMeaning | vm_manager.py:509-541 | the socket, the shared disk and the configuration file are each removed independently when removable, and no other file changes |
| VmManager.TerminationRequests | vm_manager.py:479-491 | only a live process is signalled, terminate first, with a kill only after a timed-out wait |
| VmManager.VmInstance.constructor | vm_manager.py:54-60 | a new instance has its id and nothing else set |
| VmManager.VmInstance.Status | vm_manager.py:543-573 | `get_vm_status`: with no process not running and no pid; otherwise the pid, and running exactly when the process is alive and can be inspected (a failed inspection downgrades it) |
| VmManager.VmManager.constructor | vm_manager.py:81-92 | the registry starts empty |
| VmManager.VmManager.WriteManifest | vm_manager.py:208-236 | `_write_manifest` writes the manifest document for the state through the temporary file and the rename |
| VmManager.ManifestTrailAppend | vm_manager.py:208-236 | writing one more state extends the manifest trail by one atomic write |
| VmManager.ManifestTrailMeaning | vm_manager.py:208-236 | however many states are written, only the manifest and its temporary file change; where both can be written the manifest holds the last state and no temporary file is left; where the temporary file cannot be written nothing changes |
| VmManager.VmManager.CreateVm | vm_manager.py:99-206 | invalid task data raises before any instance exists, with the registry and files unchanged; otherwise `Built`: a disk failure, or an image directory that is a plain string, raises and leaves the registry; success registers a fresh instance with `tap<vm_id>`, the socket `/tmp/firecracker-<vm_id>.socket` and no process, and leaves the disk, the guest archive and init overlay as far as they were made, and the `pending` manifest where it could be written |
| VmManager.VmManager.BuildAndRegister | vm_manager.py:153-206 | the part of `create_vm` after validation, with the same `Built` outcome |
| VmManager.VmManager.Register | vm_manager.py:154-199 | the instance's fields are set, the `pending` manifest is written (a failure swallowed) and the instance is registered under its id |
| VmManager.VmManager.Provision | vm_manager.py:161-190 | a disk failure, or an image directory that is a plain string (`TypeError`), raises with only the disk written; otherwise the disk, and `guest.tar.gz` and `init-overlay.img` where the artifacts could be made, with the configuration recording them |
| VmManager.ArtifactFilesMeaning | vm_manager.py:166-190 | artifact preparation touches only the archive and the overlay; when both can be made they hold the archive and the overlay image; the overlay is never written without the archive |
| VmManager.VmManager.StartVm | vm_manager.py:392-462 | the key is added to the boot arguments; an unwritable configuration raises with nothing else changed; a stale socket that cannot be removed raises with only the configuration written; otherwise the files are the written configuration, less the socket, after the launch and the manifests of `states`: `running` on success, `running` then `failed` after a PUT or manifest failure, `failed` after a launch failure |
| VmManager.VmManager.WriteConfig | vm_manager.py:418-425 | the key goes onto the boot arguments and the configuration file is written exactly when it can be, nothing else changing |
| VmManager.VmManager.ClearSocketAndLaunch | vm_manager.py:427-462 | a stale socket that cannot be removed raises with nothing changed; otherwise the launch, PUTs and manifests as for `start_vm`, from the files less the socket |
| VmManager.VmManager.LaunchAndConfigure | vm_manager.py:432-460 | the launch, manifest and PUT steps with the `failed` rewrite on any exception; a launch failure exactly when the launcher fails; the files are the launcher's and then the manifests of `states` |
| VmManager.VmManager.Configure | vm_manager.py:440-446 | `running` is written before the two PUTs; a PUT that raises gives `running` then `failed`; a manifest failure exactly when its temporary or final file cannot be written; the files are those of the manifest writes |
| VmManager.VmManager.StopVm | vm_manager.py:464-507 | only a live process is signalled, with a kill after a timed-out wait; a refused signal propagates before anything is cleaned up; otherwise the three files are removed where possible and the vm id leaves the registry, and stopping an unregistered instance does not raise |
| VmManager.VmManager.CleanupVmFiles | vm_manager.py:509-541 | `_cleanup_vm_files` removes the three files as `AfterCleanup` says |
| VmManager.VmManager.CleanupAllVms | vm_manager.py:624-635 | over a snapshot of the registry, oldest first: the VMs before the first refusing one are stopped, cleaned up and forgotten, the refusing one is signalled and the error propagates, the rest are untouched; success exactly when none refuses, leaving the registry empty; the files are those the stopped VMs' clean-ups leave |
| VmManager.FirstRefusal | vm_manager.py:632-633 | the number of VMs stopped before the first that refuses the signal: none of those refuses, and the next one does |
| VmManager.SweepFilesMeaning | vm_manager.py:509-541 | the sweep removes exactly the removable files the stopped VMs own, and keeps every other file as it was |
| VmManager.VmManager.StopAt | vm_manager.py:632-633 | one turn: the stop fails exactly when the VM refuses the signal, and the sweep invariant advances accordingly |
| VmManager.VmManager.StopRefused | vm_manager.py:464-507 | a stop the process refuses raises after signalling, with only the process changed |
| VmManager.VmManager.StopGranted | vm_manager.py:464-507 | a stop the process takes cleans up the VM's files and forgets it |
| VmManager.StatusJson | vm_manager.py:552-558 | the status dict has five figures, the pid `None` exactly when there is no process |
| VmManager.StatusJsonFields | vm_manager.py:552-566 | each figure can be read back under its own key: `vm_id`, `running`, `pid`, `memory_mb`, `vcpus` |
| Orchestrator.ResolveApiKey | firecracker_orchestrator.py:96-99 | a key is found exactly when the argument or `OPENAI_API_KEY` is non-empty, the argument first; otherwise the "API key required" error |
| Orchestrator.CreateVmConfig | firecracker_orchestrator.py:121-174 | `create_vm_config` is the VM manager's document for the shared disk `/tmp/shared-<vm_id>.ext4` and `tap<vm_id>`, with the key in the boot arguments |
| Orchestrator.CreateVmConfigShape | firecracker_orchestrator.py:140-172 | the interface is `tap<vm_id>`; the root file system drive is first and the root device, the shared drive second; vCPUs and memory come from the configuration |
| Orchestrator.NatStep | firecracker_orchestrator.py:318-364 | the NAT part starts with the route query and, when it returns, returns the TAP name whatever the NAT commands did; the parser's `ValueError` escapes exactly when the route query succeeds and its output has a matching line without a `dev` word |
| Orchestrator.SetupNetworking | firecracker_orchestrator.py:265-366 | the interface commands run first; None exactly when one of them fails; a returned name is `tap<vm_id>` after they all succeed; the `ValueError` escapes exactly as above |
| Orchestrator.SetupSurvivesNatFailure | firecracker_orchestrator.py:350-366 | with working interface commands and a parsable route, a failing NAT command still gives the TAP name |
| Orchestrator.SetupOnWorkingHost | firecracker_orchestrator.py:265-366 | on a working host the interface commands, the route query and the three NAT rules for `172.50.0.0/24` run in order, and the TAP name is returned |
| Orchestrator.CleanupNetworking | firecracker_orchestrator.py:368-420 | teardown issues only the route query and deletions, ending with the interface deletion when it is reached; a parser error skips everything after the query; a failed query skips only the rules; it never raises |
| Orchestrator.CleanupOnWorkingHost | firecracker_orchestrator.py:378-417 | on a working host it deletes the three NAT rules and then the interface |
| Orchestrator.DeletionsRemove | firecracker_orchestrator.py:396-417 | every prefix of a teardown still only removes |
| Orchestrator.LegacyParseLeaksTap | firecracker_orchestrator.py:292-331 | a route line that mentions `dev` only inside a word makes set-up raise after the TAP was created (lines 292-294), and makes teardown raise before deleting it |
| Orchestrator.StopRequests | firecracker_orchestrator.py:522-532 | `stop_vm` always terminates first; a kill follows exactly a timed-out wait; a terminate that raises (refused, or the process vanished while counted as running) stops the requests after the terminate |
| Orchestrator.StopRequestsMatchManager | firecracker_orchestrator.py:522-532 | for any live process, whatever its signals do, the legacy stop sends the same signals as the VM manager's |
| Orchestrator.TimeoutResult | firecracker_orchestrator.py:637-642 | the timeout record is `{task_id, error: "Task timed out", status: "timeout"}` |
| Orchestrator.KeepNameChars | firecracker_orchestrator.py:658 | the filter keeps only alphanumerics, space, `-` and `_`, never lengthens, and keeps a name made of those unchanged |
| Orchestrator.SafeName | firecracker_orchestrator.py:658-659 | the safe name has at most 50 characters, each alphanumeric, `-` or `_` |
| Orchestrator.Shorten | firecracker_orchestrator.py:659 | the kept characters, right-stripped, with spaces made `_` and cut to 50, have at most 50 characters, each alphanumeric, `-` or `_` |
| Orchestrator.KeepPieces | firecracker_orchestrator.py:658 | joining the kept items of an iterated description leaves only alphanumerics, spaces, `-` and `_` |
| Orchestrator.KeepCharsIsKeepNameChars | firecracker_orchestrator.py:658 | iterating a text character by character keeps exactly the characters the name filter keeps |
| Orchestrator.DescriptionPieces | firecracker_orchestrator.py:658 | a text iterates as its characters, a dict as its keys, a list as its items; the join succeeds exactly for a text, a dict or a list whose items are all texts |
| Orchestrator.SafeTask | firecracker_orchestrator.py:658-659 | a safe name exists exactly when the description can be iterated and joined; it has at most 50 characters, each alphanumeric, `-` or `_` |
| Orchestrator.SafeTaskOfText | firecracker_orchestrator.py:658-659 | for a text description the safe name is the character-wise one |
| Orchestrator.ListDescriptionNames | firecracker_orchestrator.py:658-659 | a list holding one alphanumeric word gives that word as the name, and an empty list gives the empty name |
| Orchestrator.SafeNameFixpoint | firecracker_orchestrator.py:658-659 | a name already safe is unchanged |
| Orchestrator.RStripWithoutSpace | firecracker_orchestrator.py:658 | `rstrip` leaves a safe name alone |
| Orchestrator.NameCharNotSpace | firecracker_orchestrator.py:659 | no safe character is whitespace |
| Orchestrator.SafeNameIdempotent | firecracker_orchestrator.py:658-659 | sanitising twice is sanitising once |
| Orchestrator.AbsoluteVmIdLeavesResults | firecracker_orchestrator.py:662-663 | a `vm_id` starting with `/` makes the result path absolute, outside the results directory |
| Orchestrator.ResultPath | firecracker_orchestrator.py:655-663 | for a description that can be iterated into a name, the result file ends in `.json` and lies under the results directory, or is the bare name when the vm id is absolute |
| Orchestrator.SavedCopy | firecracker_orchestrator.py:666-668 | the saved copy adds `saved_to` and `saved_at` and keeps every other key |
| Orchestrator.CodeExtension | firecracker_orchestrator.py:680-689 | the first match of `python`, `javascript`, `go`, `bash` fences gives py, js, go, sh; `txt` exactly when none matches |
| Orchestrator.CodeFileDistinct | firecracker_orchestrator.py:662-704 | the code file never overwrites the result file |
| Orchestrator.ExtractCode | firecracker_orchestrator.py:692-701 | the loop collects exactly the lines of the fenced-code specification |
| Orchestrator.ExtractedLines | firecracker_orchestrator.py:696-701 | there are no more extracted lines than input lines; each is an input line and none is a fence line |
| Orchestrator.ExtractedInOrder | firecracker_orchestrator.py:696-701 | the extracted lines are a subsequence of the input: they keep their order |
| Orchestrator.ExtractedNoFence | firecracker_orchestrator.py:696-701 | without fences everything or nothing is extracted, depending on whether a block is open |
| Orchestrator.ExtractedAppend | firecracker_orchestrator.py:696-701 | extraction over fence-free lines distributes over concatenation |
| Orchestrator.OneFencedBlock | firecracker_orchestrator.py:696-701 | one fenced block yields exactly its body |
| Orchestrator.CodeFileReadsBack | firecracker_orchestrator.py:707-708 | the code file, split into lines, gives back the extracted lines |
| Orchestrator.TimeoutNotSaved | firecracker_orchestrator.py:646-647 | a timeout record is never saved |
| Orchestrator.Orchestrator.constructor | firecracker_orchestrator.py:83-99 | construction keeps the resolved key and starts with no process and no socket |
| Orchestrator.Orchestrator.StartVm | firecracker_orchestrator.py:422-508 | None from set-up raises, an escape from set-up propagates, a disk failure raises, an unwritable configuration raises, all with files and fields unchanged; otherwise the configuration is written, `/tmp/vm-<id>.log` and `.err` are emptied where they can be opened, the socket is set, and the result is true exactly when the child started and is alive; a launch that raises cleans up the network |
| Orchestrator.Orchestrator.StartOnNetwork | firecracker_orchestrator.py:447-508 | the part after networking: a disk failure and an unwritable configuration raise with nothing changed; otherwise the configuration and the two `/tmp/vm-<id>` output files as above, and a network clean-up exactly when the launch raised |
| Orchestrator.Orchestrator.WriteConfigAndLaunch | firecracker_orchestrator.py:450-508 | the configuration is written (raising, with nothing changed, where it cannot be), the two output files opened and emptied, then the launch; true exactly when the child started and is alive, the process kept exactly when it started |
| Orchestrator.OutputFilesMeaning | firecracker_orchestrator.py:463-468 | opening the output files touches only `/tmp/vm-<id>.log` and `.err`; a child starts only once both were emptied; an unopenable log file changes nothing |
| Orchestrator.Orchestrator.StopVm | firecracker_orchestrator.py:510-544 | after stopping, `vm_process` is None, the network of `tap<vm_id>` is cleaned up and the socket removed if present; a refused signal (`PermissionError`) or a vanished process (`ProcessLookupError`) escapes before anything changes, with the process kept and no clean-up; a socket that cannot be removed escapes after the clean-up |
| Orchestrator.Orchestrator.UnlinkMissingOk | firecracker_orchestrator.py:625-637 | `unlink(missing_ok=True)` removes the file, succeeding also when it is absent |
| Orchestrator.Orchestrator.Exchange | firecracker_orchestrator.py:558-642 | the task file is written; a result that arrives is returned with both files removed; a timeout returns the timeout record with the task file removed |
| Orchestrator.Orchestrator.SubmitTask | firecracker_orchestrator.py:546-642 | the task document is written (an unwritable task file raises with nothing changed); with a vm id it is copied onto that VM's mounted disk, the mount always undone; a result that arrives is returned with both files removed, otherwise the task file is removed and the timeout record returned |
| Orchestrator.ShareStepsUndoMount | firecracker_orchestrator.py:563-586 | without a vm id nothing is copied; with one the disk is mounted and always unmounted and the mount point removed, and the task file is copied under `<task_id>.json` exactly when the mount succeeded |
| Orchestrator.Orchestrator.SaveResultToFile | firecracker_orchestrator.py:644-712 | nothing is written for a falsy or timed-out result; the record goes to `<vm_id>_<safe>.json` with `saved_to` and `saved_at`; a code file is written only when lines were extracted; it raises only for a result that is not a dict or a description that cannot be iterated into a name (a text, a dict's keys, or a list of texts can) |
| McpServer.CheckToken | mcp_server.py:115-118 | with no configured token every caller passes; otherwise a caller passes exactly when it presents the configured token |
| McpServer.LoadedToken | mcp_server.py:68-82 | a non-empty `MCP_AUTH_TOKEN` wins; else an existing token file's stripped text (empty when unreadable); else the generated token |
| McpServer.LoadAuthToken | mcp_server.py:68-109 | returns the loaded token; the token file is written with the generated token only when neither the environment nor an existing file supplied one and the write succeeds, and nothing else changes |
| McpServer.EmptyTokenFileDisablesAuth | mcp_server.py:75-117 | a token file holding only whitespace yields the empty token, and with it every caller passes the check |
| McpServer.WrittenTokenReloads | mcp_server.py:75-78 | a token without whitespace written to the token file is the token loaded back (when the environment sets none) |
| McpServer.RotationRevokesOldToken | mcp_server.py:205-206 | after rotation to a fresh non-empty token the previous token and no token are refused, the new one accepted (checked as at lines 115-118) |
| McpServer.ControlPlane.constructor | mcp_server.py:112 | the server's token in memory is the loaded token |
| McpServer.ControlPlane.RotateTokenCore | mcp_server.py:179-211 | a refused caller gets 401 and neither the token nor any file changes; otherwise the new token is returned and held in memory, and the token file holds it unless the temporary or token file write failed |
| McpServer.ControlPlane.RotateRoute | mcp_server.py:715-719 | corrected route (the bearer token taken by the corrected extraction, so a `Bearer` header without credentials is a missing token where the source answers 500): `{"token": new}` exactly when the bearer or query token passes the check, and 401 with nothing changed otherwise |
| McpServer.BearerTokenAsWritten | mcp_server.py:573-574 | without a `bearer ` header the query token is used; with one, `split(None, 1)[1]` raises exactly when the header has fewer than two words, and otherwise gives a non-empty token not starting with whitespace |
| McpServer.BearerToken | mcp_server.py:573-574 | corrected extraction: the as-written result where that succeeds, no token where it raised |
| McpServer.BearerPrefix | mcp_server.py:573 | any capitalisation of `bearer` followed by a space is recognised as a bearer header whose first word is the scheme |
| McpServer.BearerRoundTrip | mcp_server.py:573-574 | a header `<scheme> <token>` with a single-word token yields exactly that token |
| McpServer.BearerWithoutCredentials | mcp_server.py:573-574 | a `Bearer ` header followed only by whitespace makes the as-written extraction raise; corrected, it yields no token, which a configured server refuses |
| McpServer.NoBreakSpaceHeaderCrashes | mcp_server.py:573-574 | the header `Bearer` followed by a space and a no-break space (U+00A0) makes the as-written extraction raise, since `split()` treats both as whitespace |
| McpServer.VmActionCore | mcp_server.py:121-160 | 401 before anything else when the token is refused; 404 for an unregistered VM; 500 with the manager's message when start/stop raised; otherwise success with `vm_id` and status `started` or `stopped`, and success exactly in that case |
| McpServer.RefusedTokenLearnsNothing | mcp_server.py:126-146 | a refused caller gets the same answer whatever the registry and the manager's outcome |
| McpServer.VmActionRoute | mcp_server.py:570-581 | the start/stop routes pass the extracted token to the core; where the as-written extraction would raise, a configured server answers 401 |
| McpServer.SliceBound | mcp_server.py:327 | Python's slice-bound normalisation: in range, the index itself; negative within length, counted from the end; the result never exceeds the length |
| McpServer.PySlice | mcp_server.py:327 | for non-negative bounds, `xs[i:j]` is the Dafny slice between the normalised bounds |
| McpServer.GetVmsAsWritten | mcp_server.py:313-328 | no pagination gives the plain list; one parameter gives every item with page 0 and page size = total; a non-positive page size is 400; otherwise a page with the given page, page size and total |
| McpServer.GetVms | mcp_server.py:313-328 | corrected listing: the as-written answer except that a negative page is refused with 400 (after the page-size check) |
| McpServer.PageWindow | mcp_server.py:325-328 | an accepted page has page >= 0 and size > 0; its items are those from `page * page_size` on, `page_size` of them or fewer at the end, none past the end |
| McpServer.PageSlice | mcp_server.py:325-328 | an accepted page's items are the slice `[page * size, page * size + size)` |
| McpServer.PagesCover | mcp_server.py:325-327 | pages 0 to n-1 concatenated are the first `n * page_size` items: paging neither skips nor repeats a VM |
| McpServer.ConsecutiveSlices | mcp_server.py:327 | adjacent Python slices concatenate to the slice across both |
| McpServer.NegativePageWraps | mcp_server.py:325-327 | with 15 VMs, page -2 of size 10 returns the first five VMs as written; the corrected listing refuses it |
| McpServer.Statuses | mcp_server.py:304-310 | one status per registered VM, in registry order, each the VM's status record |
| McpServer.GetVmsHandler | mcp_server.py:297-332 | the handler answers the corrected listing of the registry's statuses; a page's total is the number of registered VMs |
| McpServer.ResultPathsDiffer | mcp_server.py:280-287 | the guest result file and the manifest are different paths |
| McpServer.RecordOutcome | mcp_server.py:285-293 | a missing or unwritable manifest is left alone; a manifest object gets `state` set to `succeeded` or `failed` by the smoke test; no other file changes and no file appears |
| McpServer.PostResultsHandler | mcp_server.py:278-294 | when `guest-result.json` can be written the answer is `{"status": "ok"}` with the result written and the manifest outcome recorded; otherwise the handler raises and nothing changes |
| McpServer.PostedResultRecorded | mcp_server.py:282-291 | after a post, the guest result holds the posted result and the manifest's `state` is set by the smoke test, every other manifest key unchanged |
| McpServer.Field | mcp_server.py:43-46 | an optional field contributes one entry when present and none when absent |
| McpServer.TaskDict | mcp_server.py:238 | the request as a non-empty dict (fields declared at lines 40-46) |
| McpServer.TaskDictLookups | mcp_server.py:238 | the dict holds the three required fields; `model` and `timeout_seconds` as given, or null as written / absent when corrected; no `env_overrides` (fields declared at lines 40-46) |
| McpServer.RequiredLookups | mcp_server.py:41-43 | the required part holds `task_id`, `prompt` and `provider` and none of the optional keys |
| McpServer.FieldsLookup | mcp_server.py:238 | a key's value in the assembled dict: the required field first, then the optional field present under that name |
| McpServer.DictAsWrittenValid | mcp_server.py:238 | the as-written payload passes the schema exactly when the provider is known and both `model` and `timeout_seconds` are given |
| McpServer.DictValid | mcp_server.py:238 | the corrected payload passes the schema exactly when the provider is `openai` or `ollama` |
| McpServer.ModelessRequestRejected | mcp_server.py:238 | a request without model is rejected as written and accepted corrected |
| McpServer.CreateTaskHandler | mcp_server.py:236-275 | with the corrected payload (unset optional fields omitted, as `TaskDict(req, false)` builds it): an invalid payload fails with nothing written and no VM registered; a valid one succeeds exactly when the shared disk is created and the image directory is a `Path`, and then the VM is registered and the answer is its `pending` record; every failure is 500 |
| McpServer.StartAndAnswer | mcp_server.py:239-273 | whatever starting the VM does, the answer is the VM's `pending` record |
| McpServer.StartSwallowed | mcp_server.py:240-246 | a start attempt whose failure is swallowed leaves the VM's drives unchanged |
| McpServer.CreateForTask | mcp_server.py:238 | `create_vm` with the payload: rejected payloads change nothing; a valid one succeeds exactly when the shared disk is created and the image directory is a `Path`; every failure is 500; on success a fresh registered VM whose first drive is the root image |
| McpServer.ServerManagerCannotCreate | mcp_server.py:58-62 | as written, the server's own manager has a plain string image directory, so generating a configuration raises `TypeError` and every well-formed task is answered 500 |

## Left out

- Shell commands, HTTP requests, process spawning and mounts are not executed: the host (`Host.Machine`), the HTTP replies, the spawned process and the outcomes of the disk and artifact preparation (`diskOk`, `artifactsOk`) are parameters, and the model states what the code does with each possible outcome.
- The contents of the shared disk and guest artifacts (`create_shared_disk`, `_preload_task_data`, `mount_shared_disk`, `unmount_shared_disk` in vm_manager.py, `create_shared_disk` in firecracker_orchestrator.py) are one outcome each: the images are opaque files, because their contents are produced by `dd`, `mkfs.ext4` and copies into a mounted file system.
- Clocks, `secrets.token_urlsafe` and `uuid` are parameters (`now`, `generated`, `newToken`, the task id), because they are nondeterministic.
- The polling loop of `submit_task` and its sleeps: what the guest wrote before the timeout (`arrived`) is a parameter, because the guest runs in another process.
- The back-off pauses of `post_with_retries` are counted in whole milliseconds rather than float seconds, and `time.sleep` is recorded, not performed.
- Concurrency: the FastAPI server, its threads and the websocket log streaming are not modelled; every handler runs alone against the state it is given.
- `get_logs_core`, `audit_action`, `ui_handler` and the FastAPI route registration other than the bearer extraction (mcp_server.py:163-176, 214-233, 335-719): they read or append files without affecting any decision the model states. Audit failures are swallowed in the source, so leaving them out changes no result.
- `get_vm_status`'s psutil memory and CPU figures are floats and are not modelled; only `running`, `pid` and the downgrade on `NoSuchProcess`/`AccessDenied` are.
- McpServer.GetVmsHandler: the `int()` conversion of the pagination parameters (400 for a value `int()` refuses) is not modelled, because the parameters arrive typed as integers.
- McpServer.LoadedToken: a token file that is not text (opaque bytes) is read as the empty token, the value the source returns when `read_text` raises; bytes that happen to decode are not distinguished.
- McpServer.RecordOutcome: a manifest stored as plain text or opaque bytes, or as a JSON value that is not an object, is left alone. The source would parse text that holds a JSON object and update it. Manifests written by the model are always JSON objects.
- McpServer.CreateTaskHandler: the 500's detail for an invalid payload (the validator's message) is not stated, only that the request fails with nothing written or registered.
- `run_experiment`, `interactive_mode` and `main` of firecracker_orchestrator.py: console drivers around `submit_task` and `save_result_to_file`, which are modelled.
- The Hydra/OmegaConf configuration merge inside `validate_config` is an abstract outcome; only the checks run after it and the wrapping of its errors are modelled.
- `str.isalnum` in the result-file name is the ASCII letters and digits; non-ASCII letters, which Python also keeps, are dropped by the model.
- `temperature` in the OpenAI configuration is an exact real, so NaN and float rounding are not modelled.
- Directory creation (`mkdir(parents=True, exist_ok=True)`) always succeeds in the model; the file system has no directories, only paths.
- CheckLogging: `Text.Upper` folds only ASCII letters, so a level that Python's full Unicode `upper()` maps onto an allowed level (such as `ınfo`, which becomes `INFO`) is refused by the model and accepted by the source.
- CheckNetwork: `Text.IsAlnum` accepts only ASCII letters and digits, so a tap prefix with non-ASCII letters or digits, which Python's `isalnum` accepts, is refused by the model.
- PathJoin: pathlib's normalisation is modelled only for an image directory of `.` (held as the empty directory) and for `Path(...).name`; a directory such as `./results` is joined as `./results/<name>`, where pathlib prints `results/<name>`, and repeated separators are kept.
- TaskDocument: `time.time()` is a float; the model stores the clock reading as a whole number, since JSON values here have no floats.
- SavedCopy: `saved_at` is the same `time.time()` float, stored as a whole number for the same reason.
- OutputFiles: what the child later writes to `/tmp/vm-<id>.log` and `.err` is not modelled; the files are emptied when opened and stay empty in the model.
- UnixSocketUrl: `Path(socket_path).as_posix()` normalisation (repeated slashes, `.` components, a trailing slash, `""` becoming `.`) is not modelled; the socket text is used as given. Every caller passes `/tmp/firecracker-<id>.socket`, which is already in normal form.
- RunCommand: the usage text that `usage()` prints before exit code 1 (the module docstring) is not modelled; the exit carries no output there.
- StoredToken: a token file that is not text (opaque bytes) reads as no token, so `read_token` gives `""`, where `read_text` would raise a decoding error.
- SubmitTask: `mkdir` of the mount point and its `rmdir` always succeed, and only a `CalledProcessError` from the mount or copy is caught; an exception of another kind there, which the source lets escape, is not modelled.
- InitImageContent: a real init overlay (`use_real_init` set) is built by a script the model does not run, so its bytes are one opaque value; the dry-run overlay holds its placeholder text.

## Findings

| source | as written | input that shows it | evidently intended | confidence | as-written member | corrected member |
|---|---|---|---|---|---|---|
| mcp_server.py:573-574 | after a header that starts with `bearer `, the token is `authorization.split(None, 1)[1]`; when only whitespace follows the scheme the split has one piece and the index raises `IndexError`, which FastAPI turns into a 500 (the same code is at lines 579-580 and 717-718, and in the websocket check at line 681) | header `Bearer ` followed by a no-break space (U+00A0), or by nothing once a proxy keeps the trailing space | a bearer header without credentials is a missing token: 401 when a token is configured | not executed | McpServer.BearerTokenAsWritten, McpServer.NoBreakSpaceHeaderCrashes, McpServer.BearerWithoutCredentials | McpServer.BearerToken, McpServer.VmActionRoute, McpServer.ControlPlane.RotateRoute |
| mcp_server.py:325-327 | `start = p * ps` is used as a Python slice bound without checking `p >= 0`, so a negative page counts from the end of the list | 15 VMs, `page=-2`, `page_size=10`: start -20 and end -10 give the first five VMs | a negative page is refused with 400, like a non-positive page size | not executed | McpServer.GetVmsAsWritten, McpServer.NegativePageWraps | McpServer.GetVms, McpServer.GetVmsHandler |
| mcp_server.py:238 | the task data passed to `create_vm` is `req.dict()`, which includes `model` and `timeout_seconds` as `None` when the request omits them; the schema types them as string and integer, so validation fails and the handler answers 500 | `{"task_id": "t1", "prompt": "hello", "provider": "openai"}` | optional fields left unset are omitted from the task data, so the request is accepted | not executed | McpServer.DictAsWrittenValid, McpServer.ModelessRequestRejected | McpServer.DictValid, McpServer.CreateTaskHandler |
| vm_manager.py:249 | the kernel path is `self.config.paths.ubuntu_images / "vmlinux.bin"`; the server's manager is configured with `ubuntu_images` as the string `"."` (mcp_server.py:58-62), and `str / str` raises `TypeError` right after the shared disk was created | any well-formed task posted to `create_task_handler` | the image directory is converted with `Path(...)` before joining, as line 214 already does | not executed | VmManager.GenerateVmConfigAsWritten, McpServer.ServerManagerCannotCreate | VmManager.GenerateVmConfig, VmManager.ImagesUnderDirectory |
| config/schema.py:241 | `FirecrackerOrchestratorConfig(**config)` stores each section as it is given; dataclass fields do not build section objects from mappings, so the sections' own range checks never run, and a plain-dict section fails on its first attribute read | a configuration whose `vm.memory_mb` is 1, given as OmegaConf nodes, is accepted; the same given as plain dicts is rejected with `'dict' object has no attribute 'timeout'` | the section dataclasses are built first, so their checks run, then the cross-section check | not executed | ConfigSchema.SectionChecksSkipped, ConfigSchema.PlainDictSectionsRejected | ConfigSchema.ValidateConfigChecked, ConfigSchema.CheckedAcceptsDefaults |
