/**
 * The control plane's request logic (mcp_server.py): the bearer-token check
 * and its rotation, the start/stop decision chains with their HTTP status
 * codes (400, 401, 404 and 500 as RFC 9110 sections 15.5.1, 15.5.2, 15.5.5
 * and 15.6.1 define them), the paginated VM listing, the task and result
 * handlers, and the extraction of the token from an `Authorization: Bearer`
 * header (section 2.1 of RFC 6750).
 *
 * The token lives in a `ControlPlane` object, whose `authToken` field plays
 * the module-global `MCP_AUTH_TOKEN`.
 */
module McpServer {
  import opened Wrappers
  import opened Text
  import opened Json
  import opened Files
  import opened OrderedDict
  import McpToken
  import Validation
  import VmManager
  import Process
  import Http

  /** An `HTTPException` the handler raises, or the 500 the server answers for an exception nothing catches. */
  datatype HttpError = HttpError(status: int, detail: string)

  const Unauthorized := HttpError(401, "invalid auth token")
  const NotFound := HttpError(404, "vm not found")
  const BadPageSize := HttpError(400, "page_size must be > 0")
  /** What the server answers when a handler raises something other than `HTTPException`. */
  const Crashed := HttpError(500, "Internal Server Error")

  // ----- the token -----

  /** `_check_token`: with no token configured every caller passes; otherwise a non-empty token equal to it. */
  function CheckToken(configured: string, token: Option<string>): (ok: bool)
    ensures configured == "" ==> ok
    ensures configured != "" ==> (ok <==> token == Some(configured))
  {
    configured == "" || (token.Some? && token.value != "" && token.value == configured)
  }

  predicate EnvTokenSet(env: McpToken.Environment) {
    "MCP_AUTH_TOKEN" in env && env["MCP_AUTH_TOKEN"] != ""
  }

  /**
   * The token `_load_auth_token` settles on: a non-empty `MCP_AUTH_TOKEN`,
   * else the token file's text stripped (`''` where it cannot be read), else
   * the freshly `generated` one. It is the token the command-line helper's
   * `show` reports, except that a generated token exists only once written.
   */
  function LoadedToken(env: McpToken.Environment, files: map<string, Content>, generated: string): (r: string)
    ensures EnvTokenSet(env) ==> r == env["MCP_AUTH_TOKEN"]
    ensures !EnvTokenSet(env) && McpToken.AuthFile(env) !in files ==> r == generated
    ensures McpToken.AuthFile(env) in files || EnvTokenSet(env) ==>
      r == McpToken.ReadToken(env, McpToken.StoredToken(files, McpToken.AuthFile(env)))
  {
    var path := McpToken.AuthFile(env);
    if EnvTokenSet(env) then env["MCP_AUTH_TOKEN"]
    else if path in files then (if files[path].Text? then Strip(files[path].text) else "")
    else generated
  }

  /**
   * `_load_auth_token`, run once at start-up. Only when neither the
   * environment nor the file supplies a token is one generated and written
   * through the temporary file `tmp` (every failure of the write swallowed).
   */
  method LoadAuthToken(fs: FileSystem, env: McpToken.Environment, tmp: string, generated: string) returns (token: string)
    requires tmp != McpToken.AuthFile(env) && tmp !in fs.files
    modifies fs
    ensures token == LoadedToken(env, old(fs.files), generated)
    ensures var path := McpToken.AuthFile(env);
      fs.files == if EnvTokenSet(env) || path in old(fs.files) || tmp in fs.failing || path in fs.failing
                  then old(fs.files) else old(fs.files)[path := Text(generated)]
  {
    var path := McpToken.AuthFile(env);
    if EnvTokenSet(env) {
      return env["MCP_AUTH_TOKEN"];
    }
    if path in fs.files {
      return if fs.files[path].Text? then Strip(fs.files[path].text) else "";
    }
    var _ := McpToken.WriteToken(fs, path, tmp, generated);
    token := generated;
  }

  /** A token file holding only whitespace loads as the empty token, which switches the check off for everyone. */
  lemma EmptyTokenFileDisablesAuth(env: McpToken.Environment, files: map<string, Content>, generated: string,
                                   text: string, token: Option<string>)
    requires !EnvTokenSet(env)
    requires McpToken.AuthFile(env) in files && files[McpToken.AuthFile(env)] == Text(text)
    requires forall i :: 0 <= i < |text| ==> IsSpace(text[i])
    ensures LoadedToken(env, files, generated) == ""
    ensures CheckToken(LoadedToken(env, files, generated), token)
  {
    LStripSpaces(text);
  }

  /**
   * A token written to the token file (at start-up or by a rotation) is the
   * token the next start-up loads, when it carries no whitespace, as
   * `secrets.token_urlsafe` tokens do.
   */
  lemma WrittenTokenReloads(env: McpToken.Environment, files: map<string, Content>, t: string, generated: string)
    requires !EnvTokenSet(env)
    requires forall i :: 0 <= i < |t| ==> !IsSpace(t[i])
    ensures LoadedToken(env, files[McpToken.AuthFile(env) := Text(t)], generated) == t
  {
    McpToken.ReadBackWrittenToken(env, t);
  }

  /** After a rotation to a new non-empty token, the old token and a missing token are refused and the new one accepted. */
  lemma RotationRevokesOldToken(previous: string, newToken: string)
    requires newToken != "" && newToken != previous
    ensures !CheckToken(newToken, Some(previous)) && !CheckToken(newToken, None)
    ensures CheckToken(newToken, Some(newToken))
  {
  }

  class ControlPlane {
    const env: McpToken.Environment
    const fs: FileSystem
    /** `MCP_AUTH_TOKEN`. */
    var authToken: string

    /** Importing the server loads the token. */
    constructor (env: McpToken.Environment, fs: FileSystem, tmp: string, generated: string)
      requires tmp != McpToken.AuthFile(env) && tmp !in fs.files
      modifies fs
      ensures this.env == env && this.fs == fs
      ensures authToken == LoadedToken(env, old(fs.files), generated)
    {
      var t := LoadAuthToken(fs, env, tmp, generated);
      this.env := env;
      this.fs := fs;
      authToken := t;
    }

    /**
     * `rotate_token_core`: a caller the check refuses gets 401 and nothing
     * changes. Otherwise `newToken` is written to the token file through `tmp`
     * (failures swallowed), becomes the token in memory whatever the write
     * did, and is returned.
     */
    method RotateTokenCore(current: Option<string>, newToken: string, tmp: string) returns (r: Result<string, HttpError>)
      requires tmp != McpToken.AuthFile(env) && tmp !in fs.files
      modifies this, fs
      ensures !CheckToken(old(authToken), current) ==>
        r == Err(Unauthorized) && authToken == old(authToken) && fs.files == old(fs.files)
      ensures CheckToken(old(authToken), current) ==>
        && r == Ok(newToken) && authToken == newToken
        && fs.files == if tmp in fs.failing || McpToken.AuthFile(env) in fs.failing then old(fs.files)
                       else old(fs.files)[McpToken.AuthFile(env) := Text(newToken)]
    {
      if !CheckToken(authToken, current) {
        return Err(Unauthorized);
      }
      var _ := McpToken.WriteToken(fs, McpToken.AuthFile(env), tmp, newToken);
      authToken := newToken;
      r := Ok(newToken);
    }

    /** The `POST /v1/token/rotate` route: the token from the request, then `{"token": <new token>}`. */
    method RotateRoute(query: Option<string>, authorization: Option<string>, newToken: string, tmp: string)
      returns (r: Result<Json, HttpError>)
      requires tmp != McpToken.AuthFile(env) && tmp !in fs.files
      modifies this, fs
      ensures var token := BearerToken(query, authorization);
        && (r.Ok? <==> CheckToken(old(authToken), token))
        && (r.Ok? ==> r.value == Obj([("token", Str(newToken))]) && authToken == newToken)
        && (r.Err? ==> r == Err(Unauthorized) && authToken == old(authToken) && fs.files == old(fs.files))
    {
      var rotated := RotateTokenCore(BearerToken(query, authorization), newToken, tmp);
      if rotated.Err? {
        return Err(rotated.error);
      }
      r := Ok(Obj([("token", Str(rotated.value))]));
    }
  }

  // ----- the bearer header -----

  /** `authorization and authorization.lower().startswith('bearer ')`: the scheme matched without regard to case. */
  predicate IsBearer(authorization: Option<string>) {
    authorization.Some? && "bearer " <= Lower(authorization.value)
  }

  /**
   * The route wrappers as written: a bearer header's token is
   * `authorization.split(None, 1)[1]` and overrides the query token. When
   * nothing but whitespace follows the scheme, the split has one piece and
   * the index raises `IndexError` (`Err`).
   */
  function BearerTokenAsWritten(query: Option<string>, authorization: Option<string>): (r: Result<Option<string>, ()>)
    ensures !IsBearer(authorization) ==> r == Ok(query)
    ensures IsBearer(authorization) ==> (r.Err? <==> |Words(authorization.value)| < 2)
    ensures IsBearer(authorization) && r.Ok? ==> r.value.Some? && r.value.value != [] && !IsSpace(r.value.value[0])
  {
    if !IsBearer(authorization) then Ok(query)
    else
      var parts := SplitOnce(authorization.value);
      if |parts| < 2 then Err(()) else Ok(Some(parts[1]))
  }

  /**
   * Bearer extraction as intended: a bearer header with no credentials
   * carries no token (so the check refuses it whenever a token is
   * configured) instead of crashing the request.
   */
  function BearerToken(query: Option<string>, authorization: Option<string>): (r: Option<string>)
    ensures BearerTokenAsWritten(query, authorization).Ok? ==> r == BearerTokenAsWritten(query, authorization).value
    ensures BearerTokenAsWritten(query, authorization).Err? ==> r.None?
  {
    if !IsBearer(authorization) then query
    else
      var parts := SplitOnce(authorization.value);
      if |parts| < 2 then None else Some(parts[1])
  }

  /** A header made of a scheme that lower-cases to `bearer`, then a space, is a bearer header whose first word is the scheme. */
  lemma BearerPrefix(scheme: string, after: string)
    requires Lower(scheme) == "bearer"
    requires after != [] && after[0] == ' '
    ensures IsBearer(Some(scheme + after))
    ensures LStrip(scheme + after) == scheme + after
    ensures TakeWord(scheme + after) == scheme
  {
    var h := scheme + after;
    assert |scheme| == 6;
    forall i | 0 <= i < 6 ensures !IsSpace(scheme[i]) {
      assert LowerChar(scheme[i]) == "bearer"[i];
    }
    assert Lower(h)[..7] == "bearer " by {
      forall i | 0 <= i < 7 ensures Lower(h)[i] == "bearer "[i] {
        if i < 6 {
          assert h[i] == scheme[i];
          assert Lower(scheme)[i] == LowerChar(scheme[i]);
        }
      }
    }
    TakeWordPrefix(scheme, after);
  }

  /** `"Bearer <token>"` hands over exactly the token, whatever the case of the scheme, ahead of the query token. */
  lemma BearerRoundTrip(query: Option<string>, scheme: string, token: string)
    requires Lower(scheme) == "bearer"
    requires IsWord(token)
    ensures BearerTokenAsWritten(query, Some(scheme + " " + token)) == Ok(Some(token))
  {
    var h := scheme + (" " + token);
    assert scheme + " " + token == h;
    BearerPrefix(scheme, " " + token);
    assert h[6..] == " " + token;
    LStripOneSpace(token);
  }

  lemma LStripOneSpace(token: string)
    requires IsWord(token)
    ensures LStrip(" " + token) == token
  {
    assert (" " + token)[1..] == token;
  }

  /**
   * The header `"Bearer "` followed by nothing but whitespace crashes the
   * wrapper as written, and the intended extraction turns it into a missing
   * token, refused with 401 whenever a token is configured.
   */
  lemma BearerWithoutCredentials(query: Option<string>, blanks: string, configured: string)
    requires forall i :: 0 <= i < |blanks| ==> IsSpace(blanks[i])
    requires configured != ""
    ensures BearerTokenAsWritten(query, Some("Bearer " + blanks)).Err?
    ensures BearerToken(query, Some("Bearer " + blanks)).None?
    ensures !CheckToken(configured, BearerToken(query, Some("Bearer " + blanks)))
  {
    var h := "Bearer " + blanks;
    assert h == "Bearer" + (" " + blanks);
    assert Lower("Bearer") == "bearer";
    BearerPrefix("Bearer", " " + blanks);
    assert h[6..] == " " + blanks;
    LStripSpaces(" " + blanks);
    assert SplitOnce(h) == ["Bearer"];
  }

  /** The smallest header showing it: a no-break space after `Bearer `, which survives the HTTP layer's trimming of spaces and tabs. */
  lemma NoBreakSpaceHeaderCrashes()
    ensures BearerTokenAsWritten(None, Some("Bearer \U{00A0}")).Err?
  {
    BearerWithoutCredentials(None, "\U{00A0}", "x");
    assert "Bearer " + "\U{00A0}" == "Bearer \U{00A0}";
  }

  // ----- starting and stopping -----

  datatype VmAction = StartAction | StopAction

  /**
   * `start_vm_core` and `stop_vm_core`: the token is checked before
   * anything else (401), an unregistered VM gives 404, and what the VM
   * manager raised (`failure`, its message) gives 500 with that message.
   */
  function VmActionCore(configured: string, token: Option<string>, registry: Dict<VmManager.VmInstance>, vmId: string,
                        action: VmAction, failure: Option<string>): (r: Result<Json, HttpError>)
    ensures !CheckToken(configured, token) ==> r == Err(Unauthorized)
    ensures CheckToken(configured, token) && vmId !in registry.entries ==> r == Err(NotFound)
    ensures CheckToken(configured, token) && vmId in registry.entries && failure.Some? ==>
      r == Err(HttpError(500, failure.value))
    ensures r.Ok? <==> CheckToken(configured, token) && vmId in registry.entries && failure.None?
    ensures r.Ok? ==> r.value.Obj? && Get(r.value, "vm_id") == Some(Str(vmId))
    ensures r.Ok? ==> r.value.Obj? && Get(r.value, "status") == Some(Str(if action == StartAction then "started" else "stopped"))
  {
    if !CheckToken(configured, token) then Err(Unauthorized)
    else if vmId !in registry.entries then Err(NotFound)
    else if failure.Some? then Err(HttpError(500, failure.value))
    else
      var j := Obj([("status", Str(if action == StartAction then "started" else "stopped")), ("vm_id", Str(vmId))]);
      LookupFirst(j.fields, 1, "vm_id");
      LookupFirst(j.fields, 0, "status");
      Ok(j)
  }

  /** A refused token learns nothing: the answer is 401 whether or not the VM exists and whatever the manager would do. */
  lemma RefusedTokenLearnsNothing(configured: string, token: Option<string>, r1: Dict<VmManager.VmInstance>,
                                  r2: Dict<VmManager.VmInstance>, vmId: string, action: VmAction, f1: Option<string>, f2: Option<string>)
    requires !CheckToken(configured, token)
    ensures VmActionCore(configured, token, r1, vmId, action, f1) == VmActionCore(configured, token, r2, vmId, action, f2)
  {
  }

  /**
   * The start and stop routes with the intended bearer extraction. With the
   * extraction as written, the only difference is the crash (500) for a
   * bearer header without credentials.
   */
  function VmActionRoute(configured: string, query: Option<string>, authorization: Option<string>,
                         registry: Dict<VmManager.VmInstance>, vmId: string, action: VmAction, failure: Option<string>)
    : (r: Result<Json, HttpError>)
    ensures BearerTokenAsWritten(query, authorization).Ok? ==>
      r == VmActionCore(configured, BearerTokenAsWritten(query, authorization).value, registry, vmId, action, failure)
    ensures BearerTokenAsWritten(query, authorization).Err? ==>
      (r == Err(Unauthorized) <==> configured != "")
  {
    VmActionCore(configured, BearerToken(query, authorization), registry, vmId, action, failure)
  }

  // ----- listing VMs -----

  /** A Python index into a sequence of length `n` as a slice bound: negative ones count from the end, then clamped. */
  function SliceBound(i: int, n: nat): (r: nat)
    ensures r <= n
    ensures 0 <= i <= n ==> r == i
    ensures -(n as int) <= i < 0 ==> r as int == n as int + i
  {
    if i < 0 then (if n + i < 0 then 0 else n + i)
    else if i > n then n else i
  }

  /** `xs[i:j]` in Python. */
  function PySlice<T>(xs: seq<T>, i: int, j: int): (r: seq<T>)
    ensures 0 <= i <= j ==> r == xs[SliceBound(i, |xs|)..SliceBound(j, |xs|)]
  {
    var a := SliceBound(i, |xs|);
    var b := SliceBound(j, |xs|);
    if a <= b then xs[a..b] else []
  }

  /** The legacy plain list, or a page with its position and the total count. */
  datatype Listing = Plain(vms: seq<Json>) | Paged(items: seq<Json>, page: int, pageSize: int, total: int)

  /** `get_vms_handler` after the statuses are collected, as written: a negative page slices from the end. */
  function GetVmsAsWritten(all: seq<Json>, page: Option<int>, pageSize: Option<int>): (r: Result<Listing, HttpError>)
    ensures page.None? && pageSize.None? ==> r == Ok(Plain(all))
    ensures page.None? != pageSize.None? ==> r == Ok(Paged(all, 0, |all|, |all|))
    ensures page.Some? && pageSize.Some? && pageSize.value <= 0 ==> r == Err(BadPageSize)
    ensures page.Some? && pageSize.Some? && pageSize.value > 0 ==>
      r.Ok? && r.value.Paged? && r.value.page == page.value && r.value.pageSize == pageSize.value && r.value.total == |all|
  {
    if page.None? && pageSize.None? then Ok(Plain(all))
    else if page.None? || pageSize.None? then Ok(Paged(all, 0, |all|, |all|))
    else
      var p := page.value;
      var ps := pageSize.value;
      if ps <= 0 then Err(BadPageSize)
      else Ok(Paged(PySlice(all, p * ps, p * ps + ps), p, ps, |all|))
  }

  const BadPage := HttpError(400, "page must be >= 0")

  /** The listing as intended: a negative page is refused like a non-positive page size. */
  function GetVms(all: seq<Json>, page: Option<int>, pageSize: Option<int>): (r: Result<Listing, HttpError>)
    ensures !(page.Some? && pageSize.Some? && page.value < 0) ==> r == GetVmsAsWritten(all, page, pageSize)
    ensures page.Some? && pageSize.Some? && page.value < 0 ==>
      r == Err(if pageSize.value <= 0 then BadPageSize else BadPage)
  {
    if page.Some? && pageSize.Some? && page.value < 0 && pageSize.value > 0 then Err(BadPage)
    else GetVmsAsWritten(all, page, pageSize)
  }

  /** A page is the contiguous run of statuses from `page * pageSize`, cut short at the end. */
  lemma PageWindow(all: seq<Json>, page: int, pageSize: int)
    requires GetVms(all, Some(page), Some(pageSize)).Ok?
    ensures page >= 0 && pageSize > 0
    ensures var items := GetVms(all, Some(page), Some(pageSize)).value.items;
      var start := page * pageSize;
      && (start >= |all| ==> items == [])
      && (start < |all| ==> |items| == (if start + pageSize <= |all| then pageSize else |all| - start))
      && (forall k :: 0 <= k < |items| ==> items[k] == all[start + k])
  {
    assert page * pageSize >= 0;
  }

  /** The statuses on page `page` of `pageSize` entries, for a page that exists or lies past the end. */
  function PageItems(all: seq<Json>, page: nat, pageSize: int): seq<Json>
    requires pageSize > 0
  {
    all[SliceBound(page * pageSize, |all|)..SliceBound(page * pageSize + pageSize, |all|)]
  }

  /** What the handler lists for a page that is not negative. */
  lemma PageSlice(all: seq<Json>, page: nat, pageSize: int)
    requires pageSize > 0
    ensures GetVms(all, Some(page), Some(pageSize)) == Ok(Paged(PageItems(all, page, pageSize), page, pageSize, |all|))
  {
    assert page * pageSize >= 0;
  }

  /** The pages from `0` to `count - 1`, concatenated. */
  function PagesUpTo(all: seq<Json>, pageSize: int, count: nat): seq<Json>
    requires pageSize > 0
  {
    if count == 0 then [] else PagesUpTo(all, pageSize, count - 1) + PageItems(all, count - 1, pageSize)
  }

  /** Walking the pages in order lists every VM once, in registry order. */
  lemma {:induction false} PagesCover(all: seq<Json>, pageSize: int, count: nat)
    requires pageSize > 0
    ensures PagesUpTo(all, pageSize, count) == all[..SliceBound(count * pageSize, |all|)]
  {
    if count > 0 {
      PagesCover(all, pageSize, count - 1);
      PageArithmetic(count, pageSize);
      ConsecutiveSlices(all, (count - 1) * pageSize, count * pageSize);
    }
  }

  lemma PageArithmetic(count: nat, pageSize: int)
    requires count > 0 && pageSize > 0
    ensures (count - 1) * pageSize >= 0 && (count - 1) * pageSize + pageSize == count * pageSize
  {
  }

  /** Two adjacent Python slices from the start join up. */
  lemma ConsecutiveSlices(all: seq<Json>, a: int, b: int)
    requires 0 <= a <= b
    ensures all[..SliceBound(a, |all|)] + all[SliceBound(a, |all|)..SliceBound(b, |all|)] == all[..SliceBound(b, |all|)]
  {
  }

  /** On the page the `-2` of ten statuses reaches on a list of fifteen, the handler as written returns the first five. */
  lemma NegativePageWraps(all: seq<Json>)
    requires |all| == 15
    ensures GetVmsAsWritten(all, Some(-2), Some(10)) == Ok(Paged(all[..5], -2, 10, 15))
    ensures GetVms(all, Some(-2), Some(10)) == Err(BadPage)
  {
    assert SliceBound(-20, 15) == 0;
    assert SliceBound(-10, 15) == 5;
  }

  /** The status of every registered VM, in registry order (`get_vm_status` per VM). */
  function Statuses(vms: seq<VmManager.VmInstance>, s: VmManager.Settings): (r: seq<Json>)
    reads vms
    ensures |r| == |vms|
    ensures forall i :: 0 <= i < |vms| ==> r[i] == VmManager.StatusJson(vms[i].Status(s))
  {
    if vms == [] then [] else Statuses(vms[..|vms| - 1], s) + [VmManager.StatusJson(vms[|vms| - 1].Status(s))]
  }

  /** `get_vms_handler`: the statuses collected in a loop, then listed or paged. */
  method GetVmsHandler(mgr: VmManager.VmManager, page: Option<int>, pageSize: Option<int>) returns (r: Result<Listing, HttpError>)
    requires mgr.activeVms.Valid()
    ensures r == GetVms(Statuses(mgr.activeVms.Values(), mgr.settings), page, pageSize)
    ensures r.Ok? && r.value.Paged? ==> r.value.total == |mgr.activeVms.keys|
  {
    var vms := mgr.activeVms.Values();
    var all := [];
    var i := 0;
    while i < |vms|
      invariant 0 <= i <= |vms|
      invariant all == Statuses(vms[..i], mgr.settings)
    {
      all := all + [VmManager.StatusJson(vms[i].Status(mgr.settings))];
      assert vms[..i + 1][..i] == vms[..i];
      i := i + 1;
    }
    assert vms[..i] == vms;
    r := GetVms(all, page, pageSize);
  }

  // ----- posting results -----

  /** The `SubagentResult` a guest posts. */
  datatype SubagentResult = SubagentResult(
    vmId: string, taskId: string, smokeTestPassed: bool,
    generatedArtifactRefs: Option<seq<string>>, logsRef: Option<string>)

  /** `res.dict()`: every field, `None` ones as null. */
  function ResultDict(res: SubagentResult): Json {
    Obj([("vm_id", Str(res.vmId)), ("task_id", Str(res.taskId)), ("smoke_test_passed", Bool(res.smokeTestPassed)),
         ("generated_artifact_refs",
          if res.generatedArtifactRefs.Some?
          then Arr(seq(|res.generatedArtifactRefs.value|, i requires 0 <= i < |res.generatedArtifactRefs.value| =>
                   Str(res.generatedArtifactRefs.value[i])))
          else Null),
         ("logs_ref", if res.logsRef.Some? then Str(res.logsRef.value) else Null)])
  }

  function GuestResultPath(s: VmManager.Settings, vmId: string): string {
    PathJoin(VmManager.ResultsDir(s, vmId), "guest-result.json")
  }

  lemma ResultPathsDiffer(s: VmManager.Settings, vmId: string)
    ensures GuestResultPath(s, vmId) != VmManager.ManifestPath(s, vmId)
  {
    var g := GuestResultPath(s, vmId);
    var m := VmManager.ManifestPath(s, vmId);
    SuffixAt(g, "guest-result.json", 7);
    SuffixAt(m, "manifest.json", 7);
  }

  /** A character near the end of a string that ends with `name`. */
  lemma SuffixAt(r: string, name: string, k: nat)
    requires |name| <= |r| && r[|r| - |name|..] == name && 0 < k <= |name|
    ensures r[|r| - k] == name[|name| - k]
  {
    assert r[|r| - k] == r[|r| - |name|..][|name| - k];
  }

  /**
   * The manifest update of `post_results_handler`: a manifest holding a JSON
   * object gets `state` set and is written back; a missing, unreadable or
   * unwritable manifest is left alone (those exceptions are swallowed).
   */
  function RecordOutcome(files: map<string, Content>, failing: set<string>, manifest: string, passed: bool)
    : (r: map<string, Content>)
    ensures manifest !in files || manifest in failing ==> r == files
    ensures manifest in files && files[manifest].Document? && files[manifest].doc.Obj? && manifest !in failing ==>
      r == files[manifest := Document(Set(files[manifest].doc, "state", Str(if passed then "succeeded" else "failed")))]
    ensures r.Keys == files.Keys
    ensures forall p :: p in files && p != manifest ==> r[p] == files[p]
  {
    if manifest in files && files[manifest].Document? && files[manifest].doc.Obj? && manifest !in failing
    then files[manifest := Document(Set(files[manifest].doc, "state", Str(if passed then "succeeded" else "failed")))]
    else files
  }

  /**
   * `post_results_handler`: the result goes to `guest-result.json` in the
   * VM's results directory (an unwritable file fails the request with
   * 500), the manifest records the smoke test, and the answer is
   * `{"status": "ok"}`.
   */
  method PostResultsHandler(fs: FileSystem, s: VmManager.Settings, res: SubagentResult) returns (r: Result<Json, HttpError>)
    modifies fs
    ensures var guest := GuestResultPath(s, res.vmId);
      && (r.Ok? <==> guest !in fs.failing)
      && (r.Ok? ==> r.value == Obj([("status", Str("ok"))]) &&
                    fs.files == RecordOutcome(old(fs.files)[guest := Document(ResultDict(res))], fs.failing,
                                              VmManager.ManifestPath(s, res.vmId), res.smokeTestPassed))
      && (r.Err? ==> r == Err(Crashed) && fs.files == old(fs.files))
  {
    var ok := fs.Write(GuestResultPath(s, res.vmId), Document(ResultDict(res)));
    if !ok {
      return Err(Crashed);
    }
    fs.files := RecordOutcome(fs.files, fs.failing, VmManager.ManifestPath(s, res.vmId), res.smokeTestPassed);
    r := Ok(Obj([("status", Str("ok"))]));
  }

  /**
   * After a result is posted for a VM whose manifest is a writable JSON
   * object, the manifest's state says whether the smoke test passed, its
   * other fields are kept, and the posted result can be read back.
   */
  lemma PostedResultRecorded(files: map<string, Content>, failing: set<string>, s: VmManager.Settings, res: SubagentResult)
    requires var m := VmManager.ManifestPath(s, res.vmId);
      m in files && files[m].Document? && files[m].doc.Obj? && m !in failing
    ensures var m := VmManager.ManifestPath(s, res.vmId);
      var guest := GuestResultPath(s, res.vmId);
      var after := RecordOutcome(files[guest := Document(ResultDict(res))], failing, m, res.smokeTestPassed);
      && after[guest] == Document(ResultDict(res))
      && after[m].Document? && after[m].doc.Obj?
      && Get(after[m].doc, "state") == Some(Str(if res.smokeTestPassed then "succeeded" else "failed"))
      && (forall k :: k != "state" ==> Get(after[m].doc, k) == Get(files[m].doc, k))
  {
    ResultPathsDiffer(s, res.vmId);
  }

  // ----- creating tasks -----

  /** The `MCPTaskRequest` body of `POST /v1/tasks`. */
  datatype TaskRequest = TaskRequest(
    taskId: string, prompt: string, provider: string,
    startVm: Option<bool>, model: Option<string>, timeoutSeconds: Option<int>)

  /** A field that is present only when it has a value. */
  function Field(key: string, v: Option<Json>): (r: seq<(string, Json)>)
    ensures |r| <= 1 && (r == [] <==> v.None?)
  {
    if v.Some? then [(key, v.value)] else []
  }

  /** An optional request field: its value, or a null where `None` fields are kept. */
  function Optional(v: Option<Json>, keepNone: bool): Option<Json> {
    if v.Some? then v else if keepNone then Some(Null) else None
  }

  function RequiredFields(req: TaskRequest): seq<(string, Json)> {
    [("task_id", Str(req.taskId)), ("prompt", Str(req.prompt)), ("provider", Str(req.provider))]
  }

  function ModelValue(req: TaskRequest): Option<Json> {
    if req.model.Some? then Some(Str(req.model.value)) else None
  }

  function TimeoutValue(req: TaskRequest): Option<Json> {
    if req.timeoutSeconds.Some? then Some(Int(req.timeoutSeconds.value)) else None
  }

  /**
   * `req.dict()`: the three required fields, then `start_vm`, `model` and
   * `timeout_seconds`. pydantic includes the fields left at `None` as nulls
   * (`keepNone`); the intended payload leaves them out.
   */
  function TaskDict(req: TaskRequest, keepNone: bool): (j: Json)
    ensures j.Obj? && j.fields != []
  {
    Obj(RequiredFields(req)
        + Field("start_vm", Optional(if req.startVm.Some? then Some(Bool(req.startVm.value)) else None, keepNone))
        + Field("model", Optional(ModelValue(req), keepNone))
        + Field("timeout_seconds", Optional(TimeoutValue(req), keepNone)))
  }

  /** What the schema looks at in a task dict. */
  lemma TaskDictLookups(req: TaskRequest, keepNone: bool)
    ensures var j := TaskDict(req, keepNone);
      && Get(j, "task_id") == Some(Str(req.taskId))
      && Get(j, "prompt") == Some(Str(req.prompt))
      && Get(j, "provider") == Some(Str(req.provider))
      && Get(j, "model") == Optional(ModelValue(req), keepNone)
      && Get(j, "timeout_seconds") == Optional(TimeoutValue(req), keepNone)
      && Get(j, "env_overrides") == None
  {
    var sv := Optional(if req.startVm.Some? then Some(Bool(req.startVm.value)) else None, keepNone);
    var mv := Optional(ModelValue(req), keepNone);
    var tv := Optional(TimeoutValue(req), keepNone);
    var base := RequiredFields(req);
    RequiredLookups(req);
    FieldsLookup(base, sv, mv, tv, "task_id");
    FieldsLookup(base, sv, mv, tv, "prompt");
    FieldsLookup(base, sv, mv, tv, "provider");
    FieldsLookup(base, sv, mv, tv, "model");
    FieldsLookup(base, sv, mv, tv, "timeout_seconds");
    FieldsLookup(base, sv, mv, tv, "env_overrides");
  }

  lemma RequiredLookups(req: TaskRequest)
    ensures var base := RequiredFields(req);
      && Lookup(base, "task_id") == Some(Str(req.taskId))
      && Lookup(base, "prompt") == Some(Str(req.prompt))
      && Lookup(base, "provider") == Some(Str(req.provider))
      && Lookup(base, "model").None? && Lookup(base, "timeout_seconds").None? && Lookup(base, "env_overrides").None?
  {
    var base := RequiredFields(req);
    LookupFirst(base, 0, "task_id");
    LookupFirst(base, 1, "prompt");
    LookupFirst(base, 2, "provider");
  }

  /** A lookup in the required fields followed by the three optional ones. */
  lemma FieldsLookup(base: seq<(string, Json)>, sv: Option<Json>, mv: Option<Json>, tv: Option<Json>, key: string)
    ensures var fields := base + Field("start_vm", sv) + Field("model", mv) + Field("timeout_seconds", tv);
      Lookup(fields, key) ==
        if Lookup(base, key).Some? then Lookup(base, key)
        else if key == "start_vm" && sv.Some? then sv
        else if key == "model" && mv.Some? then mv
        else if key == "timeout_seconds" then tv
        else None
  {
    var a := Field("start_vm", sv);
    var b := Field("model", mv);
    var c := Field("timeout_seconds", tv);
    LookupAppend(base + a + b, c, key);
    LookupAppend(base + a, b, key);
    LookupAppend(base, a, key);
  }

  /** The payload as written passes validation exactly when the provider is known and both optional fields are given. */
  lemma {:induction false} DictAsWrittenValid(req: TaskRequest)
    ensures Validation.WellFormedTask(TaskDict(req, true)) <==>
      req.provider in {"openai", "ollama"} && req.model.Some? && req.timeoutSeconds.Some?
  {
    TaskDictLookups(req, true);
    var j := TaskDict(req, true);
    assert HasKey(j, "task_id") && HasKey(j, "prompt") && HasKey(j, "provider");
  }

  /** The intended payload passes validation exactly when the provider is one the schema knows. */
  lemma {:induction false} DictValid(req: TaskRequest)
    ensures Validation.WellFormedTask(TaskDict(req, false)) <==> req.provider in {"openai", "ollama"}
  {
    TaskDictLookups(req, false);
    var j := TaskDict(req, false);
    assert HasKey(j, "task_id") && HasKey(j, "prompt") && HasKey(j, "provider");
  }

  /** A request naming no model, such as the one the API tests send, is rejected as written: `create_vm` raises and the handler answers 500. */
  lemma ModelessRequestRejected()
    ensures var req := TaskRequest("t1", "hello", "openai", Some(false), None, None);
      && !Validation.WellFormedTask(TaskDict(req, true))
      && Validation.WellFormedTask(TaskDict(req, false))
  {
    var req := TaskRequest("t1", "hello", "openai", Some(false), None, None);
    DictAsWrittenValid(req);
    DictValid(req);
  }

  /**
   * The manager the server builds at import time: an OmegaConf
   * configuration whose `paths.ubuntu_images` is the plain string `"."`,
   * with `use_jailer` and `use_real_init` unset.
   */
  const ServerSettings := VmManager.Settings(".", false, "./results/shared", "./results", 1024, 1, 5, false, false)

  /**
   * As written, the server's own manager cannot create a VM: generating the
   * configuration raises `TypeError` after the shared disk was made, so
   * `create_task_handler` answers 500 for every well-formed task (see its
   * contract, which makes success depend on `imagesIsPath`).
   */
  lemma ServerManagerCannotCreate(disk: string, tap: string)
    ensures !ServerSettings.imagesIsPath
    ensures VmManager.GenerateVmConfigAsWritten(ServerSettings, disk, tap) == Err(VmManager.ImagesNotPath)
    ensures CreateFailure(VmManager.ImagesNotPath) == "unsupported operand type(s) for /: 'str' and 'str'"
  {
  }

  /** The root-filesystem image every VM boots from (`drives[0].path_on_host`). */
  function RootImage(s: VmManager.Settings): string {
    PathJoin(s.ubuntuImages, "ubuntu-rootfs.ext4")
  }

  /** The minimal VM record `create_task_handler` answers with. */
  function TaskResponse(vmId: string, s: VmManager.Settings): Json {
    Obj([("vm_id", Str(vmId)), ("image", Str(RootImage(s))), ("memory_mb", Int(s.memoryMb)), ("vcpus", Int(s.vcpus)),
         ("state", Str("pending"))])
  }

  /**
   * `create_task_handler` with the intended payload: `create_vm` with the
   * request as task data; when `start_vm` is set the VM is started and
   * whatever that raises is swallowed; the answer is the VM's record with
   * state `pending`, its image the root image of the VM's configuration.
   * Whatever `create_vm` raises becomes 500. `world` is what provider
   * resolution and the provider call meet; `diskOk`, `artifactsOk`,
   * `jailer`, `spawned` and the two replies are what the disk commands,
   * artifact preparation and VM launch meet.
   */
  method CreateTaskHandler(mgr: VmManager.VmManager, req: TaskRequest, world: VmManager.ProviderWorld,
                           diskOk: bool, artifactsOk: bool, now: string, jailer: Option<string>,
                           spawned: Option<Process.Proc>, bootReply: Http.Reply, machineReply: Http.Reply)
    returns (r: Result<Json, HttpError>)
    requires mgr.Valid()
    modifies mgr, mgr.fs
    ensures mgr.Valid()
    ensures var ok := Validation.WellFormedTask(TaskDict(req, false));
      && (!ok ==> r.Err? && mgr.fs.files == old(mgr.fs.files) && mgr.activeVms == old(mgr.activeVms))
      && (ok ==> (r.Ok? <==> diskOk && VmManager.SharedDiskPath(req.taskId) !in mgr.fs.failing && mgr.settings.imagesIsPath))
    ensures r.Ok? ==> r.value == TaskResponse(req.taskId, mgr.settings) && req.taskId in mgr.activeVms.entries
    ensures r.Err? ==> r.error.status == 500
  {
    var created := CreateForTask(mgr, req.taskId, TaskDict(req, false), world, diskOk, artifactsOk, now);
    if created.Err? {
      return Err(created.error);
    }
    var answer := StartAndAnswer(mgr, created.value, req.startVm == Some(true), jailer, spawned, bootReply, machineReply, now);
    r := Ok(answer);
  }

  /** The rest of `create_task_handler`: the optional start, then the record of the new VM. */
  method StartAndAnswer(mgr: VmManager.VmManager, vm: VmManager.VmInstance, start: bool, jailer: Option<string>,
                        spawned: Option<Process.Proc>, bootReply: Http.Reply, machineReply: Http.Reply, now: string)
    returns (answer: Json)
    requires vm.config.Some? && |vm.config.value.drives| >= 1 && vm.socketPath.Some?
    requires vm.config.value.drives[0].pathOnHost == RootImage(mgr.settings)
    requires mgr.Valid()
    modifies vm, mgr.fs
    ensures mgr.Valid()
    ensures answer == TaskResponse(vm.vmId, mgr.settings)
  {
    if start {
      StartSwallowed(mgr, vm, jailer, spawned, bootReply, machineReply, now);
    }
    var image := vm.config.value.drives[0].pathOnHost;
    answer := Obj([("vm_id", Str(vm.vmId)), ("image", Str(image)), ("memory_mb", Int(mgr.settings.memoryMb)),
                   ("vcpus", Int(mgr.settings.vcpus)), ("state", Str("pending"))]);
  }

  /** `vm_mgr.start_vm(vm)` with no API key, whatever it raises swallowed; the VM keeps its drives. */
  method StartSwallowed(mgr: VmManager.VmManager, vm: VmManager.VmInstance, jailer: Option<string>,
                        spawned: Option<Process.Proc>, bootReply: Http.Reply, machineReply: Http.Reply, now: string)
    requires vm.config.Some? && |vm.config.value.drives| >= 1 && vm.socketPath.Some?
    modifies vm, mgr.fs
    ensures vm.config.Some? && vm.config.value.drives == old(vm.config.value.drives)
  {
    var _, _, _ := mgr.StartVm(vm, None, jailer, spawned, bootReply, machineReply, now);
  }

  /** The `create_vm` call of `create_task_handler`, with its failure turned into 500. */
  method CreateForTask(mgr: VmManager.VmManager, vmId: string, task: Json, world: VmManager.ProviderWorld,
                       diskOk: bool, artifactsOk: bool, now: string)
    returns (r: Result<VmManager.VmInstance, HttpError>)
    requires mgr.Valid()
    requires task.Obj? && task.fields != []
    modifies mgr, mgr.fs
    ensures mgr.Valid()
    ensures var ok := Validation.WellFormedTask(task);
      && (!ok ==> r.Err? && mgr.fs.files == old(mgr.fs.files) && mgr.activeVms == old(mgr.activeVms))
      && (ok ==> (r.Ok? <==> diskOk && VmManager.SharedDiskPath(vmId) !in mgr.fs.failing && mgr.settings.imagesIsPath))
    ensures r.Err? ==> r.error.status == 500
    ensures r.Ok? ==>
      && fresh(r.value) && r.value.vmId == vmId && vmId in mgr.activeVms.entries
      && r.value.config.Some? && |r.value.config.value.drives| >= 1 && r.value.socketPath.Some?
      && r.value.config.value.drives[0].pathOnHost == RootImage(mgr.settings)
  {
    var created, _ := mgr.CreateVm(vmId, Some(task), world, diskOk, artifactsOk, now);
    if created.Err? {
      return Err(HttpError(500, CreateFailure(created.error)));
    }
    r := Ok(created.value);
  }

  /** The detail of the 500 a failed `create_vm` turns into. */
  function CreateFailure(e: VmManager.CreateError): string {
    match e
    case InvalidTask(v) => v.message
    case DiskFailed => "shared disk creation failed"
    case ImagesNotPath => "unsupported operand type(s) for /: 'str' and 'str'"
  }
}
