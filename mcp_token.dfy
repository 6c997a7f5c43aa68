/**
 * The token command-line helper (scripts/mcp_token.py): shows the current
 * control-plane token, replaces it in the token file, or asks a running
 * server to rotate it. Exit codes: 0 success, 1 usage or unexpected reply,
 * 2 failure.
 */
module McpToken {
  import opened Wrappers
  import opened Text
  import opened Json
  import opened Files

  /** Environment variables by name. */
  type Environment = map<string, string>

  /** `os.getenv('MCP_AUTH_FILE', '.mcp_token')`, read once at import. */
  function AuthFile(env: Environment): string {
    if "MCP_AUTH_FILE" in env then env["MCP_AUTH_FILE"] else ".mcp_token"
  }

  /** The text of the token file, if it exists (the file is taken to hold text). */
  function StoredToken(files: map<string, Content>, path: string): Option<string> {
    if path in files && files[path].Text? then Some(files[path].text) else None
  }

  /** `read_token`: a non-empty `MCP_AUTH_TOKEN`, else the stripped file text, else `''`. */
  function ReadToken(env: Environment, stored: Option<string>): (r: string)
    ensures "MCP_AUTH_TOKEN" in env && env["MCP_AUTH_TOKEN"] != "" ==> r == env["MCP_AUTH_TOKEN"]
    ensures !("MCP_AUTH_TOKEN" in env && env["MCP_AUTH_TOKEN"] != "") && stored.Some? ==> r == Strip(stored.value)
    ensures !("MCP_AUTH_TOKEN" in env && env["MCP_AUTH_TOKEN"] != "") && stored.None? ==> r == ""
  {
    if "MCP_AUTH_TOKEN" in env && env["MCP_AUTH_TOKEN"] != "" then env["MCP_AUTH_TOKEN"]
    else if stored.Some? then Strip(stored.value)
    else ""
  }

  /** A token without surrounding whitespace, as `secrets.token_urlsafe` produces, reads back unchanged. */
  lemma ReadBackWrittenToken(env: Environment, t: string)
    requires !("MCP_AUTH_TOKEN" in env && env["MCP_AUTH_TOKEN"] != "")
    requires forall i :: 0 <= i < |t| ==> !IsSpace(t[i])
    ensures ReadToken(env, Some(t)) == t
  {
  }

  /**
   * `write_token`: the token goes into a fresh temporary file `tmp`, which
   * then replaces the token file; the temporary file never survives. Any
   * failure gives false and leaves the files as they were.
   */
  method WriteToken(fs: FileSystem, path: string, tmp: string, t: string) returns (ok: bool)
    requires tmp != path && tmp !in fs.files
    modifies fs
    ensures ok <==> tmp !in fs.failing && path !in fs.failing
    ensures fs.files == if ok then old(fs.files)[path := Text(t)] else old(fs.files)
  {
    ok := fs.Write(tmp, Text(t));
    if !ok {
      return;
    }
    ok := fs.Rename(tmp, path);
    if tmp in fs.files {
      var _ := fs.Remove(tmp);
    }
    assert ok ==> fs.files == (old(fs.files) - {tmp})[path := Text(t)];
  }

  /** What a command printed on standard output, and its exit code. */
  datatype Exit = Exit(code: int, printed: Option<string>)

  /** `rotate_local`: `newToken` stands for the new random token, printed when it was stored. */
  method RotateLocal(fs: FileSystem, env: Environment, tmp: string, newToken: string) returns (r: Exit)
    requires tmp != AuthFile(env) && tmp !in fs.files
    modifies fs
    ensures r.code == 0 || r.code == 2
    ensures r.code == 0 <==> tmp !in fs.failing && AuthFile(env) !in fs.failing
    ensures r.code == 0 ==> r.printed == Some(newToken) && fs.files == old(fs.files)[AuthFile(env) := Text(newToken)]
    ensures r.code == 2 ==> r.printed.None? && fs.files == old(fs.files)
  {
    var ok := WriteToken(fs, AuthFile(env), tmp, newToken);
    if ok {
      return Exit(0, Some(newToken));
    }
    return Exit(2, None);
  }

  /** `url` unless it starts with `http`, then `http://` in front. */
  function WithScheme(url: string): (r: string)
    ensures "http" <= r
    ensures "http" <= url ==> r == url
    ensures !("http" <= url) ==> r == "http://" + url
  {
    if "http" <= url then url else "http://" + url
  }

  /** The rotation endpoint: trailing slashes dropped, then the fixed path. */
  function RotateEndpoint(url: string): (r: string)
    ensures "http" <= r
    ensures |r| >= 16 && r[|r| - 16..] == "/v1/token/rotate"
    ensures r[..|r| - 16] == RStripChar(WithScheme(url), '/')
  {
    var base := RStripChar(WithScheme(url), '/');
    assert |base| >= 4 by {
      var s := WithScheme(url);
      assert s[3] == 'p';
    }
    assert base[..4] == WithScheme(url)[..4];
    base + "/v1/token/rotate"
  }

  /** Adding the scheme is idempotent: a URL that already has it is left alone. */
  lemma WithSchemeIdempotent(url: string)
    ensures WithScheme(WithScheme(url)) == WithScheme(url)
  {
  }

  /** What `urlopen` produced: the body text and what `json.loads` made of it (None where it raised), or an error. */
  datatype RemoteReply = Answered(body: string, parsed: Option<Json>) | Raised

  /** The request `rotate_remote` sends: the endpoint and the `Authorization` header. */
  datatype RotateRequest = RotateRequest(endpoint: string, authorization: string)

  datatype RemoteOutcome = RemoteOutcome(exit: Exit, request: Option<RotateRequest>)

  /**
   * `rotate_remote`: no current token means no request and exit 2. Otherwise
   * a POST with the token as bearer credential; a JSON object holding
   * `token` gives 0 and prints it, any other body 1 (printed as is), and a
   * failed request 2.
   */
  function RotateRemote(current: string, url: string, reply: RemoteReply): (r: RemoteOutcome)
    ensures r.request.None? <==> current == ""
    ensures r.request.Some? ==> r.request.value == RotateRequest(RotateEndpoint(url), "Bearer " + current)
    ensures r.exit.code == 0 <==> current != "" && reply.Answered? && reply.parsed.Some? && HasKey(reply.parsed.value, "token")
    ensures r.exit.code == 2 <==> current == "" || reply.Raised?
    ensures r.exit.code == 1 <==> current != "" && reply.Answered? && !(reply.parsed.Some? && HasKey(reply.parsed.value, "token"))
  {
    if current == "" then RemoteOutcome(Exit(2, None), None)
    else
      var request := Some(RotateRequest(RotateEndpoint(url), "Bearer " + current));
      match reply
      case Raised => RemoteOutcome(Exit(2, None), request)
      case Answered(body, parsed) =>
        if parsed.Some? && HasKey(parsed.value, "token") then
          RemoteOutcome(Exit(0, Some(PyStr(Get(parsed.value, "token").value))), request)
        else RemoteOutcome(Exit(1, Some(body)), request)
  }

  /**
   * `main`: dispatch on the command word. `newToken`, `tmp` and `reply` are the
   * new random token, the temporary file name and the server's answer,
   * used only by the command that needs them.
   */
  method RunCommand(fs: FileSystem, env: Environment, argv: seq<string>, tmp: string, newToken: string, reply: RemoteReply)
    returns (r: Exit)
    requires tmp != AuthFile(env) && tmp !in fs.files
    modifies fs
    ensures |argv| < 2 ==> r.code == 1
    ensures |argv| >= 2 && argv[1] == "show" ==> r == Exit(0, Some(ReadToken(env, StoredToken(old(fs.files), AuthFile(env)))))
    ensures |argv| >= 2 && argv[1] == "rotate-remote" && |argv| < 3 ==> r.code == 2
    ensures |argv| >= 2 && argv[1] == "rotate-remote" && |argv| >= 3 ==>
              r == RotateRemote(ReadToken(env, StoredToken(old(fs.files), AuthFile(env))), argv[2], reply).exit
    ensures |argv| >= 2 && argv[1] !in {"show", "rotate-local", "rotate-remote"} ==> r.code == 1
    ensures |argv| >= 2 && argv[1] == "rotate-local" ==> (r.code == 0 <==> tmp !in fs.failing && AuthFile(env) !in fs.failing)
    ensures !(|argv| >= 2 && argv[1] == "rotate-local" && r.code == 0) ==> fs.files == old(fs.files)
    ensures |argv| >= 2 && argv[1] == "rotate-local" && r.code == 0 ==> fs.files == old(fs.files)[AuthFile(env) := Text(newToken)]
  {
    if |argv| < 2 {
      return Exit(1, None);
    }
    var cmd := argv[1];
    var current := ReadToken(env, StoredToken(fs.files, AuthFile(env)));
    if cmd == "show" {
      return Exit(0, Some(current));
    }
    if cmd == "rotate-local" {
      r := RotateLocal(fs, env, tmp, newToken);
      return;
    }
    if cmd == "rotate-remote" {
      if |argv| < 3 {
        return Exit(2, None);
      }
      var outcome := RotateRemote(current, argv[2], reply);
      return outcome.exit;
    }
    return Exit(1, None);
  }
}
