/**
 * Finding the host's default network interface from the text printed by
 * `ip route show default`. Two parsers exist: the network manager's
 * (network_manager.py) skips lines it cannot use, while the older inline
 * copy in the single-VM orchestrator (firecracker_orchestrator.py) lets
 * `list.index` raise `ValueError` on a line that mentions "dev" only inside
 * a longer word.
 */
module DefaultRoute {
  import opened Wrappers
  import opened Text
  import opened Host

  /** `parts.index(w)`, or None where Python raises `ValueError`. */
  function IndexOf(parts: seq<string>, w: string): (r: Option<nat>)
    ensures r.Some? ==> r.value < |parts| && parts[r.value] == w
    ensures r.Some? ==> forall j :: 0 <= j < r.value ==> parts[j] != w
    ensures r.None? <==> w !in parts
  {
    IndexFrom(parts, w, 0)
  }

  function IndexFrom(parts: seq<string>, w: string, k: nat): (r: Option<nat>)
    requires k <= |parts|
    ensures r.Some? ==> k <= r.value < |parts| && parts[r.value] == w
    ensures r.Some? ==> forall j :: k <= j < r.value ==> parts[j] != w
    ensures r.None? <==> w !in parts[k..]
    decreases |parts| - k
  {
    if k == |parts| then None
    else if parts[k] == w then Some(k)
    else
      var r := IndexFrom(parts, w, k + 1);
      assert parts[k..] == [parts[k]] + parts[k + 1..];
      r
  }

  /** The substring test both parsers apply before looking at words. */
  predicate Mentions(line: string) {
    Contains(line, "default") && Contains(line, "dev")
  }

  /** What one line yields: the word after the first `dev` word of a line that mentions both markers. */
  function LineDevice(line: string): Option<string> {
    if !Mentions(line) then None
    else
      var parts := Words(line);
      match IndexOf(parts, "dev")
      case None => None
      case Some(i) => if i + 1 < |parts| then Some(parts[i + 1]) else None
  }

  /** The network manager's loop, from line `k` on: the first line that yields a device. */
  function FirstDevice(lines: seq<string>, k: nat): Option<string>
    requires k <= |lines|
    decreases |lines| - k
  {
    if k == |lines| then None
    else if LineDevice(lines[k]).Some? then LineDevice(lines[k])
    else FirstDevice(lines, k + 1)
  }

  /** `_get_default_interface`'s parse of the command's standard output. */
  function DefaultDevice(stdout: string): Option<string> {
    FirstDevice(Split(stdout, '\n'), 0)
  }

  /**
   * `_get_default_interface` given the outcome of `ip route show default`:
   * a non-zero exit status reads as "no interface"; a command that cannot
   * start raises `OSError` to the caller.
   */
  function DefaultInterfaceFrom(o: Outcome): (r: Result<Option<string>, Status>)
    ensures r.Err? <==> o.Unstartable?
    ensures r.Err? ==> r.error == OsError
    ensures r.Ok? && r.value.Some? ==> o.Completed? && o.code == 0 && r.value == DefaultDevice(o.stdout)
  {
    match o
    case Unstartable => Err(OsError)
    case Completed(code, out) => if code != 0 then Ok(None) else Ok(DefaultDevice(out))
  }

  /** The device found is the first line's yield, and no earlier line yields one. */
  lemma {:induction false} FirstDeviceIsFirst(lines: seq<string>, k: nat)
    requires k <= |lines|
    ensures FirstDevice(lines, k).Some? ==>
      exists m :: k <= m < |lines| && LineDevice(lines[m]) == FirstDevice(lines, k)
        && forall j :: k <= j < m ==> LineDevice(lines[j]).None?
    ensures FirstDevice(lines, k).None? <==> forall j :: k <= j < |lines| ==> LineDevice(lines[j]).None?
    decreases |lines| - k
  {
    if k < |lines| && LineDevice(lines[k]).None? {
      FirstDeviceIsFirst(lines, k + 1);
      if FirstDevice(lines, k + 1).Some? {
        var m :| k + 1 <= m < |lines| && LineDevice(lines[m]) == FirstDevice(lines, k + 1)
          && forall j :: k + 1 <= j < m ==> LineDevice(lines[j]).None?;
        assert forall j :: k <= j < m ==> LineDevice(lines[j]).None?;
      }
    }
  }

  /** A device is a whole whitespace-free word of a line that names the default route. */
  lemma LineDeviceIsWord(line: string)
    requires LineDevice(line).Some?
    ensures IsWord(LineDevice(line).value) && LineDevice(line).value in Words(line)
    ensures Contains(line, "default")
  {
    WordsAreWords(line);
  }

  datatype LegacyError = ValueError

  /**
   * The orchestrator's inline copy, from line `k` on: the same search, but a
   * mentioning line without a `dev` word raises instead of being skipped.
   */
  function LegacyFirstDevice(lines: seq<string>, k: nat): Result<Option<string>, LegacyError>
    requires k <= |lines|
    decreases |lines| - k
  {
    if k == |lines| then Ok(None)
    else if !Mentions(lines[k]) then LegacyFirstDevice(lines, k + 1)
    else
      var parts := Words(lines[k]);
      match IndexOf(parts, "dev")
      case None => Err(ValueError)
      case Some(i) => if i + 1 < |parts| then Ok(Some(parts[i + 1])) else LegacyFirstDevice(lines, k + 1)
  }

  /** The inline copy over the whole route output: where it does not raise, the network manager's answer. */
  function LegacyDefaultDevice(stdout: string): (r: Result<Option<string>, LegacyError>)
    ensures r.Ok? ==> r.value == FirstDevice(Split(stdout, '\n'), 0)
  {
    LegacyAgrees(Split(stdout, '\n'), 0);
    LegacyFirstDevice(Split(stdout, '\n'), 0)
  }

  /** Whenever the inline copy does not raise, it finds what the network manager finds. */
  lemma {:induction false} LegacyAgrees(lines: seq<string>, k: nat)
    requires k <= |lines|
    ensures LegacyFirstDevice(lines, k).Ok? ==> LegacyFirstDevice(lines, k).value == FirstDevice(lines, k)
    decreases |lines| - k
  {
    if k < |lines| {
      LegacyAgrees(lines, k + 1);
    }
  }

  /**
   * It raises exactly when, before any line yields a device, some line
   * mentions both markers but has no `dev` word.
   */
  lemma {:induction false} LegacyRaisesIff(lines: seq<string>, k: nat)
    requires k <= |lines|
    ensures LegacyFirstDevice(lines, k).Err? <==>
      exists m :: k <= m < |lines| && Mentions(lines[m]) && "dev" !in Words(lines[m])
        && forall j :: k <= j < m ==> LineDevice(lines[j]).None?
    decreases |lines| - k
  {
    if k < |lines| {
      LegacyRaisesIff(lines, k + 1);
      var line := lines[k];
      if Mentions(line) && "dev" !in Words(line) {
        assert LegacyFirstDevice(lines, k).Err?;
      } else if LineDevice(line).Some? {
        assert LegacyFirstDevice(lines, k).Ok?;
        forall m | k <= m < |lines| && Mentions(lines[m]) && "dev" !in Words(lines[m])
          ensures exists j :: k <= j < m && LineDevice(lines[j]).Some?
        {
          assert m != k;
        }
      } else {
        assert LegacyFirstDevice(lines, k) == LegacyFirstDevice(lines, k + 1);
        if LegacyFirstDevice(lines, k + 1).Err? {
          var m :| k + 1 <= m < |lines| && Mentions(lines[m]) && "dev" !in Words(lines[m])
            && forall j :: k + 1 <= j < m ==> LineDevice(lines[j]).None?;
          assert forall j :: k <= j < m ==> LineDevice(lines[j]).None?;
        } else {
          forall m | k <= m < |lines| && Mentions(lines[m]) && "dev" !in Words(lines[m])
            ensures exists j :: k <= j < m && LineDevice(lines[j]).Some?
          {
            assert m != k;
          }
        }
      }
    }
  }

  /** A one-line output that mentions "dev" only inside a word: the two parsers part ways. */
  lemma DevInsideWordDiffers(line: string)
    requires '\n' !in line && Mentions(line) && "dev" !in Words(line)
    ensures LegacyDefaultDevice(line).Err?
    ensures DefaultDevice(line).None?
  {
    SplitWithoutSeparator(line, '\n');
    var lines := Split(line, '\n');
    assert lines[0] == line && |lines| == 1;
    assert IndexOf(Words(line), "dev").None?;
    assert LineDevice(line).None?;
    assert FirstDevice(lines, 1).None?;
    assert LegacyFirstDevice(lines, 0).Err?;
  }

  lemma {:induction false} SplitWithoutSeparator(s: string, c: char)
    requires c !in s
    ensures Split(s, c) == [s]
    decreases |s|
  {
    if |s| > 0 {
      SplitWithoutSeparator(s[1..], c);
      assert [s[0]] + s[1..] == s;
    }
  }
}
