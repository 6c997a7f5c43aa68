/**
 * The host file system as the control plane touches it: whole files written,
 * renamed and removed by path. A file holds either text, a JSON document
 * written with `json.dump`, or opaque bytes (disk images, archives). Paths
 * in `failing` stand for files the process may not create, replace or
 * delete: every such operation on them raises `OSError`.
 */
module Files {
  import opened Json

  datatype Content = Text(text: string) | Document(doc: Json) | Opaque

  /**
   * `str(Path(dir) / name)`: an absolute name replaces the directory, an
   * empty directory contributes nothing, otherwise one separator joins them.
   */
  function PathJoin(dir: string, name: string): (r: string)
    ensures name != [] && name[0] == '/' ==> r == name
    ensures dir <= r || r == name
    ensures |name| <= |r| && r[|r| - |name|..] == name
  {
    if (name != [] && name[0] == '/') || dir == [] then name
    else if dir[|dir| - 1] == '/' then dir + name
    else dir + "/" + name
  }

  /** The files after `open(path, 'w')` and a write: unchanged where that raises. */
  function Written(files: map<string, Content>, failing: set<string>, path: string, c: Content): map<string, Content> {
    if path in failing then files else files[path := c]
  }

  class FileSystem {
    var files: map<string, Content>
    const failing: set<string>

    constructor (initial: map<string, Content>, denied: set<string>)
      ensures files == initial && failing == denied
    {
      files := initial;
      failing := denied;
    }

    /** `open(path, 'w')` followed by a write: false where it raises. */
    method Write(path: string, c: Content) returns (ok: bool)
      modifies this
      ensures ok <==> path !in failing
      ensures files == if ok then old(files)[path := c] else old(files)
    {
      ok := path !in failing;
      if ok {
        files := files[path := c];
      }
    }

    /** `Path(src).rename(dst)`: false where it raises (no source, or either path refused). */
    method Rename(src: string, dst: string) returns (ok: bool)
      modifies this
      ensures ok <==> src in old(files) && src !in failing && dst !in failing
      ensures files == if ok then (old(files) - {src})[dst := old(files)[src]] else old(files)
    {
      ok := src in files && src !in failing && dst !in failing;
      if ok {
        files := (files - {src})[dst := files[src]];
      }
    }

    /** `Path(path).unlink()` on a file that exists: false where it raises. */
    method Remove(path: string) returns (ok: bool)
      modifies this
      ensures ok <==> path in old(files) && path !in failing
      ensures files == if ok then old(files) - {path} else old(files)
    {
      ok := path in files && path !in failing;
      if ok {
        files := files - {path};
      }
    }
  }
}
