/** The file helpers of fs/fs.go over an abstract file table: a map from path to contents
    plus the set of existing directories. OS failures other than a missing file or
    directory (permissions, I/O errors) are supplied by the caller as `osError`. */
module FileSystem {
  import opened Results

  newtype byte = x: int | 0 <= x < 256

  /** A file path split into its directory and its base name. */
  datatype Path = Path(dir: string, name: string)

  type Files = map<Path, seq<byte>>

  /** filepath.Join of two components (path cleaning is not modelled). */
  function Join(dir: string, name: string): string
  {
    dir + "/" + name
  }

  function PathString(p: Path): string
  {
    Join(p.dir, p.name)
  }

  /** The OS's text for a path that does not exist. */
  const NoSuchFile := "no such file or directory"

  /** `Exists`: a missing path is `false` without error; any other stat failure is returned. */
  function Exists(files: Files, p: Path, statError: Option<string>): (r: Result<bool>)
    ensures r == Ok(true) <==> statError.None? && p in files
    ensures r == Ok(false) <==> statError.None? && p !in files
    ensures statError.Some? ==> r == Err(statError.value)
  {
    if statError.Some? then Err(statError.value) else Ok(p in files)
  }

  /** `Length`: the byte count of an existing file; a missing or unreadable file is an error. */
  function Length(files: Files, p: Path, readError: Option<string>): (r: Result<nat>)
    ensures r.Ok? <==> p in files && readError.None?
    ensures r.Ok? ==> r.value == |files[p]|
  {
    if p !in files then Err("failed to read " + PathString(p) + ": " + NoSuchFile)
    else if readError.Some? then Err("failed to read " + PathString(p) + ": " + readError.value)
    else Ok(|files[p]|)
  }

  /** `MD5`: the digest (an uninterpreted `hash` of the contents) of an existing file. */
  function MD5(files: Files, p: Path, hash: seq<byte> -> string, readError: Option<string>): (r: Result<string>)
    ensures r.Ok? <==> p in files && readError.None?
    ensures r.Ok? ==> r.value == hash(files[p])
  {
    if p !in files then Err("failed to open " + PathString(p) + ": " + NoSuchFile)
    else if readError.Some? then Err("failed to read " + PathString(p) + ": " + readError.value)
    else Ok(hash(files[p]))
  }

  /** `fileInSet`: is `name` exactly one of `names`? */
  method FileInSet(name: string, names: seq<string>) returns (found: bool)
    ensures found <==> name in names
  {
    for i := 0 to |names|
      invariant name !in names[..i]
    {
      if name == names[i] {
        return true;
      }
    }
    assert names[..|names|] == names;
    return false;
  }

  /** The table after appending `data` to `p`, creating `p` when it is missing. */
  function Appended(files: Files, p: Path, data: seq<byte>): (r: Files)
    ensures r.Keys == files.Keys + {p}
    ensures p in files ==> r[p] == files[p] + data
    ensures p !in files ==> r[p] == data
    ensures forall q :: q in files && q != p ==> r[q] == files[q]
  {
    files[p := (if p in files then files[p] else []) + data]
  }

  /** Why `Write` cannot open `p`, if it cannot. */
  function WriteError(dirs: set<string>, p: Path, openError: Option<string>): Option<string>
  {
    if openError.Some? then Some("failed to open file: " + openError.value)
    else if p.dir !in dirs then Some("failed to open file: " + NoSuchFile)
    else None
  }

  /** A copy into an open file that breaks off after `written` bytes, with the reader's error. */
  datatype CopyFault = CopyFault(written: nat, error: string)

  /** The bytes that reach the file when copying `data` meets `fault`: all of them without a
      fault, otherwise the first `written` of them. */
  function Copied(data: seq<byte>, fault: Option<CopyFault>): (r: seq<byte>)
    ensures r <= data
    ensures fault.None? ==> r == data
    ensures fault.Some? && fault.value.written < |data| ==> |r| == fault.value.written
  {
    if fault.None? then data
    else data[..if fault.value.written <= |data| then fault.value.written else |data|]
  }

  function CopyError(fault: Option<CopyFault>): Option<string>
  {
    if fault.Some? then Some("failed to copy contents to file: " + fault.value.error) else None
  }

  /** A write that breaks off leaves the file holding a prefix of what the full write would. */
  lemma InterruptedWriteIsPrefix(files: Files, p: Path, data: seq<byte>, fault: Option<CopyFault>)
    ensures Appended(files, p, Copied(data, fault))[p] <= Appended(files, p, data)[p]
  {
    var before := if p in files then files[p] else [];
    var r := Copied(data, fault);
    assert (before + data)[..|before + r|] == before + r;
  }

  function CreateDirError(dir: string, osError: Option<string>): Option<string>
  {
    if osError.Some? then Some("failed to create directory " + dir + ": " + osError.value) else None
  }

  function RemoveError(files: Files, p: Path, osError: Option<string>): Option<string>
  {
    if p !in files then Some("failed to remove file " + PathString(p) + ": " + NoSuchFile)
    else if osError.Some? then Some("failed to remove file " + PathString(p) + ": " + osError.value)
    else None
  }

  function MoveError(files: Files, dirs: set<string>, src: Path, dst: Path, osError: Option<string>): Option<string>
  {
    var prefix := "failed to move " + PathString(src) + " to " + PathString(dst) + ": ";
    if src !in files || dst.dir !in dirs then Some(prefix + NoSuchFile)
    else if osError.Some? then Some(prefix + osError.value)
    else None
  }

  function ListError(dirs: set<string>, dir: string, osError: Option<string>): Option<string>
  {
    if dir !in dirs then Some("failed to list files: " + NoSuchFile)
    else if osError.Some? then Some("failed to list files: " + osError.value)
    else None
  }

  /** The table after a rename: `dst` gets the contents of `src`, replacing what it held. */
  function Moved(files: Files, src: Path, dst: Path): (r: Files)
    requires src in files
    ensures dst in r && r[dst] == files[src]
    ensures src != dst ==> src !in r
    ensures forall q :: q != src && q != dst ==> (q in r <==> q in files) && (q in r ==> r[q] == files[q])
  {
    (files - {src})[dst := files[src]]
  }

  /** The table with every file of `dir` whose name is not in `keep` removed. */
  function Kept(files: Files, dir: string, keep: seq<string>): (r: Files)
    ensures forall q :: q in r <==> q in files && (q.dir != dir || q.name in keep)
    ensures forall q :: q in r ==> r[q] == files[q]
  {
    map q | q in files && (q.dir != dir || q.name in keep) :: files[q]
  }

  /** Two appends to the same file leave the concatenation of what was written. */
  lemma AppendsConcatenate(files: Files, p: Path, a: seq<byte>, b: seq<byte>)
    ensures Appended(Appended(files, p, a), p, b) == Appended(files, p, a + b)
  {
    var before := if p in files then files[p] else [];
    assert before + a + b == before + (a + b);
  }

  /** The host's files and directories. */
  class FileTable {
    var files: Files
    var dirs: set<string>

    constructor (files0: Files, dirs0: set<string>)
      ensures files == files0 && dirs == dirs0
    {
      files := files0;
      dirs := dirs0;
    }

    /** `Write`: appends to `p`, creating it if missing. A file that cannot be opened is
        "failed to open file: ..." and is left alone; a copy that breaks off (`copyFault`) is
        "failed to copy contents to file: ...", and the bytes copied before it stay appended. */
    method Write(p: Path, data: seq<byte>, openError: Option<string>, copyFault: Option<CopyFault>)
      returns (err: Option<string>)
      modifies this
      ensures WriteError(old(dirs), p, openError).Some? ==>
        err == WriteError(old(dirs), p, openError) && files == old(files)
      ensures WriteError(old(dirs), p, openError).None? ==>
        err == CopyError(copyFault) && files == Appended(old(files), p, Copied(data, copyFault))
      ensures err.None? <==> WriteError(old(dirs), p, openError).None? && copyFault.None?
      ensures dirs == old(dirs)
    {
      err := WriteError(dirs, p, openError);
      if err.Some? {
        return;
      }
      var before := if p in files then files[p] else [];
      files := files[p := before + Copied(data, copyFault)];
      err := CopyError(copyFault);
    }

    /** `CreateDir`: MkdirAll, so an existing directory is left as it is. */
    method CreateDir(dir: string, osError: Option<string>) returns (err: Option<string>)
      modifies this
      ensures err == CreateDirError(dir, osError)
      ensures dirs == if err.None? then old(dirs) + {dir} else old(dirs)
      ensures dir in old(dirs) ==> dirs == old(dirs)
      ensures files == old(files)
    {
      err := CreateDirError(dir, osError);
      if err.None? {
        dirs := dirs + {dir};
      }
    }

    /** `RemoveFile`: deletes exactly `p`; a failure names the path. */
    method RemoveFile(p: Path, osError: Option<string>) returns (err: Option<string>)
      modifies this
      ensures err == RemoveError(old(files), p, osError)
      ensures files == if err.None? then old(files) - {p} else old(files)
      ensures dirs == old(dirs)
    {
      err := RemoveError(files, p, osError);
      if err.None? {
        files := files - {p};
      }
    }

    /** `Move`: renames `src` to `dst`, replacing an existing `dst`; a missing source is an error. */
    method Move(src: Path, dst: Path, osError: Option<string>) returns (err: Option<string>)
      modifies this
      ensures err == MoveError(old(files), old(dirs), src, dst, osError)
      ensures files == if err.None? then Moved(old(files), src, dst) else old(files)
      ensures dirs == old(dirs)
    {
      err := MoveError(files, dirs, src, dst, osError);
      if err.None? {
        files := Moved(files, src, dst);
      }
    }

    /** `DeleteFilesExcept`: removes every file of `dir` whose name is not in `keep`, stopping at
        the first removal that fails; files removed before that stay removed. */
    method DeleteFilesExcept(dir: string, keep: seq<string>, listError: Option<string>,
                             removeError: string -> Option<string>) returns (err: Option<string>)
      modifies this
      ensures dirs == old(dirs)
      ensures err.None? <==>
        && ListError(old(dirs), dir, listError).None?
        && forall q :: q in old(files) && q.dir == dir && q.name !in keep ==> removeError(q.name).None?
      ensures err.None? ==> files == Kept(old(files), dir, keep)
      ensures ListError(old(dirs), dir, listError).Some? ==>
        err == ListError(old(dirs), dir, listError) && files == old(files)
      ensures forall q :: q in files ==> q in old(files) && files[q] == old(files)[q]
      ensures forall q :: q in old(files) && q !in files ==> q.dir == dir && q.name !in keep
      ensures forall q :: q in old(files) && (q.dir != dir || q.name in keep) ==> q in files
      ensures err.Some? && ListError(old(dirs), dir, listError).None? ==>
        exists q :: q in files && q.dir == dir && q.name !in keep && removeError(q.name).Some? &&
                    err == RemoveError(files, q, removeError(q.name))
    {
      err := ListError(dirs, dir, listError);
      if err.Some? {
        return;
      }
      var pending := set q | q in files && q.dir == dir;
      ghost var removed: set<Path> := {};
      while pending != {}
        invariant dirs == old(dirs)
        invariant pending <= old(files).Keys && removed <= old(files).Keys && pending !! removed
        invariant forall q :: q in pending ==> q.dir == dir
        invariant files.Keys == old(files).Keys - removed
        invariant forall q :: q in files ==> files[q] == old(files)[q]
        invariant forall q :: q in removed ==> q.dir == dir && q.name !in keep && removeError(q.name).None?
        invariant forall q :: q in old(files) && q.dir == dir && q !in pending && q.name !in keep ==> q in removed
        invariant err.None?
        decreases pending
      {
        var q :| q in pending;
        var keepIt := FileInSet(q.name, keep);
        if !keepIt {
          err := RemoveFile(q, removeError(q.name));
          if err.Some? {
            return;
          }
          removed := removed + {q};
        }
        pending := pending - {q};
      }
      assert files == Kept(old(files), dir, keep);
    }
  }
}
