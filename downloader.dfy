/** The OVA downloader (package downloader), as its test fixes it: the calls it makes, in
    order, against the configuration, the Pivotal Network client and the file helpers.

    The downloader works on a `FileSystem.FileTable`. The answers of the other collaborators
    (the OVA path, the bytes the client returns for an offset, whether saving the API token
    fails), the OS faults of each file step, a download stream that breaks off while it is
    being written (by attempt), and the MD5 digest of some contents are parameters, bundled
    in `Env`. */
module Downloader {
  import opened Results
  import FS = FileSystem

  /** The downloader's collaborator calls, in order. */
  datatype Call =
    | GetOVAPath
    | CreateDir(dir: string)
    | DeleteAllExcept(dir: string, keep: seq<string>)
    | Exists(path: FS.Path)
    | Length(path: FS.Path)
    | DownloadOVA(offset: nat)
    | SaveToken
    | Write(path: FS.Path)
    | MD5(path: FS.Path)
    | RemoveFile(path: FS.Path)
    | Move(src: FS.Path, dst: FS.Path)

  /** The file steps an OS fault can hit. A download makes at most two attempts, numbered 1 and 2. */
  datatype Step =
    | MakeDir | ListDir | StatPartial | SizePartial | WritePartial(attempt: nat)
    | HashPartial(attempt: nat) | DropPartial | Rename | StatOVA | HashOVA

  datatype Env = Env(
    ovaPath: Result<FS.Path>,
    fetch: (nat, nat) -> Result<seq<FS.byte>>,
    saveToken: nat -> Option<string>,
    hash: seq<FS.byte> -> string,
    fault: Step -> Option<string>,
    interrupt: nat -> Option<FS.CopyFault>,
    staleRemoveError: string -> Option<string>)

  const DownloadFailed := "download failed"

  /** The partial download sits next to the OVA, with ".partial" appended to its name. */
  function PartialOf(ova: FS.Path): (p: FS.Path)
    ensures p.dir == ova.dir && p != ova
  {
    FS.Path(ova.dir, ova.name + ".partial")
  }

  /** The names the cleanup keeps: the OVA and its partial download. */
  function Keep(ova: FS.Path): seq<string>
  {
    [ova.name, ova.name + ".partial"]
  }

  /** One fetch, save, write and checksum round: its result (does the partial file match?),
      its calls and the files afterwards. */
  datatype Attempted = Attempted(result: Result<bool>, calls: seq<Call>, files: FS.Files)

  function AttemptSpec(files: FS.Files, dirs: set<string>, partial: FS.Path, offset: nat, k: nat,
                       env: Env, expected: string): (a: Attempted)
    ensures |a.calls| >= 1 && a.calls[0] == DownloadOVA(offset)
    ensures forall i :: 1 <= i < |a.calls| ==> !a.calls[i].DownloadOVA?
    ensures a.result.Ok? ==> partial in a.files && a.result.value == (env.hash(a.files[partial]) == expected)
  {
    match env.fetch(k, offset)
    case Err(e) => Attempted(Err(e), [DownloadOVA(offset)], files)
    case Ok(data) =>
      if env.saveToken(k).Some? then Attempted(Err(env.saveToken(k).value), [DownloadOVA(offset), SaveToken], files)
      else
        var written := [DownloadOVA(offset), SaveToken, Write(partial)];
        match FS.WriteError(dirs, partial, env.fault(WritePartial(k)))
        case Some(e) => Attempted(Err(e), written, files)
        case None =>
          var after := FS.Appended(files, partial, FS.Copied(data, env.interrupt(k)));
          if env.interrupt(k).Some? then Attempted(Err(FS.CopyError(env.interrupt(k)).value), written, after)
          else
          match FS.MD5(after, partial, env.hash, env.fault(HashPartial(k)))
          case Err(e) => Attempted(Err(e), written + [MD5(partial)], after)
          case Ok(sum) => Attempted(Ok(sum == expected), written + [MD5(partial)], after)
  }

  /** The outcome of (part of) a download: its error, its calls and the files afterwards. */
  datatype Run = Run(err: Option<string>, calls: seq<Call>, files: FS.Files)

  function Then(before: seq<Call>, r: Run): Run
  {
    Run(r.err, before + r.calls, r.files)
  }

  function MoveSpec(files: FS.Files, dirs: set<string>, partial: FS.Path, ova: FS.Path, env: Env): Run
  {
    match FS.MoveError(files, dirs, partial, ova, env.fault(Rename))
    case Some(e) => Run(Some(e), [Move(partial, ova)], files)
    case None => Run(None, [Move(partial, ova)], FS.Moved(files, partial, ova))
  }

  /** After an attempt that is not retried: a matching file is moved into place, a mismatch
      fails the download, and an error is returned as it is. */
  function SettleSpec(result: Result<bool>, files: FS.Files, dirs: set<string>, partial: FS.Path, ova: FS.Path,
                  env: Env): Run
  {
    match result
    case Err(e) => Run(Some(e), [], files)
    case Ok(matched) =>
      if matched then MoveSpec(files, dirs, partial, ova, env)
      else Run(Some(DownloadFailed), [], files)
  }

  /** A partial download exists: resume it at its length; if the result does not match, remove
      it and fetch once more from the start. */
  function ResumeSpec(files: FS.Files, dirs: set<string>, ova: FS.Path, env: Env, expected: string): Run
  {
    var partial := PartialOf(ova);
    match FS.Length(files, partial, env.fault(SizePartial))
    case Err(e) => Run(Some(e), [Length(partial)], files)
    case Ok(n) =>
      var a := AttemptSpec(files, dirs, partial, n, 1, env, expected);
      var resumed := [Length(partial)] + a.calls;
      if a.result != Ok(false) then Then(resumed, SettleSpec(a.result, a.files, dirs, partial, ova, env))
      else
        var dropped := resumed + [RemoveFile(partial)];
        match FS.RemoveError(a.files, partial, env.fault(DropPartial))
        case Some(e) => Run(Some(e), dropped, a.files)
        case None =>
          var b := AttemptSpec(a.files - {partial}, dirs, partial, 0, 2, env, expected);
          Then(dropped + b.calls, SettleSpec(b.result, b.files, dirs, partial, ova, env))
  }

  /** Everything after the cleanup: resume a partial download if there is one, otherwise fetch
      from the start, with no retry. */
  function FetchSpec(files: FS.Files, dirs: set<string>, ova: FS.Path, env: Env, expected: string): Run
  {
    var partial := PartialOf(ova);
    match FS.Exists(files, partial, env.fault(StatPartial))
    case Err(e) => Run(Some(e), [Exists(partial)], files)
    case Ok(present) =>
      if present then Then([Exists(partial)], ResumeSpec(files, dirs, ova, env, expected))
      else
        var a := AttemptSpec(files, dirs, partial, 0, 1, env, expected);
        Then([Exists(partial)] + a.calls, SettleSpec(a.result, a.files, dirs, partial, ova, env))
  }

  /** The offsets of the fetches among `calls`, in order. */
  function Offsets(calls: seq<Call>): seq<nat>
  {
    if calls == [] then []
    else (if calls[0].DownloadOVA? then [calls[0].offset] else []) + Offsets(calls[1..])
  }

  /** The cleanup removes no file the rest of the download relies on and succeeds. */
  predicate CleanupSucceeds(files: FS.Files, dirs: set<string>, ova: FS.Path, env: Env)
  {
    && FS.ListError(dirs, ova.dir, env.fault(ListDir)).None?
    && forall q :: q in files && q.dir == ova.dir && q.name !in Keep(ova) ==> env.staleRemoveError(q.name).None?
  }

  /** Every write of the partial file comes right after the API token was saved. */
  predicate TokenSavedBeforeWrites(calls: seq<Call>)
  {
    forall i :: 0 <= i < |calls| && calls[i].Write? ==> i > 0 && calls[i - 1] == SaveToken
  }

  /** No fault anywhere: every fetch and every file step succeeds. */
  ghost predicate Reliable(env: Env)
  {
    && (forall s :: env.fault(s).None?)
    && (forall k, offset :: env.fetch(k, offset).Ok?)
    && (forall k :: env.saveToken(k).None?)
    && (forall k :: env.interrupt(k).None?)
  }

  lemma {:induction false} OffsetsAppend(a: seq<Call>, b: seq<Call>)
    ensures Offsets(a + b) == Offsets(a) + Offsets(b)
  {
    if a == [] {
      assert a + b == b;
    } else {
      var head := if a[0].DownloadOVA? then [a[0].offset] else [];
      assert (a + b)[0] == a[0] && (a + b)[1..] == a[1..] + b;
      OffsetsAppend(a[1..], b);
      calc {
        Offsets(a + b);
        head + Offsets(a[1..] + b);
        head + (Offsets(a[1..]) + Offsets(b));
        (head + Offsets(a[1..])) + Offsets(b);
      }
    }
  }

  lemma NoOffsets(calls: seq<Call>)
    requires forall i :: 0 <= i < |calls| ==> !calls[i].DownloadOVA?
    ensures Offsets(calls) == []
  {
    if calls != [] {
      NoOffsets(calls[1..]);
    }
  }

  /** An attempt fetches once, at its offset. */
  lemma AttemptFetchesOnce(files: FS.Files, dirs: set<string>, partial: FS.Path, offset: nat, k: nat,
                           env: Env, expected: string)
    ensures Offsets(AttemptSpec(files, dirs, partial, offset, k, env, expected).calls) == [offset]
  {
    var a := AttemptSpec(files, dirs, partial, offset, k, env, expected);
    var rest := a.calls[1..];
    assert a.calls == [DownloadOVA(offset)] + rest;
    assert forall i :: 0 <= i < |rest| ==> !rest[i].DownloadOVA? by {
      forall i | 0 <= i < |rest| ensures !rest[i].DownloadOVA? {
        assert rest[i] == a.calls[i + 1];
      }
    }
    NoOffsets(rest);
    OffsetsAppend([DownloadOVA(offset)], rest);
    assert Offsets([DownloadOVA(offset)]) == [offset] by {
      assert [DownloadOVA(offset)][1..] == [];
    }
  }

  lemma SettleFetchesNothing(result: Result<bool>, files: FS.Files, dirs: set<string>, partial: FS.Path,
                              ova: FS.Path, env: Env)
    ensures Offsets(SettleSpec(result, files, dirs, partial, ova, env).calls) == []
  {
    NoOffsets(SettleSpec(result, files, dirs, partial, ova, env).calls);
  }

  /** The fetches of a resumed download: the first at the partial file's length, and a second,
      at 0, only after the resumed file failed its checksum and was removed. */
  lemma ResumeOffsets(files: FS.Files, dirs: set<string>, ova: FS.Path, env: Env, expected: string)
    ensures var r := ResumeSpec(files, dirs, ova, env, expected);
      var offsets := Offsets(r.calls);
      var partial := PartialOf(ova);
      && |offsets| <= 2
      && (|offsets| >= 1 ==> partial in files && offsets[0] == |files[partial]|)
      && (|offsets| == 2 ==>
            && offsets[1] == 0 && RemoveFile(partial) in r.calls
            && env.fetch(1, |files[partial]|).Ok?
            && env.hash(files[partial] + env.fetch(1, |files[partial]|).value) != expected)
  {
    var partial := PartialOf(ova);
    var r := ResumeSpec(files, dirs, ova, env, expected);
    match FS.Length(files, partial, env.fault(SizePartial))
    case Err(e) =>
      NoOffsets(r.calls);
    case Ok(n) =>
      var a := AttemptSpec(files, dirs, partial, n, 1, env, expected);
      var resumed := [Length(partial)] + a.calls;
      AttemptFetchesOnce(files, dirs, partial, n, 1, env, expected);
      NoOffsets([Length(partial)]);
      OffsetsAppend([Length(partial)], a.calls);
      if a.result != Ok(false) {
        var t := SettleSpec(a.result, a.files, dirs, partial, ova, env);
        SettleFetchesNothing(a.result, a.files, dirs, partial, ova, env);
        OffsetsAppend(resumed, t.calls);
      } else {
        var dropped := resumed + [RemoveFile(partial)];
        NoOffsets([RemoveFile(partial)]);
        OffsetsAppend(resumed, [RemoveFile(partial)]);
        match FS.RemoveError(a.files, partial, env.fault(DropPartial))
        case Some(e) =>
        case None =>
          var b := AttemptSpec(a.files - {partial}, dirs, partial, 0, 2, env, expected);
          var t := SettleSpec(b.result, b.files, dirs, partial, ova, env);
          AttemptFetchesOnce(a.files - {partial}, dirs, partial, 0, 2, env, expected);
          SettleFetchesNothing(b.result, b.files, dirs, partial, ova, env);
          OffsetsAppend(dropped, b.calls);
          OffsetsAppend(dropped + b.calls, t.calls);
          assert r.calls == dropped + b.calls + t.calls;
          assert r.calls[|resumed|] == RemoveFile(partial);
      }
  }

  /** The fetches of a download: one at the partial file's length when a partial download
      exists, or at 0 when none does; a second one, at 0, only when a resumed file failed its
      checksum and was removed. Never more than two. */
  lemma FetchOffsets(files: FS.Files, dirs: set<string>, ova: FS.Path, env: Env, expected: string)
    ensures var r := FetchSpec(files, dirs, ova, env, expected);
      var offsets := Offsets(r.calls);
      var partial := PartialOf(ova);
      && |offsets| <= 2
      && (|offsets| >= 1 ==> offsets[0] == (if partial in files then |files[partial]| else 0))
      && (|offsets| == 2 ==>
            && offsets[1] == 0 && partial in files && RemoveFile(partial) in r.calls
            && env.fetch(1, |files[partial]|).Ok?
            && env.hash(files[partial] + env.fetch(1, |files[partial]|).value) != expected)
  {
    var partial := PartialOf(ova);
    var r := FetchSpec(files, dirs, ova, env, expected);
    NoOffsets([Exists(partial)]);
    match FS.Exists(files, partial, env.fault(StatPartial))
    case Err(e) =>
    case Ok(present) =>
      if present {
        var t := ResumeSpec(files, dirs, ova, env, expected);
        ResumeOffsets(files, dirs, ova, env, expected);
        OffsetsAppend([Exists(partial)], t.calls);
      } else {
        var a := AttemptSpec(files, dirs, partial, 0, 1, env, expected);
        var t := SettleSpec(a.result, a.files, dirs, partial, ova, env);
        AttemptFetchesOnce(files, dirs, partial, 0, 1, env, expected);
        SettleFetchesNothing(a.result, a.files, dirs, partial, ova, env);
        OffsetsAppend([Exists(partial)], a.calls);
        OffsetsAppend([Exists(partial)] + a.calls, t.calls);
      }
  }

  /** A download that succeeds leaves the OVA holding contents with the expected checksum, and
      no partial file behind. */
  lemma SuccessMeansVerifiedOVA(files: FS.Files, dirs: set<string>, ova: FS.Path, env: Env, expected: string)
    ensures var r := FetchSpec(files, dirs, ova, env, expected);
      r.err.None? ==> ova in r.files && env.hash(r.files[ova]) == expected && PartialOf(ova) !in r.files
  {
  }

  /** An attempt reports a checksum, rather than an error, exactly when each of its steps
      succeeded; the checksum then matches exactly when the partial file's old contents followed
      by the fetched bytes have the expected digest. */
  lemma AttemptResult(files: FS.Files, dirs: set<string>, partial: FS.Path, offset: nat, k: nat,
                      env: Env, expected: string)
    ensures var a := AttemptSpec(files, dirs, partial, offset, k, env, expected);
      && (a.result.Ok? <==>
            && env.fetch(k, offset).Ok? && env.saveToken(k).None?
            && FS.WriteError(dirs, partial, env.fault(WritePartial(k))).None?
            && env.interrupt(k).None? && env.fault(HashPartial(k)).None?)
      && (a.result.Ok? ==>
            a.result.value == (env.hash((if partial in files then files[partial] else []) + env.fetch(k, offset).value) == expected))
  {
  }

  /** A download stream that breaks off while it is written fails the attempt with the copy
      error, and leaves the partial file holding a prefix of what the full write would have
      left: the file a later download resumes at its length. */
  lemma InterruptedAttemptKeepsPrefix(files: FS.Files, dirs: set<string>, partial: FS.Path, offset: nat, k: nat,
                                      env: Env, expected: string)
    requires env.fetch(k, offset).Ok? && env.saveToken(k).None?
    requires FS.WriteError(dirs, partial, env.fault(WritePartial(k))).None? && env.interrupt(k).Some?
    ensures var a := AttemptSpec(files, dirs, partial, offset, k, env, expected);
      && a.result == Err("failed to copy contents to file: " + env.interrupt(k).value.error)
      && partial in a.files
      && a.files[partial] <= FS.Appended(files, partial, env.fetch(k, offset).value)[partial]
  {
    FS.InterruptedWriteIsPrefix(files, partial, env.fetch(k, offset).value, env.interrupt(k));
  }

  /** The first step of an attempt that fails ends it at once with that step's own error: the
      fetch's error, the token store's error, the write's open error, the copy error, or the
      checksum's read error. No later call is made. */
  lemma AttemptErrors(files: FS.Files, dirs: set<string>, partial: FS.Path, offset: nat, k: nat,
                      env: Env, expected: string)
    ensures var a := AttemptSpec(files, dirs, partial, offset, k, env, expected);
      var fetched := env.fetch(k, offset);
      var writeError := FS.WriteError(dirs, partial, env.fault(WritePartial(k)));
      var d := DownloadOVA(offset);
      && (fetched.Err? ==> a == Attempted(Err(fetched.error), [d], files))
      && (fetched.Ok? && env.saveToken(k).Some? ==>
            a == Attempted(Err(env.saveToken(k).value), [d, SaveToken], files))
      && (fetched.Ok? && env.saveToken(k).None? && writeError.Some? ==>
            a == Attempted(Err(writeError.value), [d, SaveToken, Write(partial)], files))
      && (fetched.Ok? && env.saveToken(k).None? && writeError.None? && env.interrupt(k).Some? ==>
            && a.result == Err("failed to copy contents to file: " + env.interrupt(k).value.error)
            && a.calls == [d, SaveToken, Write(partial)])
      && (fetched.Ok? && env.saveToken(k).None? && writeError.None? && env.interrupt(k).None?
          && env.fault(HashPartial(k)).Some? ==>
            && a.result == Err("failed to read " + FS.PathString(partial) + ": " + env.fault(HashPartial(k)).value)
            && a.calls == [d, SaveToken, Write(partial), MD5(partial)])
  {
  }

  /** After an attempt that is not retried: its error is returned as it is and a mismatch is
      "download failed", both with no call; a match is renamed into place, and the rename's
      own error, if any, is the download's, with the files left as they were. */
  lemma SettleOutcome(result: Result<bool>, files: FS.Files, dirs: set<string>, partial: FS.Path,
                      ova: FS.Path, env: Env)
    ensures var t := SettleSpec(result, files, dirs, partial, ova, env);
      var moveError := FS.MoveError(files, dirs, partial, ova, env.fault(Rename));
      && (result.Err? ==> t == Run(Some(result.error), [], files))
      && (result == Ok(false) ==> t == Run(Some(DownloadFailed), [], files))
      && (result == Ok(true) ==>
            && t.calls == [Move(partial, ova)]
            && (t.err.None? <==> partial in files && ova.dir in dirs && env.fault(Rename).None?)
            && (moveError.Some? ==> t.err == moveError && t.files == files)
            && (moveError.None? ==> t.files == FS.Moved(files, partial, ova)))
  {
  }

  /** A resumed download ends at the first step that fails, with that step's error and that
      step's call last: the length query, the first attempt, the removal of a mismatching file,
      the second attempt, or either rename. */
  lemma ResumeErrors(files: FS.Files, dirs: set<string>, ova: FS.Path, env: Env, expected: string)
    requires PartialOf(ova) in files
    ensures var r := ResumeSpec(files, dirs, ova, env, expected);
      var p := PartialOf(ova);
      && (env.fault(SizePartial).Some? ==>
            r == Run(Some("failed to read " + FS.PathString(p) + ": " + env.fault(SizePartial).value), [Length(p)], files))
      && (env.fault(SizePartial).None? ==>
            var a := AttemptSpec(files, dirs, p, |files[p]|, 1, env, expected);
            && (a.result.Err? ==> r == Run(Some(a.result.error), [Length(p)] + a.calls, a.files))
            && (a.result == Ok(true) ==>
                  && r.err == FS.MoveError(a.files, dirs, p, ova, env.fault(Rename))
                  && r.calls == [Length(p)] + a.calls + [Move(p, ova)])
            && (a.result == Ok(false) && env.fault(DropPartial).Some? ==>
                  r == Run(Some("failed to remove file " + FS.PathString(p) + ": " + env.fault(DropPartial).value),
                           [Length(p)] + a.calls + [RemoveFile(p)], a.files)))
  {
    var p := PartialOf(ova);
    if env.fault(SizePartial).None? {
      var a := AttemptSpec(files, dirs, p, |files[p]|, 1, env, expected);
      if a.result.Ok? {
        assert p in a.files;
      }
    }
  }

  /** The retry of a resumed download ends at its first failing step in the same way: the
      second attempt's error, "download failed" on a second mismatch, or the rename's error. */
  lemma RetryErrors(files: FS.Files, dirs: set<string>, ova: FS.Path, env: Env, expected: string)
    requires PartialOf(ova) in files && env.fault(SizePartial).None? && env.fault(DropPartial).None?
    requires AttemptSpec(files, dirs, PartialOf(ova), |files[PartialOf(ova)]|, 1, env, expected).result == Ok(false)
    ensures var r := ResumeSpec(files, dirs, ova, env, expected);
      var p := PartialOf(ova);
      var a := AttemptSpec(files, dirs, p, |files[p]|, 1, env, expected);
      var b := AttemptSpec(a.files - {p}, dirs, p, 0, 2, env, expected);
      var retried := [Length(p)] + a.calls + [RemoveFile(p)] + b.calls;
      && (b.result.Err? ==> r == Run(Some(b.result.error), retried, b.files))
      && (b.result == Ok(false) ==> r == Run(Some(DownloadFailed), retried, b.files))
      && (b.result == Ok(true) ==>
            && r.err == FS.MoveError(b.files, dirs, p, ova, env.fault(Rename))
            && r.calls == retried + [Move(p, ova)])
  {
    var p := PartialOf(ova);
    var a := AttemptSpec(files, dirs, p, |files[p]|, 1, env, expected);
    assert p in a.files;
  }

  /** A download ends at its first failing step: a failed look for the partial file returns
      that error; a resumed download ends as `ResumeErrors` and `RetryErrors` say; a fresh one
      returns its attempt's error, "download failed" on a mismatch, or the rename's error. */
  lemma FetchErrors(files: FS.Files, dirs: set<string>, ova: FS.Path, env: Env, expected: string)
    ensures var r := FetchSpec(files, dirs, ova, env, expected);
      var p := PartialOf(ova);
      && (env.fault(StatPartial).Some? ==> r == Run(Some(env.fault(StatPartial).value), [Exists(p)], files))
      && (env.fault(StatPartial).None? && p in files ==>
            var t := ResumeSpec(files, dirs, ova, env, expected);
            r == Run(t.err, [Exists(p)] + t.calls, t.files))
      && (env.fault(StatPartial).None? && p !in files ==>
            var a := AttemptSpec(files, dirs, p, 0, 1, env, expected);
            && (a.result.Err? ==> r == Run(Some(a.result.error), [Exists(p)] + a.calls, a.files))
            && (a.result == Ok(false) ==> r == Run(Some(DownloadFailed), [Exists(p)] + a.calls, a.files))
            && (a.result == Ok(true) ==>
                  && r.err == FS.MoveError(a.files, dirs, p, ova, env.fault(Rename))
                  && r.calls == [Exists(p)] + a.calls + [Move(p, ova)]))
  {
  }

  /** With no fault anywhere, an attempt whose bytes complete the file with the expected
      checksum makes all four of its calls and reports a match. */
  lemma MatchingAttempt(files: FS.Files, dirs: set<string>, partial: FS.Path, offset: nat,
                        env: Env, expected: string)
    requires env.fetch(1, offset).Ok? && env.saveToken(1).None? && env.interrupt(1).None?
    requires env.fault(WritePartial(1)).None? && env.fault(HashPartial(1)).None? && partial.dir in dirs
    requires env.hash((if partial in files then files[partial] else []) + env.fetch(1, offset).value) == expected
    ensures var a := AttemptSpec(files, dirs, partial, offset, 1, env, expected);
      && a.result == Ok(true) && partial in a.files
      && a.calls == [DownloadOVA(offset), SaveToken, Write(partial), MD5(partial)]
  {
  }

  /** A resumed attempt that matches is moved into place, ending the resume. */
  lemma ResumeWhenFirstMatches(files: FS.Files, dirs: set<string>, ova: FS.Path, env: Env, expected: string)
    requires PartialOf(ova) in files && ova.dir in dirs
    requires env.fault(SizePartial).None? && env.fault(Rename).None?
    requires var a := AttemptSpec(files, dirs, PartialOf(ova), |files[PartialOf(ova)]|, 1, env, expected);
      a.result == Ok(true) && PartialOf(ova) in a.files
    ensures var partial := PartialOf(ova);
      var a := AttemptSpec(files, dirs, partial, |files[partial]|, 1, env, expected);
      ResumeSpec(files, dirs, ova, env, expected)
        == Run(None, [Length(partial)] + a.calls + [Move(partial, ova)], FS.Moved(a.files, partial, ova))
  {
  }

  /** A fresh attempt that matches is moved into place, ending the download. */
  lemma FreshWhenFirstMatches(files: FS.Files, dirs: set<string>, ova: FS.Path, env: Env, expected: string)
    requires PartialOf(ova) !in files && ova.dir in dirs
    requires env.fault(StatPartial).None? && env.fault(Rename).None?
    requires var a := AttemptSpec(files, dirs, PartialOf(ova), 0, 1, env, expected);
      a.result == Ok(true) && PartialOf(ova) in a.files
    ensures var partial := PartialOf(ova);
      var a := AttemptSpec(files, dirs, partial, 0, 1, env, expected);
      FetchSpec(files, dirs, ova, env, expected)
        == Run(None, [Exists(partial)] + a.calls + [Move(partial, ova)], FS.Moved(a.files, partial, ova))
  {
  }

  /** With no fault anywhere, a download whose first fetch completes the partial file with the
      expected checksum moves it into place and succeeds after that one fetch, with no removal
      and no retry. */
  lemma FirstMatchSucceeds(files: FS.Files, dirs: set<string>, ova: FS.Path, env: Env, expected: string)
    requires Reliable(env) && ova.dir in dirs
    requires var p := PartialOf(ova);
      env.hash((if p in files then files[p] else []) + env.fetch(1, if p in files then |files[p]| else 0).value) == expected
    ensures var r := FetchSpec(files, dirs, ova, env, expected);
      && r.err.None? && RemoveFile(PartialOf(ova)) !in r.calls && |Offsets(r.calls)| == 1
  {
    var partial := PartialOf(ova);
    var n := if partial in files then |files[partial]| else 0;
    assert env.fault(StatPartial).None? && env.fault(SizePartial).None? && env.fault(Rename).None?;
    assert env.fault(WritePartial(1)).None? && env.fault(HashPartial(1)).None?;
    assert env.fetch(1, n).Ok? && env.saveToken(1).None? && env.interrupt(1).None?;
    FirstMatchMoves(files, dirs, ova, env, expected);
  }

  /** The body of FirstMatchSucceeds, from the faults it needs to be absent. */
  lemma FirstMatchMoves(files: FS.Files, dirs: set<string>, ova: FS.Path, env: Env, expected: string)
    requires ova.dir in dirs
    requires env.fault(StatPartial).None? && env.fault(SizePartial).None? && env.fault(Rename).None?
    requires env.fault(WritePartial(1)).None? && env.fault(HashPartial(1)).None?
    requires var p := PartialOf(ova);
      var n := if p in files then |files[p]| else 0;
      && env.fetch(1, n).Ok? && env.saveToken(1).None? && env.interrupt(1).None?
      && env.hash((if p in files then files[p] else []) + env.fetch(1, n).value) == expected
    ensures var r := FetchSpec(files, dirs, ova, env, expected);
      && r.err.None? && RemoveFile(PartialOf(ova)) !in r.calls && |Offsets(r.calls)| == 1
  {
    var partial := PartialOf(ova);
    var n := if partial in files then |files[partial]| else 0;
    MatchingAttempt(files, dirs, partial, n, env, expected);
    var a := AttemptSpec(files, dirs, partial, n, 1, env, expected);
    AttemptFetchesOnce(files, dirs, partial, n, 1, env, expected);
    var r := FetchSpec(files, dirs, ova, env, expected);
    if partial in files {
      ResumeWhenFirstMatches(files, dirs, ova, env, expected);
      var t := ResumeSpec(files, dirs, ova, env, expected);
      assert r == Run(None, [Exists(partial)] + t.calls, t.files);
      FirstCalls(partial, ova, [Length(partial)], a.calls, r.calls);
    } else {
      FreshWhenFirstMatches(files, dirs, ova, env, expected);
      assert [Exists(partial)] + a.calls + [Move(partial, ova)] == [Exists(partial)] + ([] + a.calls + [Move(partial, ova)]);
      FirstCalls(partial, ova, [], a.calls, r.calls);
    }
  }

  /** The calls of a download that succeeds on its first attempt: its fetches are that
      attempt's, and it removes nothing the attempt does not. */
  lemma FirstCalls(p: FS.Path, ova: FS.Path, mid: seq<Call>, first: seq<Call>, calls: seq<Call>)
    requires calls == [Exists(p)] + (mid + first + [Move(p, ova)])
    requires mid == [] || mid == [Length(p)]
    ensures Offsets(calls) == Offsets(first)
    ensures RemoveFile(p) in calls <==> RemoveFile(p) in first
  {
    var head, tail := [Exists(p)] + mid, [Move(p, ova)];
    assert calls == head + (first + tail);
    assert RemoveFile(p) !in head && RemoveFile(p) !in tail;
    NoOffsets(head);
    NoOffsets(tail);
    OffsetsAppend(first, tail);
    OffsetsAppend(head, first + tail);
  }

  /** With no fault anywhere, a resumed download whose first fetch does not complete the file
      with the expected checksum, but whose fetch from the start does, removes the partial
      file, fetches again from 0, moves the fresh bytes into place and succeeds. */
  lemma RetryMatchSucceeds(files: FS.Files, dirs: set<string>, ova: FS.Path, env: Env, expected: string)
    requires Reliable(env) && ova.dir in dirs && PartialOf(ova) in files
    requires var p := PartialOf(ova);
      env.hash(files[p] + env.fetch(1, |files[p]|).value) != expected
    requires env.hash(env.fetch(2, 0).value) == expected
    ensures var r := FetchSpec(files, dirs, ova, env, expected);
      var p := PartialOf(ova);
      && r.err.None? && RemoveFile(p) in r.calls
      && Offsets(r.calls) == [|files[p]|, 0]
      && ova in r.files && r.files[ova] == env.fetch(2, 0).value && p !in r.files
  {
    var p := PartialOf(ova);
    assert env.fault(StatPartial).None? && env.fault(SizePartial).None? && env.fault(DropPartial).None?;
    assert env.fault(WritePartial(1)).None? && env.fault(HashPartial(1)).None? && env.fault(Rename).None?;
    assert env.fault(WritePartial(2)).None? && env.fault(HashPartial(2)).None?;
    assert env.fetch(1, |files[p]|).Ok? && env.saveToken(1).None? && env.interrupt(1).None?;
    assert env.fetch(2, 0).Ok? && env.saveToken(2).None? && env.interrupt(2).None?;
    RetryMoves(files, dirs, ova, env, expected);
  }

  /** The resumed part of RetryMatchSucceeds: the first attempt mismatches, the second one
      matches on the fresh bytes alone, and the rename succeeds. */
  lemma ResumeWhenRetryMatches(files: FS.Files, dirs: set<string>, ova: FS.Path, env: Env, expected: string)
    requires ova.dir in dirs && PartialOf(ova) in files
    requires env.fault(SizePartial).None? && env.fault(DropPartial).None? && env.fault(Rename).None?
    requires env.fault(WritePartial(1)).None? && env.fault(HashPartial(1)).None?
    requires env.fault(WritePartial(2)).None? && env.fault(HashPartial(2)).None?
    requires var p := PartialOf(ova);
      && env.fetch(1, |files[p]|).Ok? && env.saveToken(1).None? && env.interrupt(1).None?
      && env.hash(files[p] + env.fetch(1, |files[p]|).value) != expected
    requires env.fetch(2, 0).Ok? && env.saveToken(2).None? && env.interrupt(2).None?
    requires env.hash(env.fetch(2, 0).value) == expected
    ensures var p := PartialOf(ova);
      var a := AttemptSpec(files, dirs, p, |files[p]|, 1, env, expected);
      var b := AttemptSpec(a.files - {p}, dirs, p, 0, 2, env, expected);
      && p in b.files && b.files[p] == env.fetch(2, 0).value
      && ResumeSpec(files, dirs, ova, env, expected)
           == Run(None, [Length(p)] + a.calls + [RemoveFile(p)] + b.calls + [Move(p, ova)], FS.Moved(b.files, p, ova))
  {
    var p := PartialOf(ova);
    var a := AttemptSpec(files, dirs, p, |files[p]|, 1, env, expected);
    assert a.result == Ok(false) && p in a.files;
    var b := AttemptSpec(a.files - {p}, dirs, p, 0, 2, env, expected);
    assert b.files[p] == env.fetch(2, 0).value;
    assert b.result == Ok(true);
    RetryErrors(files, dirs, ova, env, expected);
  }

  /** The body of RetryMatchSucceeds, from the faults it needs to be absent. */
  lemma RetryMoves(files: FS.Files, dirs: set<string>, ova: FS.Path, env: Env, expected: string)
    requires ova.dir in dirs && PartialOf(ova) in files
    requires env.fault(StatPartial).None? && env.fault(SizePartial).None? && env.fault(DropPartial).None?
    requires env.fault(WritePartial(1)).None? && env.fault(HashPartial(1)).None? && env.fault(Rename).None?
    requires env.fault(WritePartial(2)).None? && env.fault(HashPartial(2)).None?
    requires var p := PartialOf(ova);
      && env.fetch(1, |files[p]|).Ok? && env.saveToken(1).None? && env.interrupt(1).None?
      && env.hash(files[p] + env.fetch(1, |files[p]|).value) != expected
    requires env.fetch(2, 0).Ok? && env.saveToken(2).None? && env.interrupt(2).None?
    requires env.hash(env.fetch(2, 0).value) == expected
    ensures var r := FetchSpec(files, dirs, ova, env, expected);
      var p := PartialOf(ova);
      && r.err.None? && RemoveFile(p) in r.calls
      && Offsets(r.calls) == [|files[p]|, 0]
      && ova in r.files && r.files[ova] == env.fetch(2, 0).value && p !in r.files
  {
    var p := PartialOf(ova);
    var n := |files[p]|;
    var a := AttemptSpec(files, dirs, p, n, 1, env, expected);
    var b := AttemptSpec(a.files - {p}, dirs, p, 0, 2, env, expected);
    ResumeWhenRetryMatches(files, dirs, ova, env, expected);
    var r := FetchSpec(files, dirs, ova, env, expected);
    var t := ResumeSpec(files, dirs, ova, env, expected);
    assert r == Run(None, [Exists(p)] + t.calls, t.files);
    AttemptFetchesOnce(files, dirs, p, n, 1, env, expected);
    AttemptFetchesOnce(a.files - {p}, dirs, p, 0, 2, env, expected);
    RetryShape(p, ova, a.calls, b.calls, r.calls);
    RetryCalls(p, ova, a.calls, b.calls, r.calls);
  }

  /** The calls of a retried download: its fetches are those of its two attempts, in order,
      and the partial file's removal is among them. */
  lemma RetryCalls(p: FS.Path, ova: FS.Path, first: seq<Call>, second: seq<Call>, calls: seq<Call>)
    requires calls == [Exists(p), Length(p)] + (first + ([RemoveFile(p)] + (second + [Move(p, ova)])))
    ensures Offsets(calls) == Offsets(first) + Offsets(second)
    ensures RemoveFile(p) in calls
  {
    var rest := second + [Move(p, ova)];
    var afterFirst := [RemoveFile(p)] + rest;
    var body := first + afterFirst;
    assert body[|first|] == RemoveFile(p);
    assert calls[2 + |first|] == RemoveFile(p);
    NoOffsets([Exists(p), Length(p)]);
    NoOffsets([RemoveFile(p)]);
    NoOffsets([Move(p, ova)]);
    OffsetsAppend(second, [Move(p, ova)]);
    OffsetsAppend([RemoveFile(p)], rest);
    OffsetsAppend(first, afterFirst);
    OffsetsAppend([Exists(p), Length(p)], body);
  }

  lemma RetryShape(p: FS.Path, ova: FS.Path, first: seq<Call>, second: seq<Call>, calls: seq<Call>)
    requires calls == [Exists(p)] + ([Length(p)] + first + [RemoveFile(p)] + second + [Move(p, ova)])
    ensures calls == [Exists(p), Length(p)] + (first + ([RemoveFile(p)] + (second + [Move(p, ova)])))
  {
  }

  /** With no fault anywhere and contents that never match, a fresh download fails after one
      fetch, and a resumed one after two. */
  lemma MismatchFails(files: FS.Files, dirs: set<string>, ova: FS.Path, env: Env, expected: string)
    requires Reliable(env) && ova.dir in dirs
    requires forall data :: env.hash(data) != expected
    ensures var r := FetchSpec(files, dirs, ova, env, expected);
      && r.err == Some(DownloadFailed)
      && |Offsets(r.calls)| == (if PartialOf(ova) in files then 2 else 1)
  {
    var partial := PartialOf(ova);
    assert env.fault(StatPartial).None? && env.fault(SizePartial).None? && env.fault(DropPartial).None?;
    assert env.fault(WritePartial(1)).None? && env.fault(HashPartial(1)).None?;
    assert env.fault(WritePartial(2)).None? && env.fault(HashPartial(2)).None?;
    assert env.saveToken(1).None? && env.saveToken(2).None?;
    NoOffsets([Exists(partial)]);
    if partial in files {
      var n := |files[partial]|;
      assert env.fetch(1, n).Ok? && env.fetch(2, 0).Ok?;
      var a := AttemptSpec(files, dirs, partial, n, 1, env, expected);
      assert a.result == Ok(false);
      var b := AttemptSpec(a.files - {partial}, dirs, partial, 0, 2, env, expected);
      assert b.result == Ok(false);
      ResumeOffsets(files, dirs, ova, env, expected);
      var t := ResumeSpec(files, dirs, ova, env, expected);
      var resumed := [Length(partial)] + a.calls;
      var dropped := resumed + [RemoveFile(partial)];
      assert t == Run(Some(DownloadFailed), dropped + b.calls, b.files);
      NoOffsets([Length(partial)]);
      NoOffsets([RemoveFile(partial)]);
      AttemptFetchesOnce(files, dirs, partial, n, 1, env, expected);
      AttemptFetchesOnce(a.files - {partial}, dirs, partial, 0, 2, env, expected);
      OffsetsAppend([Length(partial)], a.calls);
      OffsetsAppend(resumed, [RemoveFile(partial)]);
      OffsetsAppend(dropped, b.calls);
      OffsetsAppend([Exists(partial)], t.calls);
    } else {
      assert env.fetch(1, 0).Ok?;
      var a := AttemptSpec(files, dirs, partial, 0, 1, env, expected);
      assert a.result == Ok(false);
      AttemptFetchesOnce(files, dirs, partial, 0, 1, env, expected);
      OffsetsAppend([Exists(partial)], a.calls);
      assert FetchSpec(files, dirs, ova, env, expected).calls == [Exists(partial)] + a.calls;
    }
  }

  lemma AttemptSavesBeforeWrite(files: FS.Files, dirs: set<string>, partial: FS.Path, offset: nat, k: nat,
                                env: Env, expected: string)
    ensures TokenSavedBeforeWrites(AttemptSpec(files, dirs, partial, offset, k, env, expected).calls)
  {
    var d, w := DownloadOVA(offset), Write(partial);
    var calls := AttemptSpec(files, dirs, partial, offset, k, env, expected).calls;
    assert calls == [d] || calls == [d, SaveToken] || calls == [d, SaveToken, w] || calls == [d, SaveToken, w, MD5(partial)];
  }

  lemma TokenOrderAppend(a: seq<Call>, b: seq<Call>)
    requires TokenSavedBeforeWrites(a) && TokenSavedBeforeWrites(b)
    requires b != [] ==> !b[0].Write?
    ensures TokenSavedBeforeWrites(a + b)
  {
    forall i | 0 <= i < |a + b| && (a + b)[i].Write?
      ensures i > 0 && (a + b)[i - 1] == SaveToken
    {
      if i >= |a| {
        assert (a + b)[i] == b[i - |a|];
        assert (a + b)[i - 1] == b[i - |a| - 1];
      }
    }
  }

  lemma SettleWritesNothing(result: Result<bool>, files: FS.Files, dirs: set<string>, partial: FS.Path,
                            ova: FS.Path, env: Env)
    ensures TokenSavedBeforeWrites(SettleSpec(result, files, dirs, partial, ova, env).calls)
    ensures SettleSpec(result, files, dirs, partial, ova, env).calls != [] ==>
      !SettleSpec(result, files, dirs, partial, ova, env).calls[0].Write?
  {
  }

  lemma ResumeSavesBeforeWrite(files: FS.Files, dirs: set<string>, ova: FS.Path, env: Env, expected: string)
    ensures TokenSavedBeforeWrites(ResumeSpec(files, dirs, ova, env, expected).calls)
    ensures ResumeSpec(files, dirs, ova, env, expected).calls[0] == Length(PartialOf(ova))
  {
    var partial := PartialOf(ova);
    match FS.Length(files, partial, env.fault(SizePartial))
    case Err(e) =>
    case Ok(n) =>
      var a := AttemptSpec(files, dirs, partial, n, 1, env, expected);
      var resumed := [Length(partial)] + a.calls;
      AttemptSavesBeforeWrite(files, dirs, partial, n, 1, env, expected);
      TokenOrderAppend([Length(partial)], a.calls);
      if a.result != Ok(false) {
        SettleWritesNothing(a.result, a.files, dirs, partial, ova, env);
        TokenOrderAppend(resumed, SettleSpec(a.result, a.files, dirs, partial, ova, env).calls);
      } else {
        var dropped := resumed + [RemoveFile(partial)];
        TokenOrderAppend(resumed, [RemoveFile(partial)]);
        match FS.RemoveError(a.files, partial, env.fault(DropPartial))
        case Some(e) =>
        case None =>
          var b := AttemptSpec(a.files - {partial}, dirs, partial, 0, 2, env, expected);
          AttemptSavesBeforeWrite(a.files - {partial}, dirs, partial, 0, 2, env, expected);
          SettleWritesNothing(b.result, b.files, dirs, partial, ova, env);
          TokenOrderAppend(dropped, b.calls);
          TokenOrderAppend(dropped + b.calls, SettleSpec(b.result, b.files, dirs, partial, ova, env).calls);
      }
  }

  /** The API token is saved right before every write of the downloaded bytes. */
  lemma TokenSavedBeforeEveryWrite(files: FS.Files, dirs: set<string>, ova: FS.Path, env: Env, expected: string)
    ensures TokenSavedBeforeWrites(FetchSpec(files, dirs, ova, env, expected).calls)
  {
    var partial := PartialOf(ova);
    match FS.Exists(files, partial, env.fault(StatPartial))
    case Err(e) =>
    case Ok(present) =>
      if present {
        ResumeSavesBeforeWrite(files, dirs, ova, env, expected);
        TokenOrderAppend([Exists(partial)], ResumeSpec(files, dirs, ova, env, expected).calls);
      } else {
        var a := AttemptSpec(files, dirs, partial, 0, 1, env, expected);
        AttemptSavesBeforeWrite(files, dirs, partial, 0, 1, env, expected);
        SettleWritesNothing(a.result, a.files, dirs, partial, ova, env);
        TokenOrderAppend([Exists(partial)], a.calls);
        TokenOrderAppend([Exists(partial)] + a.calls, SettleSpec(a.result, a.files, dirs, partial, ova, env).calls);
      }
  }

  /** `after` holds the same files as `before`, except perhaps the OVA and its partial download. */
  ghost predicate SameElsewhere(before: FS.Files, after: FS.Files, ova: FS.Path)
  {
    forall q :: q != ova && q != PartialOf(ova) ==>
      (q in after <==> q in before) && (q in after ==> after[q] == before[q])
  }

  lemma AttemptTouchesOnlyPartial(files: FS.Files, dirs: set<string>, ova: FS.Path, offset: nat, k: nat,
                                  env: Env, expected: string)
    ensures SameElsewhere(files, AttemptSpec(files, dirs, PartialOf(ova), offset, k, env, expected).files, ova)
  {
  }

  lemma SettleTouchesOnlyDownload(result: Result<bool>, files: FS.Files, dirs: set<string>, ova: FS.Path, env: Env)
    ensures SameElsewhere(files, SettleSpec(result, files, dirs, PartialOf(ova), ova, env).files, ova)
  {
  }

  /** Only the OVA and its partial download are touched after the cleanup. */
  lemma OtherFilesUntouched(files: FS.Files, dirs: set<string>, ova: FS.Path, env: Env, expected: string)
    ensures SameElsewhere(files, FetchSpec(files, dirs, ova, env, expected).files, ova)
  {
    var partial := PartialOf(ova);
    match FS.Exists(files, partial, env.fault(StatPartial))
    case Err(e) =>
    case Ok(present) =>
      if present {
        match FS.Length(files, partial, env.fault(SizePartial))
        case Err(e) =>
        case Ok(n) =>
          var a := AttemptSpec(files, dirs, partial, n, 1, env, expected);
          AttemptTouchesOnlyPartial(files, dirs, ova, n, 1, env, expected);
          SettleTouchesOnlyDownload(a.result, a.files, dirs, ova, env);
          if a.result == Ok(false) && FS.RemoveError(a.files, partial, env.fault(DropPartial)).None? {
            var b := AttemptSpec(a.files - {partial}, dirs, partial, 0, 2, env, expected);
            AttemptTouchesOnlyPartial(a.files - {partial}, dirs, ova, 0, 2, env, expected);
            SettleTouchesOnlyDownload(b.result, b.files, dirs, ova, env);
          }
      } else {
        var a := AttemptSpec(files, dirs, partial, 0, 1, env, expected);
        AttemptTouchesOnlyPartial(files, dirs, ova, 0, 1, env, expected);
        SettleTouchesOnlyDownload(a.result, a.files, dirs, ova, env);
      }
  }

  class Downloader {
    const fs: FS.FileTable
    const expectedMD5: string

    constructor (fs: FS.FileTable, expectedMD5: string)
      ensures this.fs == fs && this.expectedMD5 == expectedMD5
    {
      this.fs := fs;
      this.expectedMD5 := expectedMD5;
    }

    /** IsOVACurrent: is there an OVA whose checksum is the expected one? The checksum is only
        computed for an OVA that exists; every error is returned as it is. */
    method IsOVACurrent(env: Env) returns (current: Result<bool>, calls: seq<Call>)
      ensures env.ovaPath.Err? ==> current == Err(env.ovaPath.error) && calls == [GetOVAPath]
      ensures env.ovaPath.Ok? && env.fault(StatOVA).Some? ==>
        current == Err(env.fault(StatOVA).value) && calls == [GetOVAPath, Exists(env.ovaPath.value)]
      ensures env.ovaPath.Ok? && env.fault(StatOVA).None? && env.ovaPath.value !in fs.files ==>
        current == Ok(false) && calls == [GetOVAPath, Exists(env.ovaPath.value)]
      ensures env.ovaPath.Ok? && env.fault(StatOVA).None? && env.ovaPath.value in fs.files ==>
        && calls == [GetOVAPath, Exists(env.ovaPath.value), MD5(env.ovaPath.value)]
        && (env.fault(HashOVA).Some? ==> current == Err(FS.MD5(fs.files, env.ovaPath.value, env.hash, env.fault(HashOVA)).error))
        && (env.fault(HashOVA).None? ==> current == Ok(env.hash(fs.files[env.ovaPath.value]) == expectedMD5))
      ensures current == Ok(true) <==>
        && env.ovaPath.Ok? && env.fault(StatOVA).None? && env.fault(HashOVA).None?
        && env.ovaPath.value in fs.files && env.hash(fs.files[env.ovaPath.value]) == expectedMD5
    {
      calls := [GetOVAPath];
      if env.ovaPath.Err? {
        return Err(env.ovaPath.error), calls;
      }
      var ova := env.ovaPath.value;
      calls := calls + [Exists(ova)];
      var present := FS.Exists(fs.files, ova, env.fault(StatOVA));
      if present.Err? {
        return Err(present.error), calls;
      }
      if !present.value {
        return Ok(false), calls;
      }
      calls := calls + [MD5(ova)];
      var sum := FS.MD5(fs.files, ova, env.hash, env.fault(HashOVA));
      if sum.Err? {
        return Err(sum.error), calls;
      }
      current := Ok(sum.value == expectedMD5);
    }

    /** One fetch of the bytes from `offset`, saving the API token, appending the bytes to the
        partial file, and checking its checksum. */
    method Attempt(partial: FS.Path, offset: nat, k: nat, env: Env) returns (matched: Result<bool>, calls: seq<Call>)
      modifies fs
      ensures fs.dirs == old(fs.dirs)
      ensures Attempted(matched, calls, fs.files) == AttemptSpec(old(fs.files), old(fs.dirs), partial, offset, k, env, expectedMD5)
    {
      calls := [DownloadOVA(offset)];
      var data := env.fetch(k, offset);
      if data.Err? {
        return Err(data.error), calls;
      }
      calls := calls + [SaveToken];
      var saveError := env.saveToken(k);
      if saveError.Some? {
        return Err(saveError.value), calls;
      }
      calls := calls + [Write(partial)];
      var writeError := fs.Write(partial, data.value, env.fault(WritePartial(k)), env.interrupt(k));
      if writeError.Some? {
        return Err(writeError.value), calls;
      }
      calls := calls + [MD5(partial)];
      var sum := FS.MD5(fs.files, partial, env.hash, env.fault(HashPartial(k)));
      if sum.Err? {
        return Err(sum.error), calls;
      }
      matched := Ok(sum.value == expectedMD5);
    }

    /** After an attempt that is not retried: moves a matching file into place. */
    method Settle(matched: Result<bool>, partial: FS.Path, ova: FS.Path, env: Env)
      returns (err: Option<string>, calls: seq<Call>)
      modifies fs
      ensures fs.dirs == old(fs.dirs)
      ensures Run(err, calls, fs.files) == SettleSpec(matched, old(fs.files), old(fs.dirs), partial, ova, env)
    {
      if matched.Err? {
        return Some(matched.error), [];
      }
      if !matched.value {
        return Some(DownloadFailed), [];
      }
      calls := [Move(partial, ova)];
      err := fs.Move(partial, ova, env.fault(Rename));
    }

    /** Resumes the partial download, and retries once from the start if it does not match. */
    method Resume(ova: FS.Path, env: Env) returns (err: Option<string>, calls: seq<Call>)
      modifies fs
      ensures fs.dirs == old(fs.dirs)
      ensures Run(err, calls, fs.files) == ResumeSpec(old(fs.files), old(fs.dirs), ova, env, expectedMD5)
    {
      var partial := PartialOf(ova);
      calls := [Length(partial)];
      var length := FS.Length(fs.files, partial, env.fault(SizePartial));
      if length.Err? {
        return Some(length.error), calls;
      }
      var matched, attemptCalls := Attempt(partial, length.value, 1, env);
      calls := calls + attemptCalls;
      if matched != Ok(false) {
        var settleCalls;
        err, settleCalls := Settle(matched, partial, ova, env);
        calls := calls + settleCalls;
        return;
      }
      calls := calls + [RemoveFile(partial)];
      err := fs.RemoveFile(partial, env.fault(DropPartial));
      if err.Some? {
        return;
      }
      matched, attemptCalls := Attempt(partial, 0, 2, env);
      calls := calls + attemptCalls;
      var settleCalls;
      err, settleCalls := Settle(matched, partial, ova, env);
      calls := calls + settleCalls;
    }

    /** Everything after the cleanup. */
    method Fetch(ova: FS.Path, env: Env) returns (err: Option<string>, calls: seq<Call>)
      modifies fs
      ensures fs.dirs == old(fs.dirs)
      ensures Run(err, calls, fs.files) == FetchSpec(old(fs.files), old(fs.dirs), ova, env, expectedMD5)
    {
      var partial := PartialOf(ova);
      calls := [Exists(partial)];
      var present := FS.Exists(fs.files, partial, env.fault(StatPartial));
      if present.Err? {
        return Some(present.error), calls;
      }
      if present.value {
        var resumeCalls;
        err, resumeCalls := Resume(ova, env);
        calls := calls + resumeCalls;
        return;
      }
      var matched, attemptCalls := Attempt(partial, 0, 1, env);
      calls := calls + attemptCalls;
      var settleCalls;
      err, settleCalls := Settle(matched, partial, ova, env);
      calls := calls + settleCalls;
    }

    /** Download: makes the OVA's directory, removes every other file in it, then fetches. */
    method Download(env: Env) returns (err: Option<string>, calls: seq<Call>)
      modifies fs
      ensures |calls| >= 1 && calls[0] == GetOVAPath
      ensures env.ovaPath.Err? ==>
        err == Some(env.ovaPath.error) && calls == [GetOVAPath] && fs.files == old(fs.files) && fs.dirs == old(fs.dirs)
      ensures env.ovaPath.Ok? ==>
        var ova := env.ovaPath.value;
        var dirError := FS.CreateDirError(ova.dir, env.fault(MakeDir));
        && |calls| >= 2 && calls[1] == CreateDir(ova.dir)
        && (dirError.Some? ==> err == dirError && |calls| == 2 && fs.files == old(fs.files) && fs.dirs == old(fs.dirs))
        && (dirError.None? ==>
              && fs.dirs == old(fs.dirs) + {ova.dir}
              && |calls| >= 3 && calls[2] == DeleteAllExcept(ova.dir, Keep(ova))
              && (!CleanupSucceeds(old(fs.files), old(fs.dirs) + {ova.dir}, ova, env) ==>
                    err.Some? && |calls| == 3 && fs.files.Keys <= old(fs.files).Keys)
              && (FS.ListError(old(fs.dirs) + {ova.dir}, ova.dir, env.fault(ListDir)).Some? ==>
                    err == FS.ListError(old(fs.dirs) + {ova.dir}, ova.dir, env.fault(ListDir)) && fs.files == old(fs.files))
              && (FS.ListError(old(fs.dirs) + {ova.dir}, ova.dir, env.fault(ListDir)).None?
                  && !CleanupSucceeds(old(fs.files), old(fs.dirs) + {ova.dir}, ova, env) ==>
                    exists q :: q in fs.files && q.dir == ova.dir && q.name !in Keep(ova) &&
                                env.staleRemoveError(q.name).Some? &&
                                err == FS.RemoveError(fs.files, q, env.staleRemoveError(q.name)))
              && (CleanupSucceeds(old(fs.files), old(fs.dirs) + {ova.dir}, ova, env) ==>
                    Run(err, calls[3..], fs.files)
                      == FetchSpec(FS.Kept(old(fs.files), ova.dir, Keep(ova)), old(fs.dirs) + {ova.dir}, ova, env, expectedMD5)))
    {
      calls := [GetOVAPath];
      if env.ovaPath.Err? {
        return Some(env.ovaPath.error), calls;
      }
      var ova := env.ovaPath.value;
      calls := calls + [CreateDir(ova.dir)];
      err := fs.CreateDir(ova.dir, env.fault(MakeDir));
      if err.Some? {
        return;
      }
      calls := calls + [DeleteAllExcept(ova.dir, Keep(ova))];
      err := fs.DeleteFilesExcept(ova.dir, Keep(ova), env.fault(ListDir), env.staleRemoveError);
      if err.Some? {
        return;
      }
      var fetchCalls;
      err, fetchCalls := Fetch(ova, env);
      calls := calls + fetchCalls;
      assert calls[3..] == fetchCalls;
    }
  }
}
