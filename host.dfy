/** The host's file system as the call file changes it in place: creating the
    temporary file, writing it, changing its owner and times, and moving it
    into the spool directory. Each operation is proved to do what the
    matching step of `Spooling` describes. */
module Host {
  import opened Paths
  import opened CallFiles
  import opened Spooling

  /** The suffix of generated temporary file names. */
  const TempSuffix: string := ".call"

  /** The length of the longest path in `paths`: no taken path is longer, so
      a candidate name that only grows is bound to come free. */
  ghost function LongestPath(paths: set<string>): (n: nat)
    ensures forall p :: p in paths ==> |p| <= n
    decreases paths
  {
    if paths == {} then 0
    else
      var p :| p in paths;
      var rest := LongestPath(paths - {p});
      if |p| > rest then |p| else rest
  }

  /** `n` letters 'x'. */
  function Xs(n: nat): (s: string)
    ensures |s| == n && '/' !in s
  {
    if n == 0 then "" else Xs(n - 1) + "x"
  }

  /** The n-th name tried for a temporary file: "tmp.call", "tmpx.call", ... */
  function Candidate(n: nat): string {
    "tmp" + Xs(n) + TempSuffix
  }

  /** Every candidate is a relative name without '/', one character longer
      than the one before, ending in the suffix. */
  lemma CandidateShape(n: nat)
    ensures |Candidate(n)| == n + 3 + |TempSuffix|
    ensures Candidate(n)[|Candidate(n)| - |TempSuffix|..] == TempSuffix
    ensures !IsAbsolute(Candidate(n)) && '/' !in Candidate(n)
  {
  }

  /** A generated temporary file name: it ends in the suffix and names a
      file directly inside the directory it is joined to. */
  predicate IsTempName(name: string) {
    && |name| > |TempSuffix| && name[|name| - |TempSuffix|..] == TempSuffix
    && !IsAbsolute(name) && '/' !in name
  }

  /** The first fresh name in `dir` among the candidates: what `mkstemp` does
      when it tries names until one is not taken. The name ends in the
      suffix, names a file directly inside `dir`, and no file exists at that
      path yet. */
  method FreshName(files: Store, dir: string) returns (name: string)
    ensures IsTempName(name) && Join(dir, name) !in files
  {
    var n := 0;
    name := Candidate(n);
    CandidateShape(n);
    while Join(dir, name) in files
      invariant name == Candidate(n) && |Join(dir, name)| == |DirPrefix(dir)| + n + 3 + |TempSuffix|
      decreases LongestPath(files.Keys) + 1 - |DirPrefix(dir)| - n
    {
      n := n + 1;
      name := Candidate(n);
      CandidateShape(n);
    }
    CandidateShape(n);
  }

  class FileSystem {
    /** The host's answers that spooling cannot change. */
    const env: Env
    /** The files on the host. */
    var files: Store

    constructor (env: Env, files: Store)
      ensures this.env == env && this.files == files
    {
      this.env := env;
      this.files := files;
    }

    /** `mkstemp(suffix='.call')`: a new, empty file owned by the process,
        at a path that was free, directly inside the temporary directory. */
    method MakeTemp() returns (dir: string, name: string)
      modifies this
      ensures dir == env.tmpDir && IsTempName(name)
      ensures Join(dir, name) !in old(files)
      ensures files == old(files)[Join(dir, name) := FileEntry("", env.process, None)]
    {
      dir := env.tmpDir;
      name := FreshName(files, dir);
      files := files[Join(dir, name) := FileEntry("", env.process, None)];
    }

    /** `CallFile.__init__`: the spool directory falls back to the default
        when not given; the file name and temporary directory are kept only
        when both are given, and otherwise come from a new temporary file. */
    method NewCallFile(call: Call, action: Action, archive: bool, filename: Option<string>,
                       tempdir: Option<string>, user: Option<string>, spoolDir: Option<string>)
      returns (cf: CallFile)
      modifies this
      ensures cf.call == call && cf.action == action && cf.archive == archive && cf.user == user
      ensures cf.spoolDir == SpoolDirOrDefault(spoolDir)
      ensures Given(filename) && Given(tempdir) ==>
        cf.filename == filename.value && cf.tempdir == tempdir.value && files == old(files)
      ensures !(Given(filename) && Given(tempdir)) ==>
        && cf.tempdir == env.tmpDir
        && IsTempName(cf.filename)
        && cf.TempPath() !in old(files)
        && files == old(files)[cf.TempPath() := FileEntry("", env.process, None)]
    {
      var spool := SpoolDirOrDefault(spoolDir);
      if Given(filename) && Given(tempdir) {
        cf := CallFile(call, action, archive, user, spool, filename.value, tempdir.value);
      } else {
        var dir, name := MakeTemp();
        cf := CallFile(call, action, archive, user, spool, name, dir);
        assert cf.TempPath() == Join(dir, name);
      }
    }

    /** `writefile`: open the temporary path for writing, which creates or
        empties the file, then write the call file's text. */
    method WriteFile(cf: CallFile) returns (err: Option<Error>)
      modifies this
      ensures Outcome(files, err) == WriteStep(env, old(files), cf)
    {
      var path := cf.TempPath();
      if path !in env.writable {
        return Some(IOError);
      }
      files := files[path := Written(env, files, path, "")];
      var text := Contents(cf, env.dirs);
      if text.Err? {
        return Some(text.error);
      }
      files := files[path := files[path].(contents := text.value)];
      return None;
    }

    /** Look the user up and give them the file at `path`. */
    method ChangeOwner(path: string, user: Option<string>) returns (err: Option<Error>)
      modifies this
      ensures Outcome(files, err) == ChownStep(env, old(files), path, user)
    {
      if !Given(user) {
        return None;
      }
      if user.value !in env.users {
        return Some(NoUserError);
      }
      var owner := env.users[user.value];
      if path !in files || !env.MayChown(owner) {
        return Some(NoUserPermissionError);
      }
      files := files[path := files[path].(owner := owner)];
      return None;
    }

    /** Convert the time and set the access and modification times of the
        file at `path` to it. */
    method SetTime(path: string, time: Option<Moment>) returns (err: Option<Error>)
      modifies this
      ensures Outcome(files, err) == StampStep(old(files), path, time)
    {
      if time.None? {
        return None;
      }
      if time.value.posix.None? || path !in files {
        return Some(InvalidTimeError);
      }
      files := files[path := files[path].(stamp := time.value.posix)];
      return None;
    }

    /** `shutil.move(src, dst)`, every failure read as a refused spool. */
    method Move(src: string, dst: string) returns (err: Option<Error>)
      modifies this
      ensures Outcome(files, err) == MoveStep(env, old(files), src, dst)
    {
      if src !in files || dst !in env.writable {
        return Some(NoSpoolPermissionError);
      }
      files := (files - {src})[dst := files[src]];
      return None;
    }

    /** `spool`: write the file, give it to the user if one is set, set its
        time if one is given, and move it into the spool directory; stop at
        the first error and undo nothing. */
    method Spool(cf: CallFile, time: Option<Moment>) returns (err: Option<Error>)
      modifies this
      ensures Outcome(files, err) == SpoolSteps(env, old(files), cf, time)
    {
      err := WriteFile(cf);
      if err.Some? {
        return;
      }
      err := ChangeOwner(cf.TempPath(), cf.user);
      if err.Some? {
        return;
      }
      err := SetTime(cf.TempPath(), time);
      if err.Some? {
        return;
      }
      err := Move(cf.TempPath(), cf.SpoolPath());
    }
  }
}
