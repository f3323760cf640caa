/** Writing a call file to its temporary path and spooling it, as a sequence
    of steps over a file store. Every step either succeeds and hands the store
    on, or stops with its error; nothing done before the failing step is
    undone. */
module Spooling {
  import opened CallFiles

  /** A user or group id pair, as the password database gives it. */
  datatype Owner = Owner(uid: nat, gid: nat)

  /** A regular file. `stamp` is the access and modification time set
      explicitly; `None` while the file keeps the time it was written at. */
  datatype FileEntry = FileEntry(contents: string, owner: Owner, stamp: Option<int>)

  /** The files of the host, by path. */
  type Store = map<string, FileEntry>

  /** What the host answers that the call file cannot change: the existing
      directories, the paths the process may create or replace a file at,
      the password database, whether the process may give files away, the
      process's own ids and the system temporary directory. */
  datatype Env = Env(
    dirs: set<string>,
    writable: set<string>,
    users: map<string, Owner>,
    privileged: bool,
    process: Owner,
    tmpDir: string)
  {
    /** `chown` succeeds for a privileged process, or when the file is given
        to the process's own ids. */
    predicate MayChown(o: Owner) {
      privileged || o == process
    }
  }

  /** A caller's time value together with the result of converting it to a
      POSIX timestamp; `None` when the conversion raises. */
  datatype Moment = Moment(posix: Option<int>)

  /** The store after a step, and the error the step stopped with, if any. */
  datatype Outcome = Outcome(files: Store, error: Option<Error>)

  /** The store agrees with `files` on every path but `path`. */
  ghost predicate OnlyAt(files: Store, files': Store, path: string) {
    forall p :: p != path ==> (p in files' <==> p in files) && (p in files ==> files'[p] == files[p])
  }

  /** The file at `path` after it is opened for writing and `text` written:
      an existing file keeps its owner, a new one belongs to the process. */
  function Written(env: Env, files: Store, path: string, text: string): (e: FileEntry)
    ensures e.contents == text && e.stamp == None
    ensures e.owner == if path in files then files[path].owner else env.process
  {
    if path in files then files[path].(contents := text, stamp := None)
    else FileEntry(text, env.process, None)
  }

  /** `writefile`: opening the temporary path fails with `IOError` and
      changes nothing; the open itself creates or empties the file, so a
      call file that then fails validation leaves an empty file there; else
      the file holds exactly the call file's text. No other path changes. */
  function WriteStep(env: Env, files: Store, cf: CallFile): (o: Outcome)
    ensures OnlyAt(files, o.files, cf.TempPath())
    ensures o.error == Some(IOError) <==> cf.TempPath() !in env.writable
    ensures o.error == Some(IOError) ==> o.files == files
    ensures o.error == Some(ValidationError) <==> cf.TempPath() in env.writable && !IsValid(cf, env.dirs)
    ensures o.error == Some(ValidationError) ==> cf.TempPath() in o.files && o.files[cf.TempPath()].contents == ""
    ensures o.error == None || o.error == Some(IOError) || o.error == Some(ValidationError)
    ensures o.error == None ==>
      && cf.TempPath() in o.files
      && Contents(cf, env.dirs).Ok?
      && o.files[cf.TempPath()] == Written(env, files, cf.TempPath(), Contents(cf, env.dirs).value)
  {
    var path := cf.TempPath();
    if path !in env.writable then Outcome(files, Some(IOError))
    else
      match Contents(cf, env.dirs)
      case Err(e) => Outcome(files[path := Written(env, files, path, "")], Some(e))
      case Ok(text) => Outcome(files[path := Written(env, files, path, text)], None)
  }

  /** The ownership step: skipped without a user; an unknown user is
      `NoUserError`, a refused or impossible `chown` `NoUserPermissionError`;
      otherwise the file at `path` gets the user's ids and nothing else
      changes. */
  function ChownStep(env: Env, files: Store, path: string, user: Option<string>): (o: Outcome)
    ensures !Given(user) ==> o == Outcome(files, None)
    ensures Given(user) && user.value !in env.users ==> o == Outcome(files, Some(NoUserError))
    ensures Given(user) && user.value in env.users ==>
      var owner := env.users[user.value];
      if path in files && env.MayChown(owner)
      then o == Outcome(files[path := files[path].(owner := owner)], None)
      else o == Outcome(files, Some(NoUserPermissionError))
  {
    if !Given(user) then Outcome(files, None)
    else if user.value !in env.users then Outcome(files, Some(NoUserError))
    else
      var owner := env.users[user.value];
      if path !in files || !env.MayChown(owner) then Outcome(files, Some(NoUserPermissionError))
      else Outcome(files[path := files[path].(owner := owner)], None)
  }

  /** The timestamp step: skipped without a time; a time that does not
      convert, or a missing file, is `InvalidTimeError`; otherwise the file's
      times become the timestamp. */
  function StampStep(files: Store, path: string, time: Option<Moment>): (o: Outcome)
    ensures time.None? ==> o == Outcome(files, None)
    ensures time.Some? ==>
      if time.value.posix.Some? && path in files
      then o == Outcome(files[path := files[path].(stamp := time.value.posix)], None)
      else o == Outcome(files, Some(InvalidTimeError))
  {
    if time.None? then Outcome(files, None)
    else if time.value.posix.None? || path !in files then Outcome(files, Some(InvalidTimeError))
    else Outcome(files[path := files[path].(stamp := time.value.posix)], None)
  }

  /** The move into the spool directory: a missing source or a destination
      the process may not write is `NoSpoolPermissionError` and changes
      nothing; otherwise the entry is found at `dst`, unchanged, and is gone
      from `src` unless the two are the same path. */
  function MoveStep(env: Env, files: Store, src: string, dst: string): (o: Outcome)
    ensures o.error.Some? <==> src !in files || dst !in env.writable
    ensures o.error.Some? ==> o == Outcome(files, Some(NoSpoolPermissionError))
    ensures o.error.None? ==>
      && dst in o.files && o.files[dst] == files[src]
      && (src != dst ==> src !in o.files)
      && forall p :: p != src && p != dst ==> (p in o.files <==> p in files) && (p in files ==> o.files[p] == files[p])
  {
    if src !in files || dst !in env.writable then Outcome(files, Some(NoSpoolPermissionError))
    else Outcome((files - {src})[dst := files[src]], None)
  }

  /** `spool`: write, then chown, then set the time, then move; the first
      failing step's error and store are the result. */
  function SpoolSteps(env: Env, files: Store, cf: CallFile, time: Option<Moment>): (o: Outcome)
    ensures o.error.None? ==> IsValid(cf, env.dirs) && cf.SpoolPath() in o.files
    ensures o.error.Some? ==> OnlyAt(files, o.files, cf.TempPath())
  {
    var written := WriteStep(env, files, cf);
    if written.error.Some? then written
    else
      ChownKeepsWrite(env, files, cf);
      var owned := ChownStep(env, written.files, cf.TempPath(), cf.user);
      if owned.error.Some? then owned
      else
        StampKeepsChown(env, files, cf, time);
        var stamped := StampStep(owned.files, cf.TempPath(), time);
        if stamped.error.Some? then stamped
        else MoveStep(env, stamped.files, cf.TempPath(), cf.SpoolPath())
  }

  /** Spooling fails before any write when the temporary path cannot be
      opened, and fails with only an emptied temporary file when the call file
      is invalid: in both cases nothing reaches the spool directory. */
  lemma SpoolEarlyFailures(env: Env, files: Store, cf: CallFile, time: Option<Moment>)
    ensures var o := SpoolSteps(env, files, cf, time);
            cf.TempPath() !in env.writable ==> o == Outcome(files, Some(IOError))
    ensures var o := SpoolSteps(env, files, cf, time);
            cf.TempPath() in env.writable && !IsValid(cf, env.dirs) ==>
              && o.error == Some(ValidationError)
              && OnlyAt(files, o.files, cf.TempPath())
              && o.files[cf.TempPath()].contents == ""
  {
  }

  /** A user lookup, ownership or time failure stops spooling before the
      move: the written file is still at the temporary path with the call
      file's text, and every other path, the spool path among them, is as it
      was before spooling. */
  lemma SpoolFailsBeforeMove(env: Env, files: Store, cf: CallFile, time: Option<Moment>)
    requires var e := SpoolSteps(env, files, cf, time).error;
             e == Some(NoUserError) || e == Some(NoUserPermissionError) || e == Some(InvalidTimeError)
    ensures var o := SpoolSteps(env, files, cf, time);
            && IsValid(cf, env.dirs)
            && cf.TempPath() in o.files
            && o.files[cf.TempPath()].contents == Contents(cf, env.dirs).value
            && OnlyAt(files, o.files, cf.TempPath())
  {
    var written := WriteStep(env, files, cf);
    var owned := ChownStep(env, written.files, cf.TempPath(), cf.user);
    assert written.error == None;
    assert OnlyAt(files, owned.files, cf.TempPath());
  }

  /** Helper for `SpoolSteps` and `SpoolKeepsEarlierSteps`: after a successful write, the
      ownership step keeps the written text at `path` and touches no other
      path; when it passes, the file has the user's ids, or its written
      owner when no user is given. */
  lemma ChownKeepsWrite(env: Env, files: Store, cf: CallFile)
    requires WriteStep(env, files, cf).error == None
    ensures var w, path := WriteStep(env, files, cf), cf.TempPath();
            var c := ChownStep(env, w.files, path, cf.user);
            && IsValid(cf, env.dirs)
            && path in c.files
            && c.files[path].contents == Contents(cf, env.dirs).value
            && c.files[path].stamp == None
            && OnlyAt(files, c.files, path)
            && (c.error.None? && Given(cf.user) ==> c.files[path].owner == env.users[cf.user.value])
            && (!Given(cf.user) ==> c.files[path].owner == Written(env, files, path, "").owner)
  {
    var path := cf.TempPath();
    var w := WriteStep(env, files, cf);
    assert OnlyAt(files, w.files, path);
  }

  /** Helper for `SpoolSteps` and `SpoolKeepsEarlierSteps`: after a successful write and
      ownership step, the time step keeps the file's text and owner at
      `path` and touches no other path; when it passes, the file carries the
      requested time. */
  lemma StampKeepsChown(env: Env, files: Store, cf: CallFile, time: Option<Moment>)
    requires WriteStep(env, files, cf).error == None
    requires ChownStep(env, WriteStep(env, files, cf).files, cf.TempPath(), cf.user).error == None
    ensures var path := cf.TempPath();
            var c := ChownStep(env, WriteStep(env, files, cf).files, path, cf.user);
            var t := StampStep(c.files, path, time);
            && path in t.files
            && t.files[path].contents == Contents(cf, env.dirs).value
            && t.files[path].owner == c.files[path].owner
            && OnlyAt(files, t.files, path)
            && (t.error.None? ==> t.files[path].stamp == (if time.Some? then time.value.posix else None))
  {
    ChownKeepsWrite(env, files, cf);
  }

  /** Spooling that fails after the write, on the user lookup, the ownership
      change, the time or the move, undoes nothing: the written text stays at
      the temporary path, an ownership change that passed is kept, a time
      that was set before a failed move is kept, and every other path, the
      spool path among them, is as it was before spooling. */
  lemma SpoolKeepsEarlierSteps(env: Env, files: Store, cf: CallFile, time: Option<Moment>)
    requires var e := SpoolSteps(env, files, cf, time).error;
             e.Some? && e != Some(IOError) && e != Some(ValidationError)
    ensures var o, src := SpoolSteps(env, files, cf, time), cf.TempPath();
            && IsValid(cf, env.dirs)
            && src in o.files
            && o.files[src].contents == Contents(cf, env.dirs).value
            && OnlyAt(files, o.files, src)
    ensures var o, src := SpoolSteps(env, files, cf, time), cf.TempPath();
            var e := o.error;
            && (Given(cf.user) && e != Some(NoUserError) && e != Some(NoUserPermissionError) ==>
                  o.files[src].owner == env.users[cf.user.value])
            && (!Given(cf.user) ==> o.files[src].owner == Written(env, files, src, "").owner)
            && (e == Some(NoSpoolPermissionError) ==>
                  o.files[src].stamp == (if time.Some? then time.value.posix else None))
  {
    var src := cf.TempPath();
    var written := WriteStep(env, files, cf);
    assert written.error == None;
    ChownKeepsWrite(env, files, cf);
    var owned := ChownStep(env, written.files, src, cf.user);
    if owned.error.Some? {
      assert SpoolSteps(env, files, cf, time) == owned;
    } else {
      StampKeepsChown(env, files, cf, time);
      var stamped := StampStep(owned.files, src, time);
      if stamped.error.Some? {
        assert SpoolSteps(env, files, cf, time) == stamped;
      } else {
        assert SpoolSteps(env, files, cf, time) == MoveStep(env, stamped.files, src, cf.SpoolPath());
      }
    }
  }

  /** Which error spooling raises is decided by the first check that fails,
      in the order write, user lookup, chown, time, move. */
  lemma SpoolErrors(env: Env, files: Store, cf: CallFile, time: Option<Moment>)
    ensures var e := SpoolSteps(env, files, cf, time).error;
            var path := cf.TempPath();
            var pre := path in env.writable && IsValid(cf, env.dirs);
            var known := Given(cf.user) ==> cf.user.value in env.users;
            var chowned := Given(cf.user) && cf.user.value in env.users ==> env.MayChown(env.users[cf.user.value]);
            var timed := time.Some? ==> time.value.posix.Some?;
            && (e == Some(NoUserError) <==> pre && !known)
            && (e == Some(NoUserPermissionError) <==> pre && known && !chowned)
            && (e == Some(InvalidTimeError) <==> pre && known && chowned && !timed)
            && (e == Some(NoSpoolPermissionError) <==> pre && known && chowned && timed && cf.SpoolPath() !in env.writable)
            && (e == None <==> pre && known && chowned && timed && cf.SpoolPath() in env.writable)
  {
    var path := cf.TempPath();
    var written := WriteStep(env, files, cf);
    if written.error == None {
      var owned := ChownStep(env, written.files, path, cf.user);
      assert path in written.files;
      if owned.error == None {
        assert path in owned.files;
      }
    }
  }

  /** A successful spool leaves the call file's text at the spool path, owned
      by the requested user when one is given and carrying the requested time
      when one is given; the temporary path is empty afterwards unless it is
      the spool path itself; all other paths are untouched. */
  lemma SpoolSuccess(env: Env, files: Store, cf: CallFile, time: Option<Moment>)
    requires SpoolSteps(env, files, cf, time).error == None
    ensures var o, src, dst := SpoolSteps(env, files, cf, time), cf.TempPath(), cf.SpoolPath();
            && IsValid(cf, env.dirs)
            && dst in o.files
            && o.files[dst].contents == Contents(cf, env.dirs).value
            && (Given(cf.user) ==> o.files[dst].owner == env.users[cf.user.value])
            && (!Given(cf.user) ==> o.files[dst].owner == Written(env, files, src, "").owner)
            && o.files[dst].stamp == (if time.Some? then time.value.posix else None)
            && (src != dst ==> src !in o.files)
            && forall p :: p != src && p != dst ==> (p in o.files <==> p in files) && (p in files ==> o.files[p] == files[p])
  {
    var src, dst := cf.TempPath(), cf.SpoolPath();
    var written := WriteStep(env, files, cf);
    assert written.error == None;
    var owned := ChownStep(env, written.files, src, cf.user);
    assert owned.error == None;
    var stamped := StampStep(owned.files, src, time);
    assert stamped.error == None;
    assert src in stamped.files;
    var entry := stamped.files[src];
    assert entry.contents == written.files[src].contents;
    assert Given(cf.user) ==> entry.owner == env.users[cf.user.value];
    assert !Given(cf.user) ==> entry.owner == written.files[src].owner;
    assert entry.stamp == (if time.Some? then time.value.posix else None);
    assert OnlyAt(files, stamped.files, src);
    assert SpoolSteps(env, files, cf, time) == MoveStep(env, stamped.files, src, dst);
  }
}
