/** A call file for the telephony spooling daemon: the call, the action to run
    once it connects, and where the file is written and spooled; its validation
    and its rendering into directive lines and text. */
module CallFiles {
  import opened Paths
  import opened Lines

  datatype Option<T> = None | Some(value: T)

  /** The errors the call file raises, one per remedy. `IOError` is the
      uncaught failure to open the temporary file for writing. */
  datatype Error =
    | ValidationError
    | IOError
    | NoUserError
    | NoUserPermissionError
    | InvalidTimeError
    | NoSpoolPermissionError

  datatype Result<T> = Ok(value: T) | Err(error: Error)

  /** The daemon's usual outgoing spool directory. */
  const DefaultSpoolDir: string := "/var/spool/asterisk/outgoing"

  /** The directive asking the daemon to keep the file after the call. */
  const ArchiveLine: string := "Archive: yes"

  /** The `call` argument: a `Call`, whose own validity and rendered lines are
      taken as given, or a value of some other type. */
  datatype Call = Call(valid: bool, lines: seq<string>) | NotACall

  /** The `action` argument: an `Action` instance (an application to run,
      or any other subclass of `Action`, all of which `Application` stands
      for), a dialplan `Context` to enter, or a value that is neither. */
  datatype Action =
    | Application(lines: seq<string>)
    | Context(lines: seq<string>)
    | Other

  /** A string argument that may be left out; Python treats `None` and `""`
      alike as unset. */
  predicate Given(s: Option<string>) {
    s.Some? && s.value != ""
  }

  /** The fields of a call file object. `archive` is the truth value of the
      `archive` argument; an empty `spoolDir` stands for a falsy one, which
      callers can set after construction. */
  datatype CallFile = CallFile(
    call: Call,
    action: Action,
    archive: bool,
    user: Option<string>,
    spoolDir: string,
    filename: string,
    tempdir: string)
  {
    /** Where the file is written before it is spooled. */
    function TempPath(): string {
      Join(tempdir, filename)
    }

    /** Where spooling places the file. */
    function SpoolPath(): string {
      Join(spoolDir, filename)
    }
  }

  /** The spool directory a new call file gets: the argument when given,
      otherwise the default; never empty. */
  function SpoolDirOrDefault(spoolDir: Option<string>): (d: string)
    ensures d != ""
    ensures Given(spoolDir) ==> d == spoolDir.value
    ensures !Given(spoolDir) ==> d == DefaultSpoolDir
  {
    if Given(spoolDir) then spoolDir.value else DefaultSpoolDir
  }

  /** `is_valid`: the checks run in `is_valid`'s order, each one able to
      reject. `dirs` is the set of existing directories. */
  function IsValid(cf: CallFile, dirs: set<string>): (ok: bool)
    ensures ok <==>
      && cf.call.Call?
      && !cf.action.Other?
      && (cf.spoolDir != "" ==> cf.spoolDir in dirs)
      && cf.call.valid
  {
    if !cf.call.Call? then false
    else if cf.action.Other? then false
    else if cf.spoolDir != "" && cf.spoolDir !in dirs then false
    else if !cf.call.valid then false
    else true
  }

  /** `buildfile`: nothing but `ValidationError` for an invalid call file;
      otherwise the call's lines, then the action's lines, both unmodified,
      then the archive line when and only when archiving is asked for. */
  function BuildFile(cf: CallFile, dirs: set<string>): (r: Result<seq<string>>)
    ensures r.Err? <==> !IsValid(cf, dirs)
    ensures r.Err? ==> r.error == ValidationError
    ensures r.Ok? ==>
      var c, a := cf.call.lines, cf.action.lines;
      && |r.value| == |c| + |a| + (if cf.archive then 1 else 0)
      && r.value[..|c|] == c
      && r.value[|c|..|c| + |a|] == a
      && (cf.archive ==> r.value[|r.value| - 1] == ArchiveLine)
  {
    if !IsValid(cf, dirs) then Err(ValidationError)
    else
      var directives := cf.call.lines + cf.action.lines;
      Ok(if cf.archive then directives + [ArchiveLine] else directives)
  }

  /** `contents`: the built lines as text; it fails exactly when building
      fails, and with the same error. */
  function Contents(cf: CallFile, dirs: set<string>): (r: Result<string>)
    ensures r.Err? <==> !IsValid(cf, dirs)
    ensures r.Err? ==> r.error == ValidationError
    ensures r.Ok? ==> BuildFile(cf, dirs).Ok? && r.value == JoinLines(BuildFile(cf, dirs).value)
  {
    match BuildFile(cf, dirs)
    case Err(e) => Err(e)
    case Ok(lines) => Ok(JoinLines(lines))
  }

  /** Helper for `ContentsLayout`: `BuildFile`'s contract restated as one
      sequence equation, the archive line appended once and last when
      archiving is asked for. */
  lemma ArchiveLast(cf: CallFile, dirs: set<string>)
    requires IsValid(cf, dirs)
    ensures var built := BuildFile(cf, dirs).value;
            var directives := cf.call.lines + cf.action.lines;
            if cf.archive then built == directives + [ArchiveLine] else built == directives
  {
    var built := BuildFile(cf, dirs).value;
    var directives := cf.call.lines + cf.action.lines;
    assert built[..|directives|] == directives by {
      assert built[..|cf.call.lines|] == cf.call.lines;
      assert built[|cf.call.lines|..|directives|] == cf.action.lines;
    }
  }

  /** The text of a valid call file splits back into its directive lines when
      no line holds a separator, and holds one separator fewer than lines. */
  lemma ContentsRoundTrip(cf: CallFile, dirs: set<string>)
    requires IsValid(cf, dirs)
    requires |BuildFile(cf, dirs).value| > 0 && SingleLines(BuildFile(cf, dirs).value)
    ensures Split(Contents(cf, dirs).value) == BuildFile(cf, dirs).value
    ensures Newlines(Contents(cf, dirs).value) == |BuildFile(cf, dirs).value| - 1
  {
    SplitJoin(BuildFile(cf, dirs).value);
    JoinSeparators(BuildFile(cf, dirs).value);
  }

  /** Without archiving, the text is the call's text, one separator, and the
      action's text; with it, the text ends in the archive line. */
  lemma ContentsLayout(cf: CallFile, dirs: set<string>)
    requires IsValid(cf, dirs)
    requires |cf.call.lines| > 0 && |cf.action.lines| > 0
    ensures var text := Contents(cf, dirs).value;
            !cf.archive ==> text == JoinLines(cf.call.lines) + [Newline] + JoinLines(cf.action.lines)
    ensures var text := Contents(cf, dirs).value;
            cf.archive ==>
              |text| > |ArchiveLine| &&
              text[|text| - |ArchiveLine| - 1..] == [Newline] + ArchiveLine
  {
    ArchiveLast(cf, dirs);
    var directives := cf.call.lines + cf.action.lines;
    JoinAppend(cf.call.lines, cf.action.lines);
    if cf.archive {
      JoinAppend(directives, [ArchiveLine]);
    }
  }
}
