# pycall call files, modelled in Dafny

pycall writes Asterisk call files: a few `Key: value` directive lines that
tell the telephony daemon to originate a call and what to run once the
call connects. The daemon polls an outgoing spool directory. A
`CallFile` object carries the call, the action (an application to run or
a dialplan context to enter), an optional archive flag, an optional user
to own the file, the spool directory, and the temporary directory and file
name where the file is first written.

This project models the local half of `CallFile`:

- `paths.dfy` (module `Paths`): `Path(dir) / Path(name)`, which is
  `os.path.join` on two components.
- `lines.dfy` (module `Lines`): `'\n'.join(lines)` and its inverse,
  `str.split('\n')`.
- `callfile.dfy` (module `CallFiles`): the call file's fields as a value,
  `is_valid`, `buildfile` and `contents`. The call and the action are taken
  as given: the call's own validity and each renderer's lines are opaque
  data.
- `spooling.dfy` (module `Spooling`): `writefile` and `spool` as a chain
  of steps over a store of files (`map<string, FileEntry>`): write, chown,
  set the time, move. Each step either hands the store on or stops with
  its error. The host's answers are an `Env` value:
  - the existing directories;
  - the paths the process may write;
  - the password database;
  - the chown privilege;
  - the process's ids;
  - the temporary directory.
- `host.dfy` (module `Host`): the same operations on a `FileSystem` object
  whose `files` field they update in place. Each method is proved to leave
  exactly the store and error that the matching `Spooling` function
  describes. The module also holds the constructor `NewCallFile` and
  `mkstemp`'s search for a free temporary name.

A call file is a datatype here, not a class: after `__init__` no method of
`CallFile` assigns its fields. What changes in place is the file system.

Two behaviours of the code that the model keeps as written:

- `writefile` opens the temporary path with mode `'w'` before it asks for
  `contents`. So a call file that fails validation has already created, or
  emptied, the file at `tempdir/filename` when `ValidationError` is raised.
  `WriteStep` and `SpoolEarlyFailures` state this. Nothing is written only
  when the path cannot be opened at all.
- `is_valid` checks that the spool directory exists whenever `spool_dir`
  is non-empty. This also holds for callers that only use the remote path.

## Model

| member | source | states |
|---|---|---|
| `Paths.Join` | pycall/callfile.py:117 | an absolute file name replaces the directory; a relative one follows the directory, with a single '/' between them unless the directory is empty or already ends in '/' |
| `Paths.JoinSeparatesDirs` | pycall/callfile.py:152-154 | one relative file name in two plain directories gives two different path strings exactly when the directory strings differ |
| `Lines.JoinLines` | pycall/callfile.py:113 | the newline join of no lines is empty; otherwise its length is the lines' characters plus one separator fewer than there are lines |
| `Lines.Split` | pycall/callfile.py:113 | the inverse of the newline join: one more piece than there are separators, and no piece holds a separator |
| `Lines.JoinSplit` | pycall/callfile.py:113 | joining the pieces of any text with newlines gives back that text |
| `Lines.SplitJoin` | pycall/callfile.py:113 | splitting the joined text gives back the lines, for a non-empty list of separator-free lines |
| `Lines.JoinSeparators` | pycall/callfile.py:113 | n separator-free lines joined hold exactly n - 1 newlines |
| `Lines.JoinEnds` | pycall/callfile.py:113 | the joined text starts with the first line and ends with the last one, with no trailing newline added |
| `Lines.JoinAppend` | pycall/callfile.py:97-99 | joining the call's lines followed by the action's lines is the two joins with one newline between |
| `CallFiles.SpoolDirOrDefault` | pycall/callfile.py:44 | the spool directory is never empty: the argument when given and non-empty, otherwise `/var/spool/asterisk/outgoing` |
| `CallFiles.IsValid` | pycall/callfile.py:65-84 | valid exactly when the call is a `Call`, the action is an `Action` instance or a `Context`, the spool directory, when non-empty, exists, and the call says it is valid |
| `CallFiles.BuildFile` | pycall/callfile.py:86-104 | an invalid call file yields only `ValidationError`; a valid one yields the call's lines, then the action's lines, unmodified and in that order, with `Archive: yes` last exactly when archiving is asked for |
| `CallFiles.Contents` | pycall/callfile.py:106-113 | fails exactly when building fails, with `ValidationError`; otherwise the built lines joined by newlines |
| `CallFiles.ContentsRoundTrip` | pycall/callfile.py:106-113 | the text of a valid call file splits back into its directive lines and holds one newline fewer than there are lines |
| `CallFiles.ContentsLayout` | pycall/callfile.py:97-113 | without archiving the text is the call's text, a newline, and the action's text; with archiving it ends in a newline and `Archive: yes` |
| `Spooling.Written` | pycall/callfile.py:117-118 | opening for writing keeps an existing file's owner and gives a new file to the process; the text is the one written |
| `Spooling.WriteStep` | pycall/callfile.py:115-118 | an unwritable temporary path raises `IOError` and changes nothing; an invalid call file leaves an empty file there and raises `ValidationError`; otherwise the file holds exactly the contents; no other path changes |
| `Spooling.ChownStep` | pycall/callfile.py:132-143 | without a user nothing happens; an unknown user is `NoUserError`; a refused chown is `NoUserPermissionError`; otherwise only the file's owner changes, to the user's ids |
| `Spooling.StampStep` | pycall/callfile.py:145-150 | without a time nothing happens; a time that does not convert is `InvalidTimeError`; otherwise only the file's times change, to the timestamp |
| `Spooling.MoveStep` | pycall/callfile.py:152-156 | a failed move is `NoSpoolPermissionError` and changes nothing; otherwise the unchanged entry is at the destination and gone from the source, and no other path changes |
| `Spooling.SpoolSteps` | pycall/callfile.py:120-156 | write, chown, time and move in that order, the first failing step's store and error being the result; a failure leaves every path but `tempdir/filename` as it was, and success implies a valid call file and a file at `spool_dir/filename` |
| `Spooling.SpoolEarlyFailures` | pycall/callfile.py:130 | spooling fails first of all on the write: an unwritable temporary path changes nothing, and an invalid call file leaves only an emptied temporary file |
| `Spooling.SpoolFailsBeforeMove` | pycall/callfile.py:130-150 | a user, chown or time failure leaves the written file at the temporary path and every other path, the spool path included, as it was |
| `Spooling.SpoolKeepsEarlierSteps` | pycall/callfile.py:130-156 | a failure after the write (user lookup, chown, time or move) undoes nothing: the written text stays at the temporary path, a chown that passed keeps the user's ids, a time set before a failed move is kept, and every other path, the spool path included, is as it was |
| `Spooling.SpoolErrors` | pycall/callfile.py:130-156 | each error of spooling happens exactly when every earlier step passed and its own check failed, in the order write, user lookup, chown, time, move; success happens exactly when all checks pass |
| `Spooling.SpoolSuccess` | pycall/callfile.py:130-156 | a successful spool leaves the contents at `spool_dir/filename`, owned by the requested user and carrying the requested time, and nothing at `tempdir/filename` unless that is the same path string |
| `Host.FreshName` | pycall/callfile.py:50 | the temporary name ends in `.call`, names a file directly inside the directory, and is not taken |
| `Host.FileSystem.MakeTemp` | pycall/callfile.py:50-54 | creates one new empty file owned by the process, at a free `.call` path in the temporary directory, and changes nothing else |
| `Host.FileSystem.NewCallFile` | pycall/callfile.py:40-54 | keeps the given fields; defaults the spool directory; keeps `filename` and `tempdir` only when both are given, otherwise takes them from a new temporary file |
| `Host.FileSystem.WriteFile` | pycall/callfile.py:115-118 | leaves the store and error that `WriteStep` describes |
| `Host.FileSystem.ChangeOwner` | pycall/callfile.py:132-143 | leaves the store and error that `ChownStep` describes |
| `Host.FileSystem.SetTime` | pycall/callfile.py:145-150 | leaves the store and error that `StampStep` describes |
| `Host.FileSystem.Move` | pycall/callfile.py:152-156 | leaves the store and error that `MoveStep` describes |
| `Host.FileSystem.Spool` | pycall/callfile.py:120-156 | runs write, chown, time and move in that order, stops at the first error without undoing anything, and leaves the store and error that `SpoolSteps` describes |

## Left out

- `remote_spool` (pycall/callfile.py:158-204) is not modelled. It is an SSH/SFTP client: authenticate, put, chown, rename, close. Its only local logic is the write and chown block it shares with `spool`. When a user is set, that user's ids replace the `uid`/`gid` arguments (lines 163-165). Both authentication branches run when both a password and a key are given.
- `__str__` (pycall/callfile.py:56-63) is debug formatting only.
- The `Call`, `Application` and `Context` classes are not part of this model. A call's validity and the lines each renders are opaque fields.
- Operating-system calls are answers in `Env`, not real semantics:
  - `getpwnam` is a map from user name to ids;
  - `chown` is allowed for a privileged process, or when the file goes to the process's own ids (group membership is not modelled);
  - `utime` always succeeds on an existing file;
  - `isdir` looks the spool directory up as given, without `abspath` normalisation;
  - writability is a fixed set of paths.
- `mktime(time.timetuple())` is a `Moment` carrying the converted timestamp, or `None` when the conversion raises. Fractional seconds are not modelled, and the access and modification times are one field.
- `Host.FreshName`: `mkstemp` tries random names; the model tries the deterministic candidates `tmp.call`, `tmpx.call`, ... The model does not cover a failing `mkstemp` (unwritable temporary directory, names exhausted), the file mode `0600`, or the closing of its descriptor.
- `Spooling.MoveStep`: `shutil.move`'s copy-and-delete fallback across devices is not distinguished from a rename. Every move failure maps to `NoSpoolPermissionError`, which is how Python 3 reads `except IOError`, where `IOError` is `OSError`. Under Python 2 an `OSError` from the fallback's delete would escape unmapped.
- Truthiness: `archive` is a `bool`. A string argument (`user`, `filename`, `tempdir`, `spool_dir`) counts as given when it is present and non-empty; other falsy values are not modelled.
- `Spooling.SpoolSuccess`: files are keyed by their path string as written, with no normalisation of `.`, `..` or `//`, no resolution against the working directory and no symlink resolution. Two spellings of one file are two keys. When `tempdir` and `spool_dir` name the same directory in different spellings, `rename` is a no-op and the file stays at `tempdir/filename`. The model instead moves it to the other key. "Gone from the temporary path" holds only for different path strings.
- `Host.FileSystem.MakeTemp`: the file `mkstemp` creates is not made writable in `Env`. Writability is a fixed set of paths, so the model allows `WriteStep` to raise `IOError` on a file that was just created for this process, which the program cannot do.
- `CallFiles.IsValid`: `Application` stands for any instance of `pycall.actions.Action`, the class `is_valid` tests, not only the `Application` subclass.
- `Spooling.SpoolSuccess`: its owner clause and the file's appearing in the spool directory complete hold only for a same-filesystem rename. Across filesystems (the default temporary directory is often a separate tmpfs) `shutil.move` copies with `copy2` and then unlinks the source, and the model treats that as a rename too. This has three consequences:
  - `copy2` does not copy the owner, so the spooled file belongs to the process, not to `user`;
  - the file appears at `spool_dir/filename` while it is still being copied, so the daemon can see a half-written file;
  - a failed unlink after a successful copy is raised as `NoSpoolPermissionError` with a copy already at `spool_dir/filename`, where `MoveStep`, `SpoolSteps` and `SpoolKeepsEarlierSteps` promise that a failed move leaves the spool path as it was.
- `Spooling.SpoolKeepsEarlierSteps`: "the spool path is as it was" after `NoSpoolPermissionError` holds only for a failed rename. After the cross-device copy and a failed unlink, a copy is already at `spool_dir/filename`, as the line above says.
- Partial writes and a full disk are not modelled: a write either fails to open or stores the whole text.
