/**
 * A model of the jelly logger (jelly.go): constructing a Logger from a log
 * name, and composing the lines that Info, Debug and Die write.
 *
 * The operating system is not modelled; what each system call would report
 * is given to NewLog as a `Host` value, and NewLog reports which calls it
 * issues. The caller location that `runtime.Caller(2)` reports is an input.
 * The values passed to Info, Debug and Die are given already rendered by
 * `%v`, one string each.
 */
module Jelly {
  import opened Wrappers
  import opened Text

  /** The extension a log name is given when it does not contain it. */
  const LogSuffix := ".log"

  /** The per-user directory, under the home directory, that holds the logs. */
  const ConfigDir := ".jelly"

  /** The status Die makes the process exit with. */
  const DieExitStatus := 1

  // ---------------------------------------------------------------------
  // Construction

  /** What `os.Stat` on the base directory reports. */
  datatype StatOutcome = Found | NotExist | StatFailed

  /** The outcomes of the system calls NewLog may issue. */
  datatype Host = Host(
    home: Option<string>,   // `user.Current()`: the home directory, or None on error
    sep: char,              // `os.PathSeparator`
    stat: StatOutcome,      // `os.Stat(base)`
    mkdirOk: bool,          // `os.Mkdir(base, os.ModePerm)` succeeded
    createOk: bool          // `os.Create(path)` succeeded
  )

  /** A system call NewLog issues, with the path it is issued on. */
  datatype OsCall = CurrentUser | Stat(path: string) | Mkdir(path: string) | Create(path: string)

  datatype Error =
    | EmptyLogName            // `ErrEmptyLogName`
    | UserLookupFailed        // the error returned by `user.Current()`
    | CreateFailed(path: string) // the error returned by `os.Create(path)`

  /** The exported fields of a Logger; its file handle and mutex are not modelled. */
  datatype Logger = Logger(path: string, name: string)

  /** What NewLog returns, with the system calls it issued, in order. */
  datatype Construction = Construction(result: Result<Logger, Error>, calls: seq<OsCall>)

  /**
   * The log name NewLog uses: `.log` is appended unless the name already
   * contains `.log` somewhere (not necessarily at its end).
   */
  function NormaliseName(logName: string): (r: string)
    ensures Contains(logName, LogSuffix) ==> r == logName
    ensures !Contains(logName, LogSuffix) ==> r == logName + LogSuffix
    ensures Contains(r, LogSuffix)
  {
    if Contains(logName, LogSuffix) then logName
    else
      ContainsAppended(logName, LogSuffix);
      logName + LogSuffix
  }

  /** Normalising a normalised name changes nothing. */
  lemma NormaliseIdempotent(logName: string)
    ensures NormaliseName(NormaliseName(logName)) == NormaliseName(logName)
  {
  }

  /** The directory the logs go to: the home directory, a separator, `.jelly`. */
  function BaseDir(home: string, sep: char): (b: string)
    ensures |b| == |home| + 1 + |ConfigDir|
    ensures b[..|home|] == home && b[|home|] == sep && b[|home| + 1..] == ConfigDir
  {
    home + [sep] + ConfigDir
  }

  /** The path of the log file `name`: the base directory, a separator, the name. */
  function LogPath(home: string, sep: char, name: string): (p: string)
    ensures |p| == |BaseDir(home, sep)| + 1 + |name|
    ensures p[..|BaseDir(home, sep)|] == BaseDir(home, sep)
    ensures p[|BaseDir(home, sep)|] == sep
    ensures EndsWith(p, name)
  {
    BaseDir(home, sep) + [sep] + name
  }

  /**
   * NewLog(logName): reject an empty name, normalise it, look up the user,
   * try to create the base directory when Stat reports it missing
   * (ignoring the outcome), create the log file.
   */
  function NewLog(logName: string, host: Host): (c: Construction)
    // an empty name is rejected before any system call
    ensures logName == "" ==> c == Construction(Failure(EmptyLogName), [])
    // otherwise the user is looked up first, and its failure is returned at once
    ensures logName != "" ==> |c.calls| >= 1 && c.calls[0] == CurrentUser
    ensures logName != "" && host.home.None? ==> c == Construction(Failure(UserLookupFailed), [CurrentUser])
    // success exactly when the name is non-empty, the user is known and the file is created
    ensures c.result.Success? <==> logName != "" && host.home.Some? && host.createOk
    ensures c.result.Success? ==>
      c.result.value.name == NormaliseName(logName) &&
      c.result.value.path == LogPath(host.home.value, host.sep, NormaliseName(logName))
    // the directory is created only when Stat reports it missing
    ensures (exists p :: Mkdir(p) in c.calls) <==> logName != "" && host.home.Some? && host.stat == NotExist
    // the file is created once the user is known, and creation is the last call
    ensures (exists p :: Create(p) in c.calls) <==> logName != "" && host.home.Some?
    ensures logName != "" && host.home.Some? ==>
      c.calls[|c.calls| - 1] == Create(LogPath(host.home.value, host.sep, NormaliseName(logName)))
    ensures c.result.Failure? && c.result.error.CreateFailed? ==>
      host.home.Some? && c.result.error.path == LogPath(host.home.value, host.sep, NormaliseName(logName))
    // a failed creation returns the error of `os.Create` on the log path
    ensures logName != "" && host.home.Some? && !host.createOk ==>
      c.result == Failure(CreateFailed(LogPath(host.home.value, host.sep, NormaliseName(logName))))
    // once the user is known, Stat on the base directory comes next, and Mkdir only targets it
    ensures logName != "" && host.home.Some? ==>
      |c.calls| >= 3 && c.calls[1] == Stat(BaseDir(host.home.value, host.sep)) &&
      forall p :: Mkdir(p) in c.calls ==> p == BaseDir(host.home.value, host.sep)
    // and nothing else is issued: Mkdir, when needed, is the only call between Stat and Create
    ensures logName != "" && host.home.Some? ==> |c.calls| == if host.stat == NotExist then 4 else 3
  {
    if logName == "" then Construction(Failure(EmptyLogName), [])
    else
      var name := NormaliseName(logName);
      match host.home
      case None => Construction(Failure(UserLookupFailed), [CurrentUser])
      case Some(home) =>
        var base := BaseDir(home, host.sep);
        var path := LogPath(home, host.sep, name);
        // Mkdir only when Stat reports the directory missing; its result is not looked at
        var calls := if host.stat == NotExist then [CurrentUser, Stat(base), Mkdir(base), Create(path)]
                     else [CurrentUser, Stat(base), Create(path)];
        if host.createOk then Construction(Success(Logger(path, name)), calls)
        else Construction(Failure(CreateFailed(path)), calls)
  }

  /** A failed user lookup wins over a failed file creation, which is never attempted. */
  lemma UserLookupBeforeCreate(logName: string, host: Host)
    requires logName != "" && host.home.None?
    ensures NewLog(logName, host).result == Failure(UserLookupFailed)
    ensures NewLog(logName, host.(createOk := false)) == NewLog(logName, host.(createOk := true))
    ensures forall p :: Create(p) !in NewLog(logName, host).calls
  {
  }

  /**
   * With every other outcome fixed, neither what Stat reports nor whether
   * Mkdir works changes what NewLog returns: the code never consults them.
   * (On a real file system a missing directory would make Create fail; the
   * `Host` value lets the Create outcome be chosen independently.)
   */
  lemma DirectoryOutcomeIgnored(logName: string, host: Host, stat: StatOutcome, mkdirOk: bool)
    ensures NewLog(logName, host.(stat := stat, mkdirOk := mkdirOk)).result == NewLog(logName, host).result
  {
  }

  /** A constructed Logger's name contains `.log` and its path ends with that name. */
  lemma LoggerInvariant(logName: string, host: Host)
    requires NewLog(logName, host).result.Success?
    ensures var l := NewLog(logName, host).result.value;
      Contains(l.name, LogSuffix) && EndsWith(l.path, l.name) && l.path != ""
  {
  }

  // ---------------------------------------------------------------------
  // Writing

  /** The caller location `runtime.Caller(2)` reports: source file and line. */
  datatype Caller = Caller(file: string, line: nat)

  /**
   * The last path segment of a source file name: what follows its last `/`,
   * or the whole name when it has no `/`.
   */
  function Basename(file: string): (r: string)
    ensures '/' !in r
    ensures EndsWith(file, r)
    ensures '/' !in file ==> r == file
    ensures '/' in file ==> |r| < |file| && file[|file| - |r| - 1] == '/'
  {
    var index := LastIndex(file, '/');
    if index != -1 then file[index + 1..|file|] else file
  }

  /**
   * What `stringify` builds: each rendered value followed by one space,
   * in order.
   */
  function Joined(v: seq<string>): string
  {
    if v == [] then "" else Joined(v[..|v| - 1]) + v[|v| - 1] + " "
  }

  /** `stringify(v)`: writes each value and then a space into a buffer. */
  method Stringify(v: seq<string>) returns (s: string)
    ensures v == [] ==> s == ""
    ensures s == Joined(v)
  {
    var buf := "";
    for i := 0 to |v|
      invariant buf == Joined(v[..i])
    {
      assert v[..i + 1][..i] == v[..i];
      buf := buf + v[i];
      buf := buf + " ";
    }
    assert v[..|v|] == v;
    s := buf;
  }

  /** Stringifying two lists of values one after the other concatenates the results. */
  lemma {:induction false} JoinedAppend(a: seq<string>, b: seq<string>)
    ensures Joined(a + b) == Joined(a) + Joined(b)
    decreases |b|
  {
    if b == [] {
      assert a + b == a;
    } else {
      var b' := b[..|b| - 1];
      assert (a + b)[..|a + b| - 1] == a + b';
      JoinedAppend(a, b');
      calc {
        Joined(a + b);
        Joined(a + b') + b[|b| - 1] + " ";
        Joined(a) + Joined(b') + b[|b| - 1] + " ";
      }
    }
  }

  function TotalLength(v: seq<string>): nat
  {
    if v == [] then 0 else TotalLength(v[..|v| - 1]) + |v[|v| - 1]|
  }

  /** The text is the values' lengths plus one space per value. */
  lemma {:induction false} JoinedLength(v: seq<string>)
    ensures |Joined(v)| == TotalLength(v) + |v|
  {
    if v != [] {
      JoinedLength(v[..|v| - 1]);
    }
  }

  /**
   * Value `i` sits in the text right after the text of the values before it,
   * and is followed by one space.
   */
  lemma JoinedAt(v: seq<string>, i: nat)
    requires i < |v|
    ensures var at := |Joined(v[..i])|;
      at + |v[i]| + 1 <= |Joined(v)| && Joined(v)[at..at + |v[i]| + 1] == v[i] + " "
  {
    assert v == v[..i] + [v[i]] + v[i + 1..];
    JoinedAppend(v[..i] + [v[i]], v[i + 1..]);
    JoinedAppend(v[..i], [v[i]]);
    assert Joined([v[i]]) == v[i] + " " by {
      assert [v[i]][..0] == [];
    }
  }

  /**
   * The text `fmt.Sprintf("%s:%d %s -", file, line, level)`: the file, a
   * colon, the line's digits, a space, the level, a space and a dash.
   */
  function Prefix(file: string, line: nat, level: string): (p: string)
    ensures |p| == |file| + 1 + |Decimal(line)| + 1 + |level| + 2
    ensures p[..|file|] == file && p[|file|] == ':'
    ensures p[|file| + 1..|file| + 1 + |Decimal(line)|] == Decimal(line)
    ensures p[|file| + 1 + |Decimal(line)|] == ' '
    ensures EndsWith(p, level + " -")
  {
    PrefixLayout(file, Decimal(line), level);
    file + ":" + Decimal(line) + " " + level + " -"
  }

  /** Positions in the prefix text, stated over plain strings to keep the proof cheap. */
  lemma PrefixLayout(file: string, digits: string, level: string)
    ensures var p := file + ":" + digits + " " + level + " -";
      |p| == |file| + 1 + |digits| + 1 + |level| + 2 &&
      p[..|file|] == file && p[|file|] == ':' &&
      p[|file| + 1..|file| + 1 + |digits|] == digits &&
      p[|file| + 1 + |digits|] == ' ' &&
      EndsWith(p, level + " -")
  {
    var p := file + ":" + digits + " " + level + " -";
    assert p[|file| + 1..|file| + 1 + |digits|] == digits;
    assert p[|p| - |level| - 2..] == level + " -";
  }

  /** What a line starts with before its level tag: `<file>:<line> `. */
  function LeadIn(caller: Caller): string
  {
    Basename(caller.file) + ":" + Decimal(caller.line) + " "
  }

  /** A written line is its lead-in, the level and ` - <msg>` with a newline. */
  lemma WriteLineShape(level: string, caller: Caller, msg: string)
    ensures WriteLine(level, caller, msg) == LeadIn(caller) + level + " - " + msg + "\n"
  {
    Regroup(Basename(caller.file), Decimal(caller.line), level, msg);
  }

  /** Regroups the line's concatenation; a separate lemma keeps the solver's work on it small. */
  lemma Regroup(file: string, digits: string, level: string, msg: string)
    ensures file + ":" + digits + " " + level + " -" + " " + msg + "\n" ==
      (file + ":" + digits + " ") + level + " - " + msg + "\n"
  {
  }

  /**
   * `write(level, msg)`: the line handed to the log file, namely the
   * caller's base name, its line, the level, a dash, then (as Println puts a
   * space between its two operands and a newline after them) a space, the
   * message and a newline. The date and time the log writer puts in front
   * are not modelled.
   */
  function WriteLine(level: string, caller: Caller, msg: string): (line: string)
    ensures |line| > 0 && line[|line| - 1] == '\n'
    ensures EndsWith(line, " - " + msg + "\n")
  {
    var file, digits := Basename(caller.file), Decimal(caller.line);
    LineEnd(file + ":" + digits + " " + level, msg);
    Prefix(file, caller.line, level) + " " + msg + "\n"
  }

  /** The end of a line, over plain strings; a separate lemma keeps the solver's work on it small. */
  lemma LineEnd(head: string, msg: string)
    ensures var line := head + " -" + " " + msg + "\n";
      |line| > 0 && line[|line| - 1] == '\n' && EndsWith(line, " - " + msg + "\n")
  {
    var line := head + " -" + " " + msg + "\n";
    assert line[|head|..] == " - " + msg + "\n";
  }

  /** `Info(v...)`: the line written at level INFO. */
  method Info(caller: Caller, v: seq<string>) returns (line: string)
    ensures line == WriteLine("INFO", caller, Joined(v))
  {
    var msg := Stringify(v);
    line := WriteLine("INFO", caller, msg);
  }

  /** `Debug(v...)`: the line written at level DEBUG. */
  method Debug(caller: Caller, v: seq<string>) returns (line: string)
    ensures line == WriteLine("DEBUG", caller, Joined(v))
  {
    var msg := Stringify(v);
    line := WriteLine("DEBUG", caller, msg);
  }

  /** `Die(v...)`: the line written at level DIE, then the status to exit with. */
  method Die(caller: Caller, v: seq<string>) returns (line: string, status: int)
    ensures line == WriteLine("DIE", caller, Joined(v))
    ensures status == DieExitStatus
  {
    var msg := Stringify(v);
    line := WriteLine("DIE", caller, msg);
    status := DieExitStatus;
  }

  /**
   * For one caller and one message, the INFO, DEBUG and DIE lines share
   * their lead-in and differ in the level tag that follows it.
   */
  lemma LevelTagsDistinguish(caller: Caller, msg: string)
    ensures WriteLine("INFO", caller, msg) != WriteLine("DEBUG", caller, msg)
    ensures WriteLine("INFO", caller, msg) != WriteLine("DIE", caller, msg)
    ensures WriteLine("DEBUG", caller, msg) != WriteLine("DIE", caller, msg)
  {
    var lead := LeadIn(caller);
    WriteLineShape("INFO", caller, msg);
    WriteLineShape("DEBUG", caller, msg);
    WriteLineShape("DIE", caller, msg);
    TagAt(lead, "INFO", msg);
    TagAt(lead, "DEBUG", msg);
    TagAt(lead, "DIE", msg);
  }

  /** Where the tag sits in a line; a separate lemma keeps the solver's work on it small. */
  lemma TagAt(lead: string, tag: string, msg: string)
    requires |tag| >= 2
    ensures var s := lead + tag + " - " + msg + "\n";
      |lead| + 1 < |s| && s[..|lead|] == lead && s[|lead|] == tag[0] && s[|lead| + 1] == tag[1]
  {
  }

  // ---------------------------------------------------------------------
  // Reading a line back

  /** The fields a written line carries. */
  datatype LineFields = LineFields(file: string, line: nat, level: string, msg: string)

  /** The text before and the text after the first `c` in `s`, if `c` occurs. */
  function SplitAt(s: string, c: char): Option<(string, string)>
  {
    match IndexOf(s, c)
    case None => None
    case Some(i) => Some((s[..i], s[i + 1..]))
  }

  lemma SplitAtFirst(a: string, c: char, b: string)
    requires c !in a
    ensures SplitAt(a + [c] + b, c) == Some((a, b))
  {
    IndexOfAfter(a, c, b);
    assert (a + [c] + b)[..|a|] == a;
    assert (a + [c] + b)[|a| + 1..] == b;
  }

  /** The message in `- <msg>` followed by a newline. */
  function ParseTail(tail: string): Option<string>
  {
    if |tail| < 3 || tail[..2] != "- " || tail[|tail| - 1] != '\n' then None
    else Some(tail[2..|tail| - 1])
  }

  /**
   * Splits a line of the shape WriteLine produces back into its fields: the
   * file up to the first `:`, the digits up to the next space, the level up
   * to the next space, then `- `, the message, and the final newline.
   */
  function ParseLine(s: string): Option<LineFields>
  {
    match SplitAt(s, ':')
    case None => None
    case Some((file, afterFile)) =>
      match SplitAt(afterFile, ' ')
      case None => None
      case Some((digits, afterLine)) =>
        if digits == [] || !AllDigits(digits) then None
        else
          match SplitAt(afterLine, ' ')
          case None => None
          case Some((level, tail)) =>
            match ParseTail(tail)
            case None => None
            case Some(msg) => Some(LineFields(file, DecimalValue(digits), level, msg))
  }

  /**
   * Every field of a written line can be read back from it, provided the
   * base name has no `:` and the level no space (true of INFO, DEBUG, DIE).
   */
  lemma WriteLineRoundTrip(level: string, caller: Caller, msg: string)
    requires ':' !in Basename(caller.file) && ' ' !in level
    ensures ParseLine(WriteLine(level, caller, msg)) ==
      Some(LineFields(Basename(caller.file), caller.line, level, msg))
  {
    WriteLineShape(level, caller, msg);
    var file, digits := Basename(caller.file), Decimal(caller.line);
    ParseComposed(file, digits, level, msg);
    DecimalRoundTrip(caller.line);
  }

  /** ParseLine splits `<file>:<digits> <level> - <msg>` and a newline into its parts. */
  lemma ParseComposed(file: string, digits: string, level: string, msg: string)
    requires ':' !in file && digits != [] && AllDigits(digits) && ' ' !in level
    ensures ParseLine((file + ":" + digits + " ") + level + " - " + msg + "\n") ==
      Some(LineFields(file, DecimalValue(digits), level, msg))
  {
    var tail := "- " + msg + "\n";
    var afterLine := level + [' '] + tail;
    var afterFile := digits + [' '] + afterLine;
    LineLayout(file, digits, level, msg);
    SplitAtFirst(file, ':', afterFile);
    assert ' ' !in digits by {
      forall i | 0 <= i < |digits| ensures digits[i] != ' ' {
        assert IsDigit(digits[i]);
      }
    }
    SplitAtFirst(digits, ' ', afterLine);
    SplitAtFirst(level, ' ', tail);
    ParseTailOf(msg);
  }

  /** Regroups a line around its separators; a separate lemma keeps the solver's work on it small. */
  lemma LineLayout(file: string, digits: string, level: string, msg: string)
    ensures (file + ":" + digits + " ") + level + " - " + msg + "\n" ==
      file + [':'] + (digits + [' '] + (level + [' '] + ("- " + msg + "\n")))
  {
  }

  /** ParseTail reads the message back; a separate lemma keeps the solver's work on it small. */
  lemma ParseTailOf(msg: string)
    ensures ParseTail("- " + msg + "\n") == Some(msg)
  {
    var tail := "- " + msg + "\n";
    assert tail[..2] == "- ";
    assert tail[2..|tail| - 1] == msg;
  }
}
