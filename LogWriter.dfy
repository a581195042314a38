/**
 * The rolling log writer: `AllocateLogStream` keeps one append-mode stream
 * open on `<logFolder>/<prefix><date>.log`, reopening it only on the first
 * call or when the date stamp changes, and `log` writes "(<time>) <message>"
 * to the console and, newline-terminated, to that stream.
 *
 * The clock is an input: `today` is the UTC date stamp the source takes from
 * `toISOString().slice(0, 10)`, `time` the local time string it takes from
 * `toLocaleTimeString()`. The file system is a map from path to the lines
 * appended to that file; a stream is named by the path it was opened on.
 */
module LogWriter {
  import opened Wrappers

  function LogFileName(logFolder: string, prefix: string, date: string): string {
    logFolder + "/" + prefix + date + ".log"
  }

  /** The line `log` writes to the log file. */
  function FileLine(time: string, message: string): string {
    "(" + time + ") " + message + "\n"
  }

  /** The line `log` prints on the console (which ends the line itself). */
  function ConsoleLine(time: string, message: string): string {
    "(" + time + ") " + message
  }

  /** The writer's state: the three module-level variables and what the file system holds. */
  datatype LogState = LogState(
    logFolder: string,
    prefix: string,
    lastLogDate: Option<string>,
    logFile: Option<string>,
    logStream: Option<string>,          // the path the open stream appends to
    openedStreams: seq<string>,         // every stream opened, in order
    endedStreams: seq<string>,          // every stream ended, in order
    files: map<string, seq<string>>)    // file contents, line by line
  {
    /**
     * Before the first call nothing is open; afterwards exactly one stream is
     * open, on the file of the last date stamp, and every earlier stream has
     * been ended, in the order it was opened.
     */
    predicate Valid() {
      match lastLogDate
      case None =>
        logFile == None && logStream == None && openedStreams == [] && endedStreams == []
      case Some(date) =>
        && logFile == Some(LogFileName(logFolder, prefix, date))
        && logStream == logFile
        && openedStreams == endedStreams + [logFile.value]
        && logFile.value in files
    }
  }

  /** The state at start-up, over whatever files the disk already holds. */
  function Initial(logFolder: string, prefix: string, disk: map<string, seq<string>>): (s: LogState)
    ensures s.Valid() && s.files == disk
    ensures s.logFolder == logFolder && s.prefix == prefix
    ensures s.lastLogDate == None && s.logFile == None && s.logStream == None
    ensures s.openedStreams == [] && s.endedStreams == []
  {
    LogState(logFolder, prefix, None, None, None, [], [], disk)
  }

  /**
   * `AllocateLogStream` on the date stamp `today`: nothing changes when the
   * last stamp is today's; otherwise the open stream (if any) is ended and one
   * new append-mode stream is opened on today's file, creating it when absent
   * and keeping its contents when present.
   */
  function Allocate(s: LogState, today: string): (r: LogState)
    ensures s.Valid() ==> r.Valid()
    ensures r.lastLogDate == Some(today)
    ensures s.Valid() ==> r.logFile == Some(LogFileName(s.logFolder, s.prefix, today))
    ensures r == s <==> s.lastLogDate == Some(today)
    ensures s.lastLogDate != Some(today) ==>
      && r.logFile == Some(LogFileName(s.logFolder, s.prefix, today))
      && r.endedStreams == s.endedStreams + s.logStream.ToSeq()
      && r.openedStreams == s.openedStreams + [LogFileName(s.logFolder, s.prefix, today)]
      && r.files.Keys == s.files.Keys + {LogFileName(s.logFolder, s.prefix, today)}
      && r.files[LogFileName(s.logFolder, s.prefix, today)] ==
         (if LogFileName(s.logFolder, s.prefix, today) in s.files
          then s.files[LogFileName(s.logFolder, s.prefix, today)] else [])
    ensures forall f :: f in s.files ==> f in r.files && r.files[f] == s.files[f]
    ensures r.logFolder == s.logFolder && r.prefix == s.prefix
  {
    if s.lastLogDate.Some? && s.lastLogDate.value == today then s
    else
      var path := LogFileName(s.logFolder, s.prefix, today);
      s.(lastLogDate := Some(today),
         logFile := Some(path),
         logStream := Some(path),
         openedStreams := s.openedStreams + [path],
         endedStreams := s.endedStreams + s.logStream.ToSeq(),
         files := if path in s.files then s.files else s.files[path := []])
  }

  /**
   * `log(message)` at date stamp `today` and time `time`: allocate the
   * stream, then append the timestamped line to the file of today's stamp;
   * every other file keeps its contents.
   */
  function Write(s: LogState, today: string, time: string, message: string): (r: LogState)
    requires s.Valid()
    ensures r.Valid()
    ensures r.lastLogDate == Some(today)
    ensures r.logFolder == s.logFolder && r.prefix == s.prefix
    ensures var path := LogFileName(s.logFolder, s.prefix, today);
      && path in r.files
      && r.files[path] == (if path in s.files then s.files[path] else []) + [FileLine(time, message)]
      && (forall f :: f in s.files && f != path ==> f in r.files && r.files[f] == s.files[f])
      && r.files.Keys == s.files.Keys + {path}
  {
    var a := Allocate(s, today);
    var path := a.logStream.value;
    a.(files := a.files[path := a.files[path] + [FileLine(time, message)]])
  }

  /** One call of `log`: the date stamp and time it reads, and the message. */
  datatype Entry = Entry(date: string, time: string, message: string)

  /**
   * A sequence of `log` calls, in order: the one stream left open is on the
   * file of the last call's date stamp, under the same folder and prefix.
   */
  function WriteAll(s: LogState, entries: seq<Entry>): (r: LogState)
    requires s.Valid()
    ensures r.Valid()
    ensures r.logFolder == s.logFolder && r.prefix == s.prefix
    ensures entries != [] ==> r.lastLogDate == Some(entries[|entries| - 1].date)
    decreases |entries|
  {
    if entries == [] then s
    else WriteAll(Write(s, entries[0].date, entries[0].time, entries[0].message), entries[1..])
  }

  /** The file lines of the entries whose date stamp is `date`, in order. */
  function LinesOfDay(entries: seq<Entry>, date: string): seq<string>
    decreases |entries|
  {
    if entries == [] then []
    else
      (if entries[0].date == date then [FileLine(entries[0].time, entries[0].message)] else [])
      + LinesOfDay(entries[1..], date)
  }

  // ---------------------------------------------------------------------------
  // Lemmas
  // ---------------------------------------------------------------------------

  lemma {:induction false} PrefixCancel(a: string, b: string, c: string)
    requires a + b == a + c
    ensures b == c
  {
    assert b == (a + b)[|a|..];
    assert c == (a + c)[|a|..];
  }

  lemma {:induction false} SuffixCancel(a: string, b: string, c: string)
    requires a + c == b + c
    ensures a == b
  {
    assert a == (a + c)[..|a + c| - |c|];
    assert b == (b + c)[..|b + c| - |c|];
  }

  /** Distinct date stamps name distinct log files: one file per day. */
  lemma LogFileNameInjective(logFolder: string, prefix: string, d1: string, d2: string)
    requires LogFileName(logFolder, prefix, d1) == LogFileName(logFolder, prefix, d2)
    ensures d1 == d2
  {
    var head := logFolder + "/" + prefix;
    assert LogFileName(logFolder, prefix, d1) == head + d1 + ".log";
    assert LogFileName(logFolder, prefix, d2) == head + d2 + ".log";
    SuffixCancel(head + d1, head + d2, ".log");
    PrefixCancel(head, d1, d2);
  }

  /** Allocating twice on the same stamp is allocating once. */
  lemma AllocateIdempotent(s: LogState, today: string)
    ensures Allocate(Allocate(s, today), today) == Allocate(s, today)
  {
  }

  /**
   * Two writes on the same date stamp go to the same file without a reopen:
   * the second opens and ends nothing, and the file holds both lines in order.
   */
  lemma SameDayAppends(s: LogState, today: string, t1: string, m1: string, t2: string, m2: string)
    requires s.Valid()
    ensures var once := Write(s, today, t1, m1);
      var twice := Write(once, today, t2, m2);
      var path := LogFileName(s.logFolder, s.prefix, today);
      && twice.openedStreams == once.openedStreams && twice.endedStreams == once.endedStreams
      && twice.files[path] == (if path in s.files then s.files[path] else []) + [FileLine(t1, m1), FileLine(t2, m2)]
  {
  }

  /**
   * A date change between two writes ends the first day's stream and opens
   * one on the new day's file; the first day's file keeps its line.
   */
  lemma Rotation(s: LogState, d1: string, d2: string, t1: string, m1: string, t2: string, m2: string)
    requires s.Valid() && d1 != d2
    ensures var first := Write(s, d1, t1, m1);
      var second := Write(first, d2, t2, m2);
      var f1 := LogFileName(s.logFolder, s.prefix, d1);
      var f2 := LogFileName(s.logFolder, s.prefix, d2);
      && second.endedStreams == first.endedStreams + [f1]
      && second.openedStreams == first.openedStreams + [f2]
      && second.files[f1] == first.files[f1]
      && first.files[f1][|first.files[f1]| - 1] == FileLine(t1, m1)
      && second.files[f2][|second.files[f2]| - 1] == FileLine(t2, m2)
  {
    var f1 := LogFileName(s.logFolder, s.prefix, d1);
    var f2 := LogFileName(s.logFolder, s.prefix, d2);
    if f1 == f2 {
      LogFileNameInjective(s.logFolder, s.prefix, d1, d2);
    }
  }

  /** What the file at `path` holds, read as empty when it does not exist. */
  function FileContents(files: map<string, seq<string>>, path: string): seq<string> {
    if path in files then files[path] else []
  }

  /** The file system after appending `line` to the file at `path`, creating it when absent. */
  function AppendLine(files: map<string, seq<string>>, path: string, line: string): map<string, seq<string>> {
    files[path := FileContents(files, path) + [line]]
  }

  /** The file system after a sequence of `log` calls: each line appended to its day's file. */
  function FilesAfter(files: map<string, seq<string>>, logFolder: string, prefix: string, entries: seq<Entry>)
    : map<string, seq<string>>
    decreases |entries|
  {
    if entries == [] then files
    else
      var e := entries[0];
      FilesAfter(AppendLine(files, LogFileName(logFolder, prefix, e.date), FileLine(e.time, e.message)),
                 logFolder, prefix, entries[1..])
  }

  /** On the file system, one `log` call is one append to the file of its day. */
  lemma WriteAppends(s: LogState, today: string, time: string, message: string)
    requires s.Valid()
    ensures Write(s, today, time, message).files
         == AppendLine(s.files, LogFileName(s.logFolder, s.prefix, today), FileLine(time, message))
  {
  }

  /** On the file system, a sequence of `log` calls is the sequence of appends. */
  lemma {:induction false} WriteAllAppends(s: LogState, entries: seq<Entry>)
    requires s.Valid()
    ensures WriteAll(s, entries).files == FilesAfter(s.files, s.logFolder, s.prefix, entries)
    decreases |entries|
  {
    if entries != [] {
      var e := entries[0];
      WriteAppends(s, e.date, e.time, e.message);
      WriteAllAppends(Write(s, e.date, e.time, e.message), entries[1..]);
    }
  }

  /** The appends give each day's file exactly that day's lines, after what it held. */
  lemma {:induction false} FilesAfterByDay(
    files: map<string, seq<string>>, logFolder: string, prefix: string, entries: seq<Entry>, date: string)
    ensures var r := FilesAfter(files, logFolder, prefix, entries);
      var path := LogFileName(logFolder, prefix, date);
      && (path in r <==> path in files || LinesOfDay(entries, date) != [])
      && FileContents(r, path) == FileContents(files, path) + LinesOfDay(entries, date)
    decreases |entries|
  {
    if entries != [] {
      var e := entries[0];
      var path := LogFileName(logFolder, prefix, date);
      var here := LogFileName(logFolder, prefix, e.date);
      var next := AppendLine(files, here, FileLine(e.time, e.message));
      FilesAfterByDay(next, logFolder, prefix, entries[1..], date);
      var added := if e.date == date then [FileLine(e.time, e.message)] else [];
      if e.date != date && here == path {
        LogFileNameInjective(logFolder, prefix, e.date, date);
      }
      assert FileContents(next, path) == FileContents(files, path) + added;
      assert LinesOfDay(entries, date) == added + LinesOfDay(entries[1..], date);
      assert FileContents(files, path) + added + LinesOfDay(entries[1..], date)
          == FileContents(files, path) + LinesOfDay(entries, date);
    }
  }

  /**
   * Over any sequence of `log` calls, nothing is lost or duplicated: each
   * day's file ends up holding what it held before followed by exactly that
   * day's lines, in call order, and no file is ever truncated.
   */
  lemma DailyFiles(s: LogState, entries: seq<Entry>, date: string)
    requires s.Valid()
    ensures var r := WriteAll(s, entries);
      var path := LogFileName(s.logFolder, s.prefix, date);
      && (path in r.files <==> path in s.files || LinesOfDay(entries, date) != [])
      && FileContents(r.files, path) == FileContents(s.files, path) + LinesOfDay(entries, date)
  {
    WriteAllAppends(s, entries);
    FilesAfterByDay(s.files, s.logFolder, s.prefix, entries, date);
  }

  /** Each written line is "(" time ") " message and a newline. */
  lemma FileLineShape(time: string, message: string)
    ensures var line := FileLine(time, message);
      && line[0] == '(' && line[|line| - 1] == '\n'
      && line[1..|time| + 1] == time
      && line[|time| + 1..|time| + 3] == ") "
      && line[|time| + 3..|line| - 1] == message
  {
  }

  // ---------------------------------------------------------------------------
  // The writer as the source keeps it: module-level variables updated in place
  // ---------------------------------------------------------------------------

  class RollingLog {
    const logFolder: string
    const prefix: string
    var lastLogDate: Option<string>
    var logFile: Option<string>
    var logStream: Option<string>
    var openedStreams: seq<string>
    var endedStreams: seq<string>
    var files: map<string, seq<string>>
    var console: seq<string>

    ghost function State(): LogState
      reads this
    {
      LogState(logFolder, prefix, lastLogDate, logFile, logStream, openedStreams, endedStreams, files)
    }

    ghost predicate Valid()
      reads this
    {
      State().Valid()
    }

    constructor (logFolder: string, prefix: string, disk: map<string, seq<string>>)
      ensures State() == Initial(logFolder, prefix, disk)
      ensures Valid() && console == []
    {
      this.logFolder := logFolder;
      this.prefix := prefix;
      lastLogDate, logFile, logStream := None, None, None;
      openedStreams, endedStreams := [], [];
      files := disk;
      console := [];
    }

    method AllocateLogStream(today: string)
      modifies this
      ensures State() == Allocate(old(State()), today)
      ensures console == old(console)
    {
      if lastLogDate.Some? && lastLogDate.value == today {
        return;
      }
      if logStream.Some? {
        endedStreams := endedStreams + [logStream.value];
      }
      lastLogDate := Some(today);
      var path := LogFileName(logFolder, prefix, today);
      logFile := Some(path);
      if path !in files {
        files := files[path := []];
      }
      logStream := Some(path);
      openedStreams := openedStreams + [path];
    }

    method Log(message: string, today: string, time: string)
      requires Valid()
      modifies this
      ensures Valid()
      ensures State() == Write(old(State()), today, time, message)
      ensures console == old(console) + [ConsoleLine(time, message)]
    {
      AllocateLogStream(today);
      console := console + [ConsoleLine(time, message)];
      var path := logStream.value;
      files := files[path := files[path] + [FileLine(time, message)]];
    }
  }
}
