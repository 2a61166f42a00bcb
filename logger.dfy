/**
 * The log: every message becomes one line of the current log file, tagged with
 * its level and a timestamp, optionally with the id of the renderer window that
 * sent it and an argument in parentheses. The log file is named after the app
 * and the time it was created, and only ever grows.
 */
module Logger {
  import opened Wrappers
  import opened Text

  // ---------------------------------------------------------------------------
  // Line format
  // ---------------------------------------------------------------------------

  datatype Level = Log | Warn | Error

  function Tag(level: Level): (r: string)
    ensures "[AUTHME " <= r && r[|r| - 1] == ']'
  {
    match level
    case Log => "[AUTHME LOG]"
    case Warn => "[AUTHME WARN]"
    case Error => "[AUTHME ERROR]"
  }

  /**
   * The optional second argument of a log call. An object, and `null`, are
   * serialised as JSON first (the serialisation itself is taken as given);
   * any other value appears as its string form.
   */
  datatype Arg = Undefined | Null | Object(json: string) | Scalar(text: string)

  /** The text put in parentheses, if any. */
  function ArgText(arg: Arg): (r: Option<string>)
    ensures r.None? <==> arg.Undefined?
    ensures arg.Null? ==> r == Some("null")
  {
    match arg
    case Undefined => None
    case Null => Some("null")
    case Object(json) => Some(json)
    case Scalar(text) => Some(text)
  }

  /** Tag, timestamp and, for renderer messages, the window id. */
  function Head(level: Level, time: string, id: Option<string>): (r: string)
    ensures Tag(level) <= r
    ensures id.None? ==> r[|r| - 2..] == "} "
    ensures id.Some? ==> |r| >= |id.value| + 3 && r[|r| - |id.value| - 3..] == "<" + id.value + "> "
  {
    Tag(level) + " {" + time + "} " + (if id.Some? then "<" + id.value + "> " else "")
  }

  /** The message and, in parentheses, the argument's text, ending the line. */
  function Body(message: string, arg: Arg): (r: string)
    ensures message <= r && |r| >= |message| + 2 && r[|r| - 2..] == " \n"
    ensures arg.Undefined? <==> |r| == |message| + 2
  {
    match ArgText(arg)
    case None => message + " \n"
    case Some(text) => message + " (" + text + ") \n"
  }

  /** The line that one call of `log`, `warn`, `error` or their renderer forms appends to the log file. */
  function FileLine(level: Level, time: string, id: Option<string>, message: string, arg: Arg): (r: string)
    ensures Head(level, time, id) <= r
    ensures |r| >= 2 && r[|r| - 2..] == " \n"
  {
    Head(level, time, id) + Body(message, arg)
  }

  /** An argument is the same as appending " (argument)" to the message. */
  lemma ArgumentInParentheses(level: Level, time: string, id: Option<string>, message: string, arg: Arg)
    requires !arg.Undefined?
    ensures FileLine(level, time, id, message, arg)
            == FileLine(level, time, id, message + " (" + ArgText(arg).value + ")", Undefined)
  {
  }

  /** A renderer line is the main-process line with "<id> " inserted after the timestamp. */
  lemma RendererInsertsId(level: Level, time: string, id: string, message: string, arg: Arg)
    ensures var head := Head(level, time, None);
            var plain := FileLine(level, time, None, message, arg);
            FileLine(level, time, Some(id), message, arg) == head + "<" + id + "> " + plain[|head|..]
  {
    var head := Head(level, time, None);
    var body := Body(message, arg);
    var plain := FileLine(level, time, None, message, arg);
    assert plain == head + body;
    assert plain[|head|..] == body;
    assert Head(level, time, Some(id)) == head + ("<" + id + "> ");
    AppendAssociative(head, "<" + id + "> ", body);
  }

  /** The level a log line was written at, read back from its tag. */
  function LevelOf(line: string): (r: Option<Level>)
    ensures r.Some? ==> Tag(r.value) <= line
  {
    if Tag(Log) <= line then Some(Log)
    else if Tag(Warn) <= line then Some(Warn)
    else if Tag(Error) <= line then Some(Error)
    else None
  }

  /** Every line carries its level: reading the tag back gives the level it was written at. */
  lemma LevelOfFileLine(level: Level, time: string, id: Option<string>, message: string, arg: Arg)
    ensures LevelOf(FileLine(level, time, id, message, arg)) == Some(level)
  {
    var line := FileLine(level, time, id, message, arg);
    assert Tag(level) <= line;
    assert line[8] == Tag(level)[8];
    if level == Error {
      assert line[9] == 'R';
    }
  }

  /** Two calls at different levels never append the same line, whatever their other arguments. */
  lemma LevelsDistinguished(l1: Level, t1: string, i1: Option<string>, m1: string, a1: Arg,
                            l2: Level, t2: string, i2: Option<string>, m2: string, a2: Arg)
    requires FileLine(l1, t1, i1, m1, a1) == FileLine(l2, t2, i2, m2, a2)
    ensures l1 == l2
  {
    LevelOfFileLine(l1, t1, i1, m1, a1);
    LevelOfFileLine(l2, t2, i2, m2, a2);
  }

  // ---------------------------------------------------------------------------
  // Log file name
  // ---------------------------------------------------------------------------

  /** The position of the first occurrence of c in s. */
  function FirstIndex(s: string, c: char): (r: Option<nat>)
    ensures r.None? <==> c !in s
    ensures r.Some? ==> r.value < |s| && s[r.value] == c && c !in s[..r.value]
  {
    if |s| == 0 then None
    else if s[0] == c then Some(0)
    else
      match FirstIndex(s[1..], c)
      case None => None
      case Some(k) =>
        assert s[..k + 1] == [s[0]] + s[1..][..k];
        Some(k + 1)
  }

  /** `String.prototype.replace` with a one-character pattern: only the first occurrence changes. */
  function ReplaceFirst(s: string, c: char, d: char): (r: string)
    ensures |r| == |s|
    ensures forall i :: 0 <= i < |s| ==> r[i] == if FirstIndex(s, c) == Some(i) then d else s[i]
  {
    match FirstIndex(s, c)
    case None => s
    case Some(k) => s[k := d]
  }

  /** `String.prototype.replaceAll` with one-character pattern and replacement. */
  function ReplaceAll(s: string, c: char, d: char): (r: string)
    ensures |r| == |s|
    ensures forall i :: 0 <= i < |s| ==> r[i] == if s[i] == c then d else s[i]
  {
    seq(|s|, i requires 0 <= i < |s| => if s[i] == c then d else s[i])
  }

  /** The file-name timestamp made from an ISO time string. */
  function Stamp(iso: string): (r: string)
    ensures |r| == if |iso| < 19 then |iso| else 19
    ensures ':' !in r
    ensures forall i :: 0 <= i < |r| ==>
              r[i] == if iso[i] == ':' || FirstIndex(iso, 'T') == Some(i) then '-' else iso[i]
  {
    Take(ReplaceAll(ReplaceFirst(iso, 'T', '-'), ':', '-'), 19)
  }

  predicate IsDigit(c: char)
  {
    '0' <= c <= '9'
  }

  /** The shape of `Date.prototype.toISOString`: YYYY-MM-DDTHH:MM:SS.sssZ. */
  predicate IsIsoTime(iso: string)
  {
    && |iso| == 24
    && iso[4] == '-' && iso[7] == '-' && iso[10] == 'T' && iso[13] == ':' && iso[16] == ':'
    && iso[19] == '.' && iso[23] == 'Z'
    && (forall i | 0 <= i < 24 && i !in {4, 7, 10, 13, 16, 19, 23} :: IsDigit(iso[i]))
  }

  /** An ISO time gives the stamp YYYY-MM-DD-HH-MM-SS: the date, then hours, minutes and seconds. */
  lemma StampOfIsoTime(iso: string)
    requires IsIsoTime(iso)
    ensures Stamp(iso) == iso[..10] + "-" + iso[11..13] + "-" + iso[14..16] + "-" + iso[17..19]
  {
  }

  /** `createFile`'s file name. */
  function LogFileName(name: string, stamp: string): (r: string)
    ensures name <= r
    ensures |r| == |name| + 1 + |stamp| + 4
    ensures r[|r| - 4..] == ".log"
  {
    name + "-" + stamp + ".log"
  }

  /** A log file name made from a name without ':' has none: it is a valid file name on every platform's rules for ':'. */
  lemma LogFileNameHasNoColon(name: string, iso: string)
    requires ':' !in name
    ensures ':' !in LogFileName(name, Stamp(iso))
  {
  }

  // ---------------------------------------------------------------------------
  // The log file
  // ---------------------------------------------------------------------------

  /** A file, by the directory it is in and its name. */
  datatype FilePath = FilePath(dir: string, name: string)

  /**
   * The logger's module state: the current log file's name and directory (none
   * before `createFile`) and the files it can write.
   */
  class LogFile {
    var fileName: Option<string>
    var filePath: Option<string>
    var files: map<FilePath, string>
    /** The messages appended since the log file was created. */
    ghost var writes: seq<string>

    /** Once a log file exists, its contents are exactly the messages appended, in order. */
    ghost predicate Valid()
      reads this
    {
      && (fileName.Some? <==> filePath.Some?)
      && (fileName.Some? ==>
            FilePath(filePath.value, fileName.value) in files
            && files[FilePath(filePath.value, fileName.value)] == Concat(writes))
    }

    /** The current log file, once `createFile` has run. */
    function Current(): FilePath
      requires fileName.Some? && filePath.Some?
      reads this
    {
      FilePath(filePath.value, fileName.value)
    }

    constructor (existing: map<FilePath, string>)
      ensures Valid() && fileName.None? && filePath.None? && files == existing
    {
      fileName, filePath := None, None;
      files := existing;
      writes := [];
    }

    /** `createFile`: start an empty log named after `name` and the ISO time, in the `logs` directory. */
    method CreateFile(dir: string, name: string, isoTime: string)
      modifies this
      ensures Valid()
      ensures fileName == Some(LogFileName(name, Stamp(isoTime)))
      ensures filePath == Some(dir + "/logs")
      ensures files == old(files)[FilePath(dir + "/logs", LogFileName(name, Stamp(isoTime))) := ""]
      ensures writes == []
    {
      var time := Take(ReplaceAll(ReplaceFirst(isoTime, 'T', '-'), ':', '-'), 19);
      var logs := dir + "/logs";
      files := files[FilePath(logs, name + "-" + time + ".log") := ""];
      fileName := Some(name + "-" + time + ".log");
      filePath := Some(logs);
      writes := [];
    }

    /**
     * `writeFile`: append the message to the current log file. Without a log
     * file the path cannot be built and the call fails.
     */
    method WriteFile(message: string) returns (ok: bool)
      requires Valid()
      modifies this`files, this`writes
      ensures Valid()
      ensures ok <==> fileName.Some?
      ensures ok ==> files == old(files)[Current() := old(files)[Current()] + message]
      ensures ok ==> writes == old(writes) + [message]
      ensures !ok ==> files == old(files) && writes == old(writes)
    {
      if fileName.None? || filePath.None? {
        return false;
      }
      var path := FilePath(filePath.value, fileName.value);
      files := files[path := files[path] + message];
      writes := writes + [message];
      assert writes[..|writes| - 1] == old(writes);
      ok := true;
    }

    /** One log call: format the line and append it; a failed write is ignored. */
    method Emit(level: Level, time: string, id: Option<string>, message: string, arg: Arg)
      requires Valid()
      modifies this`files, this`writes
      ensures Valid()
      ensures fileName.Some? ==> writes == old(writes) + [FileLine(level, time, id, message, arg)]
      ensures fileName.Some? ==> files == old(files)[Current() := old(files)[Current()] + FileLine(level, time, id, message, arg)]
      ensures fileName.None? ==> files == old(files) && writes == old(writes)
    {
      var _ := WriteFile(FileLine(level, time, id, message, arg));
    }

    /** `log` */
    method LogMessage(time: string, message: string, arg: Arg)
      requires Valid()
      modifies this`files, this`writes
      ensures Valid()
      ensures fileName.Some? ==> writes == old(writes) + [FileLine(Log, time, None, message, arg)]
      ensures fileName.Some? ==> files == old(files)[Current() := old(files)[Current()] + FileLine(Log, time, None, message, arg)]
      ensures fileName.None? ==> files == old(files) && writes == old(writes)
    {
      Emit(Log, time, None, message, arg);
    }

    /** `warn` */
    method WarnMessage(time: string, message: string, arg: Arg)
      requires Valid()
      modifies this`files, this`writes
      ensures Valid()
      ensures fileName.Some? ==> writes == old(writes) + [FileLine(Warn, time, None, message, arg)]
      ensures fileName.Some? ==> files == old(files)[Current() := old(files)[Current()] + FileLine(Warn, time, None, message, arg)]
      ensures fileName.None? ==> files == old(files) && writes == old(writes)
    {
      Emit(Warn, time, None, message, arg);
    }

    /** `error` */
    method ErrorMessage(time: string, message: string, arg: Arg)
      requires Valid()
      modifies this`files, this`writes
      ensures Valid()
      ensures fileName.Some? ==> writes == old(writes) + [FileLine(Error, time, None, message, arg)]
      ensures fileName.Some? ==> files == old(files)[Current() := old(files)[Current()] + FileLine(Error, time, None, message, arg)]
      ensures fileName.None? ==> files == old(files) && writes == old(writes)
    {
      Emit(Error, time, None, message, arg);
    }

    /** `rendererLog` */
    method RendererLog(id: string, time: string, message: string, arg: Arg)
      requires Valid()
      modifies this`files, this`writes
      ensures Valid()
      ensures fileName.Some? ==> writes == old(writes) + [FileLine(Log, time, Some(id), message, arg)]
      ensures fileName.Some? ==> files == old(files)[Current() := old(files)[Current()] + FileLine(Log, time, Some(id), message, arg)]
      ensures fileName.None? ==> files == old(files) && writes == old(writes)
    {
      Emit(Log, time, Some(id), message, arg);
    }

    /** `rendererWarn` */
    method RendererWarn(id: string, time: string, message: string, arg: Arg)
      requires Valid()
      modifies this`files, this`writes
      ensures Valid()
      ensures fileName.Some? ==> writes == old(writes) + [FileLine(Warn, time, Some(id), message, arg)]
      ensures fileName.Some? ==> files == old(files)[Current() := old(files)[Current()] + FileLine(Warn, time, Some(id), message, arg)]
      ensures fileName.None? ==> files == old(files) && writes == old(writes)
    {
      Emit(Warn, time, Some(id), message, arg);
    }

    /** `rendererError` */
    method RendererError(id: string, time: string, message: string, arg: Arg)
      requires Valid()
      modifies this`files, this`writes
      ensures Valid()
      ensures fileName.Some? ==> writes == old(writes) + [FileLine(Error, time, Some(id), message, arg)]
      ensures fileName.Some? ==> files == old(files)[Current() := old(files)[Current()] + FileLine(Error, time, Some(id), message, arg)]
      ensures fileName.None? ==> files == old(files) && writes == old(writes)
    {
      Emit(Error, time, Some(id), message, arg);
    }

    /** `fileName`: the current log file's name, none before `createFile`. */
    method FileName() returns (r: Option<string>)
      ensures r == fileName
    {
      r := fileName;
    }
  }
}
