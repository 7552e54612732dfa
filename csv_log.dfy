/**
  The line shaping of the CSV logger: commas in messages become dots so a
  message stays one column, an empty message is replaced by a fixed text, an
  error record names the error, the message, the file and the line, and the
  frame it reports is the last one from the logger's own file, otherwise the
  last one of the traceback. The clock, the runtime's exception state and the
  `logging` package are inputs here: the timestamp, the exception and its
  frames are parameters, and the log file is a string that lines are
  appended to.
 */
module CsvLog {
  import opened Wrappers

  // ---------------------------------------------------------------------------
  // Comma-separated text

  /** `str.split(c)`: the pieces between separators, empty ones included. */
  function Split(s: string, c: char): (r: seq<string>)
    ensures |r| >= 1
    ensures forall i :: 0 <= i < |r| ==> c !in r[i]
  {
    if s == [] then [[]]
    else
      var rest := Split(s[1..], c);
      if s[0] == c then [[]] + rest else [[s[0]] + rest[0]] + rest[1..]
  }

  /** `c.join(parts)`. */
  function Join(parts: seq<string>, c: char): string {
    if parts == [] then []
    else if |parts| == 1 then parts[0]
    else parts[0] + [c] + Join(parts[1..], c)
  }

  /** Joining the pieces of a split gives the text back. */
  lemma {:induction false} JoinSplit(s: string, c: char)
    ensures Join(Split(s, c), c) == s
  {
    if s != [] {
      var rest := Split(s[1..], c);
      JoinSplit(s[1..], c);
      if s[0] == c {
        assert Split(s, c) == [[]] + rest;
      } else if |rest| > 1 {
        var r := Split(s, c);
        assert r[1..] == rest[1..];
        assert Join(r, c) == ([s[0]] + rest[0]) + [c] + Join(rest[1..], c);
      }
    }
  }

  /** A text without the separator is a single piece. */
  lemma {:induction false} SplitSingle(a: string, c: char)
    requires c !in a
    ensures Split(a, c) == [a]
  {
    if a != [] {
      assert c !in a[1..];
      SplitSingle(a[1..], c);
      assert [a[0]] + a[1..] == a;
    }
  }

  /** A leading piece without the separator comes off first. */
  lemma {:induction false} SplitFront(a: string, rest: string, c: char)
    requires c !in a
    ensures Split(a + [c] + rest, c) == [a] + Split(rest, c)
  {
    if a == [] {
      assert (a + [c] + rest)[1..] == rest;
    } else {
      var s := a + [c] + rest;
      assert s[0] == a[0] && s[0] != c;
      assert s[1..] == a[1..] + [c] + rest;
      assert c !in a[1..];
      SplitFront(a[1..], rest, c);
      assert [a[0]] + a[1..] == a;
    }
  }

  /** Splitting a join of separator-free pieces gives the pieces back. */
  lemma {:induction false} SplitJoin(parts: seq<string>, c: char)
    requires |parts| >= 1
    requires forall i :: 0 <= i < |parts| ==> c !in parts[i]
    ensures Split(Join(parts, c), c) == parts
  {
    if |parts| == 1 {
      SplitSingle(parts[0], c);
    } else {
      SplitJoin(parts[1..], c);
      SplitFront(parts[0], Join(parts[1..], c), c);
    }
  }

  // ---------------------------------------------------------------------------
  // Messages

  /** `s.replace(',', '.')`. */
  function Sanitize(s: string): (r: string)
    ensures |r| == |s|
    ensures ',' !in r
    ensures forall i :: 0 <= i < |s| ==> r[i] == (if s[i] == ',' then '.' else s[i])
  {
    if s == [] then [] else [if s[0] == ',' then '.' else s[0]] + Sanitize(s[1..])
  }

  /** A message without commas is logged as it is. */
  lemma {:induction false} SanitizeKeepsCommaFree(s: string)
    requires ',' !in s
    ensures Sanitize(s) == s
  {
    if s != [] {
      SanitizeKeepsCommaFree(s[1..]);
    }
  }

  const NoMessage: string := "No message provided."

  /** What `info` logs: the message with commas made dots, or the fallback
      when the message is `None` or empty. */
  function InfoMessage(message: Option<string>): (r: string)
    ensures message == None || message == Some("") ==> r == NoMessage
    ensures message.Some? && message.value != "" ==> r == Sanitize(message.value)
  {
    if message.Some? && message.value != "" then Sanitize(message.value) else NoMessage
  }

  /** The logged info message is never empty and stays in one column. */
  lemma InfoMessageIsOneField(message: Option<string>)
    ensures InfoMessage(message) != ""
    ensures ',' !in InfoMessage(message)
  {
  }

  // ---------------------------------------------------------------------------
  // Error details

  /** A traceback frame: the file and the line it points to. */
  datatype Frame = Frame(filename: string, lineno: nat)

  /** The exception being handled: the name of its type, its text and the
      frames of its traceback, oldest first. */
  datatype ExcInfo = ExcInfo(name: string, message: string, frames: seq<Frame>)

  /** The dictionary `_get_error_details` returns. */
  datatype Details = Details(error: string, message: string, file: string, line: nat)

  /** The position of the last frame from `file`, if there is one. */
  function LastFrom(frames: seq<Frame>, file: string): (r: Option<nat>)
    ensures r.Some? ==> r.value < |frames| && frames[r.value].filename == file
    ensures r.Some? ==> forall j :: r.value < j < |frames| ==> frames[j].filename != file
    ensures r.None? ==> forall j :: 0 <= j < |frames| ==> frames[j].filename != file
  {
    if frames == [] then None
    else if frames[|frames| - 1].filename == file then Some(|frames| - 1)
    else LastFrom(frames[..|frames| - 1], file)
  }

  /** The frame `_get_error_details` reports, as a position: the last one
      from `file`, otherwise the last one. The fallback `frames[-1]` is
      evaluated in any case, so no frames at all is an `IndexError`. */
  function SelectFrame(frames: seq<Frame>, file: string): (r: Result<nat, string>)
    ensures r.Failure? <==> frames == []
    ensures r.Success? ==> r.value < |frames|
    ensures r.Success? && (exists j :: 0 <= j < |frames| && frames[j].filename == file) ==>
      frames[r.value].filename == file &&
      forall j :: r.value < j < |frames| ==> frames[j].filename != file
    ensures r.Success? && (forall j :: 0 <= j < |frames| ==> frames[j].filename != file) ==>
      r.value == |frames| - 1
  {
    if frames == [] then Failure("IndexError")
    else
      match LastFrom(frames, file)
      case Some(i) => Success(i)
      case None => Success(|frames| - 1)
  }

  /** `Path(path).name`: what follows the last '/'. */
  function BaseName(path: string): (r: string)
    ensures '/' !in r
    ensures |r| <= |path| && r == path[|path| - |r|..]
    ensures |r| < |path| ==> path[|path| - |r| - 1] == '/'
  {
    if path == [] then []
    else if path[|path| - 1] == '/' then []
    else BaseName(path[..|path| - 1]) + [path[|path| - 1]]
  }

  /** `_get_error_details` for the exception being handled, `file` being the
      logger's own source file. With no exception being handled the type is
      `None`, whose missing `__name__` raises. */
  function ErrorDetails(exc: Option<ExcInfo>, file: string): (r: Result<Details, string>)
    ensures exc.None? ==> r == Failure("AttributeError")
    ensures exc.Some? ==> (r.Failure? <==> exc.value.frames == [])
    ensures r.Success? ==> r.value.error == exc.value.name && r.value.message == Sanitize(exc.value.message)
    ensures r.Success? ==>
      var f := exc.value.frames[SelectFrame(exc.value.frames, file).value];
      r.value.file == BaseName(f.filename) && r.value.line == f.lineno
  {
    match exc
    case None => Failure("AttributeError")
    case Some(e) =>
      match SelectFrame(e.frames, file)
      case Failure(err) => Failure(err)
      case Success(i) =>
        var f := e.frames[i];
        Success(Details(e.name, Sanitize(e.message), BaseName(f.filename), f.lineno))
  }

  /** `error`/`critical` put a non-empty custom message, commas made dots,
      in place of the exception's text. */
  function WithCustom(d: Details, custom: Option<string>): (r: Details)
    ensures custom.Some? && custom.value != "" ==> r.message == Sanitize(custom.value)
    ensures custom == None || custom == Some("") ==> r == d
    ensures r.error == d.error && r.file == d.file && r.line == d.line
  {
    if custom.Some? && custom.value != "" then d.(message := Sanitize(custom.value)) else d
  }

  function Digit(n: nat): char
    requires n < 10
  {
    ('0' as int + n) as char
  }

  /** `str(n)` for a line number. */
  function Decimal(n: nat): (r: string)
    ensures |r| >= 1
    ensures forall i :: 0 <= i < |r| ==> '0' <= r[i] <= '9'
  {
    if n < 10 then [Digit(n)] else Decimal(n / 10) + [Digit(n % 10)]
  }

  /** The number a string of decimal digits denotes. */
  function DigitsValue(s: string): nat
    requires forall i :: 0 <= i < |s| ==> '0' <= s[i] <= '9'
  {
    if s == [] then 0 else DigitsValue(s[..|s| - 1]) * 10 + (s[|s| - 1] as int - '0' as int)
  }

  /** The digits written for a line number read back as that number. */
  lemma {:induction false} DecimalValue(n: nat)
    ensures DigitsValue(Decimal(n)) == n
  {
    if n >= 10 {
      DecimalValue(n / 10);
      var r := Decimal(n);
      assert r[..|r| - 1] == Decimal(n / 10);
    }
  }

  /** The four values of an error record, in logging order. */
  function ErrorFields(d: Details): seq<string> {
    [d.error, d.message, d.file, Decimal(d.line)]
  }

  /** The `"%s,%s,%s,%s"` message of `error` and `critical`. */
  function ErrorText(d: Details): string {
    Join(ErrorFields(d), ',')
  }

  /** The message `error`/`critical` log, or the exception raised before
      anything is logged. */
  function ErrorRecord(custom: Option<string>, exc: Option<ExcInfo>, file: string): (r: Result<string, string>)
    ensures r.Failure? <==> ErrorDetails(exc, file).Failure?
    ensures r.Success? ==> r.value == ErrorText(WithCustom(ErrorDetails(exc, file).value, custom))
  {
    match ErrorDetails(exc, file)
    case Failure(err) => Failure(err)
    case Success(d) => Success(ErrorText(WithCustom(d, custom)))
  }

  /** `t` starts with `first`, a comma and `second`. */
  ghost predicate OpensWith(t: string, first: string, second: string) {
    && |t| > |first| + |second|
    && t[..|first|] == first
    && t[|first|] == ','
    && t[|first| + 1..|first| + 1 + |second|] == second
  }

  /** With an exception being handled and a comma-free custom message, the
      record starts with the error's name and the custom message follows
      it, as the tests of `error` and `critical` expect. */
  lemma ErrorRecordShows(custom: string, exc: ExcInfo, file: string)
    requires custom != "" && ',' !in custom && exc.frames != []
    ensures ErrorRecord(Some(custom), Some(exc), file).Success?
    ensures OpensWith(ErrorRecord(Some(custom), Some(exc), file).value, exc.name, custom)
  {
    var d0 := ErrorDetails(Some(exc), file);
    assert d0.Success?;
    var d := WithCustom(d0.value, Some(custom));
    assert ErrorRecord(Some(custom), Some(exc), file) == Success(ErrorText(d));
    assert d.error == exc.name && d.message == custom by {
      SanitizeKeepsCommaFree(custom);
    }
    ErrorTextStarts(d);
  }

  /** The error text opens with the error's name, a comma and the message. */
  lemma ErrorTextStarts(d: Details)
    ensures OpensWith(ErrorText(d), d.error, d.message)
  {
    var fs := ErrorFields(d);
    var tail := Join(fs[2..], ',');
    assert fs[1..][1..] == fs[2..];
    var x := d.message + [','] + tail;
    assert Join(fs[1..], ',') == x;
    var t := d.error + [','] + x;
    assert ErrorText(d) == t;
    assert t[|d.error| + 1..] == x;
  }

  // ---------------------------------------------------------------------------
  // Log lines

  /** A line as the `'%(asctime)s,%(levelname)s,%(message)s'` format writes it. */
  function Line(stamp: string, level: string, message: string): (r: string)
    ensures |r| == |stamp| + |level| + |message| + 2
    ensures OpensWith(r, stamp, level)
    ensures r[|stamp| + 1 + |level|] == ',' && r[|stamp| + |level| + 2..] == message
  {
    stamp + "," + level + "," + message
  }

  const DefaultLogFile: string := "log.csv"
  const DefaultHeader: string := "DATE,LEVEL,MESSAGE,ERROR,FILE,LINE"
  const DefaultFields: seq<string> := ["DATE", "LEVEL", "MESSAGE", "ERROR", "FILE", "LINE"]

  /** The last three column names joined. */
  lemma HeaderTail()
    ensures Join(DefaultFields[3..], ',') == "ERROR,FILE,LINE"
  {
    var fs := DefaultFields;
    assert Join(fs[5..], ',') == "LINE";
    assert Join(fs[4..], ',') == "FILE,LINE";
  }

  /** The last four column names joined. */
  lemma HeaderMiddle()
    ensures Join(DefaultFields[2..], ',') == "MESSAGE,ERROR,FILE,LINE"
  {
    HeaderTail();
  }

  /** The column names after the first, joined. */
  lemma HeaderRest()
    ensures Join(DefaultFields[1..], ',') == "LEVEL,MESSAGE,ERROR,FILE,LINE"
  {
    HeaderMiddle();
  }

  /** The default header is the column names joined by commas. */
  lemma HeaderJoin()
    ensures Join(DefaultFields, ',') == DefaultHeader
  {
    HeaderRest();
  }

  /** The default header splits into its six column names. */
  lemma DefaultHeaderFields()
    ensures Split(DefaultHeader, ',') == DefaultFields
  {
    HeaderJoin();
    SplitJoin(DefaultFields, ',');
  }

  /** An error or critical line splits into six values: the timestamp, the
      level, the error's name, the message, the file and the line, as long as
      the timestamp, the level, the error's name and the file's name hold no
      comma (the message cannot hold one). That is as many values as the
      default header has columns. */
  lemma ErrorLineColumns(stamp: string, level: string, d: Details)
    requires ',' !in stamp && ',' !in level && ',' !in d.error && ',' !in d.file && ',' !in d.message
    ensures Split(Line(stamp, level, ErrorText(d)), ',') ==
      [stamp, level, d.error, d.message, d.file, Decimal(d.line)]
    ensures |Split(Line(stamp, level, ErrorText(d)), ',')| == |DefaultFields|
  {
    var parts := [stamp, level] + ErrorFields(d);
    assert Join(parts, ',') == stamp + [','] + (level + [','] + ErrorText(d)) by {
      assert parts[1..] == [level] + ErrorFields(d);
      assert parts[2..] == ErrorFields(d);
    }
    assert Line(stamp, level, ErrorText(d)) == Join(parts, ',');
    forall i | 0 <= i < |parts| ensures ',' !in parts[i] {
      if i == 5 {
        var s := Decimal(d.line);
        assert forall k :: 0 <= k < |s| ==> s[k] != ',';
      }
    }
    SplitJoin(parts, ',');
  }

  /** The third and fourth values of an error line are the error's name and
      the message, while the default header names those columns MESSAGE and
      ERROR: the two are swapped against the header. */
  lemma ErrorColumnsSwapped(stamp: string, level: string, d: Details)
    requires ',' !in stamp && ',' !in level && ',' !in d.error && ',' !in d.file && ',' !in d.message
    ensures |Split(Line(stamp, level, ErrorText(d)), ',')| == 6
    ensures DefaultFields[2] == "MESSAGE" && Split(Line(stamp, level, ErrorText(d)), ',')[2] == d.error
    ensures DefaultFields[3] == "ERROR" && Split(Line(stamp, level, ErrorText(d)), ',')[3] == d.message
  {
    ErrorLineColumns(stamp, level, d);
  }

  /** An error record built by `error`/`critical` has a comma-free message. */
  lemma ErrorMessageIsOneField(custom: Option<string>, exc: Option<ExcInfo>, file: string)
    requires ErrorDetails(exc, file).Success?
    ensures ',' !in WithCustom(ErrorDetails(exc, file).value, custom).message
  {
  }

  // ---------------------------------------------------------------------------
  // The logger

  class Log {
    const logFile: string
    const fields: seq<string>
    /** The content of the log file. */
    var content: string

    /** `__init__`: name the file, split the header into field names, and
        write the header line when the file is missing or empty; a file
        with content is left as it is. */
    constructor (fileName: string, headerRow: string, existing: Option<string>)
      ensures logFile == "log/" + fileName
      ensures fields == Split(headerRow, ',')
      ensures existing == None || existing == Some("") ==> content == headerRow + "\n"
      ensures existing.Some? && existing.value != "" ==> content == existing.value
    {
      logFile := "log/" + fileName;
      fields := Split(headerRow, ',');
      if existing.Some? && existing.value != "" {
        content := existing.value;
      } else {
        content := headerRow + "\n";
      }
    }

    /** `Log()` with its default file name and header. */
    constructor Default(existing: Option<string>)
      ensures logFile == "log/" + DefaultLogFile
      ensures fields == DefaultFields
      ensures existing == None || existing == Some("") ==> content == DefaultHeader + "\n"
      ensures existing.Some? && existing.value != "" ==> content == existing.value
    {
      logFile := "log/" + DefaultLogFile;
      DefaultHeaderFields();
      fields := Split(DefaultHeader, ',');
      if existing.Some? && existing.value != "" {
        content := existing.value;
      } else {
        content := DefaultHeader + "\n";
      }
    }

    /** `info`: append the line for the message. */
    method Info(stamp: string, message: Option<string>)
      modifies this`content
      ensures content == old(content) + Line(stamp, "INFO", InfoMessage(message)) + "\n"
    {
      content := content + Line(stamp, "INFO", InfoMessage(message)) + "\n";
    }

    /** `error` and `critical`, `level` naming which: append the record line,
        or raise what `_get_error_details` raises and write nothing. */
    method Report(level: string, stamp: string, message: Option<string>, exc: Option<ExcInfo>, file: string)
      returns (raised: Option<string>)
      modifies this`content
      ensures ErrorRecord(message, exc, file).Failure? ==>
        raised == Some(ErrorRecord(message, exc, file).error) && content == old(content)
      ensures ErrorRecord(message, exc, file).Success? ==>
        raised == None && content == old(content) + Line(stamp, level, ErrorRecord(message, exc, file).value) + "\n"
    {
      match ErrorRecord(message, exc, file)
      case Failure(err) =>
        raised := Some(err);
      case Success(text) =>
        content := content + Line(stamp, level, text) + "\n";
        raised := None;
    }

    method Error(stamp: string, message: Option<string>, exc: Option<ExcInfo>, file: string)
      returns (raised: Option<string>)
      modifies this`content
      ensures ErrorRecord(message, exc, file).Failure? ==>
        raised == Some(ErrorRecord(message, exc, file).error) && content == old(content)
      ensures ErrorRecord(message, exc, file).Success? ==>
        raised == None && content == old(content) + Line(stamp, "ERROR", ErrorRecord(message, exc, file).value) + "\n"
    {
      raised := Report("ERROR", stamp, message, exc, file);
    }

    method Critical(stamp: string, message: Option<string>, exc: Option<ExcInfo>, file: string)
      returns (raised: Option<string>)
      modifies this`content
      ensures ErrorRecord(message, exc, file).Failure? ==>
        raised == Some(ErrorRecord(message, exc, file).error) && content == old(content)
      ensures ErrorRecord(message, exc, file).Success? ==>
        raised == None && content == old(content) + Line(stamp, "CRITICAL", ErrorRecord(message, exc, file).value) + "\n"
    {
      raised := Report("CRITICAL", stamp, message, exc, file);
    }
  }
}
