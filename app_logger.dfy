/** `AppLogger`: an append-only text log kept under 1 MiB. A write that
    takes the file over the limit rotates it: only the newest 512 KiB are
    kept, behind a marker, and a notice of the rotation is logged. The
    file is a string and sizes count characters; the clock is a
    parameter giving the formatted timestamp of each write. */
module AppLogging {
  import opened Wrappers
  import opened Seqs

  const MaxFileSize: nat := 1048576
  const TruncateTo: nat := 524288

  /** The marker names the limit in KiB (1048576 / 1024). */
  const RotationMarker: string := "--- LOG ROTATED (exceeded 1024KB) ---\n"
  const RotationNotice: string := "Log file rotated \U{2014} oldest entries removed"
  const InitNotice: string := "App logger initialized"
  const ClearNotice: string := "Log cleared by user"

  /** A timestamp as formatted by "yyyy-MM-dd HH:mm:ss.SSS": 23 characters. */
  predicate IsTimestamp(ts: string) { |ts| == 23 }

  datatype Level = Info | Warn | Error | Debug | Success {
    function Name(): string {
      match this
      case Info => "INFO"
      case Warn => "WARN"
      case Error => "ERROR"
      case Debug => "DEBUG"
      case Success => "SUCCESS"
    }
  }

  /** One log entry: "[timestamp] LEVEL/tag: message" and a newline. */
  function LogLine(ts: string, level: Level, tag: string, message: string): (r: string)
    ensures |r| == |ts| + |level.Name()| + |tag| + |message| + 7
    ensures r[0] == '[' && r[|r| - 1] == '\n'
  {
    "[" + ts + "] " + level.Name() + "/" + tag + ": " + message + "\n"
  }

  /** The notice logged after a rotation. */
  function NoticeLine(ts: string): string {
    LogLine(ts, Info, "Logger", RotationNotice)
  }

  /** The file after `rotate`: the marker and the newest part of the
      content, then the rotation notice. */
  function Rotated(content: string, ts: string): string {
    RotationMarker + TakeLast(content, TruncateTo) + NoticeLine(ts)
  }

  /** The file after writing `line`: appended, then rotated if it grew
      strictly beyond the limit. */
  function AfterWrite(file: string, line: string, ts: string): string {
    if |file + line| > MaxFileSize then Rotated(file + line, ts) else file + line
  }

  /** A rotated file is well within the limit, so the notice written by
      the rotation never rotates again. */
  lemma RotatedSize(content: string, ts: string)
    requires IsTimestamp(ts)
    ensures |Rotated(content, ts)| <= TruncateTo + 119
    ensures |Rotated(content, ts)| <= MaxFileSize
  {
  }

  /** Whatever the file held and however long the line, the file is
      within the limit after a write. */
  lemma WriteBounded(file: string, line: string, ts: string)
    requires IsTimestamp(ts)
    ensures |AfterWrite(file, line, ts)| <= MaxFileSize
  {
    if |file + line| > MaxFileSize {
      RotatedSize(file + line, ts);
    }
  }

  /** Below the limit a write appends and leaves earlier content alone. */
  lemma WriteAppends(file: string, line: string, ts: string)
    requires |file| + |line| <= MaxFileSize
    ensures AfterWrite(file, line, ts) == file + line
    ensures file <= AfterWrite(file, line, ts)
  {
  }

  /** A rotation keeps exactly the newest TruncateTo characters, the new
      line last among them when it fits, and the notice follows. */
  lemma RotationKeepsNewest(file: string, line: string, ts: string)
    requires |file| + |line| > MaxFileSize
    ensures var kept := (file + line)[|file + line| - TruncateTo..];
      AfterWrite(file, line, ts) == RotationMarker + kept + NoticeLine(ts)
      && (|line| <= TruncateTo ==> kept[TruncateTo - |line|..] == line)
  {
    var all := file + line;
    assert |all| > TruncateTo;
    assert TakeLast(all, TruncateTo) == all[|all| - TruncateTo..];
    if |line| <= TruncateTo {
      var kept := all[|all| - TruncateTo..];
      assert kept[TruncateTo - |line|..] == all[|file|..];
      assert all[|file|..] == line;
    }
  }

  class AppLogger {
    /** The log file's text. */
    var file: string
    /** The observable copy of the file shown live in the UI. */
    var logContent: string

    ghost predicate Valid()
      reads this
    {
      logContent == file && |file| <= MaxFileSize
    }

    /** `init`: an absent file is created empty, the content published,
        and the start-up entry written. */
    constructor (existing: Option<string>, ts: string)
      requires IsTimestamp(ts)
      ensures Valid()
      ensures file == AfterWrite(existing.GetOr(""), LogLine(ts, Info, "Logger", InitNotice), ts)
    {
      file := existing.GetOr("");
      logContent := file;
      new;
      Write(Info, "Logger", InitNotice, ts);
    }

    /** `write`: append one entry, rotate when the file exceeds the limit,
        and publish the content. */
    method Write(level: Level, tag: string, message: string, ts: string)
      requires IsTimestamp(ts)
      modifies this
      ensures Valid()
      ensures file == AfterWrite(old(file), LogLine(ts, level, tag, message), ts)
      decreases if |file| + |LogLine(ts, level, tag, message)| > MaxFileSize then 1 else 0, 2
    {
      var line := LogLine(ts, level, tag, message);
      file := file + line;
      if |file| > MaxFileSize {
        Rotate(ts);
      }
      logContent := file;
      WriteBounded(old(file), line, ts);
    }

    /** `rotate`: keep the newest TruncateTo characters behind the marker,
        then log the rotation through `Write`. */
    method Rotate(ts: string)
      requires IsTimestamp(ts)
      modifies this
      ensures file == Rotated(old(file), ts)
      ensures Valid()
      decreases 1, 1
    {
      file := RotationMarker + TakeLast(file, TruncateTo);
      assert |file| <= TruncateTo + |RotationMarker|;
      Write(Info, "Logger", RotationNotice, ts);
      RotatedSize(old(file), ts);
    }

    method I(tag: string, message: string, ts: string)
      requires IsTimestamp(ts)
      modifies this
      ensures Valid()
      ensures file == AfterWrite(old(file), LogLine(ts, Info, tag, message), ts)
    {
      Write(Info, tag, message, ts);
    }

    method W(tag: string, message: string, ts: string)
      requires IsTimestamp(ts)
      modifies this
      ensures Valid()
      ensures file == AfterWrite(old(file), LogLine(ts, Warn, tag, message), ts)
    {
      Write(Warn, tag, message, ts);
    }

    method E(tag: string, message: string, ts: string)
      requires IsTimestamp(ts)
      modifies this
      ensures Valid()
      ensures file == AfterWrite(old(file), LogLine(ts, Error, tag, message), ts)
    {
      Write(Error, tag, message, ts);
    }

    method D(tag: string, message: string, ts: string)
      requires IsTimestamp(ts)
      modifies this
      ensures Valid()
      ensures file == AfterWrite(old(file), LogLine(ts, Debug, tag, message), ts)
    {
      Write(Debug, tag, message, ts);
    }

    method S(tag: string, message: string, ts: string)
      requires IsTimestamp(ts)
      modifies this
      ensures Valid()
      ensures file == AfterWrite(old(file), LogLine(ts, Success, tag, message), ts)
    {
      Write(Success, tag, message, ts);
    }

    /** `clearLog`: empty the file, publish it, and log the clearing: the
        log then holds that one entry. */
    method ClearLog(ts: string)
      requires IsTimestamp(ts)
      modifies this
      ensures Valid()
      ensures file == LogLine(ts, Info, "Logger", ClearNotice)
    {
      file := "";
      logContent := file;
      Write(Info, "Logger", ClearNotice, ts);
    }

    /** `getLogSizeKb`: the size in whole KiB, rounded down. */
    method LogSizeKb() returns (r: nat)
      ensures r * 1024 <= |file| < (r + 1) * 1024
    {
      r := |file| / 1024;
    }
  }
}
