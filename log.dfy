/**
 * The event log of `trace_event/log.py`: module-wide state (the enabled flag,
 * the open log file, whether this process found that file empty, the buffer
 * of recorded events, the pid read at load time) and the four operations that
 * change it. Locks are left out: every operation is one atomic step.
 */
module Log {
  import opened Wrappers
  import opened Events

  /** Written by every successful enable, owner or not. */
  const Header: string := "{\"events\": ["
  /** Written by every disable that finds the log enabled. */
  const Footer: string := "]}"

  datatype LogError =
    | AlreadyEnabled  // `trace_enable` while enabled raises "Already enabled"
    | NoLogFile       // `trace_flush` with no log file open dereferences None

  /** An open Python file object: what has been written to it, and whether it is closed. */
  class LogFile {
    const name: string
    var contents: string
    var closed: bool

    constructor (name: string, contents: string)
      ensures this.name == name && this.contents == contents && !closed
    {
      this.name := name;
      this.contents := contents;
      closed := false;
    }
  }

  class TraceLog {
    /** `_pid`, read once when the module is loaded. */
    const pid: int
    /** `json.dumps` for one event dict. */
    const dumps: Event -> string

    var enabled: bool
    var logFile: LogFile?
    var logFileOwner: bool
    var curEvents: seq<Event>

    /** The log holds an open file exactly while it is enabled, and buffers nothing while disabled. */
    ghost predicate Valid()
      reads this, logFile
    {
      && (enabled <==> logFile != null)
      && (logFile != null ==> !logFile.closed)
      && (!enabled ==> curEvents == [])
    }

    /** The text one flush writes for `events`: `",".join(json.dumps(e) for e in events)`. */
    function Written(events: seq<Event>): string
    {
      Join(",", DumpAll(dumps, events))
    }

    /** The module state right after import. */
    constructor (pid: int, dumps: Event -> string)
      ensures Valid()
      ensures this.pid == pid && this.dumps == dumps
      ensures !enabled && logFile == null && !logFileOwner && curEvents == []
    {
      this.pid := pid;
      this.dumps := dumps;
      enabled := false;
      logFile := null;
      logFileOwner := false;
      curEvents := [];
    }

    /**
     * `trace_enable(log_file)`. With no file, opens `argv0 + ".json"` for
     * writing, which truncates it. The caller owns the file iff it was empty;
     * the header is appended either way.
     */
    method Enable(file: LogFile?, argv0: string) returns (r: Outcome<LogError>)
      requires Valid()
      requires file != null ==> !file.closed
      modifies this, file
      ensures Valid()
      ensures r.Fail? <==> old(enabled)
      ensures r.Fail? ==> r.error == AlreadyEnabled && unchanged(this) && (file != null ==> unchanged(file))
      ensures r.Pass? ==> enabled && logFile != null && curEvents == []
      ensures r.Pass? && file != null ==>
                && logFile == file
                && logFileOwner == (old(file.contents) == [])
                && file.contents == old(file.contents) + Header
      ensures r.Pass? && file == null ==>
                && fresh(logFile)
                && logFile.name == argv0 + ".json"
                && logFileOwner
                && logFile.contents == Header
    {
      if enabled {
        return Fail(AlreadyEnabled);
      }
      enabled := true;
      var f := file;
      if f == null {
        f := new LogFile(argv0 + ".json", "");
      }
      logFile := f;
      logFileOwner := |f.contents| == 0;
      f.contents := f.contents + Header;
      r := Pass;
    }

    /**
     * `_flush(close)`: appends the joined buffer with no leading separator,
     * empties the buffer and, when closing, appends the footer, closes the
     * file and forgets it.
     */
    method FlushBuffer(close: bool)
      requires logFile != null && !logFile.closed
      modifies this, logFile
      ensures enabled == old(enabled) && logFileOwner == old(logFileOwner)
      ensures curEvents == []
      ensures old(logFile).contents == old(logFile.contents) + Written(old(curEvents)) + (if close then Footer else "")
      ensures old(logFile).closed == close
      ensures logFile == if close then null else old(logFile)
    {
      var f := logFile;
      f.contents := f.contents + Written(curEvents);
      curEvents := [];
      if close {
        f.contents := f.contents + Footer;
      }
      if close {
        f.closed := true;
        logFile := null;
      }
    }

    /** `trace_flush()`: flushes without looking at the enabled flag. */
    method Flush() returns (r: Outcome<LogError>)
      requires Valid()
      modifies this, logFile
      ensures Valid()
      ensures r.Fail? <==> !old(enabled)
      ensures r.Fail? ==> r.error == NoLogFile && unchanged(this)
      ensures r.Pass? ==>
                && enabled
                && logFile == old(logFile)
                && logFileOwner == old(logFileOwner)
                && curEvents == []
                && logFile.contents == old(logFile.contents) + Written(old(curEvents))
    {
      if logFile == null {
        return Fail(NoLogFile);
      }
      FlushBuffer(false);
      r := Pass;
    }

    /** `trace_disable()`: a no-op when disabled; otherwise the final flush and the footer, owner or not. */
    method Disable()
      requires Valid()
      modifies this, logFile
      ensures Valid() && !enabled && logFile == null && curEvents == []
      ensures !old(enabled) ==> unchanged(this)
      ensures old(enabled) ==>
                && logFileOwner == old(logFileOwner)
                && old(logFile).closed
                && old(logFile).contents == old(logFile.contents) + Written(old(curEvents)) + Footer
    {
      if !enabled {
        return;
      }
      enabled := false;
      FlushBuffer(true);
    }

    /** `add_trace_event(ph, ts, category, name, args)` called on thread `tid`. */
    method AddTraceEvent(ph: string, ts: real, category: string, name: string, args: Args, tid: int)
      requires Valid()
      modifies this`curEvents
      ensures Valid()
      ensures !enabled ==> curEvents == old(curEvents)
      ensures enabled ==> curEvents == old(curEvents) + [Event(ph, category, pid, tid, ts, name, args)]
    {
      if !enabled {
        return;
      }
      curEvents := curEvents + [Event(ph, category, pid, tid, ts, name, args)];
    }
  }

  /**
   * Enable on `file`, record `records` on one thread, disable: the file gains
   * the header, the comma-joined events in recording order, and the footer.
   */
  method RecordSession(log: TraceLog, file: LogFile, tid: int, records: seq<Record>)
    requires log.Valid() && !log.enabled && !file.closed
    modifies log, file
    ensures log.Valid() && !log.enabled && file.closed
    ensures log.logFileOwner == (old(file.contents) == [])
    ensures file.contents == old(file.contents) + Header + log.Written(StampAll(records, log.pid, tid)) + Footer
  {
    var r := log.Enable(file, "");
    for i := 0 to |records|
      invariant log.Valid() && log.enabled && log.logFile == file && !file.closed
      invariant log.logFileOwner == (old(file.contents) == [])
      invariant file.contents == old(file.contents) + Header
      invariant log.curEvents == StampAll(records[..i], log.pid, tid)
    {
      var rec := records[i];
      log.AddTraceEvent(rec.ph, rec.ts, rec.category, rec.name, rec.args, tid);
      StampAllAppend(records[..i], [rec], log.pid, tid);
      assert records[..i + 1] == records[..i] + [rec];
    }
    assert records[..|records|] == records;
    log.Disable();
  }

  /**
   * Two flushes of non-empty buffers write their blocks back to back with no
   * comma between them, one character short of what a single flush of all
   * the events writes.
   */
  lemma FlushesDropSeparator(dumps: Event -> string, first: seq<Event>, second: seq<Event>)
    requires first != [] && second != []
    ensures Join(",", DumpAll(dumps, first + second))
            == Join(",", DumpAll(dumps, first)) + "," + Join(",", DumpAll(dumps, second))
    ensures Join(",", DumpAll(dumps, first)) + Join(",", DumpAll(dumps, second))
            != Join(",", DumpAll(dumps, first + second))
  {
    DumpAllAppend(dumps, first, second);
    JoinSplit(",", DumpAll(dumps, first), DumpAll(dumps, second));
  }
}
