/**
 * FileOutListener: appends one line per reading to a log file. It opens the
 * file when constructed; while the file is not open, every reading retries the
 * open, and a failure while writing drops the file and falls back to
 * "not initialized", so that the next reading opens it again.
 */
module FileOut {
  import opened Wrappers
  import opened Text
  import opened Readings

  /** The listener's `status` string: 'not initialized', 'ready' or 'error'. */
  datatype Status = NotInitialized | Ready | Error

  /** The file object `open(filename, 'a')` returns. */
  datatype FileHandle = FileHandle(path: Param)

  const DefaultFilename: Param := Str("/tmp/pylarexx.out")

  /** The columns of a log line, in the order `'%d,%d,%f %s,%d,%s,%s,%s\n'` writes them: name before type. */
  function FileColumns(d: Reading): (cols: seq<string>)
    ensures |cols| == 7
    ensures PlainReading(d) ==> forall i :: 0 <= i < |cols| ==> PlainText(cols[i])
  {
    [DecimalText(d.sensorId), DecimalText(d.rawValue), d.cookedText + " " + d.unit,
     DecimalText(d.timestamp), SignalText(d.signal), d.sensorName, d.sensorType]
  }

  /** One line of the log file: the columns separated by commas, then a newline. */
  function FileLine(d: Reading): string {
    Join(FileColumns(d), ',') + "\n"
  }

  /** A log line starts with the sensor id and a comma, and ends with its newline. */
  lemma FileLineFrame(d: Reading)
    ensures var line := FileLine(d);
      && |line| > |DecimalText(d.sensorId)| && line[|line| - 1] == '\n'
      && line[..|DecimalText(d.sensorId)| + 1] == DecimalText(d.sensorId) + ","
  {
    var cols := FileColumns(d);
    assert Join(cols, ',') == cols[0] + [','] + Join(cols[1..], ',');
  }

  /**
   * With plain columns, a log line holds one newline, at its end, and the text
   * before it splits at the commas back into the reading's seven columns.
   */
  lemma FileLineColumns(d: Reading)
    requires PlainReading(d)
    ensures Split(Join(FileColumns(d), ','), ',') == FileColumns(d)
    ensures Count('\n', FileLine(d)) == 1
  {
    var cols := FileColumns(d);
    SplitJoin(cols, ',');
    JoinAbsent(cols, ',', '\n');
    CountAbsent('\n', Join(cols, ','));
    CountConcat('\n', Join(cols, ','), "\n");
  }

  class FileOutListener {
    const params: Params
    const filename: Param
    var status: Status
    /** `self.fd`; None also stands for the attribute not being set yet. */
    var fd: Option<FileHandle>
    /** How many files have been opened and closed so far. */
    ghost var openCount: nat
    ghost var closeCount: nat
    /** The lines this listener has written to the file, in order. */
    ghost var appended: seq<string>

    /** A file is open exactly when the status is 'ready', and every other file opened has been closed. */
    ghost predicate Valid()
      reads this
    {
      && (status == Ready <==> fd.Some?)
      && openCount == closeCount + (if fd.Some? then 1 else 0)
      && (fd.Some? ==> fd.value == FileHandle(filename))
    }

    /** `__init__`: the file name from `params`, 'not initialized', then one open. */
    constructor (params: Params, openOk: bool)
      ensures Valid()
      ensures this.params == params
      ensures filename == Get(params, "filename", DefaultFilename)
      ensures status == (if openOk then Ready else Error)
      ensures fd == (if openOk then Some(FileHandle(filename)) else None)
      ensures openCount == (if openOk then 1 else 0) && closeCount == 0
      ensures appended == []
    {
      this.params := params;
      filename := Get(params, "filename", DefaultFilename);
      status := NotInitialized;
      fd := None;
      openCount, closeCount := 0, 0;
      appended := [];
      new;
      OpenLogfile(openOk);
    }

    /**
     * `openLogfile`: `openOk` says whether `open(filename, 'a')` succeeds;
     * success gives a new file and 'ready', failure 'error' and no file.
     */
    method OpenLogfile(openOk: bool)
      requires Valid() && status != Ready
      modifies this
      ensures Valid()
      ensures status == (if openOk then Ready else Error)
      ensures fd == (if openOk then Some(FileHandle(filename)) else None)
      ensures openCount == old(openCount) + (if openOk then 1 else 0) && closeCount == old(closeCount)
      ensures appended == old(appended)
    {
      if openOk {
        fd := Some(FileHandle(filename));
        openCount := openCount + 1;
        status := Ready;
      } else {
        status := Error;
      }
    }

    /** `cleanup`: close and drop the file, back to 'not initialized'; nothing to do without a file. */
    method Cleanup()
      requires Valid()
      modifies this
      ensures Valid()
      ensures old(fd).Some? ==> fd.None? && status == NotInitialized && closeCount == old(closeCount) + 1
      ensures old(fd).None? ==> fd == old(fd) && status == old(status) && closeCount == old(closeCount)
      ensures openCount == old(openCount) && appended == old(appended)
    {
      if fd.Some? {
        closeCount := closeCount + 1;
        fd := None;
        status := NotInitialized;
      }
    }

    /**
     * `onNewData`: reopen unless 'ready', then, if 'ready', write the reading's
     * line. `writeOk` says whether formatting and writing succeed; when they
     * fail, `cleanup` runs and the `logging.ERROR(...)` call after it raises
     * out of the handler, which `raised` reports.
     */
    method OnNewData(d: Reading, openOk: bool, writeOk: bool) returns (raised: bool)
      requires Valid()
      modifies this
      ensures Valid()
      ensures var writable := old(status) == Ready || openOk;
        && openCount == old(openCount) + (if old(status) != Ready && openOk then 1 else 0)
        && appended == (if writable && writeOk then old(appended) + [FileLine(d)] else old(appended))
        && status == (if !writable then Error else if writeOk then Ready else NotInitialized)
        && closeCount == old(closeCount) + (if writable && !writeOk then 1 else 0)
        && raised == (writable && !writeOk)
      ensures old(status) == Ready && writeOk ==> fd == old(fd)
    {
      if status != Ready {
        OpenLogfile(openOk);
      }
      raised := false;
      if status == Ready {
        if writeOk {
          appended := appended + [FileLine(d)];
        } else {
          Cleanup();
          raised := true;
        }
      }
    }
  }

  /** A write failure, then a reading that reopens the file and is written. */
  method RecoveryScenario(d1: Reading, d2: Reading)
  {
    var listener := new FileOutListener(map["filename" := Str("/var/log/sensors.csv")], true);
    assert listener.status == Ready;
    var raised := listener.OnNewData(d1, true, false);
    assert raised && listener.status == NotInitialized && listener.fd.None?;
    raised := listener.OnNewData(d2, true, true);
    assert !raised && listener.status == Ready;
    assert listener.fd == Some(FileHandle(Str("/var/log/sensors.csv")));
    assert listener.appended == [FileLine(d2)];
  }
}
