/** The plugin object of Source/TimeZone.cs:18-201: its settings, its start-up
    and one cycle of its worker thread. The Centrafuse configuration store is
    a map from field path to text; the navigation collaborator's answer for a
    cycle is a `NavReading`. */
module Plugin {
  import opened Wrappers
  import opened Clr
  import NetParse
  import UpdateTimeZone

  const LogEventsField := "/APPCONFIG/LOGEVENTS"
  const RefreshIntervalField := "/APPCONFIG/REFRESHINTERVAL"

  /** The recheck interval in seconds before any setting is read (line 24),
      and the one LoadSettings falls back to (line 130). */
  const DefaultRefresh: i32 := 300

  /** pluginConfig.ReadField: the text at `path`, `None` (null) when the
      field is missing. */
  function ReadField(config: map<string, string>, path: string): Option<string>
  {
    if path in config then Some(config[path]) else None
  }

  /** What LoadSettings leaves behind: the LogEvents flag, the interval and
      the configuration store. */
  datatype Settings = Settings(logEvents: bool, refreshInterval: i32, config: map<string, string>)

  /** How LoadSettings ends. `FlagRejected`: Boolean.Parse threw at line 121
      (FormatException or ArgumentNullException) before anything was set.
      `WriteFailed`: the interval did not parse, LogEvents and the interval
      (300) were set, and the WriteField of line 131 threw out of the catch
      block, leaving the store as it was. `Loaded`: the method returned. */
  datatype Load = FlagRejected | WriteFailed(logEvents: bool) | Loaded(settings: Settings)

  /** LoadSettings (Source/TimeZone.cs:117-134) as a function of the
      configuration store and of whether the store's write fails. An interval
      that Int32.Parse rejects is replaced by 300, and "300" is written
      back. */
  function LoadedSettings(config: map<string, string>, writeFails: bool): (r: Load)
    ensures r.FlagRejected? <==> NetParse.ParseBoolean(ReadField(config, LogEventsField)).None?
    ensures r.WriteFailed? <==>
      NetParse.ParseBoolean(ReadField(config, LogEventsField)).Some?
      && NetParse.ParseInt32(ReadField(config, RefreshIntervalField)).None? && writeFails
    ensures !r.FlagRejected? ==>
      NetParse.ParseBoolean(ReadField(config, LogEventsField))
        == Some(if r.WriteFailed? then r.logEvents else r.settings.logEvents)
  {
    match NetParse.ParseBoolean(ReadField(config, LogEventsField))
    case None => FlagRejected
    case Some(flag) =>
      match NetParse.ParseInt32(ReadField(config, RefreshIntervalField))
      case Some(n) => Loaded(Settings(flag, n, config))
      case None =>
        if writeFails then WriteFailed(flag)
        else Loaded(Settings(flag, DefaultRefresh,
                             config[RefreshIntervalField := NetParse.FormatInt32(DefaultRefresh)]))
  }

  /** Both halves of the interval rule of lines 124-132: a parsed interval is
      kept and nothing is written; an interval that does not parse becomes
      300, and the store then holds "300" there unless the write fails. */
  lemma IntervalFallback(config: map<string, string>, writeFails: bool)
    requires NetParse.ParseBoolean(ReadField(config, LogEventsField)).Some?
    ensures var flag := NetParse.ParseBoolean(ReadField(config, LogEventsField)).value;
      match NetParse.ParseInt32(ReadField(config, RefreshIntervalField))
      case Some(n) => LoadedSettings(config, writeFails) == Loaded(Settings(flag, n, config))
      case None =>
        if writeFails then LoadedSettings(config, writeFails) == WriteFailed(flag)
        else
          var st := LoadedSettings(config, writeFails).settings;
          LoadedSettings(config, writeFails).Loaded? && st.logEvents == flag && st.refreshInterval == 300
          && ReadField(st.config, RefreshIntervalField) == Some("300")
  {
    NetParse.FormatThreeHundred();
  }

  /** Loading changes no field but the interval, and that one only when it
      does not parse; what it writes there is "300". */
  lemma OnlyIntervalWritten(config: map<string, string>, writeFails: bool)
    requires LoadedSettings(config, writeFails).Loaded?
    ensures var st := LoadedSettings(config, writeFails).settings;
      forall path | path != RefreshIntervalField :: ReadField(st.config, path) == ReadField(config, path)
    ensures var st := LoadedSettings(config, writeFails).settings;
      st.config != config ==>
        NetParse.ParseInt32(ReadField(config, RefreshIntervalField)).None?
        && st.config == config[RefreshIntervalField := "300"] && st.refreshInterval == 300
  {
    NetParse.FormatThreeHundred();
  }

  /** Loading again after a load reads the same settings and writes nothing,
      whether or not a write would fail: the "300" written back parses to
      300. */
  lemma LoadAgainIsStable(config: map<string, string>, writeFails: bool, writeFailsAgain: bool)
    requires LoadedSettings(config, writeFails).Loaded?
    ensures var st := LoadedSettings(config, writeFails).settings;
      LoadedSettings(st.config, writeFailsAgain) == Loaded(st)
  {
    var st := LoadedSettings(config, writeFails).settings;
    assert ReadField(st.config, LogEventsField) == ReadField(config, LogEventsField);
    if NetParse.ParseInt32(ReadField(config, RefreshIntervalField)).None? {
      NetParse.ParseFormat(DefaultRefresh);
      assert ReadField(st.config, RefreshIntervalField) == Some(NetParse.FormatInt32(DefaultRefresh));
    }
  }

  /** What the navigation collaborator answered in one cycle: CF_navGetInfo
      threw, or it gave a position, of which only whether both coordinates
      read as exactly 0.0 matters (double.TryParse leaves 0.0 on a parse
      failure, lines 161-166). */
  datatype NavReading = NavFailed | Position(atOrigin: bool)

  class TimeZonePlugin {
    var logEvents: bool                   // LogEvents
    var refreshInterval: i32              // intRefresh
    var config: map<string, string>       // pluginConfig
    var workerStarted: bool               // threadTimeZone was started

    /** The field initialisers of lines 24 and 29. */
    constructor (config: map<string, string>)
      ensures logEvents && refreshInterval == DefaultRefresh && this.config == config && !workerStarted
    {
      logEvents := true;
      refreshInterval := DefaultRefresh;
      this.config := config;
      workerStarted := false;
    }

    /** LoadSettings (Source/TimeZone.cs:117-134); `ok` is false when it
        throws. `writeFails` is whether the configuration store's WriteField
        throws, should the method come to call it. */
    method LoadSettings(writeFails: bool) returns (ok: bool)
      modifies this
      ensures ok == LoadedSettings(old(config), writeFails).Loaded?
      ensures match LoadedSettings(old(config), writeFails)
        case Loaded(st) => Settings(logEvents, refreshInterval, config) == st
        case WriteFailed(flag) => logEvents == flag && refreshInterval == DefaultRefresh && config == old(config)
        case FlagRejected => logEvents == old(logEvents) && refreshInterval == old(refreshInterval) && config == old(config)
      ensures workerStarted == old(workerStarted)
    {
      var flag := NetParse.ParseBoolean(ReadField(config, LogEventsField));
      if flag.None? {
        return false;                     // Boolean.Parse threw
      }
      logEvents := flag.value;
      var interval := NetParse.ParseInt32(ReadField(config, RefreshIntervalField));
      if interval.Some? {
        refreshInterval := interval.value;
      } else {
        refreshInterval := DefaultRefresh;
        if writeFails {
          return false;                   // WriteField threw out of the catch block
        }
        config := config[RefreshIntervalField := NetParse.FormatInt32(refreshInterval)];
      }
      return true;
    }

    /** CF_pluginInit (Source/TimeZone.cs:50-74): the worker thread is
        started only when LoadSettings returns; its exception is caught at
        line 73, and whatever LoadSettings had set before it threw stays
        set. */
    method PluginInit(writeFails: bool)
      modifies this
      ensures workerStarted == (old(workerStarted) || LoadedSettings(old(config), writeFails).Loaded?)
      ensures match LoadedSettings(old(config), writeFails)
        case Loaded(st) => Settings(logEvents, refreshInterval, config) == st
        case WriteFailed(flag) => logEvents == flag && refreshInterval == DefaultRefresh && config == old(config)
        case FlagRejected => logEvents == old(logEvents) && refreshInterval == old(refreshInterval) && config == old(config)
    {
      var ok := LoadSettings(writeFails);
      if ok {
        workerStarted := true;
      }
    }

    /** One pass of the do-while loop of SubTimeZone (lines 150-184): the
        time zone is updated only from a position that is not exactly
        (0.0, 0.0), and a failing navigation read is caught at line 178.
        `env` is what the outside world answers to GPSUpdateTimeZone for
        this position. */
    method SubTimeZoneCycle(host: UpdateTimeZone.WindowsHost, nav: NavReading, env: UpdateTimeZone.Environment)
      returns (updated: bool)
      modifies host
      ensures updated <==> nav.Position? && !nav.atOrigin
      ensures updated ==>
        var o := UpdateTimeZone.GpsUpdate(old(host.standardName), old(host.privilegeEnabled), env);
        host.trace == old(host.trace) + o.calls
        && host.standardName == o.standardName && host.privilegeEnabled == o.privilegeEnabled
      ensures !updated ==> unchanged(host)
    {
      match nav
      case NavFailed =>
        return false;
      case Position(atOrigin) =>
        if atOrigin {
          return false;
        }
        var _ := host.GPSUpdateTimeZone(env);
        return true;
    }
  }
}
