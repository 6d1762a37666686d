/** GPSUpdateTimeZone (Source/TimeZone.cs:266-337): compare the active time
    zone with the one the GPS position resolves to and, on a mismatch, enable
    the time-zone privilege, hand Windows a new DynamicTimeZoneInformation,
    notify, and disable the privilege again.

    Windows, the GeoTimeZone library and the registry are not code here: what
    they answer during one call is an `Environment`, and what the plugin does
    to the system is a trace of `Call`s on a `WindowsHost`. */
module UpdateTimeZone {
  import opened Wrappers
  import opened Clr
  import opened RegTzi
  import ZoneTable

  /** DYNAMIC_TIME_ZONE_INFORMATION (Source/TimeZone.cs:209-228). */
  datatype DynamicTimeZoneInformation = DynamicTimeZoneInformation(
    bias: i32,
    standardName: string,
    standardDate: SystemTime,
    standardBias: i32,
    daylightName: string,
    daylightDate: SystemTime,
    daylightBias: i32,
    timeZoneKeyName: string,
    dynamicDaylightTimeDisabled: bool)

  /** The two names the record takes from TimeZoneInfo.FindSystemTimeZoneById. */
  datatype ZoneNames = ZoneNames(standardName: string, daylightName: string)

  /** The calls that act on the system, in the order they are made. */
  datatype Call =
    | EnablePrivilege                                   // TokenPrivilegesAccess.EnablePrivilege
    | SetTimeZone(info: DynamicTimeZoneInformation)     // SetDynamicTimeZoneInformation
    | Notify(message: string)                           // TimeZone.NotifyChange
    | DisablePrivilege                                  // TokenPrivilegesAccess.DisablePrivilege

  /** What the outside world answers during one GPSUpdateTimeZone call. */
  datatype Environment = Environment(
    ianaId: Option<string>,                       // TimeZoneLookup.GetTimeZone; None: it threw
    enableOk: bool,                               // EnablePrivilege's result
    zones: map<string, ZoneNames>,                // FindSystemTimeZoneById; a missing id throws
    timeZones: map<string, Option<seq<byte>>>,    // the registry's "Time Zones" TZI values
    setResult: int,                               // SetDynamicTimeZoneInformation's result
    notifyThrows: bool,                           // the notification after a change throws
    disableOk: bool)                              // DisablePrivilege's result

  /** The record built field by field at Source/TimeZone.cs:294-303. Both
      dates are taken from the registry's standard date (line 300 assigns
      RTZI.standardDate to daylightDate). */
  function BuildRecord(key: string, names: ZoneNames, rtzi: RegTziFormat): (r: DynamicTimeZoneInformation)
    // Every registry field but the daylight date reaches the record, and so do the names and the key.
    ensures RegTziFormat(r.bias, r.standardBias, r.daylightBias, r.standardDate, rtzi.daylightDate) == rtzi
    ensures ZoneNames(r.standardName, r.daylightName) == names && r.timeZoneKeyName == key
    // The daylight date is the standard date, and dynamic daylight time stays enabled.
    ensures r.daylightDate == r.standardDate && !r.dynamicDaylightTimeDisabled
  {
    DynamicTimeZoneInformation(
      bias := rtzi.bias,
      standardName := names.standardName,
      standardDate := rtzi.standardDate,
      standardBias := rtzi.standardBias,
      daylightName := names.daylightName,
      daylightDate := rtzi.standardDate,
      daylightBias := rtzi.daylightBias,
      timeZoneKeyName := key,
      dynamicDaylightTimeDisabled := false)
  }

  /** The record handed to Windows for `key` (lines 290-303). */
  function RecordFor(env: Environment, key: string): (r: DynamicTimeZoneInformation)
    requires key in env.zones
    ensures ZoneNames(r.standardName, r.daylightName) == env.zones[key] && r.timeZoneKeyName == key
    ensures var rtzi := GetRegTziFormat(env.timeZones, key);
      RegTziFormat(r.bias, r.standardBias, r.daylightBias, r.standardDate, rtzi.daylightDate) == rtzi
      && r.daylightDate == r.standardDate
  {
    BuildRecord(key, env.zones[key], GetRegTziFormat(env.timeZones, key))
  }

  /** The record for a key whose registry TZI value is a well-formed 44-byte
      value: the biases are bytes 0-11 of it, both dates are its standard
      date (bytes 12-27), and the rest comes from the zone and the key. */
  lemma RecordFromRegistry(env: Environment, key: string, b: seq<byte>)
    requires key in env.zones && StoredTzi(env.timeZones, key) == Some(b) && |b| == TziSize
    ensures var r := RecordFor(env, key);
      I32Bytes(r.bias) == b[0..4] && I32Bytes(r.standardBias) == b[4..8]
      && I32Bytes(r.daylightBias) == b[8..12]
      && SystemTimeBytes(r.standardDate) == b[12..28] && r.daylightDate == r.standardDate
    ensures var r := RecordFor(env, key);
      r.timeZoneKeyName == key && r.standardName == env.zones[key].standardName
      && r.daylightName == env.zones[key].daylightName && !r.dynamicDaylightTimeDisabled
  {
    var rtzi := GetRegTziFormat(env.timeZones, key);
    assert EncodeTzi(rtzi) == b;
    assert b[0..4] == I32Bytes(rtzi.bias);
    assert b[4..8] == I32Bytes(rtzi.standardBias);
    assert b[8..12] == I32Bytes(rtzi.daylightBias);
    assert b[12..28] == SystemTimeBytes(rtzi.standardDate);
  }

  /** The registry's daylight date (bytes 28-43) never reaches the record: two
      TZI values that agree on bytes 0-27 give the same record. */
  lemma DaylightDateIgnored(key: string, names: ZoneNames, b1: seq<byte>, b2: seq<byte>)
    requires |b1| == TziSize && |b2| == TziSize && b1[..28] == b2[..28]
    ensures BuildRecord(key, names, DecodeTzi(Some(b1))) == BuildRecord(key, names, DecodeTzi(Some(b2)))
  {
    forall k | 0 <= k < 28 ensures b1[k] == b2[k] {
      assert b1[..28][k] == b2[..28][k];
    }
  }

  /** Without a well-formed TZI value the record has zero biases and dates. */
  lemma RecordWithoutTzi(env: Environment, key: string)
    requires key in env.zones
    requires StoredTzi(env.timeZones, key).None? || |StoredTzi(env.timeZones, key).value| != TziSize
    ensures var r := RecordFor(env, key);
      r.bias == 0 && r.standardBias == 0 && r.daylightBias == 0
      && r.standardDate == ZeroTime && r.daylightDate == ZeroTime
  {
  }

  /** Whether FindSystemTimeZoneById (line 290) returns for `target` rather
      than throws; a null id always throws. */
  predicate Found(target: Option<string>, env: Environment)
  {
    target.Some? && target.value in env.zones
  }

  /** The end state of one call: its return value, the calls it made, the
      active zone's standard name and whether the privilege is enabled. */
  datatype Outcome = Outcome(result: bool, calls: seq<Call>, standardName: string, privilegeEnabled: bool)

  predicate IsSet(c: Call) { c.SetTimeZone? }
  predicate IsNotify(c: Call) { c.Notify? }

  /** GPSUpdateTimeZone from line 279 on, once the GPS position has been
      translated to `target` (`None` is the null of a failed translation):
      the end state from the standard name of the active zone and the
      privilege state before it. Every exception of the try block
      (FindSystemTimeZoneById, the notification) is caught at line 332 and the
      call returns true; the disable call at line 324 is then skipped. */
  function Apply(current: string, privileged: bool, target: Option<string>, env: Environment): (o: Outcome)
    // Nothing is called when the zone is already active, and only then.
    ensures o.calls == [] <==> target == Some(current)
    ensures o.calls == [] ==> o == Outcome(true, [], current, privileged)
  {
    if target == Some(current) then Outcome(true, [], current, privileged)
    else if !env.enableOk then Outcome(false, [EnablePrivilege], current, privileged)
    else if !Found(target, env) then Outcome(true, [EnablePrivilege], current, true)
    else
      var tzi := RecordFor(env, target.value);
      var applied := [EnablePrivilege, SetTimeZone(tzi)];
      if env.setResult == 0 then
        Outcome(env.disableOk, applied + [DisablePrivilege], current, !env.disableOk)
      else if env.notifyThrows then
        Outcome(true, applied, tzi.standardName, true)
      else
        Outcome(env.disableOk, applied + [Notify(tzi.standardName), DisablePrivilege],
                tzi.standardName, !env.disableOk)
  }

  // ---- What one call does, path by path (all about Apply)

  /** Otherwise the privilege is asked for first, and only once. */
  lemma EnableFirst(current: string, privileged: bool, target: Option<string>, env: Environment)
    requires target != Some(current)
    ensures var o := Apply(current, privileged, target, env);
      o.calls[0] == EnablePrivilege && multiset(o.calls)[EnablePrivilege] == 1
  {
  }

  /** A refused privilege ends the call with false and nothing else. */
  lemma RefusedPrivilege(current: string, privileged: bool, target: Option<string>, env: Environment)
    requires target != Some(current) && !env.enableOk
    ensures Apply(current, privileged, target, env) == Outcome(false, [EnablePrivilege], current, privileged)
  {
  }

  /** false comes only from a refused enable or a failed disable: a failed
      Set still returns true. */
  lemma FalseOnlyFromPrivilege(current: string, privileged: bool, target: Option<string>, env: Environment)
    ensures var o := Apply(current, privileged, target, env);
      !o.result <==> o.calls != [] && (!env.enableOk || (DisablePrivilege in o.calls && !env.disableOk))
  {
  }

  /** The disable is made exactly when the zone was found and nothing threw
      after the enable; it is then the last call, made once, after the Set. */
  lemma DisableUnlessException(current: string, privileged: bool, target: Option<string>, env: Environment)
    ensures var o := Apply(current, privileged, target, env);
      DisablePrivilege in o.calls <==>
        o.calls != [] && env.enableOk && Found(target, env) && !(env.setResult != 0 && env.notifyThrows)
    ensures var o := Apply(current, privileged, target, env);
      DisablePrivilege in o.calls ==>
        multiset(o.calls)[DisablePrivilege] == 1 && o.calls[|o.calls| - 1] == DisablePrivilege
        && |o.calls| >= 3 && IsSet(o.calls[1]) && o.privilegeEnabled == !env.disableOk
  {
  }

  /** Enables and disables balance exactly on the paths without an exception
      after the enable; an exception there leaves the privilege enabled and
      the call returns true. */
  lemma PrivilegeBalance(current: string, privileged: bool, target: Option<string>, env: Environment)
    requires target != Some(current) && env.enableOk
    ensures var o := Apply(current, privileged, target, env);
      (multiset(o.calls)[DisablePrivilege] == multiset(o.calls)[EnablePrivilege]
       <==> Found(target, env) && !(env.setResult != 0 && env.notifyThrows))
    ensures var o := Apply(current, privileged, target, env);
      DisablePrivilege !in o.calls ==> o.result && o.privilegeEnabled
  {
  }

  /** A Set is made exactly when the zone was found, as the second call, and
      carries the record built for the target key. */
  lemma SetOnlyWhenFound(current: string, privileged: bool, target: Option<string>, env: Environment)
    ensures var o := Apply(current, privileged, target, env);
      (|o.calls| >= 2 && IsSet(o.calls[1])) <==> o.calls != [] && env.enableOk && Found(target, env)
    ensures var o := Apply(current, privileged, target, env);
      forall i | 0 <= i < |o.calls| && IsSet(o.calls[i]) ::
        i == 1 && Found(target, env) && o.calls[i].info == RecordFor(env, target.value)
  {
  }

  /** A notification only follows a Set that returned nonzero, names the zone
      that is then active, and is sent whenever such a Set is not followed by
      an exception. */
  lemma NotifyOnlyAfterChange(current: string, privileged: bool, target: Option<string>, env: Environment)
    ensures var o := Apply(current, privileged, target, env);
      forall i | 0 <= i < |o.calls| && IsNotify(o.calls[i]) ::
        i == 2 && env.setResult != 0 && o.calls[i].message == o.standardName
    ensures var o := Apply(current, privileged, target, env);
      |o.calls| >= 2 && IsSet(o.calls[1]) && env.setResult != 0 && !env.notifyThrows ==>
        |o.calls| == 4 && IsNotify(o.calls[2])
  {
  }

  /** The active zone changes only through a Set that returned nonzero, and
      then to the standard name of the found zone. */
  lemma ChangeOnlyThroughSet(current: string, privileged: bool, target: Option<string>, env: Environment)
    ensures var o := Apply(current, privileged, target, env);
      o.standardName != current ==>
        |o.calls| >= 2 && IsSet(o.calls[1]) && env.setResult != 0
        && o.standardName == env.zones[target.value].standardName
  {
  }

  /** One whole GPSUpdateTimeZone call: a GeoTimeZone lookup that throws is
      caught at line 332 before anything is called. */
  function GpsUpdate(current: string, privileged: bool, env: Environment): (o: Outcome)
    ensures env.ianaId.None? ==> o == Outcome(true, [], current, privileged)
  {
    match env.ianaId
    case None => Outcome(true, [], current, privileged)
    case Some(id) => Apply(current, privileged, ZoneTable.TranslateFromWindowsTimezone(id), env)
  }

  /** A second call in the same place after a change repeats the change
      unless the new zone's standard name is its key name: line 279 compares
      the active zone's standard name with a registry key name. */
  lemma SecondCallAfterChange(current: string, privileged: bool, env: Environment)
    requires env.ianaId.Some?
    requires var t := ZoneTable.TranslateFromWindowsTimezone(env.ianaId.value);
      t != Some(current) && env.enableOk && Found(t, env) && env.setResult != 0
    ensures var t := ZoneTable.TranslateFromWindowsTimezone(env.ianaId.value);
      var o := GpsUpdate(current, privileged, env);
      (GpsUpdate(o.standardName, o.privilegeEnabled, env).calls == []
       <==> env.zones[t.value].standardName == t.value)
  {
  }

  // ---- Whole calls from a GPS position

  /** In Paris with "Romance Standard Time" already active nothing is called. */
  lemma ParisAlreadyActive(privileged: bool, env: Environment)
    requires env.ianaId == Some("Europe/Paris")
    ensures GpsUpdate("Romance Standard Time", privileged, env)
            == Outcome(true, [], "Romance Standard Time", privileged)
  {
    ZoneTable.RomanceShared();
  }

  /** Moving from Paris to London: the privilege is enabled, the GMT record
      set, "GMT Standard Time" announced and the privilege disabled. */
  lemma LondonFromParis(privileged: bool, env: Environment)
    requires env.ianaId == Some("Europe/London") && env.enableOk && env.disableOk
    requires env.setResult != 0 && !env.notifyThrows
    requires "GMT Standard Time" in env.zones
    requires env.zones["GMT Standard Time"].standardName == "GMT Standard Time"
    ensures var rec := RecordFor(env, "GMT Standard Time");
      GpsUpdate("Romance Standard Time", privileged, env)
      == Outcome(true, [EnablePrivilege, SetTimeZone(rec), Notify("GMT Standard Time"), DisablePrivilege],
                 "GMT Standard Time", false)
  {
    ZoneTable.GmtShared();
  }

  /** An id the table does not list still enables the privilege, and the
      null that reaches FindSystemTimeZoneById leaves it enabled. */
  lemma UnlistedZoneKeepsPrivilege(current: string, privileged: bool, env: Environment)
    requires env.ianaId == Some("Pacific/Funny_Fake_Zone") && env.enableOk
    ensures GpsUpdate(current, privileged, env) == Outcome(true, [EnablePrivilege], current, true)
  {
    ZoneTable.UnlistedIdMisses();
  }

  /** Windows as the plugin sees it: the standard name of the active time
      zone, whether the process token has the time-zone privilege enabled,
      and every call made on it so far. */
  class WindowsHost {
    var standardName: string
    var privilegeEnabled: bool
    var trace: seq<Call>

    constructor (standardName: string)
      ensures this.standardName == standardName && !privilegeEnabled && trace == []
    {
      this.standardName := standardName;
      privilegeEnabled := false;
      trace := [];
    }

    /** GPSUpdateTimeZone (Source/TimeZone.cs:266-337), step by step. */
    method GPSUpdateTimeZone(env: Environment) returns (ok: bool)
      modifies this
      ensures var o := GpsUpdate(old(standardName), old(privilegeEnabled), env);
        ok == o.result && trace == old(trace) + o.calls
        && standardName == o.standardName && privilegeEnabled == o.privilegeEnabled
    {
      if env.ianaId.None? {
        return true;                                    // the lookup threw
      }
      var tzidTimezoneName := ZoneTable.TranslateFromWindowsTimezone(env.ianaId.value);
      if Some(standardName) != tzidTimezoneName {
        trace := trace + [EnablePrivilege];
        if !env.enableOk {
          return false;
        }
        privilegeEnabled := true;
        if tzidTimezoneName.None? || tzidTimezoneName.value !in env.zones {
          return true;                                  // FindSystemTimeZoneById threw
        }
        var newTimeZoneInfo := env.zones[tzidTimezoneName.value];
        var rtzi := GetRegTziFormat(env.timeZones, tzidTimezoneName.value);
        var tzi := BuildRecord(tzidTimezoneName.value, newTimeZoneInfo, rtzi);
        trace := trace + [SetTimeZone(tzi)];
        if env.setResult != 0 {
          standardName := tzi.standardName;
          if env.notifyThrows {
            return true;                                // the notification threw
          }
          trace := trace + [Notify(standardName)];
        }
        trace := trace + [DisablePrivilege];
        if !env.disableOk {
          return false;
        }
        privilegeEnabled := false;
      }
      return true;
    }
  }
}
