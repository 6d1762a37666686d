# TimeZone plugin core, modelled in Dafny

The Centrafuse TimeZone plugin keeps the Windows time zone in step with the
car's GPS position. Each cycle of its worker thread reads the navigation
position. Unless the position is exactly (0, 0), it calls
`UpdateTimeZone.GPSUpdateTimeZone`. That call:

1. resolves the position to an IANA tz-database id with the GeoTimeZone library;
2. translates the id to a Windows time-zone key name with a hand-written dictionary;
3. compares the key with the standard name of the active zone.

On a mismatch it enables the SeTimeZonePrivilege privilege and builds a
DYNAMIC_TIME_ZONE_INFORMATION record. The record takes its names from
TimeZoneInfo and its biases and dates from the registry's REG_TZI_FORMAT
value. The call then hands the record to SetDynamicTimeZoneInformation,
announces the change and disables the privilege again. At start-up the plugin
reads two settings: the LOGEVENTS flag and the REFRESHINTERVAL in seconds.

The model has six modules:

- `ZoneTable` (`zone_table.dfy`): the dictionary of
  `translateFromWindowsTimezone`. All 146 entries are copied verbatim, in
  source order and with their misspellings. A miss is `None`, the `null`
  the source returns after catching KeyNotFoundException.
- `RegTzi` (`reg_tzi.dfy`): the 44-byte little-endian REG_TZI_FORMAT value,
  its decoder `GetRegTziFormat`, and an encoder as its partner. The two
  round-trip lemmas show that the layout loses nothing and that every
  44-byte value is read in full.
- `UpdateTimeZone` (`update_time_zone.dfy`): `GPSUpdateTimeZone`.
  - It is a method on `WindowsHost`, a class holding the active standard
    name, the privilege flag and a trace of the calls made on Windows.
  - The method is proved equal, step by step, to the function `GpsUpdate`.
  - Lemmas about `Apply` state what one call does on every path: the no-op,
    the refused privilege, a zone that is not found, a Set that fails or
    succeeds, and an exception after the enable.
- `NetParse` (`net_parse.dfy`): the .NET conversions the settings go through.
  - `Int32.Parse` under NumberStyles.Integer and `Boolean.Parse`, each
    proved equal to a grammar in both directions.
  - `Int32.ToString`, with the round trip through `Int32.Parse`.
- `Plugin` (`plugin.dfy`): the plugin object.
  - `LoadSettings`, with its fallback to 300.
  - `CF_pluginInit`, where the worker starts only if LoadSettings returned.
  - One pass of the `SubTimeZone` loop.
- `Clr` and `Wrappers`: the .NET integer ranges and `Option`.

Windows, the registry, GeoTimeZone and the navigation source are not code
here. What they answer is an input, and `UpdateTimeZone.Environment` gathers
these inputs for one call:

- the IANA id, or that the lookup threw;
- whether EnablePrivilege and DisablePrivilege succeed;
- the zones FindSystemTimeZoneById knows;
- the registry's TZI values;
- the value SetDynamicTimeZoneInformation returns;
- whether the steps after a successful Set throw.

## Behaviour of the code worth knowing

The model follows the code, including these behaviours:

- **Privilege release.** Every exception between the enable and the disable
  is caught at Source/TimeZone.cs:332-335, so the disable at line 324 is
  skipped and the privilege stays enabled. One example is the `null`
  translation of an unlisted id reaching FindSystemTimeZoneById.
  `DisableUnlessException`, `PrivilegeBalance` and
  `UnlistedZoneKeepsPrivilege` state this.
- **Unlisted ids.** The `null` translation of an unlisted id compares unequal
  to the active name at line 279. The privilege is therefore enabled before
  FindSystemTimeZoneById throws.
- **Failed Set.** A zero result from SetDynamicTimeZoneInformation still
  ends the call with `true`. Only a refused enable or a failed disable gives
  `false` (`FalseOnlyFromPrivilege`).
- **Notification.** The notification follows every nonzero Set. It names the
  standard name read back from Windows, not the key (`NotifyOnlyAfterChange`).
- **Comparison.** Line 279 compares the active zone's *standard name* with a
  *key name*. A second call from the same place therefore repeats the change
  unless the two coincide (`SecondCallAfterChange`).
- **Daylight date.** The record's daylight date is the registry's standard
  date (line 300). The registry's own daylight date never reaches Windows
  (`BuildRecord`, `DaylightDateIgnored`).
- **Interval write-back.** The write of "300" at line 131 sits in the catch
  block. If it throws, LoadSettings has already set the interval to 300, and
  CF_pluginInit skips the thread start (`Plugin.TimeZonePlugin.PluginInit`).

## Model

| member | source | states |
|---|---|---|
| `ZoneTable.TranslateFromWindowsTimezone` | Source/TimeZone.cs:342-511 | the lookup translates only ids of the ten tz-database areas the dictionary has keys in; every other id, like every absent key, gives null |
| `ZoneTable.AfricaZones` | Source/TimeZone.cs:348-353 | every Africa key starts with the two characters the lookup dispatches on, so splitting the dictionary by area changes no answer |
| `ZoneTable.AmericaZones` | Source/TimeZone.cs:355-380 | the same for the America keys |
| `ZoneTable.ArcticZones` | Source/TimeZone.cs:382 | the same for the Arctic key |
| `ZoneTable.AsiaZones` | Source/TimeZone.cs:384-416 | the same for the Asia keys |
| `ZoneTable.AtlanticZones` | Source/TimeZone.cs:418-420 | the same for the Atlantic keys |
| `ZoneTable.AustraliaZones` | Source/TimeZone.cs:422-431 | the same for the Australia keys |
| `ZoneTable.EuropeZones` | Source/TimeZone.cs:433-486 | the same for the Europe keys |
| `ZoneTable.IndianZones` | Source/TimeZone.cs:488 | the same for the Indian key |
| `ZoneTable.PacificZones` | Source/TimeZone.cs:490-496 | the same for the Pacific keys |
| `ZoneTable.EtcZones` | Source/TimeZone.cs:498-502 | the same for the Etc keys |
| `ZoneTable.RomanceShared` | Source/TimeZone.cs:463-466 | Europe/Paris and Europe/Madrid both translate to "Romance Standard Time" (the table is many-to-one) |
| `ZoneTable.RomanceSharedNorth` | Source/TimeZone.cs:464-465 | Europe/Brussels and Europe/Copenhagen translate to "Romance Standard Time" too |
| `ZoneTable.GmtShared` | Source/TimeZone.cs:453-454 | Europe/London and Europe/Lisbon both translate to "GMT Standard Time" |
| `ZoneTable.SampleEntries` | Source/TimeZone.cs:366-412 | America/New_York translates to "Eastern Standard Time" and Asia/Tokyo to "Tokyo Standard Time" |
| `ZoneTable.BelgradeMisspelled` | Source/TimeZone.cs:438 | the key is spelled "Europe/Belgrave": it translates, and the correctly spelled Europe/Belgrade is a miss |
| `ZoneTable.DublinMisspelled` | Source/TimeZone.cs:456 | the key is spelled "Europe/Duplin": it translates, and Europe/Dublin is a miss |
| `ZoneTable.LongyearbyenMisspelled` | Source/TimeZone.cs:382 | the key is spelled "Arctic/Lonyearbyen": it translates, and Arctic/Longyearbyen is a miss |
| `ZoneTable.UnlistedIdMisses` | Source/TimeZone.cs:504-510 | an id that is not a key, such as Pacific/Funny_Fake_Zone or the empty id, gives null and never a fallback key |
| `ZoneTable.LookupIsCaseSensitive` | Source/TimeZone.cs:346-504 | the dictionary uses the default ordinal comparer, so "europe/paris" is a miss |
| `RegTzi.U16RoundTrip` | Source/TimeZone.cs:231-249 | a SYSTEMTIME field read back from its two little-endian bytes is the field |
| `RegTzi.U16BytesOf` | Source/TimeZone.cs:231-249 | any two bytes are the encoding of the field they decode to |
| `RegTzi.I32RoundTrip` | Source/TimeZone.cs:252-259 | a 32-bit signed bias read back from its four two's-complement little-endian bytes is the bias |
| `RegTzi.I32BytesOf` | Source/TimeZone.cs:252-259 | any four bytes are the encoding of the bias they decode to |
| `RegTzi.SystemTimeRead` | Source/TimeZone.cs:231-249 | a SYSTEMTIME read from the 16 bytes that encode it is that SYSTEMTIME |
| `RegTzi.SystemTimeBytesOf` | Source/TimeZone.cs:231-249 | any 16 bytes are the encoding of the SYSTEMTIME they decode to |
| `RegTzi.EncodeTzi` | Source/TimeZone.cs:252-262 | a REG_TZI_FORMAT occupies exactly 44 bytes |
| `RegTzi.DecodeEncode` | Source/TimeZone.cs:252-262 | reading the encoding of a record as the sequential struct gives the record back: bias at bytes 0-3, standardbias at 4-7, daylightBias at 8-11, standardDate at 12-27, daylightDate at 28-43 |
| `RegTzi.EncodeDecode` | Source/TimeZone.cs:527-531 | every 44-byte value is the encoding of the struct read from it, so the read uses every byte and tells all values apart |
| `RegTzi.DecodeTzi` | Source/TimeZone.cs:523-531 | a value of exactly 44 bytes decodes to the record whose encoding it is; a missing value, a value that is not a byte array, or any other length leaves the all-zero record |
| `RegTzi.GetRegTziFormat` | Source/TimeZone.cs:514-539 | the record read from the registry is the one whose encoding is the stored value when that is exactly 44 bytes; a missing subkey, a missing or non-byte value, or any other length gives the all-zero record |
| `UpdateTimeZone.BuildRecord` | Source/TimeZone.cs:294-303 | every registry field except the daylight date reaches the record unchanged, with the two names and the key; the daylight date is the standard date and dynamic daylight time is not disabled |
| `UpdateTimeZone.RecordFor` | Source/TimeZone.cs:290-303 | the record for a key carries the names of the zone FindSystemTimeZoneById returns, the key, and the registry record read by GetRegTziFormat with its daylight date replaced by its standard date |
| `UpdateTimeZone.RecordFromRegistry` | Source/TimeZone.cs:292-303 | the record handed to Windows takes its biases from bytes 0-11 of the TZI value and both its dates from the standard date at bytes 12-27; its key name is the target, its names are those of the zone found, and dynamic daylight time is not disabled |
| `UpdateTimeZone.DaylightDateIgnored` | Source/TimeZone.cs:299-302 | two TZI values that agree on bytes 0-27 give the same record: the registry's daylight date never reaches Windows |
| `UpdateTimeZone.RecordWithoutTzi` | Source/TimeZone.cs:292-303 | without a well-formed TZI value the record has zero biases and zero dates |
| `UpdateTimeZone.Apply` | Source/TimeZone.cs:279-336 | nothing is called exactly when the translated target equals the active standard name, and then the result is true and nothing changes |
| `UpdateTimeZone.EnableFirst` | Source/TimeZone.cs:279-283 | on a mismatch the privilege is asked for first, and only once |
| `UpdateTimeZone.RefusedPrivilege` | Source/TimeZone.cs:283-288 | a refused privilege ends the call with false, with no Set, no notification and no disable |
| `UpdateTimeZone.FalseOnlyFromPrivilege` | Source/TimeZone.cs:283-336 | the result is false exactly when the enable is refused or a disable that was made fails; a failed Set still gives true |
| `UpdateTimeZone.DisableUnlessException` | Source/TimeZone.cs:290-335 | the disable is made exactly when the zone was found and nothing threw after a successful Set; it is then made once, as the last call, after the Set, and the privilege is left as its result says |
| `UpdateTimeZone.PrivilegeBalance` | Source/TimeZone.cs:283-335 | after a granted enable, disables match enables exactly on the paths with no exception; an exception returns true with the privilege still enabled |
| `UpdateTimeZone.SetOnlyWhenFound` | Source/TimeZone.cs:290-304 | Set is called exactly when FindSystemTimeZoneById finds the target, as the second call, with the record built for the target |
| `UpdateTimeZone.NotifyOnlyAfterChange` | Source/TimeZone.cs:304-321 | a notification comes only third, after a nonzero Set, and names the new standard name; it always comes after a nonzero Set unless an exception cuts the call short |
| `UpdateTimeZone.ChangeOnlyThroughSet` | Source/TimeZone.cs:304-321 | the active zone changes only through a nonzero Set, and then to the standard name of the zone found |
| `UpdateTimeZone.GpsUpdate` | Source/TimeZone.cs:266-277 | a GeoTimeZone lookup that throws is caught: true, with nothing called and nothing changed |
| `UpdateTimeZone.SecondCallAfterChange` | Source/TimeZone.cs:279-303 | after a change, a second call from the same place calls nothing exactly when the new zone's standard name equals its key name |
| `UpdateTimeZone.ParisAlreadyActive` | Source/TimeZone.cs:275-279 | in Paris with "Romance Standard Time" active, nothing is called and the result is true |
| `UpdateTimeZone.LondonFromParis` | Source/TimeZone.cs:279-329 | moving to London from "Romance Standard Time": enable, Set of the GMT record, notification "GMT Standard Time", disable, and true |
| `UpdateTimeZone.UnlistedZoneKeepsPrivilege` | Source/TimeZone.cs:277-290 | an id the table does not list enables the privilege, and the null translation leaves it enabled with the result true |
| `UpdateTimeZone.WindowsHost.GPSUpdateTimeZone` | Source/TimeZone.cs:266-337 | the step-by-step method returns, appends to the trace and leaves the active zone and privilege exactly as `GpsUpdate` says |
| `NetParse.ParseInt32` | Source/TimeZone.cs:126 | a null text (ArgumentNullException) and a text without a digit are rejected |
| `NetParse.ParseLayout` | Source/TimeZone.cs:126 | Int32.Parse accepts white space, an optional sign, digits, white space and trailing NULs, and gives the value when it fits in 32 bits (otherwise the OverflowException) |
| `NetParse.ParseShape` | Source/TimeZone.cs:126 | conversely, every text Int32.Parse accepts has that layout and the parsed value |
| `NetParse.FormatInt32` | Source/TimeZone.cs:131 | Int32.ToString writes a minus sign exactly for a negative value, then decimal digits, and the signed digits have the value written |
| `NetParse.Digits` | Source/TimeZone.cs:131 | the digits Int32.ToString writes are decimal, without leading zeros, and have the value written |
| `NetParse.ParseFormat` | Source/TimeZone.cs:131 | Int32.Parse reads back every value Int32.ToString writes |
| `NetParse.FormatThreeHundred` | Source/TimeZone.cs:130-131 | the interval written back is the text "300" |
| `NetParse.ParseBoolean` | Source/TimeZone.cs:121 | a null text (ArgumentNullException) is rejected, and an accepted text, trimmed of white space and NULs, is "True" or "False" ignoring letter case, read as that literal |
| `NetParse.ParseBooleanPadded` | Source/TimeZone.cs:121 | Boolean.Parse accepts "True" or "False" in any letter case, with white space or NULs on either side |
| `NetParse.ParseBooleanShape` | Source/TimeZone.cs:121 | conversely, every text Boolean.Parse accepts has that layout |
| `Plugin.LoadedSettings` | Source/TimeZone.cs:117-134 | LoadSettings throws before changing anything exactly when Boolean.Parse rejects LOGEVENTS; it throws out of the catch block exactly when the interval does not parse and the write-back fails; otherwise it returns, with LogEvents the parsed flag |
| `Plugin.IntervalFallback` | Source/TimeZone.cs:124-132 | a parsed interval is kept and nothing is written; an interval that does not parse becomes 300, and the field then holds "300" unless the write throws |
| `Plugin.OnlyIntervalWritten` | Source/TimeZone.cs:124-132 | LoadSettings writes only the REFRESHINTERVAL field, only when it does not parse, and writes "300" with an interval of 300 |
| `Plugin.LoadAgainIsStable` | Source/TimeZone.cs:117-134 | loading the settings again after a load that returned gives the same settings and writes nothing, whether or not a write would fail |
| `Plugin.TimeZonePlugin.constructor` | Source/TimeZone.cs:24-29 | before any setting is read, LogEvents is true and the interval is 300 |
| `Plugin.TimeZonePlugin.LoadSettings` | Source/TimeZone.cs:117-134 | a LOGEVENTS flag Boolean.Parse rejects makes the method throw with nothing changed; otherwise the flag is set, and the interval is the parsed one, or 300 with "300" written back; a failing write-back throws with the flag and the interval 300 already set and the store unchanged |
| `Plugin.TimeZonePlugin.PluginInit` | Source/TimeZone.cs:50-74 | the worker thread starts exactly when LoadSettings returns, and the settings are left as LoadSettings left them, also when it threw |
| `Plugin.TimeZonePlugin.SubTimeZoneCycle` | Source/TimeZone.cs:159-181 | a cycle calls GPSUpdateTimeZone exactly when the navigation read succeeds and the position is not exactly (0, 0); otherwise Windows is left untouched |

## Left out

- The worker loop (Source/TimeZone.cs:146-187), `Thread.Sleep(intRefresh * 1000)`, the `boolTimeZone` stop flag and `CF_pluginClose` are left out as concurrency. Only one pass of the loop is modelled.
- The 32-bit product `intRefresh * 1000` at line 183 is left out too. LoadSettings accepts any Int32. An interval below 0 gives a negative product, and an interval above 2147483 wraps, often to a negative product; `Thread.Sleep` throws on any negative argument other than -1. The call sits outside the try at lines 159-181, so that exception goes unhandled on the worker thread. The model does not capture this.
- Logging is left out: `WriteLog`, `CFTools.writeModuleLog`, `CheckWin32Error` and every log message. They swallow their own failures and change nothing the model observes.
- The Win32 calls and their marshalling are left out. This covers P/Invoke, `AdjustTokenPrivileges`, `Marshal.*`, the settings-change broadcast and the cache clearing. Their outcomes are the booleans and return code of `Environment`.
  - The ByValTStr truncation of the record's names to 32 and 128 UTF-16 units is not modelled.
  - The internals of `TokenPrivilegesAccess` are not modelled.
- The GeoTimeZone lookup `TimeZoneLookup.GetTimeZone` is a foreign library. Its answer for the position is the input `Environment.ianaId`.
- `TimeZoneInfo.FindSystemTimeZoneById` and the registry are inputs: `Environment.zones` and `Environment.timeZones`.
- The navigation strings and `double.TryParse` are left out. A position is reduced to whether both coordinates read as exactly 0.0 (`Plugin.NavReading`).
- `UpdateTimeZone.Apply`: the notification names the standard name of the record that was set, and the active zone becomes that record. The source reads the name back with `GetDynamicTimeZoneInformation`, and the model takes Windows to report what it was just given.
- `NetParse.ParseInt32` and `NetParse.ParseBoolean` leave out some .NET details:
  - They use the invariant signs "+" and "-", not the culture's.
  - Letter case is compared for ASCII letters only. Non-ASCII letters that OrdinalIgnoreCase folds onto "TRUE" or "FALSE" are not modelled.
  - `Char.IsWhiteSpace` is the current Unicode list of space, line and paragraph separators. Older Unicode versions differ for U+180E.
- `Plugin.TimeZonePlugin.PluginInit`: it takes the calls before LoadSettings not to throw. These are CF3_initPlugin, the log reset and the description read.
- `Plugin.TimeZonePlugin.LoadSettings`: the reads of the language and configuration stores at lines 120-121 are assumed not to throw. The display name read at line 120 is not modelled. A failing write-back at line 131 is an input, and the model takes it to leave the store unchanged.
- `CF_pluginShowSetup`, the Setup dialog and the `NotifyChange` display call are user interface. Only the fact that a notification was made is modelled.
- The translation dictionary is written as ten `match` functions, one per tz-database area, instead of one map literal. The verifier cannot look keys up in a map display of 146 string keys. Each area function's contract shows the split changes no answer. No lemma lists all 146 entries; each entry is one case of its area function.
