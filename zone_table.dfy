/** The IANA-to-Windows time-zone dictionary of translateFromWindowsTimezone
    (Source/TimeZone.cs:342-511) and the lookup that uses it. */
module ZoneTable {
  import opened Wrappers

  /** The first two characters of the ten tz-database areas the dictionary
      has keys in: Africa, America, Arctic, Asia, Atlantic, Australia,
      Europe, Indian, Pacific and Etc. */
  predicate IsTableArea(c0: char, c1: char)
  {
    (c0 == 'A' && (c1 == 'f' || c1 == 'm' || c1 == 'r' || c1 == 's' || c1 == 't' || c1 == 'u'))
    || (c0 == 'E' && (c1 == 'u' || c1 == 't')) || (c0 == 'I' && c1 == 'n') || (c0 == 'P' && c1 == 'a')
  }

  /** Looks an IANA tz-database identifier up in the plugin's dictionary and
      returns the Windows time-zone key name it maps to.

      The 146 entries are those of the dictionary initializer
      (Source/TimeZone.cs:348-502), in source order and spelled as there,
      misspellings included ("Arctic/Lonyearbyen", "Europe/Belgrave",
      "Europe/Duplin"). They are split into the source's own groups, one per
      tz-database area, and a group is chosen by the first two characters of
      the id, which tell the ten areas apart. Every key of a group starts with
      those two characters, so the split changes no answer; it keeps each
      proof about one lookup down to the keys of one area.

      An id that is not a key makes the dictionary indexer throw
      KeyNotFoundException, which the source catches and turns into null:
      that is every `None` below. There is no fallback key. Keys compare
      ordinally, so the lookup is case-sensitive.

      Each group is one `match`, and Dafny rejects a case that repeats an
      earlier key as redundant; keys of different groups differ in their first
      two characters. So the keys are pairwise distinct, and the initializer,
      which would throw on a duplicate key, always succeeds. */
  function TranslateFromWindowsTimezone(id: string): (r: Option<string>)
    ensures r.Some? ==> |id| > 2 && IsTableArea(id[0], id[1])
  {
    if |id| < 2 then None
    else match (id[0], id[1])
      case ('A', 'f') => AfricaZones(id)
      case ('A', 'm') => AmericaZones(id)
      case ('A', 'r') => ArcticZones(id)
      case ('A', 's') => AsiaZones(id)
      case ('A', 't') => AtlanticZones(id)
      case ('A', 'u') => AustraliaZones(id)
      case ('E', 'u') => EuropeZones(id)
      case ('I', 'n') => IndianZones(id)
      case ('P', 'a') => PacificZones(id)
      case ('E', 't') => EtcZones(id)
      case _ => None
  }

  /** The "Africa/" entries, Source/TimeZone.cs:348-353. */
  function AfricaZones(id: string): (r: Option<string>)
    ensures r.Some? ==> |id| > 2 && id[0] == 'A' && id[1] == 'f'
  {
    match id
    case "Africa/Casablanca" => Some("Morocco Standard Time")
    case "Africa/Windhoek" => Some("Namibia Standard Time")
    case "Africa/Lagos" => Some("W. Central Africa Standard Time")
    case "Africa/Johannesburg" => Some("South Africa Standard Time")
    case "Africa/Nairobi" => Some("E. Africa Standard Time")
    case "Africa/Cairo" => Some("Egypt Standard Time")
    case _ => None
  }

  /** The "America/" entries, Source/TimeZone.cs:355-380. */
  function AmericaZones(id: string): (r: Option<string>)
    ensures r.Some? ==> |id| > 2 && id[0] == 'A' && id[1] == 'm'
  {
    match id
    case "America/Regina" => Some("Canada Central Standard Time")
    case "America/Buenos_Aires" => Some("Argentina Standard Time")
    case "America/Anchorage" => Some("Alaskan Standard Time")
    case "America/Halifax" => Some("Atlantic Standard Time")
    case "America/Bahia" => Some("Bahia Standard Time")
    case "America/Guatemala" => Some("Central America Standard Time")
    case "America/Cuiaba" => Some("Central Brazilian Standard Time")
    case "America/Chicago" => Some("Central Standard Time")
    case "America/Mexico_City" => Some("Central Standard Time (Mexico)")
    case "America/Godthab" => Some("Greenland Standard Time")
    case "America/Sao_Paulo" => Some("E. South America Standard Time")
    case "America/New_York" => Some("Eastern Standard Time")
    case "America/Denver" => Some("Mountain Standard Time")
    case "America/Chihuahua" => Some("Mountain Standard Time (Mexico)")
    case "America/Montevideo" => Some("Montevideo Standard Time")
    case "America/St_Johns" => Some("Newfoundland Standard Time")
    case "America/Santiago" => Some("Pacific SA Standard Time")
    case "America/Los_Angeles" => Some("Pacific Standard Time")
    case "America/Santa_Isabel" => Some("Pacific Standard Time (Mexico)")
    case "America/Asuncion" => Some("Paraguay Standard Time")
    case "America/Cayenne" => Some("SA Eastern Standard Time")
    case "America/Bogota" => Some("SA Pacific Standard Time")
    case "America/La_Paz" => Some("SA Western Standard Time")
    case "America/Caracas" => Some("Venezuela Standard Time")
    case "America/Indianapolis" => Some("US Eastern Standard Time")
    case "America/Phoenix" => Some("US Mountain Standard Time")
    case _ => None
  }

  /** The "Arctic/" entries, Source/TimeZone.cs:382. */
  function ArcticZones(id: string): (r: Option<string>)
    ensures r.Some? ==> |id| > 2 && id[0] == 'A' && id[1] == 'r'
  {
    match id
    case "Arctic/Lonyearbyen" => Some("W. Europe Standard Time")
    case _ => None
  }

  /** The "Asia/" entries, Source/TimeZone.cs:384-416. */
  function AsiaZones(id: string): (r: Option<string>)
    ensures r.Some? ==> |id| > 2 && id[0] == 'A' && id[1] == 's'
  {
    match id
    case "Asia/Kabul" => Some("Afghanistan Standard Time")
    case "Asia/Riyadh" => Some("Arab Standard Time")
    case "Asia/Baghdad" => Some("Arabic Standard Time")
    case "Asia/Baku" => Some("Azerbaijan Standard Time")
    case "Asia/Shanghai" => Some("China Standard Time")
    case "Asia/Dhaka" => Some("Bangladesh Standard Time")
    case "Asia/Yerevan" => Some("Caucasus Standard Time")
    case "Asia/Almaty" => Some("Central Asia Standard Time")
    case "Asia/Nicosia" => Some("E. Europe Standard Time")
    case "Asia/Yekaterinburg" => Some("Ekaterinburg Standard Time")
    case "Asia/Tbilisi" => Some("Georgian Standard Time")
    case "Asia/Calcutta" => Some("India Standard Time")
    case "Asia/Tehran" => Some("Iran Standard Time")
    case "Asia/Jerusalem" => Some("Israel Standard Time")
    case "Asia/Amman" => Some("Jordan Standard Time")
    case "Asia/Seoul" => Some("Korea Standard Time")
    case "Asia/Beirut" => Some("Middle East Standard Time")
    case "Asia/Rangoon" => Some("Myanmar Standard Time")
    case "Asia/Novosibirsk" => Some("N. Central Asia Standard Time")
    case "Asia/Katmandu" => Some("Nepal Standard Time")
    case "Asia/Irkutsk" => Some("North Asia East Standard Time")
    case "Asia/Krasnoyarsk" => Some("North Asia Standard Time")
    case "Asia/Karachi" => Some("Pakistan Standard Time")
    case "Asia/Bangkok" => Some("SE Asia Standard Time")
    case "Asia/Singapore" => Some("Singapore Standard Time")
    case "Asia/Colombo" => Some("Sri Lanka Standard Time")
    case "Asia/Damascus" => Some("Syria Standard Time")
    case "Asia/Taipei" => Some("Taipei Standard Time")
    case "Asia/Tokyo" => Some("Tokyo Standard Time")
    case "Asia/Ulaanbaatar" => Some("Ulaanbaatar Standard Time")
    case "Asia/Vladivostok" => Some("Vladivostok Standard Time")
    case "Asia/Tashkent" => Some("West Asia Standard Time")
    case "Asia/Yakutsk" => Some("Yakutsk Standard Time")
    case _ => None
  }

  /** The "Atlantic/" entries, Source/TimeZone.cs:418-420. */
  function AtlanticZones(id: string): (r: Option<string>)
    ensures r.Some? ==> |id| > 2 && id[0] == 'A' && id[1] == 't'
  {
    match id
    case "Atlantic/Azores" => Some("Azores Standard Time")
    case "Atlantic/Cape_Verde" => Some("Cape Verde Standard Time")
    case "Atlantic/Reykjavik" => Some("Greenwich Standard Time")
    case _ => None
  }

  /** The "Australia/" entries, Source/TimeZone.cs:422-431. */
  function AustraliaZones(id: string): (r: Option<string>)
    ensures r.Some? ==> |id| > 2 && id[0] == 'A' && id[1] == 'u'
  {
    match id
    case "Australia/Darwin" => Some("AUS Central Standard Time")
    case "Australia/Adelaide" => Some("Cen. Australia Standard Time")
    case "Australia/Broken_Hill" => Some("Cen. Australia Standard Time")
    case "Australia/Brisbane" => Some("E. Australia Standard Time")
    case "Australia/Sydney" => Some("E. Australia Standard Time")
    case "Australia/Melbourne" => Some("E. Australia Standard Time")
    case "Australia/Lindeman" => Some("E. Australia Standard Time")
    case "Australia/Perth" => Some("W. Australia Standard Time")
    case "Australia/Hobart" => Some("Tasmania Standard Time")
    case "Australia/Currie" => Some("Tasmania Standard Time")
    case _ => None
  }

  /** The "Europe/" entries, Source/TimeZone.cs:433-486. */
  function EuropeZones(id: string): (r: Option<string>)
    ensures r.Some? ==> |id| > 2 && id[0] == 'E' && id[1] == 'u'
  {
    match id
    case "Europe/Budapest" => Some("Central Europe Standard Time")
    case "Europe/Warsaw" => Some("Central European Standard Time")
    case "Europe/Tirane" => Some("Central European Standard Time")
    case "Europe/Prague" => Some("Central European Standard Time")
    case "Europe/Podgorica" => Some("Central European Standard Time")
    case "Europe/Belgrave" => Some("Central European Standard Time")
    case "Europe/Ljubljana" => Some("Central European Standard Time")
    case "Europe/Bratislava" => Some("Central European Standard Time")
    case "Europe/Sarajevo" => Some("Central European Standard Time")
    case "Europe/Zagreb" => Some("Central European Standard Time")
    case "Europe/Skopje" => Some("Central European Standard Time")
    case "Europe/Kiev" => Some("FLE Standard Time")
    case "Europe/Mariehamn" => Some("FLE Standard Time")
    case "Europe/Sofia" => Some("FLE Standard Time")
    case "Europe/Tallinn" => Some("FLE Standard Time")
    case "Europe/Helsinki" => Some("FLE Standard Time")
    case "Europe/Vilnius" => Some("FLE Standard Time")
    case "Europe/Riga" => Some("FLE Standard Time")
    case "Europe/Uzhgorod" => Some("FLE Standard Time")
    case "Europe/Zaporozhye" => Some("FLE Standard Time")
    case "Europe/London" => Some("GMT Standard Time")
    case "Europe/Lisbon" => Some("GMT Standard Time")
    case "Europe/Guernsey" => Some("GMT Standard Time")
    case "Europe/Duplin" => Some("GMT Standard Time")
    case "Europe/Isle_of_Man" => Some("GMT Standard Time")
    case "Europe/Jersey" => Some("GMT Standard Time")
    case "Europe/Madeira" => Some("GMT Standard Time")
    case "Europe/Athens" => Some("GTB Standard Time")
    case "Europe/Bucharest" => Some("GTB Standard Time")
    case "Europe/Kaliningrad" => Some("Kaliningrad Standard Time")
    case "Europe/Paris" => Some("Romance Standard Time")
    case "Europe/Brussels" => Some("Romance Standard Time")
    case "Europe/Copenhagen" => Some("Romance Standard Time")
    case "Europe/Madrid" => Some("Romance Standard Time")
    case "Europe/Moscow" => Some("Russian Standard Time")
    case "Europe/Simferopol" => Some("Russian Standard Time")
    case "Europe/Volgograd" => Some("Russian Standard Time")
    case "Europe/Istanbul" => Some("Turkey Standard Time")
    case "Europe/Berlin" => Some("W. Europe Standard Time")
    case "Europe/Andorra" => Some("W. Europe Standard Time")
    case "Europe/Vienna" => Some("W. Europe Standard Time")
    case "Europe/Zurich" => Some("W. Europe Standard Time")
    case "Europe/Busingen" => Some("W. Europe Standard Time")
    case "Europe/Gibraltar" => Some("W. Europe Standard Time")
    case "Europe/Rome" => Some("W. Europe Standard Time")
    case "Europe/Vaduz" => Some("W. Europe Standard Time")
    case "Europe/Luxembourg" => Some("W. Europe Standard Time")
    case "Europe/Monaco" => Some("W. Europe Standard Time")
    case "Europe/Malta" => Some("W. Europe Standard Time")
    case "Europe/Amsterdam" => Some("W. Europe Standard Time")
    case "Europe/Oslo" => Some("W. Europe Standard Time")
    case "Europe/Stockholm" => Some("W. Europe Standard Time")
    case "Europe/San_Marino" => Some("W. Europe Standard Time")
    case "Europe/Vatican" => Some("W. Europe Standard Time")
    case _ => None
  }

  /** The "Indian/" entries, Source/TimeZone.cs:488. */
  function IndianZones(id: string): (r: Option<string>)
    ensures r.Some? ==> |id| > 2 && id[0] == 'I' && id[1] == 'n'
  {
    match id
    case "Indian/Mauritius" => Some("Mauritius Standard Time")
    case _ => None
  }

  /** The "Pacific/" entries, Source/TimeZone.cs:490-496. */
  function PacificZones(id: string): (r: Option<string>)
    ensures r.Some? ==> |id| > 2 && id[0] == 'P' && id[1] == 'a'
  {
    match id
    case "Pacific/Guadalcanal" => Some("Central Pacific Standard Time")
    case "Pacific/Fiji" => Some("Fiji Standard Time")
    case "Pacific/Honolulu" => Some("Hawaiian Standard Time")
    case "Pacific/Auckland" => Some("New Zealand Standard Time")
    case "Pacific/Apia" => Some("Samoa Standard Time")
    case "Pacific/Tongatapu" => Some("Tonga Standard Time")
    case "Pacific/Port_Moresby" => Some("West Pacific Standard Time")
    case _ => None
  }

  /** The "Etc/" entries, Source/TimeZone.cs:498-502. */
  function EtcZones(id: string): (r: Option<string>)
    ensures r.Some? ==> |id| > 2 && id[0] == 'E' && id[1] == 't'
  {
    match id
    case "Etc/GMT-12" => Some("UTC+12")
    case "Etc/GMT" => Some("UTC")
    case "Etc/GMT+2" => Some("UTC-02")
    case "Etc/GMT+11" => Some("UTC-11")
    case "Etc/GMT+12" => Some("Dateline Standard Time")
    case _ => None
  }

  /** Several IANA ids share one Windows key: the table is many-to-one. */
  lemma RomanceShared()
    ensures TranslateFromWindowsTimezone("Europe/Paris") == Some("Romance Standard Time")
    ensures TranslateFromWindowsTimezone("Europe/Madrid") == Some("Romance Standard Time")
  {
  }

  lemma RomanceSharedNorth()
    ensures TranslateFromWindowsTimezone("Europe/Brussels") == Some("Romance Standard Time")
    ensures TranslateFromWindowsTimezone("Europe/Copenhagen") == Some("Romance Standard Time")
  {
  }

  lemma GmtShared()
    ensures TranslateFromWindowsTimezone("Europe/London") == Some("GMT Standard Time")
    ensures TranslateFromWindowsTimezone("Europe/Lisbon") == Some("GMT Standard Time")
  {
  }

  lemma SampleEntries()
    ensures TranslateFromWindowsTimezone("America/New_York") == Some("Eastern Standard Time")
    ensures TranslateFromWindowsTimezone("Asia/Tokyo") == Some("Tokyo Standard Time")
  {
  }

  /** The misspelled key is the one present; the correct spelling misses. */
  lemma BelgradeMisspelled()
    ensures TranslateFromWindowsTimezone("Europe/Belgrave") == Some("Central European Standard Time")
    ensures TranslateFromWindowsTimezone("Europe/Belgrade") == None
  {
  }

  lemma DublinMisspelled()
    ensures TranslateFromWindowsTimezone("Europe/Duplin") == Some("GMT Standard Time")
    ensures TranslateFromWindowsTimezone("Europe/Dublin") == None
  {
  }

  lemma LongyearbyenMisspelled()
    ensures TranslateFromWindowsTimezone("Arctic/Lonyearbyen") == Some("W. Europe Standard Time")
    ensures TranslateFromWindowsTimezone("Arctic/Longyearbyen") == None
  {
  }

  /** An unlisted id gets no key, never a default one. */
  lemma UnlistedIdMisses()
    ensures TranslateFromWindowsTimezone("Pacific/Funny_Fake_Zone") == None
    ensures TranslateFromWindowsTimezone("") == None
  {
  }

  /** Keys compare ordinally: a differently cased id misses. */
  lemma LookupIsCaseSensitive()
    ensures TranslateFromWindowsTimezone("europe/paris") == None
  {
  }
}
