/** The configuration record and the five prayers. */
module Settings {
  datatype Prayer = Fajr | Dhuhr | Asr | Maghrib | Isha

  const PRAYER_COUNT: nat := 5
  const PRAYERS: seq<Prayer> := [Fajr, Dhuhr, Asr, Maghrib, Isha]
  const MAX_REMINDERS: nat := 10

  function Name(p: Prayer): (s: string)
    ensures 3 <= |s| <= 7 && '\0' !in s
  {
    match p
    case Fajr => "Fajr"
    case Dhuhr => "Dhuhr"
    case Asr => "Asr"
    case Maghrib => "Maghrib"
    case Isha => "Isha"
  }

  datatype PrayerConfig = PrayerConfig(enabled: bool, adhanEnabled: bool, reminders: seq<int>, offset: int, adhan: string)

  datatype Config = Config(
    latitude: real, longitude: real, timezone: string, timezoneOffset: real, autoDetect: bool, useGps: bool,
    city: string, country: string, updatedAt: int, refreshInterval: int,
    fajr: PrayerConfig, dhuhr: PrayerConfig, asr: PrayerConfig, maghrib: PrayerConfig, isha: PrayerConfig,
    timeout: int, urgency: string, sound: string, soundAlarm: string, soundReminder: string, icon: string,
    calculation: string, madhab: string, fajrAngle: real, ishaAngle: real, timeFormat: int)

  /** `prayer_get_config` */
  function ConfigOf(c: Config, p: Prayer): PrayerConfig {
    match p
    case Fajr => c.fajr
    case Dhuhr => c.dhuhr
    case Asr => c.asr
    case Maghrib => c.maghrib
    case Isha => c.isha
  }
}
