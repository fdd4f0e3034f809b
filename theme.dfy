/** The pure classification helpers of the widget: the time of day derived from
    the wall-clock hour, the background photograph and the condition emoji
    chosen from an Open-Meteo (WMO) weather code. Each is a first-match chain
    of conditionals; the contracts give, for every label, exactly the set of
    inputs that receives it once the earlier branches have been taken. */
module Theme {

  /** The `timeOfDay` state value. `Day` is its initial value, before the
      mount-time detection has run; the detection never produces it. */
  datatype TimeOfDay = Day | Morning | Afternoon | Evening | Night

  /** The seven background photographs. */
  datatype Backdrop = Thunderstorm | Showers | Rain | Clear | EveningSky | NightSky | Daytime

  /** The eight condition emoji, by their Unicode names. */
  datatype Emoji =
    | Sun                 // U+2600
    | SunBehindSmallCloud // U+1F324
    | Fog                 // U+1F32B
    | CloudWithRain       // U+1F327
    | Snowflake           // U+2744
    | SunBehindRainCloud  // U+1F326
    | CloudWithLightning  // U+1F329
    | Cloud               // U+2601

  /** Time of day for the hour returned by `getHours()`. */
  function ClassifyHour(hours: int): (t: TimeOfDay)
    ensures t != Day
    ensures t == Morning <==> 5 <= hours <= 11
    ensures t == Afternoon <==> 12 <= hours <= 16
    ensures t == Evening <==> 17 <= hours <= 19
    ensures t == Night <==> hours <= 4 || 20 <= hours
  {
    if hours >= 5 && hours < 12 then Morning
    else if hours >= 12 && hours < 17 then Afternoon
    else if hours >= 17 && hours < 20 then Evening
    else Night
  }

  /** Background for a weather code. The time of day decides only for codes
      strictly between 3 and 51; `Morning`, `Afternoon` and the initial `Day`
      all fall through to the daytime photograph. */
  function WeatherImage(code: int, timeOfDay: TimeOfDay): (b: Backdrop)
    ensures b == Thunderstorm <==> code >= 95
    ensures b == Showers <==> 80 <= code <= 94
    ensures b == Rain <==> 51 <= code <= 79
    ensures b == Clear <==> code <= 3
    ensures b == EveningSky <==> 3 < code < 51 && timeOfDay == Evening
    ensures b == NightSky <==> 3 < code < 51 && timeOfDay == Night
    ensures b == Daytime <==> 3 < code < 51 && (timeOfDay.Day? || timeOfDay.Morning? || timeOfDay.Afternoon?)
  {
    if code >= 95 then Thunderstorm
    else if code >= 80 then Showers
    else if code >= 51 then Rain
    else if code <= 3 then Clear
    else if timeOfDay == Evening then EveningSky
    else if timeOfDay == Night then NightSky
    else Daytime
  }

  /** Emoji for a weather code. Codes below zero fall into the `<= 3` branch;
      the gaps 4-44, 49-50, 68-70, 78-79 and 83-94 get the plain cloud. */
  function WeatherEmoji(code: int): (e: Emoji)
    ensures e == Sun <==> code == 0
    ensures e == SunBehindSmallCloud <==> code < 0 || 1 <= code <= 3
    ensures e == Fog <==> 45 <= code <= 48
    ensures e == CloudWithRain <==> 51 <= code <= 67
    ensures e == Snowflake <==> 71 <= code <= 77
    ensures e == SunBehindRainCloud <==> 80 <= code <= 82
    ensures e == CloudWithLightning <==> code >= 95
    ensures e == Cloud <==> 4 <= code <= 44 || 49 <= code <= 50 || 68 <= code <= 70
                             || 78 <= code <= 79 || 83 <= code <= 94
  {
    if code == 0 then Sun
    else if code <= 3 then SunBehindSmallCloud
    else if code >= 45 && code <= 48 then Fog
    else if code >= 51 && code <= 67 then CloudWithRain
    else if code >= 71 && code <= 77 then Snowflake
    else if code >= 80 && code <= 82 then SunBehindRainCloud
    else if code >= 95 then CloudWithLightning
    else Cloud
  }

  /** The text the page shows for an emoji: one pictograph followed by the
      emoji presentation selector U+FE0F. */
  function Glyph(e: Emoji): (s: string)
    ensures |s| == 2 && s[1] == '\U{FE0F}'
  {
    var base := match e
      case Sun => '\U{2600}'
      case SunBehindSmallCloud => '\U{1F324}'
      case Fog => '\U{1F32B}'
      case CloudWithRain => '\U{1F327}'
      case Snowflake => '\U{2744}'
      case SunBehindRainCloud => '\U{1F326}'
      case CloudWithLightning => '\U{1F329}'
      case Cloud => '\U{2601}';
    [base, '\U{FE0F}']
  }

  /** Distinct emoji are rendered as distinct text. */
  lemma GlyphInjective(e1: Emoji, e2: Emoji)
    ensures Glyph(e1) == Glyph(e2) ==> e1 == e2
  {
    if Glyph(e1) == Glyph(e2) {
      assert Glyph(e1)[0] == Glyph(e2)[0];
    }
  }

  /** The hours of a day, 0 to 23, each get exactly one of the four labels the
      detection produces, so the four ranges partition the day. */
  lemma HoursPartitionDay(hours: int)
    requires 0 <= hours <= 23
    ensures ClassifyHour(hours) in {Morning, Afternoon, Evening, Night}
    ensures (hours in {20, 21, 22, 23, 0, 1, 2, 3, 4}) <==> ClassifyHour(hours) == Night
  {
  }

  /** The background ignores the time of day outside the band 4-50. */
  lemma ImageIgnoresTimeOutsideMiddleBand(code: int, t1: TimeOfDay, t2: TimeOfDay)
    requires code <= 3 || code >= 51
    ensures WeatherImage(code, t1) == WeatherImage(code, t2)
  {
  }

  /** Emoji and background agree on the weather class: a clear or partly clear
      emoji goes with the clear photograph, rain or snow with the rain photograph,
      showers with the showers photograph, a thunderstorm with the thunderstorm
      photograph, and fog with a time-of-day photograph. */
  lemma EmojiAgreesWithImage(code: int, t: TimeOfDay)
    ensures WeatherEmoji(code) in {Sun, SunBehindSmallCloud} <==> WeatherImage(code, t) == Clear
    ensures WeatherEmoji(code) in {CloudWithRain, Snowflake} ==> WeatherImage(code, t) == Rain
    ensures WeatherEmoji(code) == SunBehindRainCloud ==> WeatherImage(code, t) == Showers
    ensures WeatherEmoji(code) == CloudWithLightning <==> WeatherImage(code, t) == Thunderstorm
    ensures WeatherEmoji(code) == Fog ==> WeatherImage(code, t) in {EveningSky, NightSky, Daytime}
  {
  }
}
