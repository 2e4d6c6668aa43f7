/**
 * The weather application's icon choice (assets/components/apps/WeatherApp.tsx):
 * the condition text, lowercased, is tested for key words in a fixed order
 * and the first match picks the icon. Lowercasing is ASCII only.
 */
module Weather {
  import opened Text

  datatype Icon = SunIcon | RainIcon | SnowIcon | LightningIcon | WindIcon | CloudIcon

  /** The demo reading shown once the simulated request completes. */
  const DemoCondition := "Partly Cloudy"
  const ForecastConditions := ["Sunny", "Partly Cloudy", "Cloudy", "Rainy", "Windy"]

  /** `getWeatherIcon`: sun or clear, then rain, then snow, then thunder or lightning, then wind, else cloud. */
  function WeatherIcon(condition: string): (icon: Icon)
    ensures var c := Lower(condition);
      && (icon == SunIcon <==> Contains(c, "sun") || Contains(c, "clear"))
      && (icon == RainIcon <==> !Contains(c, "sun") && !Contains(c, "clear") && Contains(c, "rain"))
      && (icon == SnowIcon <==> !Contains(c, "sun") && !Contains(c, "clear") && !Contains(c, "rain") && Contains(c, "snow"))
      && (icon == LightningIcon <==>
            (!Contains(c, "sun") && !Contains(c, "clear") && !Contains(c, "rain")
             && !Contains(c, "snow") && (Contains(c, "thunder") || Contains(c, "lightning"))))
      && (icon == WindIcon <==>
            (!Contains(c, "sun") && !Contains(c, "clear") && !Contains(c, "rain")
             && !Contains(c, "snow") && !Contains(c, "thunder") && !Contains(c, "lightning") && Contains(c, "wind")))
  {
    var c := Lower(condition);
    if Contains(c, "sun") || Contains(c, "clear") then SunIcon
    else if Contains(c, "rain") then RainIcon
    else if Contains(c, "snow") then SnowIcon
    else if Contains(c, "thunder") || Contains(c, "lightning") then LightningIcon
    else if Contains(c, "wind") then WindIcon
    else CloudIcon
  }

  /** The choice ignores letter case. */
  lemma IconIgnoresCase(condition: string)
    ensures WeatherIcon(Lower(condition)) == WeatherIcon(condition)
  {
    LowerIdempotent(condition);
  }

  /** Sun wins over every later word: "Sunny with rain" is sunny. */
  lemma SunComesFirst(condition: string)
    requires Contains(Lower(condition), "sun")
    ensures WeatherIcon(condition) == SunIcon
  {
  }

  /** A condition with none of the key words gets the cloud. */
  lemma NoKeyWordIsCloud(condition: string)
    requires var c := Lower(condition);
      !Contains(c, "sun") && !Contains(c, "clear") && !Contains(c, "rain") && !Contains(c, "snow")
      && !Contains(c, "thunder") && !Contains(c, "lightning") && !Contains(c, "wind")
    ensures WeatherIcon(condition) == CloudIcon
  {
  }

  /** A word with a letter the text lacks does not occur in it. */
  lemma {:induction false} MissingLetter(s: string, p: string, k: nat)
    requires k < |p| && p[k] !in s
    ensures !Contains(s, p)
    decreases |s|
  {
    if |s| > 0 {
      MissingLetter(s[1..], p, k);
    }
  }

  lemma LowerDemoCondition()
    ensures Lower(DemoCondition) == "partly cloudy"
  {
  }

  /** A condition without the letters s, e, i and w can hold no key word, so it gets the cloud. */
  lemma CloudWithoutKeyLetters(condition: string)
    requires var c := Lower(condition); 's' !in c && 'e' !in c && 'i' !in c && 'w' !in c
    ensures WeatherIcon(condition) == CloudIcon
  {
    var c := Lower(condition);
    MissingLetter(c, "sun", 0);
    MissingLetter(c, "clear", 2);
    MissingLetter(c, "rain", 2);
    MissingLetter(c, "snow", 0);
    MissingLetter(c, "thunder", 5);
    MissingLetter(c, "lightning", 1);
    MissingLetter(c, "wind", 0);
  }

  /** The demo condition "Partly Cloudy" gets the cloud. */
  lemma DemoConditionIsCloud()
    ensures WeatherIcon(DemoCondition) == CloudIcon
  {
    LowerDemoCondition();
    CloudWithoutKeyLetters(DemoCondition);
  }

  /** The forecast's "Rainy" gets the rain icon. */
  lemma RainyIsRain()
    ensures ForecastConditions[3] == "Rainy" && WeatherIcon(ForecastConditions[3]) == RainIcon
  {
    LowerRainy();
    RainWithoutSunLetters("Rainy");
  }

  lemma LowerRainy()
    ensures Lower("Rainy") == "rainy"
  {
  }

  /** A condition that starts with "rain" and lacks the letters s and e gets the rain icon. */
  lemma RainWithoutSunLetters(condition: string)
    requires var c := Lower(condition); StartsWith(c, "rain") && 's' !in c && 'e' !in c
    ensures WeatherIcon(condition) == RainIcon
  {
    var c := Lower(condition);
    MissingLetter(c, "sun", 0);
    MissingLetter(c, "clear", 2);
  }
}
