/** The display decisions of the weather card: which of its four views is
    shown, the colour class of a temperature, and the icon of a weather
    description. Only the choices are modelled, not the markup. */
module WeatherCard {
  import opened Wrappers
  import opened Text

  // ---------------------------------------------------------------------
  // View selection
  // ---------------------------------------------------------------------

  /** The four things the card can render: the loading skeleton, the error
      panel, the welcome placeholder, and the data cards (the current-weather
      card and the forecast card, each only when its data is present). */
  datatype View = Skeleton | ErrorPanel(message: string) | Welcome | DataCards(showWeather: bool, showForecast: bool)

  /** The card's early returns: `loading` first, then a non-empty `error`
      (an empty string is falsy), then the placeholder when there is neither
      current weather nor forecast, and the data cards otherwise. */
  function SelectView<W, F>(weather: Option<W>, forecast: Option<F>, loading: bool, error: Option<string>): (v: View)
    ensures loading ==> v == Skeleton
    ensures v.ErrorPanel? <==> !loading && error.Some? && error.value != ""
    ensures v.ErrorPanel? ==> v.message == error.value
    ensures v == Welcome <==> !loading && (error.None? || error.value == "") && weather.None? && forecast.None?
    ensures v.DataCards? ==> v.showWeather == weather.Some? && v.showForecast == forecast.Some?
    ensures v.DataCards? ==> v.showWeather || v.showForecast
  {
    if loading then Skeleton
    else if error.Some? && error.value != "" then ErrorPanel(error.value)
    else if weather.None? && forecast.None? then Welcome
    else DataCards(weather.Some?, forecast.Some?)
  }

  // ---------------------------------------------------------------------
  // Temperature colour
  // ---------------------------------------------------------------------

  /** The colour classes from coldest to hottest. */
  const Palette := ["text-blue-700", "text-blue-500", "text-green-500", "text-yellow-500", "text-orange-500", "text-red-500"]

  /** The lower bounds of the five warmer bands, in increasing order. */
  const Thresholds: seq<real> := [10.0, 15.0, 20.0, 25.0, 30.0]

  /** The colour class of a temperature: the if-chain of the card, tested
      from the hottest band down. */
  function TemperatureColor(temp: real): (color: string)
    ensures color in Palette
  {
    if temp >= 30.0 then "text-red-500"
    else if temp >= 25.0 then "text-orange-500"
    else if temp >= 20.0 then "text-yellow-500"
    else if temp >= 15.0 then "text-green-500"
    else if temp >= 10.0 then "text-blue-500"
    else "text-blue-700"
  }

  /** How many of the thresholds `bounds` a temperature reaches. */
  function Reached(temp: real, bounds: seq<real>): (n: nat)
    ensures n <= |bounds|
    decreases |bounds|
  {
    if bounds == [] then 0
    else (if bounds[0] <= temp then 1 else 0) + Reached(temp, bounds[1..])
  }

  /** The colour is the palette entry indexed by the number of thresholds the
      temperature reaches: at least 30 is red, [25, 30) orange, [20, 25)
      yellow, [15, 20) green, [10, 15) blue-500, and below 10 blue-700. */
  lemma TemperatureColorByThresholds(temp: real)
    ensures TemperatureColor(temp) == Palette[Reached(temp, Thresholds)]
  {
    assert Reached(temp, [30.0]) == (if temp >= 30.0 then 1 else 0) by {
      assert [30.0][1..] == [];
    }
    assert Reached(temp, [25.0, 30.0]) == (if temp >= 25.0 then 1 else 0) + Reached(temp, [30.0]) by {
      assert [25.0, 30.0][1..] == [30.0];
    }
    assert Reached(temp, [20.0, 25.0, 30.0]) == (if temp >= 20.0 then 1 else 0) + Reached(temp, [25.0, 30.0]) by {
      assert [20.0, 25.0, 30.0][1..] == [25.0, 30.0];
    }
    assert Reached(temp, [15.0, 20.0, 25.0, 30.0]) == (if temp >= 15.0 then 1 else 0) + Reached(temp, [20.0, 25.0, 30.0]) by {
      assert [15.0, 20.0, 25.0, 30.0][1..] == [20.0, 25.0, 30.0];
    }
    assert Thresholds[1..] == [15.0, 20.0, 25.0, 30.0];
  }

  /** A warmer temperature never gets a colder colour. */
  lemma TemperatureColorMonotone(t1: real, t2: real)
    requires t1 <= t2
    ensures Reached(t1, Thresholds) <= Reached(t2, Thresholds)
    ensures exists i, j :: 0 <= i <= j < |Palette| && Palette[i] == TemperatureColor(t1) && Palette[j] == TemperatureColor(t2)
  {
    TemperatureColorByThresholds(t1);
    TemperatureColorByThresholds(t2);
    ReachedMonotone(t1, t2, Thresholds);
  }

  lemma {:induction false} ReachedMonotone(t1: real, t2: real, bounds: seq<real>)
    requires t1 <= t2
    ensures Reached(t1, bounds) <= Reached(t2, bounds)
    decreases |bounds|
  {
    if bounds != [] {
      ReachedMonotone(t1, t2, bounds[1..]);
    }
  }

  // ---------------------------------------------------------------------
  // Weather icon
  // ---------------------------------------------------------------------

  const SunIcon := "\U{2600}\U{FE0F}"
  const CloudIcon := "\U{2601}\U{FE0F}"
  const RainIcon := "\U{1F327}\U{FE0F}"
  const SnowIcon := "\U{2744}\U{FE0F}"
  const FogIcon := "\U{1F32B}\U{FE0F}"
  const ThunderIcon := "\U{26C8}\U{FE0F}"
  const DefaultIcon := "\U{1F324}\U{FE0F}"

  /** The icon of a description: the description is lower-cased, then the
      keyword pairs are tried in a fixed order and the first pair with a
      keyword in it decides. */
  function WeatherIcon(description: string): (icon: string)
    ensures icon in [SunIcon, CloudIcon, RainIcon, SnowIcon, FogIcon, ThunderIcon, DefaultIcon]
  {
    var desc := ToLower(description);
    if Contains(desc, "晴") || Contains(desc, "sun") then SunIcon
    else if Contains(desc, "云") || Contains(desc, "cloud") then CloudIcon
    else if Contains(desc, "雨") || Contains(desc, "rain") then RainIcon
    else if Contains(desc, "雪") || Contains(desc, "snow") then SnowIcon
    else if Contains(desc, "雾") || Contains(desc, "fog") then FogIcon
    else if Contains(desc, "雷") || Contains(desc, "thunder") then ThunderIcon
    else DefaultIcon
  }

  /** A keyword rule: a Chinese keyword, an English keyword and their icon. */
  datatype IconRule = IconRule(chinese: string, english: string, icon: string)

  /** The rules in the order they are tried. */
  const IconRules := [
    IconRule("晴", "sun", SunIcon), IconRule("云", "cloud", CloudIcon),
    IconRule("雨", "rain", RainIcon), IconRule("雪", "snow", SnowIcon),
    IconRule("雾", "fog", FogIcon), IconRule("雷", "thunder", ThunderIcon)]

  predicate Matches(desc: string, rule: IconRule) {
    Contains(desc, rule.chinese) || Contains(desc, rule.english)
  }

  /** `k` is the first rule that matches `desc`. */
  predicate FirstMatch(desc: string, rules: seq<IconRule>, k: int) {
    0 <= k < |rules| && Matches(desc, rules[k]) && forall i :: 0 <= i < k ==> !Matches(desc, rules[i])
  }

  /** The icon is that of the first rule matching the lower-cased description,
      and the default icon when no rule matches. */
  lemma WeatherIconFirstMatch(description: string)
    ensures forall k :: FirstMatch(ToLower(description), IconRules, k) ==> WeatherIcon(description) == IconRules[k].icon
    ensures (forall k :: 0 <= k < |IconRules| ==> !Matches(ToLower(description), IconRules[k])) ==>
      WeatherIcon(description) == DefaultIcon
  {
    var desc := ToLower(description);
    forall k | FirstMatch(desc, IconRules, k) ensures WeatherIcon(description) == IconRules[k].icon {
      if k > 0 { assert !Matches(desc, IconRules[0]); }
      if k > 1 { assert !Matches(desc, IconRules[1]); }
      if k > 2 { assert !Matches(desc, IconRules[2]); }
      if k > 3 { assert !Matches(desc, IconRules[3]); }
      if k > 4 { assert !Matches(desc, IconRules[4]); }
    }
    if forall k :: 0 <= k < |IconRules| ==> !Matches(desc, IconRules[k]) {
      assert !Matches(desc, IconRules[0]) && !Matches(desc, IconRules[1]) && !Matches(desc, IconRules[2]);
      assert !Matches(desc, IconRules[3]) && !Matches(desc, IconRules[4]) && !Matches(desc, IconRules[5]);
    }
  }

  /** English keywords match whatever their case, because the description is
      lower-cased before the search. */
  lemma WeatherIconIgnoresCase(description: string)
    ensures WeatherIcon(description) == WeatherIcon(ToLower(description))
  {
    ToLowerIdempotent(description);
  }

  /** A thunder-shower description, which has both the rain and the thunder
      keyword, gets the rain icon: rain is tried first. */
  lemma ThunderShowerShowsRain()
    ensures WeatherIcon("雷阵雨") == RainIcon
  {
    var desc := ToLower("雷阵雨");
    assert desc == "雷阵雨";
    NotContained(desc, "晴");
    NotContained(desc, "sun");
    NotContained(desc, "云");
    NotContained(desc, "cloud");
    assert desc[2..][..1] == "雨";
  }

  /** A string none of whose characters is the first character of `sub`
      does not contain `sub`. */
  lemma {:induction false} NotContained(s: string, sub: string)
    requires sub != [] && forall i :: 0 <= i < |s| ==> s[i] != sub[0]
    ensures !Contains(s, sub)
    decreases |s|
  {
    if |s| > 0 {
      assert |sub| <= |s| ==> s[..|sub|][0] != sub[0];
      NotContained(s[1..], sub);
    } else {
      assert !IsPrefix(sub, s);
    }
  }
}
