/** The weather service: placeholder data for farmers without a usable
    location or without an API key, the grouping of the 3-hourly forecast
    into days, the alert thresholds and the farming-advice rules. The HTTP
    responses, the clock and ISO date rendering are parameters. */
module Weather {
  import opened Wrappers
  import opened Entities
  import opened Text

  datatype Forecast = Forecast(date: string, tempHigh: int, tempLow: int, condition: string, precipitation: int)

  /** The alert types the service issues (`heat_wave`, `high_humidity`,
      `strong_wind`), declared in the order the checks run. */
  datatype AlertKind = HeatWave | HighHumidity | StrongWind

  datatype Severity = High | Medium

  /** `type` is a keyword, so an alert's type is its `kind`. */
  datatype Alert = Alert(kind: AlertKind, severity: Severity, message: string, startTime: string, endTime: string)

  datatype WeatherData = WeatherData(
    location: string,
    temperature: int,
    condition: string,
    humidity: int,
    windSpeed: int,
    forecast: seq<Forecast>,
    alerts: seq<Alert>,
    farmingAdvice: string)

  /** The current-conditions response: `main.temp` (Celsius),
      `main.humidity` (percent), `wind.speed` (metres per second),
      `weather[0].main` and `weather[0].description`. */
  datatype Reading = Reading(temp: real, humidity: int, windSpeed: real, main: string, description: string)

  /** `Math.round`: the nearest integer, halves rounded up. */
  function Round(x: real): (n: int)
    ensures n as real - 0.5 <= x < n as real + 0.5
  {
    (x + 0.5).Floor
  }

  lemma RoundMonotone(x: real, y: real)
    requires x <= y
    ensures Round(x) <= Round(y)
  {
  }

  // ---------------------------------------------------------------------
  // Placeholder data

  const PlaceholderAdvice := "Good conditions for irrigation today. Check soil moisture levels."
  const MissingLocationAdvice := "Please update your location in your profile to get accurate weather information and farming advice."
  const MissingLocationCondition := "Weather data unavailable - please update your location"

  /** `farmer.district && farmer.state`. */
  predicate HasLocation(f: Farmer)
  {
    Truthy(f.district) && Truthy(f.state)
  }

  /** `getMockWeatherData`. `dateIn(n)` is the ISO date (`YYYY-MM-DD`) `n`
      days from now. */
  function MockWeather(f: Farmer, dateIn: nat -> string): (r: WeatherData)
    ensures HasLocation(f) ==> r.location == f.district.value + ", " + f.state.value
    ensures !HasLocation(f) && Truthy(f.state) ==> r.location == f.state.value
    ensures !Truthy(f.state) ==> r.location == "Location not set"
    ensures HasLocation(f) ==> r.temperature == 28 && r.humidity == 65 && r.windSpeed == 12
    ensures !HasLocation(f) ==> r.temperature == 0 && r.humidity == 0 && r.windSpeed == 0
    ensures HasLocation(f) <==> r.farmingAdvice == PlaceholderAdvice
    ensures HasLocation(f) <==> r.condition == "Partly Cloudy"
    ensures |r.forecast| == 3 && r.alerts == []
    ensures forall i :: 0 <= i < 3 ==>
      r.forecast[i].date == dateIn(i + 1) && r.forecast[i].tempLow < r.forecast[i].tempHigh
  {
    var located := HasLocation(f);
    var location :=
      if located then f.district.value + ", " + f.state.value
      else if Truthy(f.state) then f.state.value
      else "Location not set";
    assert |PlaceholderAdvice| != |MissingLocationAdvice|;
    assert |"Partly Cloudy"| != |MissingLocationCondition|;
    WeatherData(
      location,
      if located then 28 else 0,
      if located then "Partly Cloudy" else MissingLocationCondition,
      if located then 65 else 0,
      if located then 12 else 0,
      [ Forecast(dateIn(1), 30, 22, "Sunny", 0),
        Forecast(dateIn(2), 29, 21, "Partly Cloudy", 10),
        Forecast(dateIn(3), 27, 20, "Light Rain", 60) ],
      [],
      if located then PlaceholderAdvice else MissingLocationAdvice)
  }

  // ---------------------------------------------------------------------
  // Forecast grouping

  /** One 3-hourly entry of the forecast `list`: `dt_txt`, `main.temp`,
      `weather[0].description` and `rain['3h']` (absent when the entry has
      no rain block or no 3-hour amount). */
  datatype ForecastItem = ForecastItem(dtTxt: string, temp: real, description: string, rain: Option<real>)

  /** `s.split(' ')[0]`: everything before the first space. */
  function DatePart(s: string): string
    decreases |s|
  {
    if |s| == 0 || s[0] == ' ' then "" else [s[0]] + DatePart(s[1..])
  }

  /** The date is the longest space-free prefix of `dt_txt`. */
  lemma {:induction false} DatePartIsPrefix(s: string)
    ensures |DatePart(s)| <= |s| && DatePart(s) == s[..|DatePart(s)|]
    ensures forall i :: 0 <= i < |DatePart(s)| ==> DatePart(s)[i] != ' '
    ensures |DatePart(s)| < |s| ==> s[|DatePart(s)|] == ' '
    decreases |s|
  {
    if |s| > 0 && s[0] != ' ' {
      DatePartIsPrefix(s[1..]);
      assert DatePart(s) == [s[0]] + DatePart(s[1..]);
    }
  }

  function DateOf(it: ForecastItem): string
  {
    DatePart(it.dtTxt)
  }

  function RainOf(it: ForecastItem): real
  {
    it.rain.GetOr(0.0)
  }

  /** An entry of `dailyData`: the temperatures and conditions of one
      date's readings, in reading order, and their summed rain. */
  datatype Day = Day(date: string, temps: seq<real>, conditions: seq<string>, precipitation: real)

  /** The body of the `forEach` for a reading whose date already has an
      entry (a new entry starts from no readings and zero rain). */
  function AddReading(day: Day, it: ForecastItem): Day
  {
    Day(day.date, day.temps + [it.temp], day.conditions + [it.description], day.precipitation + RainOf(it))
  }

  /** Position of the entry for `date`, or `|days|` when there is none. */
  function DayIndex(days: seq<Day>, date: string): (k: nat)
    ensures k <= |days|
    ensures forall j :: 0 <= j < k ==> days[j].date != date
    ensures k < |days| ==> days[k].date == date
    decreases |days|
  {
    if |days| == 0 then 0
    else if days[0].date == date then 0
    else 1 + DayIndex(days[1..], date)
  }

  /** One step of the `forEach`: the entry for the reading's date gets the
      reading; a date not seen before gets a new entry at the end (object
      keys enumerate in insertion order). */
  function Record(days: seq<Day>, it: ForecastItem): seq<Day>
  {
    var k := DayIndex(days, DateOf(it));
    if k == |days| then days + [AddReading(Day(DateOf(it), [], [], 0.0), it)]
    else days[k := AddReading(days[k], it)]
  }

  /** `dailyData` after the `forEach` over `items`, as `Object.values`. */
  function Collect(items: seq<ForecastItem>): seq<Day>
    decreases |items|
  {
    if |items| == 0 then [] else Record(Collect(items[..|items| - 1]), items[|items| - 1])
  }

  // Reference definitions: the distinct dates in first-seen order and the
  // readings of each date.

  function SeenDates(items: seq<ForecastItem>): seq<string>
    decreases |items|
  {
    if |items| == 0 then []
    else
      var ds := SeenDates(items[..|items| - 1]);
      if DateOf(items[|items| - 1]) in ds then ds else ds + [DateOf(items[|items| - 1])]
  }

  function ReadingsOn(items: seq<ForecastItem>, date: string): seq<ForecastItem>
    decreases |items|
  {
    if |items| == 0 then []
    else
      ReadingsOn(items[..|items| - 1], date) +
      (if DateOf(items[|items| - 1]) == date then [items[|items| - 1]] else [])
  }

  function Temps(rs: seq<ForecastItem>): (t: seq<real>)
    ensures |t| == |rs|
    ensures forall i :: 0 <= i < |rs| ==> t[i] == rs[i].temp
  {
    seq(|rs|, i requires 0 <= i < |rs| => rs[i].temp)
  }

  function Conditions(rs: seq<ForecastItem>): (c: seq<string>)
    ensures |c| == |rs|
    ensures forall i :: 0 <= i < |rs| ==> c[i] == rs[i].description
  {
    seq(|rs|, i requires 0 <= i < |rs| => rs[i].description)
  }

  function RainSum(rs: seq<ForecastItem>): real
    decreases |rs|
  {
    if |rs| == 0 then 0.0 else RainSum(rs[..|rs| - 1]) + RainOf(rs[|rs| - 1])
  }

  /** What a day's entry should hold, given its readings. */
  function Summary(date: string, rs: seq<ForecastItem>): Day
  {
    Day(date, Temps(rs), Conditions(rs), RainSum(rs))
  }

  /** Index of the first reading on `date`, or `|items|`. */
  function FirstAt(items: seq<ForecastItem>, date: string): (k: nat)
    ensures k <= |items|
    ensures forall j :: 0 <= j < k ==> DateOf(items[j]) != date
    ensures k < |items| ==> DateOf(items[k]) == date
    decreases |items|
  {
    if |items| == 0 then 0
    else if DateOf(items[0]) == date then 0
    else 1 + FirstAt(items[1..], date)
  }

  lemma {:induction false} FirstAtPrefix(items: seq<ForecastItem>, n: nat, date: string)
    requires n <= |items|
    requires FirstAt(items[..n], date) < n
    ensures FirstAt(items, date) == FirstAt(items[..n], date)
  {
    var k := FirstAt(items[..n], date);
    assert items[..n][k] == items[k];
    forall j | 0 <= j < k ensures DateOf(items[j]) != date {
      assert items[..n][j] == items[j];
    }
  }

  /** Adding a reading at the end moves a date's first index only when
      the date had no reading yet. */
  lemma {:induction false} FirstAtSnoc(items: seq<ForecastItem>, date: string)
    requires |items| > 0
    ensures var n := |items| - 1;
      FirstAt(items, date) ==
        if FirstAt(items[..n], date) < n then FirstAt(items[..n], date)
        else if DateOf(items[n]) == date then n
        else |items|
  {
    var n := |items| - 1;
    var init := items[..n];
    if FirstAt(init, date) < n {
      FirstAtPrefix(items, n, date);
    } else {
      forall j | 0 <= j < n ensures DateOf(items[j]) != date {
        assert init[j] == items[j];
      }
    }
  }

  /** The seen dates are exactly the dates that have a reading. */
  lemma {:induction false} SeenDateIff(items: seq<ForecastItem>, date: string)
    ensures date in SeenDates(items) <==> FirstAt(items, date) < |items|
    decreases |items|
  {
    if |items| > 0 {
      SeenDateIff(items[..|items| - 1], date);
      FirstAtSnoc(items, date);
    }
  }

  /** The seen dates come in the order of their first reading, so they
      are distinct. */
  lemma {:induction false} SeenDatesInFirstSeenOrder(items: seq<ForecastItem>)
    ensures forall i, j :: 0 <= i < j < |SeenDates(items)| ==>
      FirstAt(items, SeenDates(items)[i]) < FirstAt(items, SeenDates(items)[j])
    ensures forall i, j :: 0 <= i < j < |SeenDates(items)| ==> SeenDates(items)[i] != SeenDates(items)[j]
    decreases |items|
  {
    if |items| > 0 {
      var n := |items| - 1;
      var init := items[..n];
      SeenDatesInFirstSeenOrder(init);
      var ds0 := SeenDates(init);
      var ds := SeenDates(items);
      forall i | 0 <= i < |ds0| ensures FirstAt(items, ds0[i]) == FirstAt(init, ds0[i]) < n {
        SeenDateIff(init, ds0[i]);
        FirstAtSnoc(items, ds0[i]);
      }
      if DateOf(items[n]) !in ds0 {
        SeenDateIff(init, DateOf(items[n]));
        FirstAtSnoc(items, DateOf(items[n]));
        assert ds == ds0 + [DateOf(items[n])];
      }
    }
  }

  /** A seen date's readings start with its first reading; an unseen date
      has none. */
  lemma {:induction false} ReadingsOnFirst(items: seq<ForecastItem>, date: string)
    ensures date in SeenDates(items) ==>
      && FirstAt(items, date) < |items|
      && |ReadingsOn(items, date)| > 0
      && ReadingsOn(items, date)[0] == items[FirstAt(items, date)]
    ensures date !in SeenDates(items) ==> ReadingsOn(items, date) == []
    decreases |items|
  {
    if |items| > 0 {
      var n := |items| - 1;
      var init := items[..n];
      ReadingsOnFirst(init, date);
      SeenDateIff(init, date);
      SeenDateIff(items, date);
      FirstAtSnoc(items, date);
      if date in SeenDates(init) {
        assert init[FirstAt(init, date)] == items[FirstAt(init, date)];
      }
    }
  }

  /** Adding a reading to a summary is summarising one more reading. */
  lemma SummaryAdd(date: string, rs: seq<ForecastItem>, it: ForecastItem)
    ensures Summary(date, rs + [it]) == AddReading(Summary(date, rs), it)
  {
    assert (rs + [it])[..|rs|] == rs;
    assert Temps(rs + [it]) == Temps(rs) + [it.temp];
    assert Conditions(rs + [it]) == Conditions(rs) + [it.description];
  }

  /** The grouping invariant: entry `i` summarises the readings of the
      `i`-th seen date. */
  ghost predicate Grouped(days: seq<Day>, items: seq<ForecastItem>)
  {
    && |days| == |SeenDates(items)|
    && forall i :: 0 <= i < |days| ==> days[i] == Summary(SeenDates(items)[i], ReadingsOn(items, SeenDates(items)[i]))
  }

  lemma ReadingsOnSnoc(items: seq<ForecastItem>, date: string)
    requires |items| > 0
    ensures DateOf(items[|items| - 1]) == date ==>
      ReadingsOn(items, date) == ReadingsOn(items[..|items| - 1], date) + [items[|items| - 1]]
    ensures DateOf(items[|items| - 1]) != date ==>
      ReadingsOn(items, date) == ReadingsOn(items[..|items| - 1], date)
  {
    var rs := ReadingsOn(items[..|items| - 1], date);
    assert rs + [] == rs;
  }

  /** A reading on a date already seen extends that date's entry. */
  lemma {:induction false} RecordSeenDate(items: seq<ForecastItem>)
    requires |items| > 0
    requires Grouped(Collect(items[..|items| - 1]), items[..|items| - 1])
    requires DateOf(items[|items| - 1]) in SeenDates(items[..|items| - 1])
    ensures Grouped(Collect(items), items)
  {
    var n := |items| - 1;
    var init := items[..n];
    var it := items[n];
    var d := DateOf(it);
    SeenDatesInFirstSeenOrder(init);
    var days := Collect(init);
    var ds := SeenDates(init);
    var k := DayIndex(days, d);
    assert SeenDates(items) == ds;
    assert k < |days| && ds[k] == d;
    var after := days[k := AddReading(days[k], it)];
    assert Collect(items) == after;
    forall i | 0 <= i < |days|
      ensures after[i] == Summary(ds[i], ReadingsOn(items, ds[i]))
    {
      ReadingsOnSnoc(items, ds[i]);
      if i == k {
        SummaryAdd(d, ReadingsOn(init, d), it);
      } else {
        assert ds[i] != d;
      }
    }
  }

  /** A reading on a new date adds an entry at the end. */
  lemma {:induction false} RecordNewDate(items: seq<ForecastItem>)
    requires |items| > 0
    requires Grouped(Collect(items[..|items| - 1]), items[..|items| - 1])
    requires DateOf(items[|items| - 1]) !in SeenDates(items[..|items| - 1])
    ensures Grouped(Collect(items), items)
  {
    var n := |items| - 1;
    var init := items[..n];
    var it := items[n];
    var d := DateOf(it);
    var days := Collect(init);
    var ds := SeenDates(init);
    var entry := AddReading(Day(d, [], [], 0.0), it);
    assert SeenDates(items) == ds + [d];
    NewDateIndex(days, ds, d);
    assert Collect(items) == Record(days, it) == days + [entry];
    NewDateEntry(items);
    OldDatesKeepEntries(items, days, ds);
  }

  /** The entries of the dates seen before a reading on another date keep
      summarising those dates' readings. */
  lemma OldDatesKeepEntries(items: seq<ForecastItem>, days: seq<Day>, ds: seq<string>)
    requires |items| > 0 && |days| == |ds|
    requires DateOf(items[|items| - 1]) !in ds
    requires forall i :: 0 <= i < |days| ==> days[i] == Summary(ds[i], ReadingsOn(items[..|items| - 1], ds[i]))
    ensures forall i :: 0 <= i < |days| ==> days[i] == Summary(ds[i], ReadingsOn(items, ds[i]))
  {
    forall i | 0 <= i < |days| ensures days[i] == Summary(ds[i], ReadingsOn(items, ds[i])) {
      ReadingsOnSnoc(items, ds[i]);
    }
  }

  /** A date none of the entries is for has no index among them. */
  lemma NewDateIndex(days: seq<Day>, ds: seq<string>, d: string)
    requires |days| == |ds|
    requires forall i :: 0 <= i < |days| ==> days[i].date == ds[i]
    requires d !in ds
    ensures DayIndex(days, d) == |days|
  {
    forall j | 0 <= j < |days| ensures days[j].date != d {
      assert days[j].date == ds[j];
    }
  }

  /** The entry opened for a reading on a new date summarises that one
      reading. */
  lemma NewDateEntry(items: seq<ForecastItem>)
    requires |items| > 0
    requires DateOf(items[|items| - 1]) !in SeenDates(items[..|items| - 1])
    ensures var d := DateOf(items[|items| - 1]);
      AddReading(Day(d, [], [], 0.0), items[|items| - 1]) == Summary(d, ReadingsOn(items, d))
  {
    var n := |items| - 1;
    var d := DateOf(items[n]);
    ReadingsOnFirst(items[..n], d);
    ReadingsOnSnoc(items, d);
    assert ReadingsOn(items, d) == [] + [items[n]];
    SummaryAdd(d, [], items[n]);
  }

  /** The fold computes, for each seen date in first-seen order, the
      summary of that date's readings. */
  lemma {:induction false} CollectIsGrouping(items: seq<ForecastItem>)
    ensures |Collect(items)| == |SeenDates(items)|
    ensures forall i :: 0 <= i < |Collect(items)| ==>
      Collect(items)[i] == Summary(SeenDates(items)[i], ReadingsOn(items, SeenDates(items)[i]))
    decreases |items|
  {
    if |items| > 0 {
      CollectIsGrouping(items[..|items| - 1]);
      if DateOf(items[|items| - 1]) in SeenDates(items[..|items| - 1]) {
        RecordSeenDate(items);
      } else {
        RecordNewDate(items);
      }
    }
  }

  function MaxOf(xs: seq<real>): (m: real)
    requires |xs| > 0
    ensures m in xs
    ensures forall i :: 0 <= i < |xs| ==> xs[i] <= m
    decreases |xs|
  {
    if |xs| == 1 then xs[0]
    else
      var rest := MaxOf(xs[1..]);
      if xs[0] >= rest then xs[0] else rest
  }

  function MinOf(xs: seq<real>): (m: real)
    requires |xs| > 0
    ensures m in xs
    ensures forall i :: 0 <= i < |xs| ==> m <= xs[i]
    decreases |xs|
  {
    if |xs| == 1 then xs[0]
    else
      var rest := MinOf(xs[1..]);
      if xs[0] <= rest then xs[0] else rest
  }

  /** The `map` over a day entry. */
  function Summarize(day: Day): (f: Forecast)
    requires |day.temps| > 0 && |day.conditions| > 0
    ensures f.date == day.date
    ensures f.tempLow <= f.tempHigh
  {
    RoundMonotone(MinOf(day.temps), MaxOf(day.temps));
    Forecast(day.date, Round(MaxOf(day.temps)), Round(MinOf(day.temps)), day.conditions[0], Round(day.precipitation))
  }

  /** `processForecastData`: `None` stands for a missing response or a
      response without `list`. */
  function ProcessForecast(data: Option<seq<ForecastItem>>): (r: seq<Forecast>)
    ensures data.None? ==> r == []
    ensures data.Some? ==> |r| == (if |SeenDates(data.value)| < 5 then |SeenDates(data.value)| else 5)
    ensures data.Some? ==> forall i :: 0 <= i < |r| ==>
      var rs := ReadingsOn(data.value, r[i].date);
      && r[i].date == SeenDates(data.value)[i]
      && |rs| > 0
      && r[i].tempLow <= r[i].tempHigh
      && r[i].tempHigh == Round(MaxOf(Temps(rs)))
      && r[i].tempLow == Round(MinOf(Temps(rs)))
      && r[i].condition == rs[0].description
      && r[i].precipitation == Round(RainSum(rs))
  {
    match data
    case None => []
    case Some(items) =>
      var days := Collect(items);
      CollectIsGrouping(items);
      var n := if |days| < 5 then |days| else 5;
      assert forall i :: 0 <= i < n ==> |days[i].temps| > 0 && |days[i].conditions| > 0 by {
        forall i | 0 <= i < n ensures |days[i].temps| > 0 && |days[i].conditions| > 0 {
          ReadingsOnFirst(items, SeenDates(items)[i]);
        }
      }
      seq(n, i requires 0 <= i < n => Summarize(days[i]))
  }

  // ---------------------------------------------------------------------
  // Alerts

  const HourMs := 3600000

  /** The wire name of an alert type. */
  function KindName(k: AlertKind): string
  {
    match k
    case HeatWave => "heat_wave"
    case HighHumidity => "high_humidity"
    case StrongWind => "strong_wind"
  }

  /** The position of an alert kind in the fixed order of the checks. */
  function KindRank(kind: AlertKind): int
  {
    match kind
    case HeatWave => 0
    case HighHumidity => 1
    case StrongWind => 2
  }

  /** How long an alert of each kind lasts, in hours. */
  function AlertHours(kind: AlertKind): int
  {
    match kind
    case HeatWave => 24
    case HighHumidity => 12
    case StrongWind => 6
  }

  function HeatAlert(now: int, iso: int -> string): Alert
  {
    Alert(HeatWave, High, "Extreme heat warning. Ensure adequate irrigation and protect livestock.",
          iso(now), iso(now + 24 * HourMs))
  }

  function HumidityAlert(now: int, iso: int -> string): Alert
  {
    Alert(HighHumidity, Medium, "High humidity may increase fungal disease risk in crops.",
          iso(now), iso(now + 12 * HourMs))
  }

  function WindAlert(now: int, iso: int -> string): Alert
  {
    Alert(StrongWind, Medium, "Strong winds may damage standing crops. Secure farm structures.",
          iso(now), iso(now + 6 * HourMs))
  }

  /** Each alert's kind comes strictly after the previous one's in the
      order of the checks, so no kind repeats. */
  predicate InCheckOrder(alerts: seq<Alert>)
  {
    forall i :: 0 < i < |alerts| ==> KindRank(alerts[i - 1].kind) < KindRank(alerts[i].kind)
  }

  predicate HasAlert(alerts: seq<Alert>, kind: AlertKind)
  {
    exists a :: a in alerts && a.kind == kind
  }

  /** `getWeatherAlerts`: `now` is the clock in milliseconds and `iso`
      renders a time as an ISO string. The wind threshold is in metres per
      second, before the km/h conversion. */
  function Alerts(w: Reading, now: int, iso: int -> string): (r: seq<Alert>)
    ensures |r| <= 3
    ensures HasAlert(r, HeatWave) <==> w.temp > 40.0
    ensures HasAlert(r, HighHumidity) <==> w.humidity > 80
    ensures HasAlert(r, StrongWind) <==> w.windSpeed > 10.0
    ensures InCheckOrder(r)
    ensures forall a :: a in r ==>
      && a.startTime == iso(now)
      && a.endTime == iso(now + AlertHours(a.kind) * HourMs)
      && (a.severity == High <==> a.kind == HeatWave)
  {
    // the three checks push in turn onto an initially empty list
    var h, u, v := HeatAlert(now, iso), HumidityAlert(now, iso), WindAlert(now, iso);
    if w.temp > 40.0 then
      if w.humidity > 80 then (if w.windSpeed > 10.0 then [h, u, v] else [h, u])
      else (if w.windSpeed > 10.0 then [h, v] else [h])
    else
      if w.humidity > 80 then (if w.windSpeed > 10.0 then [u, v] else [u])
      else (if w.windSpeed > 10.0 then [v] else [])
  }

  // ---------------------------------------------------------------------
  // Farming advice

  const RainAdvice := "Rain expected. Good time for sowing if soil conditions are suitable. Avoid heavy machinery use."
  const HeatAdvice := "High temperature alert. Increase irrigation frequency and provide shade for livestock."
  const CoolAdvice := "Cool weather. Good for post-harvest activities. Monitor crops for cold stress."
  const HumidAdvice := "High humidity detected. Monitor crops for fungal diseases and ensure good ventilation."

  predicate RainExpected(w: Reading)
  {
    Contains(ToLower(w.main), "rain")
  }

  /** `generateFarmingAdvice`: the first rule that applies, in the order
      rain, heat (above 35), cold (below 15), humidity (above 70). */
  function FarmingAdvice(w: Reading): (r: string)
    ensures r == RainAdvice <==> RainExpected(w)
    ensures r == HeatAdvice <==> !RainExpected(w) && w.temp > 35.0
    ensures r == CoolAdvice <==> !RainExpected(w) && w.temp < 15.0
    ensures r == HumidAdvice <==> !RainExpected(w) && 15.0 <= w.temp <= 35.0 && w.humidity > 70
    ensures r == PlaceholderAdvice <==> !RainExpected(w) && 15.0 <= w.temp <= 35.0 && w.humidity <= 70
  {
    assert |RainAdvice| == 95 && |HeatAdvice| == 86 && |CoolAdvice| == 78 &&
           |HumidAdvice| == 86 && |PlaceholderAdvice| == 65;
    assert HeatAdvice[85 - 1] != HumidAdvice[85 - 1];
    if RainExpected(w) then RainAdvice
    else if w.temp > 35.0 then HeatAdvice
    else if w.temp < 15.0 then CoolAdvice
    else if w.humidity > 70 then HumidAdvice
    else PlaceholderAdvice
  }

  /** A heat-wave alert without rain always comes with the heat advice. */
  lemma HeatAlertGetsHeatAdvice(w: Reading, now: int, iso: int -> string)
    requires HasAlert(Alerts(w, now, iso), HeatWave)
    requires !RainExpected(w)
    ensures FarmingAdvice(w) == HeatAdvice
  {
  }

  /** The placeholder for a located farmer is self-consistent: a reading of
      28 degrees, 65 percent humidity and 12 km/h of wind without rain
      raises no alert and gives the placeholder's advice. */
  lemma PlaceholderMatchesRules(f: Farmer, dateIn: nat -> string, now: int, iso: int -> string)
    requires HasLocation(f)
    ensures var w := Reading(28.0, 65, 12.0 / 3.6, "Clouds", "partly cloudy");
            && Alerts(w, now, iso) == MockWeather(f, dateIn).alerts
            && FarmingAdvice(w) == MockWeather(f, dateIn).farmingAdvice
  {
    var w := Reading(28.0, 65, 12.0 / 3.6, "Clouds", "partly cloudy");
    assert !RainExpected(w) by {
      var lowered := ToLower(w.main);
      assert forall i :: 0 <= i < |lowered| ==> lowered[i] != 'r';
      forall i | 0 <= i <= |lowered| - 4 ensures !OccursAt(lowered, "rain", i) {
        assert lowered[i..i + 4][0] == lowered[i];
      }
    }
  }

  // ---------------------------------------------------------------------
  // Current weather

  /** What the two requests returned when the current-conditions request
      succeeded: the reading, and the forecast (`None` when that request
      failed or had no `list`). */
  datatype Fetched = Fetched(current: Reading, forecast: Option<seq<ForecastItem>>)

  /** A nullable column in a template literal. */
  function Shown(s: Option<string>): string
  {
    s.GetOr("null")
  }

  /** `getCurrentWeather`: `fetched` is `None` when the current-conditions
      request failed or anything on the way threw; without a key, or on
      failure, the placeholder data is returned. */
  function CurrentWeather(f: Farmer, apiKey: string, fetched: Option<Fetched>, now: int,
                          iso: int -> string, dateIn: nat -> string): (r: WeatherData)
    ensures apiKey == "" || fetched.None? ==> r == MockWeather(f, dateIn)
    ensures apiKey != "" && fetched.Some? ==>
      var w := fetched.value.current;
      && r.location == Shown(f.district) + ", " + Shown(f.state)
      && r.temperature == Round(w.temp)
      && r.condition == w.description
      && r.humidity == w.humidity
      && r.windSpeed == Round(w.windSpeed * 3.6)
      && r.forecast == ProcessForecast(fetched.value.forecast)
      && r.alerts == Alerts(w, now, iso)
      && r.farmingAdvice == FarmingAdvice(w)
  {
    if apiKey == "" then MockWeather(f, dateIn)
    else
      match fetched
      case None => MockWeather(f, dateIn)
      case Some(Fetched(w, forecast)) =>
        WeatherData(
          Shown(f.district) + ", " + Shown(f.state),
          Round(w.temp),
          w.description,
          w.humidity,
          Round(w.windSpeed * 3.6),
          ProcessForecast(forecast),
          Alerts(w, now, iso),
          FarmingAdvice(w))
  }

  /** With a key and a successful request, a farmer without a district is
      shown as "null, <state>" rather than the placeholder's wording. */
  lemma LiveLocationWithoutDistrict(f: Farmer, fetched: Fetched, now: int, iso: int -> string, dateIn: nat -> string)
    requires f.district.None? && f.state == Some("Punjab")
    ensures CurrentWeather(f, "key", Some(fetched), now, iso, dateIn).location == "null, Punjab"
    ensures MockWeather(f, dateIn).location == "Punjab"
  {
  }
}
