/** The client of the drinks map: lookup tables for drink and gender styles,
    the activity window, relative times, the located and active event
    filters, the leaderboard statistics and the local list update after a
    submit. The clock is a parameter. */
module DrinkingEarth {
  import opened Options
  import opened Seqs
  import opened Strings
  import opened JsNumbers
  import opened Sorting
  import opened DrinksApi

  // ---------------------------------------------------------------------------
  // Lookup tables

  datatype Style = Style(emoji: string, caption: string, color: string)

  const DrinkConfig: map<string, Style> := map[
    "beer" := Style("🍺", "Beer", "#fbbf24"),
    "wine" := Style("🍷", "Wine", "#dc2626"),
    "whisky" := Style("🥃", "Whisky", "#d97706"),
    "sake" := Style("🍶", "Sake", "#38bdf8"),
    "cocktail" := Style("🍸", "Cocktail", "#e879f9"),
    "spirits" := Style("🔥", "Spirits", "#a855f7"),
    "brandy" := Style("🥃", "Brandy", "#92400e"),
    "gin" := Style("🫒", "Gin", "#10b981"),
    "rum" := Style("🏴‍☠️", "Rum", "#78350f"),
    "vodka" := Style("❄️", "Vodka", "#60a5fa"),
    "baijiu" := Style("🏮", "Baijiu", "#ef4444"),
    "other" := Style("🥂", "Other", "#22c55e")
  ]

  const GenderConfig: map<string, Style> := map[
    "male" := Style("👨", "Male", "#3b82f6"),
    "female" := Style("👩", "Female", "#ec4899"),
    "other" := Style("🧑", "Other", "#8b5cf6")
  ]

  /** `getDrink`: the style of a drink type, the "other" style for unknown types. */
  function GetDrink(drinkType: string): (s: Style)
    ensures drinkType in DrinkConfig ==> s == DrinkConfig[drinkType]
    ensures drinkType !in DrinkConfig ==> s == DrinkConfig["other"]
  {
    if drinkType in DrinkConfig then DrinkConfig[drinkType] else DrinkConfig["other"]
  }

  /** `getGender`: the style of a gender, null for anything else. */
  function GetGender(g: Option<string>): (s: Option<Style>)
    ensures s.Some? <==> g.Some? && g.value in GenderConfig
    ensures s.Some? ==> s.value == GenderConfig[g.value]
  {
    if g.Some? && g.value in GenderConfig then Some(GenderConfig[g.value]) else None
  }

  /** The drink types the endpoint stores are exactly the configured ones,
      so no stored event falls back to the "other" style unless it is "other". */
  lemma DrinkConfigMatchesAllowedTypes()
    ensures forall t :: t in AllowedTypes <==> t in DrinkConfig
    ensures forall t :: t in AllowedTypes ==> GetDrink(t) == DrinkConfig[t]
  {
  }

  /** The genders the client styles are exactly the ones the endpoint keeps. */
  lemma GenderConfigMatchesEndpoint(g: Option<string>)
    ensures GetGender(g).Some? <==> ParseGender(g).Some?
  {
  }

  // ---------------------------------------------------------------------------
  // Time

  const ActiveWindow: int := 30 * 60 * 1000
  const MinuteMs: int := 60000
  const HourMs: int := 3600000

  /** `isActive`: created less than 30 minutes before `now`; so an event is
      active exactly when its relative time shows fewer than 30 minutes. */
  predicate IsActive(e: DrinkEvent, now: int)
    ensures IsActive(e, now) <==> MinutesSince(now, e.createdAt) < 30
  {
    now - e.createdAt < ActiveWindow
  }

  /** `Math.floor((now - ts) / 60000)`. */
  function MinutesSince(now: int, ts: int): (m: int)
    ensures m * MinuteMs <= now - ts < (m + 1) * MinuteMs
  {
    (now - ts) / MinuteMs
  }

  /** Floor division twice is floor division by the product. */
  lemma FloorTwice(d: int)
    ensures (d / MinuteMs) / 60 == d / HourMs
  {
    var m := d / MinuteMs;
    var h := m / 60;
    assert m * MinuteMs <= d < (m + 1) * MinuteMs;
    assert h * 60 <= m < (h + 1) * 60;
    assert h * HourMs <= d by {
      assert h * HourMs == (h * 60) * MinuteMs;
    }
    assert d < (h + 1) * HourMs by {
      assert (h + 1) * HourMs == ((h + 1) * 60) * MinuteMs;
      assert m + 1 <= (h + 1) * 60;
    }
  }

  /** `timeAgo`: under a minute is "just now", under an hour is whole minutes,
      otherwise whole hours, always rounded down. */
  function TimeAgo(now: int, ts: int): (r: string)
    ensures now - ts < MinuteMs ==> r == "just now"
    ensures MinuteMs <= now - ts < HourMs ==> r == NatToString((now - ts) / MinuteMs) + "m ago"
    ensures now - ts >= HourMs ==> r == NatToString((now - ts) / HourMs) + "h ago"
  {
    var mins := MinutesSince(now, ts);
    if mins < 1 then "just now"
    else if mins < 60 then NatToString(mins) + "m ago"
    else
      FloorTwice(now - ts);
      NatToString(mins / 60) + "h ago"
  }

  // ---------------------------------------------------------------------------
  // Filters and globe points

  /** `typeof lat === 'number' && typeof lng === 'number'`; NaN is a number too. */
  predicate Located(e: DrinkEvent)
  {
    e.lat.Some? && e.lng.Some?
  }

  /** `validEvents`: every located event, as often as it occurs. */
  function ValidEvents(events: seq<DrinkEvent>): (r: seq<DrinkEvent>)
    ensures |r| <= |events|
    ensures multiset(r) <= multiset(events)
    ensures forall i :: 0 <= i < |r| ==> Located(r[i])
    ensures forall e :: e in events && Located(e) ==> e in r
    ensures forall e :: multiset(r)[e] == if Located(e) then multiset(events)[e] else 0
  {
    Filter(events, Located)
  }

  /** The located events keep the order they arrived in. */
  lemma ValidEventsAppend(a: seq<DrinkEvent>, b: seq<DrinkEvent>)
    ensures ValidEvents(a + b) == ValidEvents(a) + ValidEvents(b)
  {
    FilterAppend(a, b, Located);
  }

  /** `validEvents.filter(isActive)`: every active event, as often as it occurs. */
  function ActiveEvents(valid: seq<DrinkEvent>, now: int): (r: seq<DrinkEvent>)
    ensures |r| <= |valid|
    ensures multiset(r) <= multiset(valid)
    ensures forall i :: 0 <= i < |r| ==> IsActive(r[i], now)
    ensures forall e :: e in valid && IsActive(e, now) ==> e in r
    ensures forall e :: multiset(r)[e] == if IsActive(e, now) then multiset(valid)[e] else 0
  {
    Filter(valid, e => IsActive(e, now))
  }

  /** The active events keep the order of the valid ones. */
  lemma ActiveEventsAppend(a: seq<DrinkEvent>, b: seq<DrinkEvent>, now: int)
    ensures ActiveEvents(a + b, now) == ActiveEvents(a, now) + ActiveEvents(b, now)
  {
    FilterAppend(a, b, e => IsActive(e, now));
  }

  /** The active events are located, active, and drawn from the events; so
      there are never more active than located, nor more located than all. */
  lemma ActiveWithinValid(events: seq<DrinkEvent>, now: int)
    ensures var valid := ValidEvents(events);
      var active := ActiveEvents(valid, now);
      && multiset(active) <= multiset(valid) <= multiset(events)
      && |active| <= |valid| <= |events|
      && (forall i :: 0 <= i < |active| ==> Located(active[i]) && IsActive(active[i], now))
  {
    var valid := ValidEvents(events);
    var active := ActiveEvents(valid, now);
    forall i | 0 <= i < |active| ensures Located(active[i]) {
      assert active[i] in multiset(active);
    }
  }

  datatype Point = Point(lat: Num, lng: Num, size: real, color: string, event: DrinkEvent)

  /** The globe point of a located event: large while active, coloured by drink. */
  function PointOf(e: DrinkEvent, now: int): (p: Point)
    requires Located(e)
    ensures p.event == e && p.lat == e.lat.value && p.lng == e.lng.value
    ensures p.size == (if IsActive(e, now) then 1.5 else 0.5)
    ensures p.color == GetDrink(e.drinkType).color
  {
    Point(e.lat.value, e.lng.value, if IsActive(e, now) then 1.5 else 0.5, GetDrink(e.drinkType).color, e)
  }

  /** `pointsData`: one point per located event, in order. */
  function PointsData(events: seq<DrinkEvent>, now: int): (r: seq<Point>)
    ensures |r| == |ValidEvents(events)|
    ensures forall i :: 0 <= i < |r| ==> r[i] == PointOf(ValidEvents(events)[i], now)
  {
    var valid := ValidEvents(events);
    seq(|valid|, i requires 0 <= i < |valid| => PointOf(valid[i], now))
  }

  // ---------------------------------------------------------------------------
  // Tallies: a string-keyed counting object, in key insertion order

  type Tally = seq<(string, nat)>

  predicate DistinctKeys(t: Tally)
  {
    forall i, j :: 0 <= i < j < |t| ==> t[i].0 != t[j].0
  }

  function KeySet(t: Tally): set<string>
  {
    set i | 0 <= i < |t| :: t[i].0
  }

  /** `obj[k] || 0`. */
  function CountOf(t: Tally, k: string): nat
    decreases |t|
  {
    if |t| == 0 then 0 else if t[0].0 == k then t[0].1 else CountOf(t[1..], k)
  }

  /** The sum of all counts. */
  function Total(t: Tally): nat
    decreases |t|
  {
    if |t| == 0 then 0 else t[0].1 + Total(t[1..])
  }

  /** `obj[k] = (obj[k] || 0) + 1`: an existing key keeps its place, a new one goes last. */
  function Bump(t: Tally, k: string): (r: Tally)
    ensures |r| == if k in KeySet(t) then |t| else |t| + 1
    decreases |t|
  {
    if |t| == 0 then [(k, 1)]
    else if t[0].0 == k then [(k, t[0].1 + 1)] + t[1..]
    else
      assert KeySet(t) == {t[0].0} + KeySet(t[1..]) by {
        forall x | x in KeySet(t) ensures x in {t[0].0} + KeySet(t[1..]) {
          var i :| 0 <= i < |t| && t[i].0 == x;
          if i > 0 { assert t[1..][i - 1].0 == x; }
        }
        forall x | x in KeySet(t[1..]) ensures x in KeySet(t) {
          var i :| 0 <= i < |t[1..]| && t[1..][i].0 == x;
          assert t[i + 1].0 == x;
        }
      }
      [t[0]] + Bump(t[1..], k)
  }

  lemma KeySetCons(t: Tally)
    requires |t| > 0
    ensures KeySet(t) == {t[0].0} + KeySet(t[1..])
  {
    forall x | x in KeySet(t) ensures x in {t[0].0} + KeySet(t[1..]) {
      var i :| 0 <= i < |t| && t[i].0 == x;
      if i > 0 { assert t[1..][i - 1].0 == x; }
    }
    forall x | x in KeySet(t[1..]) ensures x in KeySet(t) {
      var i :| 0 <= i < |t[1..]| && t[1..][i].0 == x;
      assert t[i + 1].0 == x;
    }
  }

  lemma HeadKeyNotInRest(t: Tally)
    requires |t| > 0 && DistinctKeys(t)
    ensures t[0].0 !in KeySet(t[1..])
  {
  }

  lemma {:induction false} BumpFacts(t: Tally, k: string)
    ensures forall j :: CountOf(Bump(t, k), j) == CountOf(t, j) + (if j == k then 1 else 0)
    ensures Total(Bump(t, k)) == Total(t) + 1
    ensures KeySet(Bump(t, k)) == KeySet(t) + {k}
    ensures DistinctKeys(t) ==> DistinctKeys(Bump(t, k))
    decreases |t|
  {
    var r := Bump(t, k);
    if |t| == 0 {
      assert KeySet(r) == {k} by { KeySetCons(r); }
    } else if t[0].0 == k {
      KeySetCons(t);
      KeySetCons(r);
      assert r[1..] == t[1..];
    } else {
      BumpFacts(t[1..], k);
      KeySetCons(t);
      KeySetCons(r);
      assert r[1..] == Bump(t[1..], k);
      if DistinctKeys(t) {
        assert DistinctKeys(t[1..]);
        HeadKeyNotInRest(t);
        assert forall j :: 0 < j < |r| ==> r[j].0 in KeySet(r[1..]) by {
          forall j | 0 < j < |r| ensures r[j].0 in KeySet(r[1..]) {
            assert r[1..][j - 1] == r[j];
          }
        }
        assert t[0].0 !in KeySet(r[1..]);
      }
    }
  }

  /** The occurrences of `k` in `ks`. */
  function Occurrences(ks: seq<string>, k: string): nat
    decreases |ks|
  {
    if |ks| == 0 then 0 else Occurrences(ks[..|ks| - 1], k) + (if ks[|ks| - 1] == k then 1 else 0)
  }

  /** The counting object built from the keys in order. */
  function TallyOf(ks: seq<string>): Tally
    decreases |ks|
  {
    if |ks| == 0 then [] else Bump(TallyOf(ks[..|ks| - 1]), ks[|ks| - 1])
  }

  /** The counting object counts every key exactly, has each key once, has
      exactly the keys that occur, and its counts add up to the number of keys. */
  lemma {:induction false} TallyFacts(ks: seq<string>)
    ensures forall k :: CountOf(TallyOf(ks), k) == Occurrences(ks, k)
    ensures Total(TallyOf(ks)) == |ks|
    ensures DistinctKeys(TallyOf(ks))
    ensures KeySet(TallyOf(ks)) == set k | k in ks
    decreases |ks|
  {
    if |ks| > 0 {
      var pre := ks[..|ks| - 1];
      TallyFacts(pre);
      BumpFacts(TallyOf(pre), ks[|ks| - 1]);
      assert ks == pre + [ks[|ks| - 1]];
      assert (set k | k in ks) == (set k | k in pre) + {ks[|ks| - 1]};
    }
  }

  /** A tally with distinct keys has as many entries as keys. */
  lemma {:induction false} DistinctKeysCount(t: Tally)
    requires DistinctKeys(t)
    ensures |KeySet(t)| == |t|
    decreases |t|
  {
    if |t| > 0 {
      KeySetCons(t);
      assert DistinctKeys(t[1..]);
      DistinctKeysCount(t[1..]);
      HeadKeyNotInRest(t);
    }
  }

  // ---------------------------------------------------------------------------
  // Statistics

  /** `if (e.country)`: present and not empty. */
  predicate Truthy(s: Option<string>)
  {
    s.Some? && s.value != ""
  }

  /** The drink type of every event, in event order. */
  function DrinkKeys(events: seq<DrinkEvent>): (ks: seq<string>)
    ensures |ks| == |events|
    ensures forall i :: 0 <= i < |events| ==> ks[i] == events[i].drinkType
    decreases |events|
  {
    if |events| == 0 then [] else DrinkKeys(events[..|events| - 1]) + [events[|events| - 1].drinkType]
  }

  predicate HasCountry(e: DrinkEvent)
  {
    Truthy(e.country)
  }

  predicate HasCity(e: DrinkEvent)
  {
    Truthy(e.city)
  }

  function CountryKeys(events: seq<DrinkEvent>): seq<string>
    decreases |events|
  {
    if |events| == 0 then []
    else
      var e := events[|events| - 1];
      CountryKeys(events[..|events| - 1]) + (if Truthy(e.country) then [e.country.value] else [])
  }

  function CityKeys(events: seq<DrinkEvent>): seq<string>
    decreases |events|
  {
    if |events| == 0 then []
    else
      var e := events[|events| - 1];
      CityKeys(events[..|events| - 1]) + (if Truthy(e.city) then [e.city.value] else [])
  }

  /** The country keys are the truthy country names, in event order: the
      country of each event that has one. */
  lemma {:induction false} CountryKeysInOrder(events: seq<DrinkEvent>)
    ensures var ks, named := CountryKeys(events), Filter(events, HasCountry);
      && |ks| == |named|
      && forall i :: 0 <= i < |ks| ==> ks[i] == named[i].country.value
    decreases |events|
  {
    if |events| > 0 {
      var pre, e := events[..|events| - 1], events[|events| - 1];
      assert events == pre + [e];
      FilterSnoc(pre, e, HasCountry);
      CountryKeysInOrder(pre);
    }
  }

  /** The city keys are the truthy city names, in event order: the city of
      each event that has one. */
  lemma {:induction false} CityKeysInOrder(events: seq<DrinkEvent>)
    ensures var ks, named := CityKeys(events), Filter(events, HasCity);
      && |ks| == |named|
      && forall i :: 0 <= i < |ks| ==> ks[i] == named[i].city.value
    decreases |events|
  {
    if |events| > 0 {
      var pre, e := events[..|events| - 1], events[|events| - 1];
      assert events == pre + [e];
      FilterSnoc(pre, e, HasCity);
      CityKeysInOrder(pre);
    }
  }

  /** The events whose gender is `g`. */
  function GenderCount(events: seq<DrinkEvent>, g: Gender): nat
    decreases |events|
  {
    if |events| == 0 then 0
    else GenderCount(events[..|events| - 1], g) + (if events[|events| - 1].gender == Some(g) then 1 else 0)
  }

  /** The events counted as other: any gender that is neither male nor female, or none. */
  function OtherCount(events: seq<DrinkEvent>): nat
    decreases |events|
  {
    if |events| == 0 then 0
    else
      var g := events[|events| - 1].gender;
      OtherCount(events[..|events| - 1]) + (if g != Some(Male) && g != Some(Female) then 1 else 0)
  }

  datatype Stats = Stats(
    total: nat,
    active: nat,
    topDrinks: Tally,
    topCountries: Tally,
    topCities: Tally,
    male: nat,
    female: nat,
    other: nat,
    countryCount: nat,
    cityCount: nat)

  function Count(entry: (string, nat)): int
  {
    entry.1
  }

  /** `sortEntries`: the ten entries with the highest counts, highest first. */
  function SortEntries(t: Tally): (r: Tally)
    ensures |r| == if |t| <= 10 then |t| else 10
    ensures SortedDesc(r, Count)
    ensures multiset(r) <= multiset(t)
    ensures forall x :: x in multiset(t) - multiset(r) ==> forall i :: 0 <= i < |r| ==> x.1 <= r[i].1
  {
    TopN(t, Count, 10)
  }

  /** The statistics of the events, as specified. */
  function StatsOf(events: seq<DrinkEvent>, now: int): (s: Stats)
    ensures s.male + s.female + s.other == s.total == |events|
    ensures s.active <= s.total
  {
    GenderCountsAddUp(events);
    ActiveWithinValid(events, now);
    var byCountry := TallyOf(CountryKeys(events));
    var byCity := TallyOf(CityKeys(events));
    Stats(
      |events|,
      |ActiveEvents(ValidEvents(events), now)|,
      SortEntries(TallyOf(DrinkKeys(events))),
      SortEntries(byCountry),
      SortEntries(byCity),
      GenderCount(events, Male),
      GenderCount(events, Female),
      OtherCount(events),
      |byCountry|,
      |byCity|)
  }

  lemma TallyOfSnoc(ks: seq<string>, k: string)
    ensures TallyOf(ks + [k]) == Bump(TallyOf(ks), k)
  {
    assert (ks + [k])[..|ks|] == ks;
  }

  /** The counting objects after one more event. */
  function BumpAll(c: (Tally, Tally, Tally), e: DrinkEvent): (Tally, Tally, Tally)
  {
    (Bump(c.0, e.drinkType),
     if Truthy(e.country) then Bump(c.1, e.country.value) else c.1,
     if Truthy(e.city) then Bump(c.2, e.city.value) else c.2)
  }

  function TalliesOf(events: seq<DrinkEvent>): (Tally, Tally, Tally)
  {
    (TallyOf(DrinkKeys(events)), TallyOf(CountryKeys(events)), TallyOf(CityKeys(events)))
  }

  /** One more event adds one to exactly one of the gender counters. */
  lemma GendersStep(events: seq<DrinkEvent>, i: nat)
    requires i < |events|
    ensures var g := events[i].gender;
      && GenderCount(events[..i + 1], Male) == GenderCount(events[..i], Male) + (if g == Some(Male) then 1 else 0)
      && GenderCount(events[..i + 1], Female)
         == GenderCount(events[..i], Female) + (if g == Some(Female) then 1 else 0)
      && OtherCount(events[..i + 1])
         == OtherCount(events[..i]) + (if g != Some(Male) && g != Some(Female) then 1 else 0)
  {
    assert events[..i + 1][..i] == events[..i];
  }

  lemma TalliesStep(events: seq<DrinkEvent>, i: nat)
    requires i < |events|
    ensures TalliesOf(events[..i + 1]) == BumpAll(TalliesOf(events[..i]), events[i])
  {
    var e := events[i];
    var pre, next := events[..i], events[..i + 1];
    assert next[..i] == pre && next[i] == e && |next| == i + 1;
    assert DrinkKeys(next) == DrinkKeys(pre) + [e.drinkType];
    assert CountryKeys(next) == CountryKeys(pre) + (if Truthy(e.country) then [e.country.value] else []);
    assert CityKeys(next) == CityKeys(pre) + (if Truthy(e.city) then [e.city.value] else []);
    TallyOfSnoc(DrinkKeys(events[..i]), e.drinkType);
    if Truthy(e.country) {
      TallyOfSnoc(CountryKeys(events[..i]), e.country.value);
    } else {
      assert CountryKeys(next) == CountryKeys(pre);
    }
    if Truthy(e.city) {
      TallyOfSnoc(CityKeys(events[..i]), e.city.value);
    } else {
      assert CityKeys(next) == CityKeys(pre);
    }
  }

  /** `stats`: one pass over the events updating the counting objects and
      the gender counters. */
  method ComputeStats(events: seq<DrinkEvent>, now: int) returns (s: Stats)
    ensures s == StatsOf(events, now)
  {
    var byDrink: Tally := [];
    var byCountry: Tally := [];
    var byCity: Tally := [];
    var male: nat, female: nat, other: nat := 0, 0, 0;
    for i := 0 to |events|
      invariant (byDrink, byCountry, byCity) == TalliesOf(events[..i])
      invariant male == GenderCount(events[..i], Male)
      invariant female == GenderCount(events[..i], Female)
      invariant other == OtherCount(events[..i])
    {
      var e := events[i];
      TalliesStep(events, i);
      GendersStep(events, i);
      byDrink := Bump(byDrink, e.drinkType);
      if Truthy(e.country) {
        byCountry := Bump(byCountry, e.country.value);
      }
      if Truthy(e.city) {
        byCity := Bump(byCity, e.city.value);
      }
      if e.gender == Some(Male) {
        male := male + 1;
      } else if e.gender == Some(Female) {
        female := female + 1;
      } else {
        other := other + 1;
      }
      assert (byDrink, byCountry, byCity) == BumpAll(TalliesOf(events[..i]), e);
    }
    assert events[..|events|] == events;
    var active := ActiveEvents(ValidEvents(events), now);
    s := Stats(|events|, |active|, SortEntries(byDrink), SortEntries(byCountry), SortEntries(byCity),
               male, female, other, |byCountry|, |byCity|);
  }

  lemma {:induction false} GenderCountsAddUp(events: seq<DrinkEvent>)
    ensures GenderCount(events, Male) + GenderCount(events, Female) + OtherCount(events) == |events|
    decreases |events|
  {
    if |events| > 0 {
      GenderCountsAddUp(events[..|events| - 1]);
    }
  }

  /** What the statistics promise beyond the totals: the drink counts add up to the total,
      every event is counted under its own drink type, and the country and
      city counts are the numbers of distinct non-empty names. */
  lemma StatsFacts(events: seq<DrinkEvent>, now: int)
    ensures var s := StatsOf(events, now);
      && Total(TallyOf(DrinkKeys(events))) == s.total
      && (forall k :: CountOf(TallyOf(DrinkKeys(events)), k) == Occurrences(DrinkKeys(events), k))
      && s.countryCount == |set k | k in CountryKeys(events)|
      && s.cityCount == |set k | k in CityKeys(events)|
      && |s.topDrinks| <= 10 && |s.topCountries| <= 10 && |s.topCities| <= 10
  {
    TallyFacts(DrinkKeys(events));
    TallyFacts(CountryKeys(events));
    TallyFacts(CityKeys(events));
    DistinctKeysCount(TallyOf(CountryKeys(events)));
    DistinctKeysCount(TallyOf(CityKeys(events)));
  }

  // ---------------------------------------------------------------------------
  // Submitting

  const MaxLocalEvents: nat := 500

  /** `[event, ...prev].slice(0, 500)`: the new event first, then the newest
      of the previous list in order. */
  function Prepend(e: DrinkEvent, events: seq<DrinkEvent>): (r: seq<DrinkEvent>)
    ensures 1 <= |r| <= MaxLocalEvents
    ensures r[0] == e
    ensures r[1..] == Take(events, MaxLocalEvents - 1)
  {
    var r := Take([e] + events, MaxLocalEvents);
    assert r[1..] == ([e] + events)[1..|r|];
    assert ([e] + events)[1..] == events;
    r
  }

  /** `handleSubmit`: the list changes only when the response carries an
      event, and then by `Prepend`; a failed request leaves it as it was. */
  function AfterSubmit(events: seq<DrinkEvent>, response: Option<PostResult>): (r: seq<DrinkEvent>)
    ensures response.Some? && response.value.Created? ==> r == Prepend(response.value.event, events)
    ensures !(response.Some? && response.value.Created?) ==> r == events
  {
    if response.Some? && response.value.Created? then Prepend(response.value.event, events) else events
  }
}
