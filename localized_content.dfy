// The pure helpers of useLocalizedContent (src/hooks/useLocalizedContent.ts):
// tPlural's option merge and formatRelativeTime's bucketing. The translation
// function `t` is not modelled; each helper returns the call it makes to `t`
// (the key and the options object), and the clock reading is a parameter.
module LocalizedContent {

  /** A value in the options object passed to `t`. */
  datatype OptionValue = Num(n: int) | Str(s: string)

  /** A request to the translation function: a key and its options. */
  datatype TCall = TCall(key: string, options: map<string, OptionValue>)

  const JustNowKey := "time.timeAgo.justNow"
  const MinutesAgoKey := "time.timeAgo.minutesAgo"
  const HoursAgoKey := "time.timeAgo.hoursAgo"
  const DaysAgoKey := "time.timeAgo.daysAgo"

  /** Milliseconds in a minute, `1000 * 60`. */
  const MillisPerMinute := 60000

  /** tPlural: `{count, ...options}` -- the options are spread after the
    * count, so a `count` among them wins. */
  function TPlural(key: string, count: int, options: map<string, OptionValue>): (r: TCall)
    ensures r.key == key
    ensures r.options.Keys == options.Keys + {"count"}
    ensures "count" in options ==> r.options["count"] == options["count"]
    ensures "count" !in options ==> r.options["count"] == Num(count)
    ensures forall k :: k in options ==> r.options[k] == options[k]
  {
    TCall(key, map["count" := Num(count)] + options)
  }

  /** Whole minutes elapsed, `Math.floor((now - date) / 60000)`; both times in
    * milliseconds. Dafny's division by a positive constant is floor division. */
  function ElapsedMinutes(nowMillis: int, dateMillis: int): (m: int)
    ensures m * MillisPerMinute <= nowMillis - dateMillis < (m + 1) * MillisPerMinute
  {
    (nowMillis - dateMillis) / MillisPerMinute
  }

  /** formatRelativeTime, as the call it makes to `t`. */
  function RelativeTime(nowMillis: int, dateMillis: int): (r: TCall)
    ensures r.key == JustNowKey || r.key == MinutesAgoKey || r.key == HoursAgoKey || r.key == DaysAgoKey
    ensures r.key == JustNowKey ==> r.options == map[]
    ensures r.key != JustNowKey ==> r.options.Keys == {"count"} && r.options["count"].Num? && r.options["count"].n >= 1
  {
    var minutes := ElapsedMinutes(nowMillis, dateMillis);
    if minutes < 1 then TCall(JustNowKey, map[])
    else if minutes < 60 then TPlural(MinutesAgoKey, minutes, map[])
    else if minutes < 1440 then TPlural(HoursAgoKey, minutes / 60, map[])
    else TPlural(DaysAgoKey, minutes / 1440, map[])
  }

  /** The count passed along with a relative-time key. */
  function CountOf(c: TCall): int
  {
    if "count" in c.options && c.options["count"].Num? then c.options["count"].n else 0
  }

  /** Less than a whole minute ago -- future dates included -- is "just now",
    * with no count. */
  lemma JustNowBelowAMinute(nowMillis: int, dateMillis: int)
    ensures RelativeTime(nowMillis, dateMillis).key == JustNowKey
        <==> nowMillis - dateMillis < MillisPerMinute
    ensures nowMillis - dateMillis < MillisPerMinute ==>
        RelativeTime(nowMillis, dateMillis).options == map[]
  {
  }

  /** Each bucket's key and the range its count lies in. */
  lemma RelativeTimeBuckets(nowMillis: int, dateMillis: int)
    ensures var r := RelativeTime(nowMillis, dateMillis);
            var m := ElapsedMinutes(nowMillis, dateMillis);
            (r.key == MinutesAgoKey <==> 1 <= m < 60) &&
            (r.key == HoursAgoKey <==> 60 <= m < 1440) &&
            (r.key == DaysAgoKey <==> 1440 <= m) &&
            (r.key == MinutesAgoKey ==> CountOf(r) == m) &&
            (r.key == HoursAgoKey ==> CountOf(r) == m / 60 && 1 <= CountOf(r) <= 23) &&
            (r.key == DaysAgoKey ==> CountOf(r) == m / 1440 && CountOf(r) >= 1)
  {
    var m := ElapsedMinutes(nowMillis, dateMillis);
    if 60 <= m < 1440 {
      assert 1 <= m / 60 <= 23;
    }
  }

  /** The position of a relative-time key, from "just now" to "days ago". */
  function Bucket(c: TCall): nat
  {
    if c.key == JustNowKey then 0
    else if c.key == MinutesAgoKey then 1
    else if c.key == HoursAgoKey then 2
    else 3
  }

  /** Moving the date further into the past never moves the answer to an
    * earlier bucket. */
  lemma OlderIsNeverFresher(nowMillis: int, earlier: int, later: int)
    requires earlier <= later
    ensures Bucket(RelativeTime(nowMillis, later)) <= Bucket(RelativeTime(nowMillis, earlier))
  {
    assert ElapsedMinutes(nowMillis, later) <= ElapsedMinutes(nowMillis, earlier);
  }
}
