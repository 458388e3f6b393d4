/**
 * `calcStats(leads, days)`: the dashboard statistics over a time window.
 * The wall clock is the parameter `now` (milliseconds since the epoch); a
 * lead's calendar day is the UTC day of its `receivedAt` instant.
 */
module Stats {
  import opened Js
  import opened Normalizer

  const MsPerDay: int := 86400000

  /** How many of the newest filtered leads the statistics carry. */
  const RecentLimit: nat := 50

  /** The UTC calendar day (days since the epoch) of an instant, as `toISOString().split('T')[0]` names it. */
  function DayOf(t: int): (d: int)
    ensures d * MsPerDay <= t < d * MsPerDay + MsPerDay
  {
    t / MsPerDay
  }

  /** Going back `i` whole days from an instant goes back `i` calendar days. */
  lemma DayOfShift(t: int, i: int)
    ensures DayOf(t - i * MsPerDay) == DayOf(t) - i
  {
    var q, r := t / MsPerDay, t % MsPerDay;
    assert t - i * MsPerDay == (q - i) * MsPerDay + r;
  }

  // ---------------------------------------------------------------------------
  // The time window
  // ---------------------------------------------------------------------------

  /** `leads.filter(l => new Date(l.receivedAt) >= cutoff)` */
  function Since(leads: seq<Lead>, cutoff: int): (r: seq<Lead>)
    ensures |r| <= |leads|
    ensures forall l :: l in r <==> l in leads && cutoff <= l.receivedAt
  {
    if leads == [] then []
    else if cutoff <= leads[0].receivedAt then [leads[0]] + Since(leads[1..], cutoff)
    else Since(leads[1..], cutoff)
  }

  /** The filter keeps the order of the leads: it distributes over concatenation. */
  lemma {:induction false} SinceAppend(a: seq<Lead>, b: seq<Lead>, cutoff: int)
    ensures Since(a + b, cutoff) == Since(a, cutoff) + Since(b, cutoff)
  {
    if a == [] {
      assert a + b == b;
    } else {
      assert (a + b)[0] == a[0] && (a + b)[1..] == a[1..] + b;
      SinceAppend(a[1..], b, cutoff);
    }
  }

  /** The leads `calcStats` looks at: all of them when `days` is 0, else those since `days` days before `now`. */
  function Window(leads: seq<Lead>, now: int, days: int): (r: seq<Lead>)
    ensures |r| <= |leads|
    ensures days == 0 ==> r == leads
    ensures days != 0 ==> forall l :: l in r <==> l in leads && now - days * MsPerDay <= l.receivedAt
  {
    if days == 0 then leads else Since(leads, now - days * MsPerDay)
  }

  /** A lead received at `now` itself is in the window of every period, after the older ones. */
  lemma {:induction false} FreshLeadInWindow(leads: seq<Lead>, l: Lead, now: int, days: int)
    requires l.receivedAt == now && days >= 0
    ensures Window(leads + [l], now, days) == Window(leads, now, days) + [l]
  {
    if days != 0 {
      var cutoff := now - days * MsPerDay;
      SinceAppend(leads, [l], cutoff);
      assert Since([l], cutoff) == [l] + Since([], cutoff);
    }
  }

  // ---------------------------------------------------------------------------
  // Counts
  // ---------------------------------------------------------------------------

  /** `l.email || l.phone` */
  predicate HasContact(l: Lead) {
    Truthy(l.email) || Truthy(l.phone)
  }

  /** `leads.filter(l => l.email || l.phone).length` */
  function ContactCount(leads: seq<Lead>): (n: nat)
    ensures n <= |leads|
  {
    if leads == [] then 0
    else ContactCount(leads[1..]) + if HasContact(leads[0]) then 1 else 0
  }

  /** `leads.filter(l => l.meetingBooked === true).length` */
  function MeetingCount(leads: seq<Lead>): (n: nat)
    ensures n <= |leads|
  {
    if leads == [] then 0
    else MeetingCount(leads[1..]) + if leads[0].meetingBooked then 1 else 0
  }

  /** Every lead is counted exactly when every lead has contact details; none exactly when none has. */
  lemma {:induction false} ContactCountExtremes(leads: seq<Lead>)
    ensures ContactCount(leads) == |leads| <==> forall i :: 0 <= i < |leads| ==> HasContact(leads[i])
    ensures ContactCount(leads) == 0 <==> forall i :: 0 <= i < |leads| ==> !HasContact(leads[i])
  {
    if leads != [] {
      ContactCountExtremes(leads[1..]);
      assert forall i :: 1 <= i < |leads| ==> leads[i] == leads[1..][i - 1];
    }
  }

  /** Every lead is counted exactly when every lead has a booked meeting; none exactly when none has. */
  lemma {:induction false} MeetingCountExtremes(leads: seq<Lead>)
    ensures MeetingCount(leads) == |leads| <==> forall i :: 0 <= i < |leads| ==> leads[i].meetingBooked
    ensures MeetingCount(leads) == 0 <==> forall i :: 0 <= i < |leads| ==> !leads[i].meetingBooked
  {
    if leads != [] {
      MeetingCountExtremes(leads[1..]);
      assert forall i :: 1 <= i < |leads| ==> leads[i] == leads[1..][i - 1];
    }
  }

  /** The counts add up over concatenation: one more lead adds one exactly when it qualifies. */
  lemma {:induction false} CountsAppend(a: seq<Lead>, b: seq<Lead>)
    ensures ContactCount(a + b) == ContactCount(a) + ContactCount(b)
    ensures MeetingCount(a + b) == MeetingCount(a) + MeetingCount(b)
  {
    if a == [] {
      assert a + b == b;
    } else {
      assert (a + b)[0] == a[0] && (a + b)[1..] == a[1..] + b;
      CountsAppend(a[1..], b);
    }
  }

  /** The number of leads received on calendar day `day`. */
  function CountOnDay(leads: seq<Lead>, day: int): nat {
    if leads == [] then 0
    else CountOnDay(leads[1..], day) + if DayOf(leads[0].receivedAt) == day then 1 else 0
  }

  /** The number of leads received on a calendar day in `[lo, hi)`. */
  function CountInDays(leads: seq<Lead>, lo: int, hi: int): (n: nat)
    ensures n <= |leads|
  {
    if leads == [] then 0
    else CountInDays(leads[1..], lo, hi) + if lo <= DayOf(leads[0].receivedAt) < hi then 1 else 0
  }

  /** Widening a day range by its next day adds that day's leads. */
  lemma {:induction false} CountInDaysExtend(leads: seq<Lead>, lo: int, hi: int)
    requires lo <= hi
    ensures CountInDays(leads, lo, hi + 1) == CountInDays(leads, lo, hi) + CountOnDay(leads, hi)
  {
    if leads != [] {
      CountInDaysExtend(leads[1..], lo, hi);
    }
  }

  // ---------------------------------------------------------------------------
  // Group counts
  // ---------------------------------------------------------------------------

  /** The sum of the counts in a dictionary of counts. */
  ghost function Total(m: map<string, nat>): nat
    decreases |m|
  {
    if m == map[] then 0
    else
      var k :| k in m;
      m[k] + Total(m - {k})
  }

  /** The sum does not depend on which key is taken out first. */
  lemma {:induction false} TotalRemove(m: map<string, nat>, k: string)
    requires k in m
    ensures Total(m) == m[k] + Total(m - {k})
    decreases |m|
  {
    var k' :| k' in m && Total(m) == m[k'] + Total(m - {k'});
    if k' != k {
      assert k in m - {k'} && k' in m - {k};
      TotalRemove(m - {k'}, k);
      TotalRemove(m - {k}, k');
      assert m - {k'} - {k} == m - {k} - {k'};
    }
  }

  /** `counts[k] = (counts[k] || 0) + 1` adds one to the sum. */
  lemma TotalIncrement(m: map<string, nat>, k: string)
    ensures Total(m[k := (if k in m then m[k] else 0) + 1]) == Total(m) + 1
  {
    var m' := m[k := (if k in m then m[k] else 0) + 1];
    TotalRemove(m', k);
    if k in m {
      TotalRemove(m, k);
      assert m' - {k} == m - {k};
    } else {
      assert m' - {k} == m;
    }
  }

  /** Counts seeded with zeros sum to zero. */
  lemma {:induction false} TotalOfZeros(m: map<string, nat>)
    requires forall k :: k in m ==> m[k] == 0
    ensures Total(m) == 0
    decreases |m|
  {
    if m != map[] {
      var k :| k in m;
      TotalRemove(m, k);
      TotalOfZeros(m - {k});
    }
  }

  /** Every key of `counts` is mapped to its number of occurrences in `keys`. */
  ghost predicate CountsOccurrences(counts: map<string, nat>, keys: seq<string>) {
    forall k :: k in counts ==> counts[k] == multiset(keys)[k]
  }

  /** Counting one more occurrence of `k` keeps the counts exact. */
  lemma CountStep(counts: map<string, nat>, keys: seq<string>, k: string)
    requires CountsOccurrences(counts, keys)
    requires k in counts || k !in multiset(keys)
    ensures CountsOccurrences(counts[k := (if k in counts then counts[k] else 0) + 1], keys + [k])
  {
    var counts' := counts[k := (if k in counts then counts[k] else 0) + 1];
    forall x | x in counts' ensures counts'[x] == multiset(keys + [k])[x] {
      assert multiset(keys + [k]) == multiset(keys) + multiset{k};
    }
  }

  /**
   * `counts` is the group count of `keys`: exactly the keys that occur, each
   * with its number of occurrences.
   */
  ghost predicate IsTally(counts: map<string, nat>, keys: seq<string>) {
    && (forall k :: k in counts <==> k in keys)
    && CountsOccurrences(counts, keys)
  }

  /** `counts` is the group count of `keys`, and its counts sum to the number of keys. */
  ghost predicate IsGroupCount(counts: map<string, nat>, keys: seq<string>) {
    IsTally(counts, keys) && Total(counts) == |keys|
  }

  /** `counts[k] = (counts[k] || 0) + 1` turns the group count of `keys` into that of `keys + [k]`. */
  lemma GroupCountStep(counts: map<string, nat>, keys: seq<string>, k: string)
    requires IsGroupCount(counts, keys)
    ensures IsGroupCount(counts[k := (if k in counts then counts[k] else 0) + 1], keys + [k])
  {
    assert k in multiset(keys) <==> k in keys;
    TotalIncrement(counts, k);
    CountStep(counts, keys, k);
  }

  /**
   * The `forEach` that fills a dictionary of counts: for each key,
   * `counts[k] = (counts[k] || 0) + 1`. The dictionary is a plain mapping
   * from keys to counts (see module ObjectCounts for what an object literal
   * `{}` does instead).
   */
  method CountBy(keys: seq<string>) returns (counts: map<string, nat>)
    ensures IsTally(counts, keys)
    ensures Total(counts) == |keys|
  {
    counts := map[];
    for i := 0 to |keys|
      invariant IsGroupCount(counts, keys[..i])
    {
      var k := keys[i];
      assert keys[..i + 1] == keys[..i] + [k];
      GroupCountStep(counts, keys[..i], k);
      counts := counts[k := (if k in counts then counts[k] else 0) + 1];
    }
    assert keys[..|keys|] == keys;
  }

  /** `l.utmSource || l.source || 'Direkte'`, as an object key: never the empty key. */
  function SourceKey(l: Lead): (k: string)
    ensures k != ""
  {
    var v := Or(l.utmSource, Or(l.source, Str("Direkte")));
    TruthyPrintsNonEmpty(v);
    ToStr(v)
  }

  /** `l.utmCampaign || 'Ingen kampagne'`, as an object key: never the empty key. */
  function CampaignKey(l: Lead): (k: string)
    ensures k != ""
  {
    var v := Or(l.utmCampaign, Str("Ingen kampagne"));
    TruthyPrintsNonEmpty(v);
    ToStr(v)
  }

  /** Swapping a falsy default of an alias fallback for another default changes only a result that fell back to it. */
  lemma {:induction false} AliasDefault(p: Payload, keys: seq<string>, d1: Value, d2: Value)
    requires !Truthy(d1)
    ensures Truthy(FirstTruthy(p, keys, d1)) ==> FirstTruthy(p, keys, d2) == FirstTruthy(p, keys, d1)
    ensures !Truthy(FirstTruthy(p, keys, d1)) ==> FirstTruthy(p, keys, d2) == d2
  {
    if keys != [] && !Truthy(Get(p, keys[0])) {
      AliasDefault(p, keys[1..], d1, d2);
    }
  }

  /**
   * A lead from the webhook is counted under its first truthy `utm_source`,
   * `utmSource` or `source`, else under "ScoreApp": the normaliser's own
   * default means "Direkte" is never used.
   */
  lemma WebhookSourceKey(p: Payload, now: int)
    ensures SourceKey(Normalize(p, now)) == ToStr(FirstTruthy(p, UtmSourceKeys, Str("ScoreApp")))
  {
    var r := Normalize(p, now);
    AliasDefault(p, UtmSourceKeys, Str(""), Str("ScoreApp"));
    if !Truthy(r.utmSource) {
      assert UtmSourceKeys[0] == "utm_source" && UtmSourceKeys[2] == "source";
      assert !Truthy(Get(p, "utm_source")) && !Truthy(Get(p, "source"));
      SourceWithoutUtm(p, now);
    }
  }

  /** A lead from the webhook is counted under its first truthy `utm_campaign`, `utmCampaign` or `campaign`, else under "Ingen kampagne". */
  lemma WebhookCampaignKey(p: Payload, now: int)
    ensures CampaignKey(Normalize(p, now)) == ToStr(FirstTruthy(p, UtmCampaignKeys, Str("Ingen kampagne")))
  {
    AliasDefault(p, UtmCampaignKeys, Str(""), Str("Ingen kampagne"));
  }

  /** The source key of every lead, in order. */
  function SourceKeysOf(leads: seq<Lead>): seq<string> {
    seq(|leads|, i requires 0 <= i < |leads| => SourceKey(leads[i]))
  }

  /** The campaign key of every lead, in order. */
  function CampaignKeysOf(leads: seq<Lead>): seq<string> {
    seq(|leads|, i requires 0 <= i < |leads| => CampaignKey(leads[i]))
  }

  // ---------------------------------------------------------------------------
  // Score distribution
  // ---------------------------------------------------------------------------

  const Under40: string := "Under 40"
  const From40: string := "40–59"
  const From60: string := "60–79"
  const From80: string := "80–100"
  const BucketLabels: set<string> := {Under40, From40, From60, From80}

  /** `parseInt(l.score) || 0`: a missing or unparseable score counts as 0. */
  function ScoreOf(l: Lead): (s: int)
    ensures l.score == Null ==> s == 0
    ensures l.score.Num? ==> s == l.score.n
  {
    if l.score.Num? then
      ParseIntOfNumber(l.score.n);
      IntOr(ParseIntValue(l.score), 0)
    else if l.score == Null then
      FalsyParsesToNothing(l.score);
      IntOr(ParseIntValue(l.score), 0)
    else
      IntOr(ParseIntValue(l.score), 0)
  }

  /** The score bucket of a score, on the thresholds of `categorizeScore`. */
  function BucketOfScore(s: int): (b: string)
    ensures b in BucketLabels
  {
    if s < 40 then Under40
    else if s < 60 then From40
    else if s < 80 then From60
    else From80
  }

  /** The category `categorizeScore` gives each bucket. */
  function CategoryOfBucket(b: string): string {
    if b == From80 then ReadyToBuy
    else if b == From60 then Considering
    else if b == From40 then EarlyStage
    else NotReady
  }

  /** The buckets and the categories cut the scores at the same thresholds. */
  lemma BucketsMatchCategories(s: int)
    ensures CategoryOfBucket(BucketOfScore(s)) == CategorizeScore(Int(s))
  {
  }

  /** The score bucket of each lead, in order. */
  function BucketsOf(leads: seq<Lead>): (r: seq<string>)
    ensures |r| == |leads|
  {
    if leads == [] then []
    else BucketsOf(leads[..|leads| - 1]) + [BucketOfScore(ScoreOf(leads[|leads| - 1]))]
  }

  lemma BucketsOfPrefix(leads: seq<Lead>, i: nat)
    requires i < |leads|
    ensures BucketsOf(leads[..i + 1]) == BucketsOf(leads[..i]) + [BucketOfScore(ScoreOf(leads[i]))]
  {
    assert leads[..i + 1][..i] == leads[..i];
  }

  /** A lead normalised from a non-zero numeric score lands in the bucket of its own category. */
  lemma NormalizedBucket(p: Payload, now: int, n: int)
    requires Get(p, "score") == Num(n) && n != 0
    ensures CategoryOfBucket(BucketOfScore(ScoreOf(Normalize(p, now)))) == Normalize(p, now).scoreCategory
  {
    NumericScore(p, now, n);
    ParseIntOfNumber(n);
  }

  /** `dist` holds the four buckets, each with its number of occurrences in `buckets`. */
  ghost predicate IsDistribution(dist: map<string, nat>, buckets: seq<string>) {
    && dist.Keys == BucketLabels
    && CountsOccurrences(dist, buckets)
    && Total(dist) == |buckets|
  }

  /** The seed `{ 'Under 40': 0, '40–59': 0, '60–79': 0, '80–100': 0 }` is the distribution of no leads. */
  lemma SeedIsDistribution()
    ensures IsDistribution(map[Under40 := 0, From40 := 0, From60 := 0, From80 := 0], [])
  {
    TotalOfZeros(map[Under40 := 0, From40 := 0, From60 := 0, From80 := 0]);
  }

  /** `dist[b]++` on one of the four buckets counts one more occurrence of it. */
  lemma DistributionStep(dist: map<string, nat>, buckets: seq<string>, b: string)
    requires IsDistribution(dist, buckets) && b in BucketLabels
    ensures b in dist && IsDistribution(dist[b := dist[b] + 1], buckets + [b])
  {
    TotalIncrement(dist, b);
    CountStep(dist, buckets, b);
  }

  /** The `scoreDist` loop: seed the four buckets with 0, then count every lead in its bucket. */
  method ScoreDistribution(leads: seq<Lead>) returns (dist: map<string, nat>)
    ensures IsDistribution(dist, BucketsOf(leads))
  {
    dist := map[Under40 := 0, From40 := 0, From60 := 0, From80 := 0];
    SeedIsDistribution();
    for i := 0 to |leads|
      invariant IsDistribution(dist, BucketsOf(leads[..i]))
    {
      var b := BucketOfScore(ScoreOf(leads[i]));
      BucketsOfPrefix(leads, i);
      DistributionStep(dist, BucketsOf(leads[..i]), b);
      dist := dist[b := dist[b] + 1];
    }
    assert leads[..|leads|] == leads;
  }

  // ---------------------------------------------------------------------------
  // Daily series
  // ---------------------------------------------------------------------------

  /** The number of calendar days the series covers. */
  function SeriesLength(days: int): nat {
    if days > 0 then days else 0
  }

  /** The calendar day of the series' first entry: `days - 1` days before the day of `now`. */
  function SeriesStart(now: int, days: int): int {
    DayOf(now) - SeriesLength(days) + 1
  }

  /**
   * The daily series: seed one zero entry per calendar day from `days - 1`
   * days before `now` through the day of `now` (the keys kept in insertion
   * order), then count each lead whose day is one of those keys.
   */
  method DailySeries(leads: seq<Lead>, now: int, days: int) returns (series: seq<nat>)
    ensures |series| == SeriesLength(days)
    ensures forall j :: 0 <= j < |series| ==> series[j] == CountOnDay(leads, SeriesStart(now, days) + j)
  {
    var first := SeriesStart(now, days);
    var keys: seq<int> := [];
    var counts: map<int, nat> := map[];
    var i := days - 1;
    while i >= 0
      invariant if days > 0 then -1 <= i <= days - 1 else i == days - 1
      invariant |keys| == days - 1 - i
      invariant forall j :: 0 <= j < |keys| ==> keys[j] == first + j
      invariant forall d :: d in counts <==> first <= d < first + |keys|
      invariant forall d :: d in counts ==> counts[d] == 0
    {
      DayOfShift(now, i);
      var key := DayOf(now - i * MsPerDay);
      keys := keys + [key];
      counts := counts[key := 0];
      i := i - 1;
    }
    assert |keys| == SeriesLength(days);
    for n := 0 to |leads|
      invariant forall d :: d in counts <==> first <= d < first + |keys|
      invariant forall d :: d in counts ==> counts[d] == CountOnDay(leads[..n], d)
    {
      assert leads[..n + 1][1..] == leads[1..n + 1];
      var key := DayOf(leads[n].receivedAt);
      if key in counts {
        counts := counts[key := counts[key] + 1];
      }
      forall d | d in counts ensures counts[d] == CountOnDay(leads[..n + 1], d) {
        CountOnDayAppend(leads[..n], leads[n], d);
        assert leads[..n + 1] == leads[..n] + [leads[n]];
      }
    }
    assert leads[..|leads|] == leads;
    series := seq(|keys|, j requires 0 <= j < |keys| => counts[keys[j]]);
  }

  /** Appending a lead adds one to the count of its day only. */
  lemma {:induction false} CountOnDayAppend(leads: seq<Lead>, l: Lead, day: int)
    ensures CountOnDay(leads + [l], day) == CountOnDay(leads, day) + if DayOf(l.receivedAt) == day then 1 else 0
  {
    if leads != [] {
      assert (leads + [l])[1..] == leads[1..] + [l];
      CountOnDayAppend(leads[1..], l, day);
    }
  }

  /** The sum of a sequence of counts. */
  function Sum(s: seq<nat>): nat {
    if s == [] then 0 else Sum(s[..|s| - 1]) + s[|s| - 1]
  }

  /**
   * A series of per-day counts over consecutive days adds up to the leads of
   * those days, hence to at most all the leads: a lead inside the time window
   * but on a day before the series starts is not counted in it.
   */
  lemma {:induction false} SeriesSum(series: seq<nat>, leads: seq<Lead>, first: int)
    requires forall j :: 0 <= j < |series| ==> series[j] == CountOnDay(leads, first + j)
    ensures Sum(series) == CountInDays(leads, first, first + |series|)
    ensures Sum(series) <= |leads|
  {
    if series != [] {
      var n := |series| - 1;
      SeriesSum(series[..n], leads, first);
      CountInDaysExtend(leads, first, first + n);
    } else {
      CountInDaysEmpty(leads, first);
    }
  }

  lemma {:induction false} CountInDaysEmpty(leads: seq<Lead>, lo: int)
    ensures CountInDays(leads, lo, lo) == 0
  {
    if leads != [] {
      CountInDaysEmpty(leads[1..], lo);
    }
  }

  // ---------------------------------------------------------------------------
  // Recent leads
  // ---------------------------------------------------------------------------

  /** `s.slice().reverse()` */
  function Reversed<T>(s: seq<T>): (r: seq<T>)
    ensures |r| == |s|
    ensures forall i :: 0 <= i < |s| ==> r[i] == s[|s| - 1 - i]
  {
    if s == [] then [] else [s[|s| - 1]] + Reversed(s[..|s| - 1])
  }

  /** `leads.slice(-50).reverse()`: the newest leads, newest first. */
  function RecentLeads(leads: seq<Lead>): (r: seq<Lead>)
    ensures |r| == if |leads| < RecentLimit then |leads| else RecentLimit
    ensures forall i :: 0 <= i < |r| ==> r[i] == leads[|leads| - 1 - i]
  {
    Reversed(if |leads| <= RecentLimit then leads else leads[|leads| - RecentLimit..])
  }

  // ---------------------------------------------------------------------------
  // Rates
  // ---------------------------------------------------------------------------

  /**
   * A percentage before `toFixed(1)`: the guard's literal '0.0' when the
   * denominator would be zero, else the exact fraction `num / den` of 100%.
   */
  datatype Rate = ZeroGuard | Fraction(num: real, den: real)

  function Percent(r: Rate): real
    requires r.Fraction? ==> r.den > 0.0
  {
    match r
    case ZeroGuard => 0.0
    case Fraction(n, d) => n / d * 100.0
  }

  /** `completed > 0 ? completed / Math.max(completed * 1.8, 1) : '0.0'` */
  function CompletionRate(completed: nat): (r: Rate)
    ensures r.ZeroGuard? <==> completed == 0
    ensures r.Fraction? ==> r.den > 0.0
  {
    if completed > 0 then
      var c := completed as real;
      Fraction(c, if c * 1.8 > 1.0 then c * 1.8 else 1.0)
    else ZeroGuard
  }

  /** `den > 0 ? num / den : '0.0'`, the guard of the lead rate and of the meeting rate. */
  function GuardedRate(num: nat, den: nat): (r: Rate)
    ensures r.ZeroGuard? <==> den == 0
    ensures r.Fraction? ==> r.den > 0.0
  {
    if den > 0 then Fraction(num as real, den as real) else ZeroGuard
  }

  /** With at least one lead the completion rate is always 100 / 1.8 %, whatever the data. */
  lemma CompletionRateIsConstant(completed: nat)
    requires completed > 0
    ensures Percent(CompletionRate(completed)) == 1000.0 / 18.0
  {
    var c := completed as real;
    assert c * 1.8 > 1.0;
    calc {
      Percent(CompletionRate(completed));
      c / (c * 1.8) * 100.0;
      { assert c / (c * 1.8) == 1.0 / 1.8; }
      1.0 / 1.8 * 100.0;
    }
  }

  /** A rate whose numerator counts a subset of its denominator lies between 0% and 100%. */
  lemma GuardedRateBounded(num: nat, den: nat)
    requires num <= den
    ensures 0.0 <= Percent(GuardedRate(num, den)) <= 100.0
  {
    if den > 0 {
      var n, d := num as real, den as real;
      assert n / d <= 1.0 by {
        assert n <= d;
      }
    }
  }

  /**
   * The meeting rate divides by the leads with contact details, not by the
   * completed ones, so it is not bounded by 100 %: a lead that booked a
   * meeting without leaving an email or a phone pushes it over.
   */
  lemma MeetingRateAboveHundred(a: Lead, b: Lead)
    requires HasContact(a) && a.meetingBooked
    requires !HasContact(b) && b.meetingBooked
    ensures Percent(GuardedRate(MeetingCount([a, b]), ContactCount([a, b]))) == 200.0
  {
    assert [a, b][1..] == [b] && [b][1..] == [];
  }

  // ---------------------------------------------------------------------------
  // calcStats
  // ---------------------------------------------------------------------------

  /** What `calcStats` returns; `leads` is the number of leads with contact details. */
  datatype Stats = Stats(
    completed: nat,
    leads: nat,
    meetings: nat,
    completionRate: Rate,
    leadRate: Rate,
    meetingRate: Rate,
    scoreDist: map<string, nat>,
    utmSources: map<string, nat>,
    utmCampaigns: map<string, nat>,
    series: seq<nat>,
    recentLeads: seq<Lead>)

  /**
   * The statistics over the already filtered leads: the counts, the three
   * `forEach` group counts and the daily series of `calcStats`.
   */
  method Aggregate(filtered: seq<Lead>, now: int, days: int) returns (st: Stats)
    // counts over the window
    ensures st.completed == |filtered|
    ensures st.leads == ContactCount(filtered) <= st.completed
    ensures st.meetings == MeetingCount(filtered) <= st.completed
    // rates, with the zero guards
    ensures st.completionRate == CompletionRate(st.completed)
    ensures st.leadRate == GuardedRate(st.leads, st.completed)
    ensures st.meetingRate == GuardedRate(st.meetings, st.leads)
    ensures st.completed == 0 ==> st.completionRate == st.leadRate == st.meetingRate == ZeroGuard
    // distributions: every filtered lead is counted exactly once in each
    ensures st.scoreDist.Keys == BucketLabels
    ensures CountsOccurrences(st.scoreDist, BucketsOf(filtered))
    ensures Total(st.scoreDist) == st.completed
    ensures IsTally(st.utmSources, SourceKeysOf(filtered))
    ensures Total(st.utmSources) == st.completed
    ensures IsTally(st.utmCampaigns, CampaignKeysOf(filtered))
    ensures Total(st.utmCampaigns) == st.completed
    // one entry per day of the window, ending today
    ensures |st.series| == SeriesLength(days)
    ensures forall j :: 0 <= j < |st.series| ==> st.series[j] == CountOnDay(filtered, SeriesStart(now, days) + j)
    ensures Sum(st.series) <= st.completed
    // the newest filtered leads, newest first
    ensures st.recentLeads == RecentLeads(filtered)
  {
    var completed := |filtered|;
    var withContact := ContactCount(filtered);
    var meetings := MeetingCount(filtered);
    var utmSources := CountBy(SourceKeysOf(filtered));
    var utmCampaigns := CountBy(CampaignKeysOf(filtered));
    var scoreDist := ScoreDistribution(filtered);
    var series := DailySeries(filtered, now, days);
    SeriesSum(series, filtered, SeriesStart(now, days));
    st := Stats(
      completed := completed,
      leads := withContact,
      meetings := meetings,
      completionRate := CompletionRate(completed),
      leadRate := GuardedRate(withContact, completed),
      meetingRate := GuardedRate(meetings, withContact),
      scoreDist := scoreDist,
      utmSources := utmSources,
      utmCampaigns := utmCampaigns,
      series := series,
      recentLeads := RecentLeads(filtered));
  }

  /**
   * `st` is what `calcStats(leads, days)` answers at instant `now`: over the
   * leads of the time window, their number, the contact and meeting counts,
   * the three guarded rates, the exact score, source and campaign counts,
   * one exact count per day of the series, and the 50 newest leads.
   */
  ghost predicate IsStatsOf(st: Stats, leads: seq<Lead>, now: int, days: int) {
    var w := Window(leads, now, days);
    && st.completed == |w|
    && st.leads == ContactCount(w) <= st.completed
    && st.meetings == MeetingCount(w) <= st.completed
    && st.completionRate == CompletionRate(st.completed)
    && st.leadRate == GuardedRate(st.leads, st.completed)
    && st.meetingRate == GuardedRate(st.meetings, st.leads)
    && st.scoreDist.Keys == BucketLabels
    && CountsOccurrences(st.scoreDist, BucketsOf(w))
    && Total(st.scoreDist) == st.completed
    && IsTally(st.utmSources, SourceKeysOf(w))
    && Total(st.utmSources) == st.completed
    && IsTally(st.utmCampaigns, CampaignKeysOf(w))
    && Total(st.utmCampaigns) == st.completed
    && |st.series| == SeriesLength(days)
    && (forall j :: 0 <= j < |st.series| ==> st.series[j] == CountOnDay(w, SeriesStart(now, days) + j))
    && Sum(st.series) <= st.completed
    && st.recentLeads == RecentLeads(w)
  }

  /** `calcStats(leads, days)` evaluated at instant `now`: `Aggregate` over the time window. */
  method CalcStats(leads: seq<Lead>, now: int, days: int) returns (st: Stats)
    ensures IsStatsOf(st, leads, now, days)
  {
    st := Aggregate(Window(leads, now, days), now, days);
  }
}
