/** The risk trajectory card: events are counted into one bucket per calendar
    day over the last `Days` days, each bucket's severity-weighted score is
    smoothed by a carry that runs left to right, and the scores are mapped to
    points of a 100 x 100 chart.

    Calendar days are day numbers: an instant in milliseconds, shifted by the
    local zone's offset, divided by the length of a day. A bucket's key is its
    day number, which identifies the day exactly as the `year-month-day` text
    key does. */
module RiskTrendCard {
  import opened JsValues
  import opened JsStrings
  import opened JsArrays
  import opened Events

  /** Number of day buckets in the window; the last one is today. */
  const Days: nat := 6

  // ---------------------------------------------------------------------------
  // Severity weights

  /** `severityScore[severity] || 1` for a lower-cased severity, when only the
      object's own entries are consulted: critical 4, high 3, medium 2, low 1,
      anything else 1. */
  function SeverityWeight(severity: string): (w: nat)
    ensures 1 <= w <= 4
    ensures w == 4 <==> severity == "critical"
    ensures w == 3 <==> severity == "high"
    ensures w == 2 <==> severity == "medium"
  {
    if severity == "critical" then 4
    else if severity == "high" then 3
    else if severity == "medium" then 2
    else 1
  }

  /** The lower-case names an object literal inherits from `Object.prototype`. */
  const InheritedKeys: set<string> := {"constructor", "__proto__"}

  /** What `severityScore[severity]` yields on the object literal. */
  datatype Lookup = OwnWeight(n: nat) | InheritedMember | Missing

  function LookupAsWritten(severity: string): (lookup: Lookup)
    ensures lookup.OwnWeight? <==> severity in {"critical", "high", "medium", "low"}
    ensures lookup.OwnWeight? ==> lookup.n == SeverityWeight(severity)
    ensures lookup.InheritedMember? <==> severity in InheritedKeys
  {
    if severity == "critical" then OwnWeight(4)
    else if severity == "high" then OwnWeight(3)
    else if severity == "medium" then OwnWeight(2)
    else if severity == "low" then OwnWeight(1)
    else if severity in InheritedKeys then InheritedMember
    else Missing
  }

  /** What `bucket.weightedScore += severityScore[severity] || 1` does to the
      score: adds a number, or, when the lookup found an inherited function or
      object (truthy, and not a number), turns the score into text. */
  datatype ScoreUpdate = AddNumber(n: nat) | ConcatenateText

  function UpdateAsWritten(severity: string): (update: ScoreUpdate)
    ensures update.ConcatenateText? <==> severity in InheritedKeys
    ensures update.AddNumber? ==> update.n == SeverityWeight(severity)
  {
    match LookupAsWritten(severity)
    case OwnWeight(n) => AddNumber(n)
    case InheritedMember => ConcatenateText
    case Missing => AddNumber(1)
  }

  /** A severity of `Constructor` or `__proto__` turns a bucket's score into text. */
  lemma InheritedSeverityCorruptsScore()
    ensures UpdateAsWritten(ToLower("Constructor")) == ConcatenateText
    ensures UpdateAsWritten(ToLower("__proto__")) == ConcatenateText
  {
    assert ToLower("Constructor") == "constructor";
    assert ToLower("__proto__") == "__proto__";
  }

  /** The lookup as written adds `SeverityWeight` exactly when the severity is
      not an inherited name. */
  lemma AsWrittenMatchesWeight(severity: string)
    ensures UpdateAsWritten(severity) == AddNumber(SeverityWeight(severity)) <==> severity !in InheritedKeys
  {
  }

  // ---------------------------------------------------------------------------
  // Calendar days

  /** The calendar day of an instant: truncation to local midnight, the local
      zone being a fixed offset from UTC. */
  function DayOf(ms: int, tzOffsetMs: int): (day: int)
    ensures day * MsPerDay <= ms + tzOffsetMs < (day + 1) * MsPerDay
  {
    (ms + tzOffsetMs) / MsPerDay
  }

  /** `event.created_at || event.timestamp || Date.now()`. */
  function EventInstant(e: Event, nowMs: int): (t: int)
    ensures e.createdAt.Some? ==> t == e.createdAt.value
    ensures e.createdAt.None? && e.timestamp.Some? ==> t == e.timestamp.value
    ensures e.createdAt.None? && e.timestamp.None? ==> t == nowMs
  {
    match e.createdAt
    case Some(t) => t
    case None =>
      match e.timestamp
      case Some(t) => t
      case None => nowMs
  }

  function EventDay(e: Event, nowMs: int, tzOffsetMs: int): int {
    DayOf(EventInstant(e, nowMs), tzOffsetMs)
  }

  /** The day of bucket `index` in the window that ends on `today`. */
  function WindowDay(today: int, index: int): int {
    today - (Days - 1 - index)
  }

  // ---------------------------------------------------------------------------
  // Buckets and accumulation

  datatype Bucket = Bucket(
    key: int,
    totalEvents: nat,
    criticalEvents: nat,
    hrEvents: nat,
    weightedScore: real)

  function EmptyBucket(day: int): Bucket {
    Bucket(day, 0, 0, 0, 0.0)
  }

  /** The freshly built window: one empty bucket per day, oldest first. */
  function EmptyWindow(today: int): (buckets: seq<Bucket>)
    ensures |buckets| == Days
    ensures forall i :: 0 <= i < Days ==> buckets[i] == EmptyBucket(WindowDay(today, i))
  {
    seq(Days, i requires 0 <= i < Days => EmptyBucket(WindowDay(today, i)))
  }

  /** `byKey` finds every bucket by its key, and only by its key. */
  ghost predicate IndexedBy(buckets: seq<Bucket>, byKey: map<int, nat>) {
    && (forall day :: day in byKey ==> byKey[day] < |buckets| && buckets[byKey[day]].key == day)
    && (forall i :: 0 <= i < |buckets| ==> buckets[i].key in byKey && byKey[buckets[i].key] == i)
  }

  /** `bucketsByKey`: the position of each day of the window. */
  function WindowIndex(today: int): (byKey: map<int, nat>)
    ensures forall day :: day in byKey <==> WindowDay(today, 0) <= day <= today
    ensures IndexedBy(EmptyWindow(today), byKey)
  {
    var byKey := map i: nat | i < Days :: WindowDay(today, i) := i;
    assert forall day :: WindowDay(today, 0) <= day <= today ==> day in byKey by {
      forall day | WindowDay(today, 0) <= day <= today ensures day in byKey {
        var i: nat := day - WindowDay(today, 0);
        assert WindowDay(today, i) == day;
      }
    }
    byKey
  }

  /** The per-event counter updates: one more event, the severity's weight
      added to the score, and the critical and HR counters raised for those
      events. */
  function Count(b: Bucket, e: Event): (c: Bucket)
    ensures c.key == b.key
    ensures c.totalEvents == b.totalEvents + 1
    ensures c.criticalEvents == b.criticalEvents + (if IsCriticalOrHigh(e) then 1 else 0)
    ensures c.hrEvents == b.hrEvents + (if SourceIs(e, "hr") then 1 else 0)
    ensures c.weightedScore == b.weightedScore + SeverityWeight(LowerOrEmpty(e.severity)) as real
    ensures b.weightedScore + 1.0 <= c.weightedScore <= b.weightedScore + 4.0
  {
    LowerFormsAgree(e.severity, "critical");
    LowerFormsAgree(e.severity, "high");
    LowerFormsAgree(e.sourceSystem, "hr");
    var severity := LowerOrEmpty(e.severity);
    var source := LowerOrEmpty(e.sourceSystem);
    b.(totalEvents := b.totalEvents + 1,
       weightedScore := b.weightedScore + SeverityWeight(severity) as real,
       criticalEvents := if severity == "critical" || severity == "high" then b.criticalEvents + 1 else b.criticalEvents,
       hrEvents := if source == "hr" then b.hrEvents + 1 else b.hrEvents)
  }

  /** One step of `events.forEach`: the bucket whose key is the event's day
      counts the event; every other bucket is left as it was, and an event
      whose day has no bucket changes nothing. */
  function AddEvent(buckets: seq<Bucket>, byKey: map<int, nat>, e: Event, nowMs: int, tzOffsetMs: int): (r: seq<Bucket>)
    requires IndexedBy(buckets, byKey)
    ensures |r| == |buckets| && IndexedBy(r, byKey)
    ensures EventDay(e, nowMs, tzOffsetMs) !in byKey ==> r == buckets
    ensures forall i :: 0 <= i < |r| && buckets[i].key != EventDay(e, nowMs, tzOffsetMs) ==> r[i] == buckets[i]
    ensures forall i :: 0 <= i < |r| && buckets[i].key == EventDay(e, nowMs, tzOffsetMs) ==>
      && r[i].key == buckets[i].key
      && r[i].totalEvents == buckets[i].totalEvents + 1
      && r[i].weightedScore == buckets[i].weightedScore + SeverityWeight(LowerOrEmpty(e.severity)) as real
      && r[i].criticalEvents == buckets[i].criticalEvents + (if IsCriticalOrHigh(e) then 1 else 0)
      && r[i].hrEvents == buckets[i].hrEvents + (if SourceIs(e, "hr") then 1 else 0)
  {
    LowerFormsAgree(e.severity, "critical");
    LowerFormsAgree(e.severity, "high");
    LowerFormsAgree(e.sourceSystem, "hr");
    var day := EventDay(e, nowMs, tzOffsetMs);
    if day in byKey then buckets[byKey[day] := Count(buckets[byKey[day]], e)] else buckets
  }

  /** The whole `events.forEach`, in order. */
  function AddAll(buckets: seq<Bucket>, byKey: map<int, nat>, events: seq<Event>, nowMs: int, tzOffsetMs: int): (r: seq<Bucket>)
    requires IndexedBy(buckets, byKey)
    ensures |r| == |buckets| && IndexedBy(r, byKey)
    ensures forall i :: 0 <= i < |r| ==> r[i].key == buckets[i].key
    decreases |events|
  {
    if events == [] then buckets
    else
      var before := AddAll(buckets, byKey, events[..|events| - 1], nowMs, tzOffsetMs);
      AddEvent(before, byKey, events[|events| - 1], nowMs, tzOffsetMs)
  }

  /** Reference definition of one day's bucket: the events of that day alone,
      counted in order into an empty bucket. */
  function Tally(events: seq<Event>, day: int, nowMs: int, tzOffsetMs: int): Bucket
    decreases |events|
  {
    if events == [] then EmptyBucket(day)
    else
      var before := Tally(events[..|events| - 1], day, nowMs, tzOffsetMs);
      var e := events[|events| - 1];
      if EventDay(e, nowMs, tzOffsetMs) == day then Count(before, e) else before
  }

  /** Each bucket of the window ends up as the tally of its own day's events:
      no event is counted in a bucket other than its day's. */
  lemma {:induction false} AddAllIsTally(today: int, events: seq<Event>, nowMs: int, tzOffsetMs: int, i: nat)
    requires i < Days
    ensures AddAll(EmptyWindow(today), WindowIndex(today), events, nowMs, tzOffsetMs)[i]
         == Tally(events, WindowDay(today, i), nowMs, tzOffsetMs)
  {
    if events != [] {
      AddAllIsTally(today, events[..|events| - 1], nowMs, tzOffsetMs, i);
    }
  }

  /** A tally counts no more critical-or-high and no more HR events than
      events, and its score lies between one and four per event. */
  lemma {:induction false} TallyBounds(events: seq<Event>, day: int, nowMs: int, tzOffsetMs: int)
    ensures var b := Tally(events, day, nowMs, tzOffsetMs);
      && b.key == day
      && b.criticalEvents <= b.totalEvents
      && b.hrEvents <= b.totalEvents
      && b.totalEvents as real <= b.weightedScore <= 4.0 * b.totalEvents as real
  {
    if events != [] {
      TallyBounds(events[..|events| - 1], day, nowMs, tzOffsetMs);
    }
  }

  /** How many events the buckets hold between them. */
  function TotalCounted(buckets: seq<Bucket>): nat {
    if buckets == [] then 0 else buckets[0].totalEvents + TotalCounted(buckets[1..])
  }

  /** Reference count of the events whose day falls in the window ending on `today`. */
  function CountInWindow(events: seq<Event>, today: int, nowMs: int, tzOffsetMs: int): nat
    decreases |events|
  {
    if events == [] then 0
    else
      var day := EventDay(events[|events| - 1], nowMs, tzOffsetMs);
      CountInWindow(events[..|events| - 1], today, nowMs, tzOffsetMs)
        + (if WindowDay(today, 0) <= day <= today then 1 else 0)
  }

  lemma {:induction false} TotalCountedUpdate(buckets: seq<Bucket>, i: nat, b: Bucket)
    requires i < |buckets|
    ensures TotalCounted(buckets[i := b]) + buckets[i].totalEvents == TotalCounted(buckets) + b.totalEvents
  {
    if i > 0 {
      TotalCountedUpdate(buckets[1..], i - 1, b);
      assert buckets[i := b][1..] == buckets[1..][i - 1 := b];
    }
  }

  lemma {:induction false} TotalCountedEmpty(buckets: seq<Bucket>)
    requires forall i :: 0 <= i < |buckets| ==> buckets[i].totalEvents == 0
    ensures TotalCounted(buckets) == 0
  {
    if buckets != [] {
      TotalCountedEmpty(buckets[1..]);
    }
  }

  /** Every event whose day is in the window is counted in exactly one bucket,
      and every other event in none: the buckets' totals add up to the number
      of events in the window. */
  lemma {:induction false} EveryEventCountedOnce(today: int, events: seq<Event>, nowMs: int, tzOffsetMs: int)
    ensures TotalCounted(AddAll(EmptyWindow(today), WindowIndex(today), events, nowMs, tzOffsetMs))
         == CountInWindow(events, today, nowMs, tzOffsetMs)
  {
    var byKey := WindowIndex(today);
    if events == [] {
      TotalCountedEmpty(EmptyWindow(today));
    } else {
      var prefix, e := events[..|events| - 1], events[|events| - 1];
      EveryEventCountedOnce(today, prefix, nowMs, tzOffsetMs);
      var before := AddAll(EmptyWindow(today), byKey, prefix, nowMs, tzOffsetMs);
      var day := EventDay(e, nowMs, tzOffsetMs);
      if day in byKey {
        TotalCountedUpdate(before, byKey[day], Count(before[byKey[day]], e));
      }
    }
  }

  /** The `events.forEach` accumulation, in place on the array of buckets, the
      map giving the position of each key. */
  method AccumulateEvents(buckets: array<Bucket>, byKey: map<int, nat>, events: seq<Event>, nowMs: int, tzOffsetMs: int)
    requires IndexedBy(buckets[..], byKey)
    modifies buckets
    ensures buckets[..] == AddAll(old(buckets[..]), byKey, events, nowMs, tzOffsetMs)
  {
    for k := 0 to |events|
      invariant IndexedBy(buckets[..], byKey)
      invariant buckets[..] == AddAll(old(buckets[..]), byKey, events[..k], nowMs, tzOffsetMs)
    {
      assert events[..k + 1][..k] == events[..k];
      ghost var before := buckets[..];
      var e := events[k];
      var bucketKey := EventDay(e, nowMs, tzOffsetMs);
      if bucketKey in byKey {
        var i := byKey[bucketKey];
        var bucket := buckets[i];
        var severity := LowerOrEmpty(e.severity);
        var source := LowerOrEmpty(e.sourceSystem);
        bucket := bucket.(totalEvents := bucket.totalEvents + 1);
        bucket := bucket.(weightedScore := bucket.weightedScore + SeverityWeight(severity) as real);
        if severity == "critical" || severity == "high" {
          bucket := bucket.(criticalEvents := bucket.criticalEvents + 1);
        }
        if source == "hr" {
          bucket := bucket.(hrEvents := bucket.hrEvents + 1);
        }
        assert bucket == Count(before[i], e);
        buckets[i] := bucket;
        assert buckets[..] == before[i := Count(before[i], e)];
      }
      assert buckets[..] == AddEvent(before, byKey, e, nowMs, tzOffsetMs);
    }
    assert events[..|events|] == events;
  }

  // ---------------------------------------------------------------------------
  // Carry-forward smoothing

  function Max(a: real, b: real): real {
    if a >= b then a else b
  }

  /** `bucket.totalEvents || 0.6`: the least score a smoothed bucket shows. */
  function ScoreFloor(b: Bucket): real {
    if b.totalEvents == 0 then 0.6 else b.totalEvents as real
  }

  /** `Math.max(bucket.weightedScore * 0.15, syntheticCarry * 0.35)`. */
  function NextCarry(weightedScore: real, carry: real): real {
    Max(weightedScore * 0.15, carry * 0.35)
  }

  /** The `syntheticCarry` in force when the pass reaches bucket `i`. */
  function CarryBefore(raw: seq<Bucket>, i: nat): real
    requires i <= |raw|
  {
    if i == 0 then 0.0 else NextCarry(raw[i - 1].weightedScore, CarryBefore(raw, i - 1))
  }

  function SmoothBucket(b: Bucket, carry: real): Bucket {
    b.(weightedScore := Max(b.weightedScore + carry, ScoreFloor(b)))
  }

  /** The smoothed series, bucket by bucket. */
  function Smoothed(raw: seq<Bucket>): seq<Bucket> {
    seq(|raw|, i requires 0 <= i < |raw| => SmoothBucket(raw[i], CarryBefore(raw, i)))
  }

  /** The carry never goes negative. */
  lemma {:induction false} CarryNonNegative(raw: seq<Bucket>, i: nat)
    requires i <= |raw|
    ensures CarryBefore(raw, i) >= 0.0
  {
    if i > 0 {
      CarryNonNegative(raw, i - 1);
    }
  }

  /** The carry never exceeds 15% of the highest raw score seen so far. */
  lemma {:induction false} CarryBounded(raw: seq<Bucket>, i: nat, top: real)
    requires i <= |raw| && top >= 0.0
    requires forall j :: 0 <= j < i ==> raw[j].weightedScore <= top
    ensures CarryBefore(raw, i) <= 0.15 * top
  {
    if i > 0 {
      CarryBounded(raw, i - 1, top);
    }
  }

  /** Smoothing keeps every bucket's key and counters, and raises its score to
      at least its raw score and at least its floor. */
  lemma SmoothedBounds(raw: seq<Bucket>)
    ensures |Smoothed(raw)| == |raw|
    ensures forall i :: 0 <= i < |raw| ==>
      && Smoothed(raw)[i].key == raw[i].key
      && Smoothed(raw)[i].totalEvents == raw[i].totalEvents
      && Smoothed(raw)[i].criticalEvents == raw[i].criticalEvents
      && Smoothed(raw)[i].hrEvents == raw[i].hrEvents
      && Smoothed(raw)[i].weightedScore >= raw[i].weightedScore
      && Smoothed(raw)[i].weightedScore >= ScoreFloor(raw[i])
  {
    forall i | 0 <= i < |raw| ensures Smoothed(raw)[i].weightedScore >= raw[i].weightedScore {
      CarryNonNegative(raw, i);
    }
  }

  /** Smoothing its own output raises the scores again: the pass must start
      from raw scores. */
  lemma SmoothingIsNotIdempotent()
    ensures var raw := [Bucket(0, 1, 0, 0, 4.0), Bucket(1, 0, 0, 0, 0.0)];
      Smoothed(Smoothed(raw)) != Smoothed(raw)
  {
    var raw := [Bucket(0, 1, 0, 0, 4.0), Bucket(1, 0, 0, 0, 0.0)];
    assert Smoothed(raw)[1].weightedScore == 0.6;
    assert Smoothed(Smoothed(raw))[1].weightedScore == 1.2;
  }

  /** The carry depends only on the buckets before it. */
  lemma {:induction false} CarryOfPrefix(raw: seq<Bucket>, n: nat, i: nat)
    requires i <= n <= |raw|
    ensures CarryBefore(raw[..n], i) == CarryBefore(raw, i)
  {
    if i > 0 {
      CarryOfPrefix(raw, n, i - 1);
    }
  }

  /** Smoothing one more bucket appends one more point. */
  lemma SmoothedExtends(raw: seq<Bucket>, i: nat)
    requires i < |raw|
    ensures Smoothed(raw[..i + 1]) == Smoothed(raw[..i]) + [SmoothBucket(raw[i], CarryBefore(raw, i))]
  {
    var longer, shorter := Smoothed(raw[..i + 1]), Smoothed(raw[..i]);
    var expected := shorter + [SmoothBucket(raw[i], CarryBefore(raw, i))];
    forall j | 0 <= j <= i
      ensures longer[j] == expected[j]
    {
      CarryOfPrefix(raw, i + 1, j);
      if j < i {
        CarryOfPrefix(raw, i, j);
        assert shorter[j] == SmoothBucket(raw[j], CarryBefore(raw[..i], j));
      }
      assert longer[j] == SmoothBucket(raw[j], CarryBefore(raw[..i + 1], j));
    }
    assert |longer| == |expected|;
  }

  /** The smoothing pass over the daily buckets, threading `syntheticCarry`
      from each bucket to the next. */
  method Smooth(raw: seq<Bucket>) returns (smoothed: seq<Bucket>)
    ensures smoothed == Smoothed(raw)
  {
    var syntheticCarry := 0.0;
    smoothed := [];
    for i := 0 to |raw|
      invariant |smoothed| == i
      invariant syntheticCarry == CarryBefore(raw, i)
      invariant smoothed == Smoothed(raw[..i])
    {
      var bucket := raw[i];
      var adjustedScore := bucket.weightedScore + syntheticCarry;
      syntheticCarry := Max(bucket.weightedScore * 0.15, syntheticCarry * 0.35);
      var floor := if bucket.totalEvents != 0 then bucket.totalEvents as real else 0.6;
      SmoothedExtends(raw, i);
      smoothed := smoothed + [bucket.(weightedScore := Max(adjustedScore, floor))];
    }
    assert raw[..|raw|] == raw;
  }

  // ---------------------------------------------------------------------------
  // The chart data

  /** What the card computes from the events: nothing for no events, else the
      smoothed window ending on the day of `nowMs`. */
  function ChartSpec(events: seq<Event>, nowMs: int, tzOffsetMs: int): seq<Bucket> {
    if events == [] then []
    else
      var today := DayOf(nowMs, tzOffsetMs);
      Smoothed(AddAll(EmptyWindow(today), WindowIndex(today), events, nowMs, tzOffsetMs))
  }

  /** The `chartData` computation: build the window, count the events into it
      in place, smooth it. */
  method ChartData(events: seq<Event>, nowMs: int, tzOffsetMs: int) returns (chart: seq<Bucket>)
    ensures chart == ChartSpec(events, nowMs, tzOffsetMs)
    ensures chart == [] <==> events == []
    ensures events != [] ==> |chart| == Days
    ensures events != [] ==> forall i :: 0 <= i < |chart| ==> chart[i].key == WindowDay(DayOf(nowMs, tzOffsetMs), i)
  {
    if |events| == 0 {
      return [];
    }
    var today := DayOf(nowMs, tzOffsetMs);
    var dailyBuckets := new Bucket[Days](i => EmptyBucket(WindowDay(today, i)));
    var bucketsByKey := WindowIndex(today);
    assert dailyBuckets[..] == EmptyWindow(today);
    AccumulateEvents(dailyBuckets, bucketsByKey, events, nowMs, tzOffsetMs);
    chart := Smooth(dailyBuckets[..]);
    SmoothedBounds(dailyBuckets[..]);
  }

  /** Every bucket of the chart shows its own day's tally: the same counters,
      a score at least the tally's and at least its floor, and no more
      critical-or-high or HR events than events. */
  lemma ChartBucketIsTally(events: seq<Event>, nowMs: int, tzOffsetMs: int, i: nat)
    requires events != [] && i < Days
    ensures var chart := ChartSpec(events, nowMs, tzOffsetMs);
      var t := Tally(events, WindowDay(DayOf(nowMs, tzOffsetMs), i), nowMs, tzOffsetMs);
      && |chart| == Days
      && chart[i].key == t.key
      && chart[i].totalEvents == t.totalEvents
      && chart[i].criticalEvents == t.criticalEvents
      && chart[i].hrEvents == t.hrEvents
      && chart[i].weightedScore >= t.weightedScore
      && chart[i].weightedScore >= ScoreFloor(t)
      && chart[i].criticalEvents <= chart[i].totalEvents
      && chart[i].hrEvents <= chart[i].totalEvents
  {
    var today := DayOf(nowMs, tzOffsetMs);
    var raw := AddAll(EmptyWindow(today), WindowIndex(today), events, nowMs, tzOffsetMs);
    AddAllIsTally(today, events, nowMs, tzOffsetMs, i);
    TallyBounds(events, WindowDay(today, i), nowMs, tzOffsetMs);
    SmoothedBounds(raw);
  }

  /** An event with neither `created_at` nor `timestamp` is counted in
      today's bucket, the last one. */
  lemma UndatedEventCountsToday(events: seq<Event>, e: Event, nowMs: int, tzOffsetMs: int)
    requires e.createdAt.None? && e.timestamp.None?
    ensures var today := DayOf(nowMs, tzOffsetMs);
      Tally(events + [e], today, nowMs, tzOffsetMs).totalEvents == Tally(events, today, nowMs, tzOffsetMs).totalEvents + 1
    ensures ChartSpec(events + [e], nowMs, tzOffsetMs)[Days - 1].totalEvents
         == Tally(events, DayOf(nowMs, tzOffsetMs), nowMs, tzOffsetMs).totalEvents + 1
  {
    var all := events + [e];
    assert all[..|all| - 1] == events;
    ChartBucketIsTally(all, nowMs, tzOffsetMs, Days - 1);
  }

  // ---------------------------------------------------------------------------
  // Chart coordinates

  /** `normalise(index, length)`: the x coordinate of point `index` of
      `length`, spread evenly from 0 to 100. */
  function Normalise(index: int, length: int): (x: real)
    ensures length <= 1 ==> x == 0.0
    ensures length >= 2 && index == 0 ==> x == 0.0
    ensures length >= 2 && index == length - 1 ==> x == 100.0
    ensures 0 <= index < length ==> 0.0 <= x <= 100.0
  {
    if length <= 1 then 0.0
    else
      var step := 100.0 / (length - 1) as real;
      assert (length - 1) as real * step == 100.0;
      index as real * step
  }

  /** Points further along lie further right. */
  lemma NormaliseIncreasing(i: int, j: int, length: int)
    requires 0 <= i < j < length
    ensures Normalise(i, length) < Normalise(j, length)
  {
    var step := 100.0 / (length - 1) as real;
    assert step > 0.0;
    assert (j - i) as real * step > 0.0;
  }

  const TopPadding: real := 6.0

  /** `scaleValue(value, max)`: the y coordinate of a score, 6 at the top for
      scores at or above the maximum, 88 for a zero score. */
  function ScaleValue(value: real, max: real): (y: real)
    ensures y >= TopPadding
    ensures value >= 0.0 ==> y <= 88.0
    ensures value == 0.0 ==> y == 88.0
    ensures value >= Max(max, 1.0) ==> y == TopPadding
  {
    var height := 100.0 - TopPadding - 12.0;
    var safeMax := Max(max, 1.0);
    var ratio := if value / safeMax <= 1.0 then value / safeMax else 1.0;
    assert value >= 0.0 ==> ratio >= 0.0;
    assert value >= safeMax ==> ratio == 1.0 by {
      if value >= safeMax {
        RatioAtLeastOne(value, safeMax);
      }
    }
    TopPadding + (1.0 - ratio) * height
  }

  lemma RatioAtLeastOne(a: real, b: real)
    requires b > 0.0 && a >= b
    ensures a / b >= 1.0
  {
    var q := a / b;
    assert q * b == a;
  }

  /** A higher score is drawn no lower. */
  lemma ScaleValueMonotone(v: real, w: real, max: real)
    requires v <= w
    ensures ScaleValue(w, max) <= ScaleValue(v, max)
  {
    var safeMax := Max(max, 1.0);
    assert v / safeMax <= w / safeMax;
  }

  /** `Math.max(...chartData.map(point => point.weightedScore), 1)`. */
  function MaxScore(chart: seq<Bucket>): (m: real)
    ensures m >= 1.0
    ensures forall i :: 0 <= i < |chart| ==> chart[i].weightedScore <= m
    ensures m == 1.0 || exists i :: 0 <= i < |chart| && chart[i].weightedScore == m
  {
    if chart == [] then 1.0
    else
      var rest := MaxScore(chart[1..]);
      assert forall i :: 1 <= i < |chart| ==> chart[i] == chart[1..][i - 1];
      Max(chart[0].weightedScore, rest)
  }

  /** The polyline's points: `normalise` across, `scaleValue` against the
      largest score down. */
  function LinePoints(chart: seq<Bucket>): (points: seq<(real, real)>)
    ensures |points| == |chart|
    ensures |chart| >= 2 ==> points[0].0 == 0.0 && points[|chart| - 1].0 == 100.0
    ensures (forall i :: 0 <= i < |chart| ==> chart[i].weightedScore >= 0.0) ==>
      forall i :: 0 <= i < |points| ==> 0.0 <= points[i].0 <= 100.0 && TopPadding <= points[i].1 <= 88.0
  {
    var maxValue := MaxScore(chart);
    seq(|chart|, i requires 0 <= i < |chart| => (Normalise(i, |chart|), ScaleValue(chart[i].weightedScore, maxValue)))
  }

  /** The card's line stays inside the drawing, spans it from left to right,
      and its highest point touches the top padding when some score is at
      least 1. */
  lemma ChartLineInFrame(events: seq<Event>, nowMs: int, tzOffsetMs: int)
    requires events != []
    ensures var chart := ChartSpec(events, nowMs, tzOffsetMs);
      var points := LinePoints(chart);
      && |points| == Days
      && points[0].0 == 0.0 && points[Days - 1].0 == 100.0
      && (forall i :: 0 <= i < Days ==> 0.0 <= points[i].0 <= 100.0 && TopPadding <= points[i].1 <= 88.0)
      && (MaxScore(chart) > 1.0 ==> exists i :: 0 <= i < Days && points[i].1 == TopPadding)
  {
    var today := DayOf(nowMs, tzOffsetMs);
    var raw := AddAll(EmptyWindow(today), WindowIndex(today), events, nowMs, tzOffsetMs);
    SmoothedBounds(raw);
    var chart := ChartSpec(events, nowMs, tzOffsetMs);
    assert forall i :: 0 <= i < |chart| ==> chart[i].weightedScore >= 0.0 by {
      forall i | 0 <= i < |chart| ensures chart[i].weightedScore >= 0.0 {
        assert chart[i].weightedScore >= ScoreFloor(raw[i]);
      }
    }
    if MaxScore(chart) > 1.0 {
      var k :| 0 <= k < |chart| && chart[k].weightedScore == MaxScore(chart);
      assert LinePoints(chart)[k].1 == TopPadding;
    }
  }
}
