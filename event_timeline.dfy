/** The signal timeline: the events of the active tab, newest first, each
    with a relative age. */
module EventTimeline {
  import opened JsValues
  import opened JsStrings
  import opened JsArrays
  import opened Events

  // ---------------------------------------------------------------------------
  // Tab filter

  /** The `filteredEvents` callback: `hr` and `finance` keep their source,
      `critical` keeps critical and high severities, `all` and any other tab
      keep everything. */
  function KeepForTab(e: Event, activeTab: string): (keep: bool)
    ensures activeTab !in {"hr", "finance", "critical"} ==> keep
    ensures activeTab in {"hr", "finance"} ==> (keep <==> LowerOpt(e.sourceSystem) == Some(activeTab))
    ensures activeTab == "critical" ==> (keep <==> DisplaySeverity(e) in {"critical", "high"})
  {
    if activeTab == "all" then true
    else if activeTab == "hr" then SourceIs(e, "hr")
    else if activeTab == "finance" then SourceIs(e, "finance")
    else if activeTab == "critical" then IsCriticalOrHigh(e)
    else true
  }

  /** `filteredEvents`: the events the active tab shows. */
  function FilteredEvents(events: seq<Event>, activeTab: string): (shown: seq<Event>)
    ensures |shown| <= |events|
    ensures forall i :: 0 <= i < |shown| ==> KeepForTab(shown[i], activeTab) && shown[i] in events
    ensures forall i :: 0 <= i < |events| && KeepForTab(events[i], activeTab) ==> events[i] in shown
  {
    var shown := Filter(events, e => KeepForTab(e, activeTab));
    assert forall i :: 0 <= i < |shown| ==> multiset(shown)[shown[i]] > 0;
    assert forall i :: 0 <= i < |events| ==> multiset(events)[events[i]] > 0;
    assert forall e :: multiset(shown)[e] > 0 ==> e in shown;
    shown
  }

  /** The `all` tab, and any tab the filter does not know, shows every event. */
  lemma {:induction false} UnfilteredTabs(events: seq<Event>, activeTab: string)
    requires activeTab !in {"hr", "finance", "critical"}
    ensures FilteredEvents(events, activeTab) == events
  {
    FilterKeepsAll(events, e => KeepForTab(e, activeTab));
  }

  /** The `hr` and `finance` tabs show exactly the events of that source, each
      as often as it was received. */
  lemma SourceTabs(events: seq<Event>, activeTab: string)
    requires activeTab in {"hr", "finance"}
    ensures forall e :: multiset(FilteredEvents(events, activeTab))[e]
                     == if SourceIs(e, activeTab) then multiset(events)[e] else 0
  {
  }

  /** The `critical` tab shows exactly the critical and high events. */
  lemma CriticalTab(events: seq<Event>)
    ensures forall e :: multiset(FilteredEvents(events, "critical"))[e]
                     == if IsCriticalOrHigh(e) then multiset(events)[e] else 0
  {
  }

  /** Every tab shows its events in the order they were received. */
  lemma FilteredInOrder(events: seq<Event>, activeTab: string) returns (positions: seq<nat>)
    ensures Embeds(FilteredEvents(events, activeTab), events, positions)
  {
    positions := FilterIsSubsequence(events, e => KeepForTab(e, activeTab));
  }

  // ---------------------------------------------------------------------------
  // Newest-first order

  /** Every event carries a `created_at`. */
  predicate AllDated(events: seq<Event>) {
    forall e :: e in events ==> e.createdAt.Some?
  }

  predicate NewestFirst(events: seq<Event>)
    requires AllDated(events)
  {
    forall i, j :: 0 <= i < j < |events| ==> events[j].createdAt.value <= events[i].createdAt.value
  }

  /** The first event of a newest-first list is at least as new as any. */
  lemma HeadIsNewest(sorted: seq<Event>)
    requires sorted != [] && AllDated(sorted) && NewestFirst(sorted)
    ensures forall x :: x in sorted ==> x.createdAt.value <= sorted[0].createdAt.value
  {
    forall x | x in sorted ensures x.createdAt.value <= sorted[0].createdAt.value {
      var k :| 0 <= k < |sorted| && sorted[k] == x;
      if k > 0 {
        assert sorted[k].createdAt.value <= sorted[0].createdAt.value;
      }
    }
  }

  /** An event at least as new as every event of a newest-first list can
      go in front of it. */
  lemma PrependNewest(x: Event, rest: seq<Event>)
    requires x.createdAt.Some? && AllDated(rest) && NewestFirst(rest)
    requires forall y :: y in rest ==> y.createdAt.value <= x.createdAt.value
    ensures AllDated([x] + rest) && NewestFirst([x] + rest)
  {
    var r := [x] + rest;
    forall i, j | 0 <= i < j < |r| ensures r[j].createdAt.value <= r[i].createdAt.value {
      assert r[j] == rest[j - 1];
      if i > 0 {
        assert r[i] == rest[i - 1];
      } else {
        assert rest[j - 1] in rest;
      }
    }
  }

  /** Places `e` in front of the first event no newer than it. */
  function InsertByAge(e: Event, sorted: seq<Event>): (r: seq<Event>)
    requires e.createdAt.Some? && AllDated(sorted) && NewestFirst(sorted)
    ensures AllDated(r) && NewestFirst(r)
    ensures multiset(r) == multiset(sorted) + multiset{e}
  {
    if sorted == [] then [e]
    else if sorted[0].createdAt.value <= e.createdAt.value then
      HeadIsNewest(sorted);
      PrependNewest(e, sorted);
      [e] + sorted
    else
      assert sorted == [sorted[0]] + sorted[1..];
      var rest := InsertByAge(e, sorted[1..]);
      InsertedNoNewerThanHead(e, sorted, rest);
      PrependNewest(sorted[0], rest);
      [sorted[0]] + rest
  }

  lemma InsertedNoNewerThanHead(e: Event, sorted: seq<Event>, rest: seq<Event>)
    requires e.createdAt.Some? && sorted != [] && AllDated(sorted) && NewestFirst(sorted)
    requires e.createdAt.value < sorted[0].createdAt.value
    requires multiset(rest) == multiset(sorted[1..]) + multiset{e}
    ensures forall x :: x in rest ==> x.createdAt.Some? && x.createdAt.value <= sorted[0].createdAt.value
  {
    HeadIsNewest(sorted);
    forall x | x in rest ensures x.createdAt.Some? && x.createdAt.value <= sorted[0].createdAt.value {
      assert x in multiset(rest);
      assert x == e || x in sorted[1..];
    }
  }

  /** `[...filteredEvents].sort((a, b) => new Date(b.created_at) - new Date(a.created_at))`:
      a stable sort, newest first, of a copy. */
  function SortNewestFirst(events: seq<Event>): (r: seq<Event>)
    requires AllDated(events)
    ensures AllDated(r)
    ensures multiset(r) == multiset(events)
    ensures NewestFirst(r)
  {
    if events == [] then []
    else
      assert events == [events[0]] + events[1..];
      InsertByAge(events[0], SortNewestFirst(events[1..]))
  }

  /** The events created at instant `t`, in order. */
  function CreatedAtInstant(events: seq<Event>, t: int): seq<Event> {
    if events == [] then []
    else (if events[0].createdAt == Some(t) then [events[0]] else []) + CreatedAtInstant(events[1..], t)
  }

  lemma TiesCons(x: Event, s: seq<Event>, t: int)
    ensures CreatedAtInstant([x] + s, t) == (if x.createdAt == Some(t) then [x] else []) + CreatedAtInstant(s, t)
  {
    assert ([x] + s)[1..] == s;
  }

  /** Putting `head` back in front of a list where `e` was inserted keeps the
      ties in order, as `head` and `e` were not created at the same instant. */
  lemma TiesAroundHead(e: Event, head: Event, tail: seq<Event>, rest: seq<Event>, t: int)
    requires head.createdAt != e.createdAt
    requires CreatedAtInstant(rest, t) == (if e.createdAt == Some(t) then [e] else []) + CreatedAtInstant(tail, t)
    ensures CreatedAtInstant([head] + rest, t)
         == (if e.createdAt == Some(t) then [e] else []) + CreatedAtInstant([head] + tail, t)
  {
    TiesCons(head, rest, t);
    TiesCons(head, tail, t);
  }

  lemma {:induction false} InsertKeepsTies(e: Event, sorted: seq<Event>, t: int)
    requires e.createdAt.Some? && AllDated(sorted) && NewestFirst(sorted)
    ensures CreatedAtInstant(InsertByAge(e, sorted), t)
         == (if e.createdAt == Some(t) then [e] else []) + CreatedAtInstant(sorted, t)
  {
    if sorted == [] {
      TiesCons(e, [], t);
    } else if sorted[0].createdAt.value <= e.createdAt.value {
      TiesCons(e, sorted, t);
    } else {
      assert sorted == [sorted[0]] + sorted[1..];
      InsertKeepsTies(e, sorted[1..], t);
      TiesAroundHead(e, sorted[0], sorted[1..], InsertByAge(e, sorted[1..]), t);
    }
  }

  /** Events created at the same instant keep their received order. */
  lemma {:induction false} SortIsStable(events: seq<Event>, t: int)
    requires AllDated(events)
    ensures CreatedAtInstant(SortNewestFirst(events), t) == CreatedAtInstant(events, t)
  {
    if events != [] {
      assert events[0] in events;
      SortIsStable(events[1..], t);
      InsertKeepsTies(events[0], SortNewestFirst(events[1..]), t);
    }
  }

  /** `sortedEvents`: the active tab's events, newest first. It holds exactly
      the events the tab keeps and no other. */
  function TimelineView(events: seq<Event>, activeTab: string): (view: seq<Event>)
    requires AllDated(events)
    ensures AllDated(view) && NewestFirst(view)
    ensures forall e :: multiset(view)[e] == if KeepForTab(e, activeTab) then multiset(events)[e] else 0
  {
    var filtered := FilteredEvents(events, activeTab);
    assert forall e :: e in filtered ==> e in events by {
      forall e | e in filtered ensures e in events {
        assert e in multiset(filtered);
      }
    }
    SortNewestFirst(filtered)
  }

  // ---------------------------------------------------------------------------
  // Display helpers

  const MsPerMinute: int := 60000
  const MsPerHour: int := 3600000

  /** What `formatTime` shows: `<n>m ago`, `<n>h ago`, `<n>d ago`, or the
      short calendar date of the instant. */
  datatype TimeLabel = MinutesAgo(minutes: int) | HoursAgo(hours: int) | DaysAgo(days: int) | ShortDate(ms: int)

  /** `formatTime(created_at)` at instant `nowMs`: whole minutes under an
      hour, whole hours under a day, whole days under a week, else the date.
      A creation time in the future gives a negative minute count. */
  function FormatTime(createdMs: int, nowMs: int): (r: TimeLabel)
    ensures var diff := nowMs - createdMs;
      && (r.MinutesAgo? <==> diff < MsPerHour)
      && (r.HoursAgo? <==> MsPerHour <= diff < MsPerDay)
      && (r.DaysAgo? <==> MsPerDay <= diff < 7 * MsPerDay)
      && (r.ShortDate? <==> 7 * MsPerDay <= diff)
      && (r.MinutesAgo? ==> r.minutes < 60 && r.minutes * MsPerMinute <= diff < (r.minutes + 1) * MsPerMinute)
      && (r.HoursAgo? ==> 1 <= r.hours < 24 && r.hours * MsPerHour <= diff < (r.hours + 1) * MsPerHour)
      && (r.DaysAgo? ==> 1 <= r.days < 7 && r.days * MsPerDay <= diff < (r.days + 1) * MsPerDay)
      && (r.ShortDate? ==> r.ms == createdMs)
  {
    var diffMs := nowMs - createdMs;
    var diffMins := diffMs / MsPerMinute;
    var diffHours := diffMs / MsPerHour;
    var diffDays := diffMs / MsPerDay;
    if diffMins < 60 then MinutesAgo(diffMins)
    else if diffHours < 24 then HoursAgo(diffHours)
    else if diffDays < 7 then DaysAgo(diffDays)
    else ShortDate(createdMs)
  }

  /** `(event.severity || 'medium').toLowerCase()`: the severity an event's dot
      shows. A missing or empty severity shows as `medium`; the dot shows critical or
      high exactly for the events the `critical` tab keeps. */
  function DisplaySeverity(e: Event): (severity: string)
    ensures e.severity.None? || e.severity.value == [] ==> severity == "medium"
    ensures e.severity.Some? && e.severity.value != [] ==> |severity| == |e.severity.value|
    ensures e.severity.Some? && e.severity.value != [] ==> severity == ToLower(e.severity.value)
    ensures forall i :: 0 <= i < |severity| ==> !IsUpperAscii(severity[i])
    ensures severity in {"critical", "high"} <==> IsCriticalOrHigh(e)
  {
    ToLower(TextOr(e.severity, "medium"))
  }
}
