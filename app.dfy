/** The dashboard's top level: the events payload it accepts and the summary
    counters it computes over the whole, unfiltered event list. */
module App {
  import opened JsArrays
  import opened Events
  import EventTimeline
  import RiskTrendCard

  /** The parsed body of the events response: an array, or any other JSON value. */
  datatype EventsPayload = JsonArray(items: seq<Event>) | JsonOther

  /** `Array.isArray(eventsData) ? eventsData : []`. */
  function EventsOf(payload: EventsPayload): (events: seq<Event>)
    ensures payload.JsonOther? ==> events == []
    ensures payload.JsonArray? ==> events == payload.items
  {
    match payload
    case JsonArray(items) => items
    case JsonOther => []
  }

  datatype Stats = Stats(total: nat, hr: nat, finance: nat, critical: nat)

  /** The `stats` object: every event, the HR events, the finance events, and
      the critical-or-high events. */
  function ComputeStats(events: seq<Event>): (stats: Stats)
    ensures stats.total == |events|
    ensures stats.hr <= stats.total && stats.finance <= stats.total && stats.critical <= stats.total
    ensures stats.hr == 0 <==> forall i :: 0 <= i < |events| ==> !SourceIs(events[i], "hr")
    ensures stats.finance == 0 <==> forall i :: 0 <= i < |events| ==> !SourceIs(events[i], "finance")
    ensures stats.critical == 0 <==> forall i :: 0 <= i < |events| ==> !IsCriticalOrHigh(events[i])
  {
    FilterEmpty(events, e => SourceIs(e, "hr"));
    FilterEmpty(events, e => SourceIs(e, "finance"));
    FilterEmpty(events, e => IsCriticalOrHigh(e));
    Stats(
      |events|,
      |Filter(events, e => SourceIs(e, "hr"))|,
      |Filter(events, e => SourceIs(e, "finance"))|,
      |Filter(events, e => IsCriticalOrHigh(e))|)
  }

  /** The total counts every event; each other counter counts a part of them,
      and no event is both HR and finance. */
  lemma StatsBounds(events: seq<Event>)
    ensures var stats := ComputeStats(events);
      && stats.total == |events|
      && stats.hr + stats.finance <= stats.total
      && stats.critical <= stats.total
  {
    DisjointFiltersFit(events, e => SourceIs(e, "hr"), e => SourceIs(e, "finance"));
  }

  /** The HR, finance and critical tiles show as many events as the timeline
      tabs of the same names hold, over the same list. */
  lemma StatsMatchTimelineTabs(events: seq<Event>)
    ensures var stats := ComputeStats(events);
      && stats.total == |EventTimeline.FilteredEvents(events, "all")|
      && stats.hr == |EventTimeline.FilteredEvents(events, "hr")|
      && stats.finance == |EventTimeline.FilteredEvents(events, "finance")|
      && stats.critical == |EventTimeline.FilteredEvents(events, "critical")|
  {
    EventTimeline.UnfilteredTabs(events, "all");
    HrTileMatchesTab(events);
    FinanceTileMatchesTab(events);
    CriticalTileMatchesTab(events);
  }

  lemma HrTileMatchesTab(events: seq<Event>)
    ensures ComputeStats(events).hr == |EventTimeline.FilteredEvents(events, "hr")|
  {
    FilterAgrees(events, e => SourceIs(e, "hr"), e => EventTimeline.KeepForTab(e, "hr"));
  }

  lemma FinanceTileMatchesTab(events: seq<Event>)
    ensures ComputeStats(events).finance == |EventTimeline.FilteredEvents(events, "finance")|
  {
    FilterAgrees(events, e => SourceIs(e, "finance"), e => EventTimeline.KeepForTab(e, "finance"));
  }

  lemma CriticalTileMatchesTab(events: seq<Event>)
    ensures ComputeStats(events).critical == |EventTimeline.FilteredEvents(events, "critical")|
  {
    FilterAgrees(events, e => IsCriticalOrHigh(e), e => EventTimeline.KeepForTab(e, "critical"));
  }

  /** A payload that is not an array shows as no events at all: zero counters
      and no chart. */
  lemma NonArrayPayloadIsEmpty(nowMs: int, tzOffsetMs: int)
    ensures ComputeStats(EventsOf(JsonOther)) == Stats(0, 0, 0, 0)
    ensures RiskTrendCard.ChartSpec(EventsOf(JsonOther), nowMs, tzOffsetMs) == []
  {
  }
}
