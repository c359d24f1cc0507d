/**
 * The live coverage board (components/LiveEvents.tsx): the per-status counters,
 * the tab listing, the "time ago" text of the last sync, when opening the board
 * triggers a sync, and how a sync replaces the events.
 */
module LiveEvents {
  import opened Text
  import opened Lists
  import opened Wrappers
  import opened Ai
  import Records

  datatype EventStatus = Live | Upcoming | Completed | Ongoing

  datatype LiveEvent = LiveEvent(
    id: string,
    title: string,
    description: string,
    category: string,
    status: EventStatus,
    date: string,
    time: string,
    views: int,
    highlights: seq<string>)

  const MinuteMs := 60000
  const StaleAfterMs := 30 * 60 * 1000

  // ---------------------------------------------------------------- counters

  function CountStatus(events: seq<LiveEvent>, status: EventStatus): nat {
    Count(events, (e: LiveEvent) => e.status == status)
  }

  datatype EventStats = EventStats(live: nat, upcoming: nat, ongoing: nat)

  /** Each counter is the length of its tab's listing. */
  function Stats(events: seq<LiveEvent>): (s: EventStats)
    ensures s.live == |FilteredEvents(events, Live)| && s.upcoming == |FilteredEvents(events, Upcoming)|
    ensures s.ongoing == |FilteredEvents(events, Ongoing)|
  {
    FilteredEventsExactly(events, Live);
    FilteredEventsExactly(events, Upcoming);
    FilteredEventsExactly(events, Ongoing);
    EventStats(CountStatus(events, Live), CountStatus(events, Upcoming), CountStatus(events, Ongoing))
  }

  /**
   * Every event is counted under its own status and only there, so the three
   * counters add up to the events that are not completed: completed events are
   * counted in none of them.
   */
  lemma {:induction false} CompletedUncounted(events: seq<LiveEvent>)
    ensures var s := Stats(events);
      s.live + s.upcoming + s.ongoing + CountStatus(events, Completed) == |events|
  {
    if events != [] {
      CompletedUncounted(events[1..]);
    }
  }

  /** The tab listing: the events with the tab's status, in their stored order. */
  function FilteredEvents(events: seq<LiveEvent>, tab: EventStatus): (r: seq<LiveEvent>)
    ensures IsSubsequence(r, events)
    ensures forall i :: 0 <= i < |r| ==> r[i].status == tab
  {
    var onTab := (e: LiveEvent) => e.status == tab;
    FilterIsSubsequence(events, onTab);
    Filter(events, onTab)
  }

  lemma FilteredEventsExactly(events: seq<LiveEvent>, tab: EventStatus)
    ensures forall e :: e in FilteredEvents(events, tab) <==> e in events && e.status == tab
    ensures IsSubsequence(FilteredEvents(events, tab), events)
    ensures |FilteredEvents(events, tab)| == CountStatus(events, tab)
  {
    var r := FilteredEvents(events, tab);
    forall e | e in r ensures e in events && e.status == tab {
      var i :| 0 <= i < |r| && r[i] == e;
    }
    forall e | e in events && e.status == tab ensures e in r {
      var i :| 0 <= i < |events| && events[i] == e;
    }
    FilterIsSubsequence(events, (e: LiveEvent) => e.status == tab);
  }

  // ---------------------------------------------------------------- time ago

  /**
   * The text of the last sync, from the whole minutes elapsed (rounded down): no
   * sync yet, under a minute, minutes under an hour, whole hours otherwise.
   */
  function TimeAgo(now: int, lastSync: int): (text: string)
    ensures lastSync == 0 <==> text == "Never"
  {
    if lastSync == 0 then "Never"
    else
      var minutes := (now - lastSync) / MinuteMs;
      if minutes < 1 then "Just now"
      else if minutes < 60 then NatToString(minutes) + "m ago"
      else
        var text := NatToString(minutes / 60) + "h ago";
        assert text[0] != 'N' by { assert IsDigit(NatToString(minutes / 60)[0]); }
        text
  }

  /** Whole minutes elapsed, rounded down, then whole hours of those: the whole hours elapsed. */
  lemma HoursOfMinutes(elapsed: int)
    requires elapsed >= 0
    ensures (elapsed / MinuteMs) / 60 == elapsed / (60 * MinuteMs)
  {
    var h := elapsed / (60 * MinuteMs);
    var rest := elapsed % (60 * MinuteMs);
    assert elapsed == h * (60 * MinuteMs) + rest;
    var m := rest / MinuteMs;
    assert rest == m * MinuteMs + rest % MinuteMs;
    assert 0 <= m < 60;
    assert elapsed == (h * 60 + m) * MinuteMs + rest % MinuteMs;
    assert elapsed / MinuteMs == h * 60 + m;
  }

  /**
   * What the text says, read back: "Just now" under a minute; under an hour the
   * digits before "m ago" are the whole minutes elapsed; from an hour on the digits
   * before "h ago" are the whole hours elapsed.
   */
  lemma {:induction false} TimeAgoReadsBack(now: int, lastSync: int)
    requires lastSync != 0
    ensures var text := TimeAgo(now, lastSync);
      (now - lastSync < MinuteMs <==> text == "Just now")
      && (MinuteMs <= now - lastSync < 60 * MinuteMs ==>
            |text| > 5 && text[|text| - 5..] == "m ago"
            && (forall i :: 0 <= i < |text| - 5 ==> IsDigit(text[i]))
            && DigitsValue(text[..|text| - 5]) == (now - lastSync) / MinuteMs)
      && (now - lastSync >= 60 * MinuteMs ==>
            |text| > 5 && text[|text| - 5..] == "h ago"
            && (forall i :: 0 <= i < |text| - 5 ==> IsDigit(text[i]))
            && DigitsValue(text[..|text| - 5]) == (now - lastSync) / (60 * MinuteMs))
  {
    var text := TimeAgo(now, lastSync);
    var minutes := (now - lastSync) / MinuteMs;
    if minutes >= 1 {
      var digits := if minutes < 60 then NatToString(minutes) else NatToString(minutes / 60);
      assert text == digits + (if minutes < 60 then "m ago" else "h ago");
      assert text[..|text| - 5] == digits;
      assert IsDigit(digits[0]);
      if minutes < 60 {
        NatToStringRoundTrip(minutes);
      } else {
        NatToStringRoundTrip(minutes / 60);
        HoursOfMinutes(now - lastSync);
      }
    }
  }

  // ------------------------------------------------------------------- board

  /** What a live-events lookup brings back, once its data is read as events. */
  datatype EventFeed = EventFeed(data: Option<seq<LiveEvent>>, sources: seq<Records.Citation>)

  /** The board's state; the clock is a parameter of the handlers that read it. */
  class LiveBoard {
    var events: seq<LiveEvent>
    var activeTab: EventStatus
    var lastSync: int
    var isSyncing: bool
    var sources: seq<Records.Citation>

    constructor(saved: seq<LiveEvent>, savedSync: int)
      ensures events == saved && activeTab == Live && lastSync == savedSync && !isSyncing && sources == []
    {
      events := saved;
      activeTab := Live;
      lastSync := savedSync;
      isSyncing := false;
      sources := [];
    }

    /** Opening the board syncs exactly when the last sync is more than thirty minutes old. */
    method SyncOnOpen(now: int) returns (scheduled: bool)
      ensures scheduled <==> now - lastSync > StaleAfterMs
    {
      scheduled := now - lastSync > StaleAfterMs;
    }

    /**
     * `handleSyncData`: a non-empty list of events replaces the events and the
     * sources and stamps the sync time; an empty or missing list, or a failed
     * lookup, leaves all three alone. The busy flag is down at the end.
     */
    method SyncData(lookup: Outcome<EventFeed>, now: int)
      modifies this
      ensures if lookup.Answered? && lookup.value.data.Some? && lookup.value.data.value != [] then
          events == lookup.value.data.value && sources == lookup.value.sources && lastSync == now
        else events == old(events) && sources == old(sources) && lastSync == old(lastSync)
      ensures !isSyncing && activeTab == old(activeTab)
    {
      isSyncing := true;
      if lookup.Answered? && lookup.value.data.Some? && |lookup.value.data.value| > 0 {
        events := lookup.value.data.value;
        sources := lookup.value.sources;
        lastSync := now;
      }
      isSyncing := false;
    }
  }
}
