/**
 * The election board (components/ElectionUpdates.tsx): the records under the active
 * tab, when a result snapshot is drawn, and the date badge of a record.
 */
module Elections {
  import opened Wrappers
  import opened Text
  import opened Lists
  import opened Ai
  import Records

  datatype ElectionStatus = Upcoming | Ongoing | Past

  datatype SeatResult = SeatResult(party: string, seats: int, totalSeats: int, color: string)

  datatype ElectionRecord = ElectionRecord(
    id: string,
    title: string,
    status: ElectionStatus,
    date: string,
    kind: string,
    location: string,
    description: string,
    results: Option<seq<SeatResult>>)

  /** `data?.records.filter(r => r.status === activeTab) || []`. */
  function FilteredRecords(records: Option<seq<ElectionRecord>>, tab: ElectionStatus): (shown: seq<ElectionRecord>)
    ensures records.None? ==> shown == []
    ensures records.Some? ==> IsSubsequence(shown, records.value)
    ensures forall i :: 0 <= i < |shown| ==> shown[i].status == tab
  {
    if records.None? then []
    else
      var onTab := (r: ElectionRecord) => r.status == tab;
      FilterIsSubsequence(records.value, onTab);
      Filter(records.value, onTab)
  }

  /**
   * Without data nothing is listed; with data, exactly the records under the tab,
   * in their order.
   */
  lemma FilteredRecordsExactly(records: Option<seq<ElectionRecord>>, tab: ElectionStatus)
    ensures records.None? ==> FilteredRecords(records, tab) == []
    ensures records.Some? ==>
      (forall r :: r in FilteredRecords(records, tab) <==> r in records.value && r.status == tab)
      && IsSubsequence(FilteredRecords(records, tab), records.value)
  {
    if records.Some? {
      var shown := FilteredRecords(records, tab);
      forall r | r in shown ensures r in records.value && r.status == tab {
        var i :| 0 <= i < |shown| && shown[i] == r;
      }
      forall r | r in records.value && r.status == tab ensures r in shown {
        var i :| 0 <= i < |records.value| && records.value[i] == r;
      }
      FilterIsSubsequence(records.value, (r: ElectionRecord) => r.status == tab);
    }
  }

  /** The rows of the result snapshot; the snapshot is drawn only when there are some. */
  function SnapshotRows(record: ElectionRecord): (rows: seq<SeatResult>)
    ensures rows != [] <==> record.results.Some? && record.results.value != []
    ensures rows != [] ==> rows == record.results.value
  {
    if record.results.Some? && |record.results.value| > 0 then record.results.value else []
  }

  /** The date badge: a large first line and a small second line. */
  datatype DateBadge = DateBadge(top: string, bottom: string)

  /**
   * The badge shows the first '/'-separated field on top and the second and third,
   * separated by a space, below; a missing field renders as nothing.
   */
  function BadgeOf(date: string): (b: DateBadge)
    ensures b.top == Split(date, "/")[0]
  {
    var fields := Split(date, "/");
    var second := if |fields| > 1 then fields[1] else "";
    var third := if |fields| > 2 then fields[2] else "";
    DateBadge(fields[0], second + " " + third)
  }

  /** A day/month/year date shows its day on top and "month year" below. */
  lemma BadgeOfSlashDate(day: string, month: string, year: string)
    requires '/' !in day && '/' !in month && '/' !in year
    ensures BadgeOf(day + "/" + month + "/" + year) == DateBadge(day, month + " " + year)
  {
    var parts := [day, month, year];
    assert Join(parts, "/") == day + "/" + month + "/" + year by {
      assert Join(parts[2..], "/") == year;
      assert parts[1..][1..] == parts[2..];
    }
    SplitJoin(parts, '/');
  }

  /** A date without '/' shows whole on top, over a lone space. */
  lemma BadgeOfPlainDate(date: string)
    requires '/' !in date
    ensures BadgeOf(date) == DateBadge(date, " ")
  {
    SplitJoin([date], '/');
  }

  /** What an election lookup brings back. */
  datatype ElectionFeed = ElectionFeed(records: Option<seq<ElectionRecord>>, sources: seq<Records.Citation>)

  /** The board's state. */
  class ElectionBoard {
    var records: Option<seq<ElectionRecord>>
    var isLoading: bool
    var activeTab: ElectionStatus
    var sources: seq<Records.Citation>

    /** The board opens loading, without data, on the 'Ongoing' tab. */
    constructor()
      ensures records.None? && isLoading && activeTab == Ongoing && sources == []
      ensures FilteredRecords(records, activeTab) == []
    {
      records := None;
      isLoading := true;
      activeTab := Ongoing;
      sources := [];
    }

    /** `fetchData`: an answer replaces the data and the sources; a failure keeps both. Loading ends either way. */
    method FetchData(lookup: Outcome<ElectionFeed>)
      modifies this
      ensures lookup.Answered? ==> records == lookup.value.records && sources == lookup.value.sources
      ensures lookup.Threw? ==> records == old(records) && sources == old(sources)
      ensures !isLoading && activeTab == old(activeTab)
    {
      isLoading := true;
      if lookup.Answered? {
        records := lookup.value.records;
        sources := lookup.value.sources;
      }
      isLoading := false;
    }
  }
}
