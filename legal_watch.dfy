/**
 * The legal-record watch (components/LeaderLegalWatch.tsx): filtering leaders by
 * their audited legal standing, the badges on each entry, attaching an audit to a
 * leader, and the search that discovers and audits a leader by name.
 */
module LegalWatch {
  import opened Wrappers
  import opened Records
  import opened Text
  import opened Lists
  import opened Ai
  import LeaderDirectory

  datatype LegalFilter = All | Criminal | Jail | Corruption

  /** The number of cases on record, 0 without an audit. */
  function CaseCount(l: PoliticalLeader): int {
    if l.legalStanding.Some? then l.legalStanding.value.totalCases else 0
  }

  /** The jail history is present and, lower-cased, is neither "no record" nor "none". */
  predicate JailRecorded(s: LeaderLegalStanding) {
    s.jailHistory != "" && Lower(s.jailHistory) != "no record" && Lower(s.jailHistory) != "none"
  }

  /**
   * The record filter: 'All' keeps everyone, every other filter needs an audit, and a
   * leader kept by 'Jail' always shows the rendered 'J' badge.
   */
  predicate PassesLegalFilter(l: PoliticalLeader, filter: LegalFilter): (passes: bool)
    ensures filter == All ==> passes
    ensures passes && filter != All ==> l.legalStanding.Some?
    ensures passes && filter == Jail ==> JailBadgeAsWritten(l.legalStanding.value)
  {
    match filter
    case All => true
    case Criminal => CaseCount(l) > 0
    case Jail => l.legalStanding.Some? && JailRecorded(l.legalStanding.value)
    case Corruption => l.legalStanding.Some? && |l.legalStanding.value.corruptionAllegations| > 0
  }

  /** Listed: the search matches the name or constituency, then the record filter applies. */
  predicate Listed(l: PoliticalLeader, query: string, filter: LegalFilter) {
    LeaderDirectory.MatchesSearch(l, query) && PassesLegalFilter(l, filter)
  }

  /**
   * `filteredLeaders`: the leaders the search and the record filter let through, as a
   * subsequence of the list; every listed leader is kept and no other.
   */
  function FilteredLeaders(leaders: seq<PoliticalLeader>, query: string, filter: LegalFilter)
    : (r: seq<PoliticalLeader>)
    ensures IsSubsequence(r, leaders)
    ensures forall i :: 0 <= i < |r| ==> Listed(r[i], query, filter)
    ensures forall i :: 0 <= i < |leaders| && Listed(leaders[i], query, filter) ==> leaders[i] in r
  {
    var listed := l => Listed(l, query, filter);
    FilterIsSubsequence(leaders, listed);
    Filter(leaders, listed)
  }

  /**
   * Every record filter narrows the search results: its list is the 'All' list with the
   * filter applied, in the same order, and 'All' keeps every search match.
   */
  lemma FilterNarrowsSearch(leaders: seq<PoliticalLeader>, query: string, filter: LegalFilter)
    ensures FilteredLeaders(leaders, query, All) == Filter(leaders, l => LeaderDirectory.MatchesSearch(l, query))
    ensures FilteredLeaders(leaders, query, filter)
      == Filter(FilteredLeaders(leaders, query, All), l => PassesLegalFilter(l, filter))
    ensures IsSubsequence(FilteredLeaders(leaders, query, filter), FilteredLeaders(leaders, query, All))
  {
    FilterSame(leaders, l => Listed(l, query, All), l => LeaderDirectory.MatchesSearch(l, query));
    FilterOfFilter(leaders, l => LeaderDirectory.MatchesSearch(l, query), l => PassesLegalFilter(l, filter),
                   l => Listed(l, query, filter));
    FilterIsSubsequence(FilteredLeaders(leaders, query, All), l => PassesLegalFilter(l, filter));
  }

  /** A leader that has not been audited passes only the 'All' filter. */
  lemma UnauditedOnlyUnderAll(l: PoliticalLeader, filter: LegalFilter)
    requires l.legalStanding.None?
    ensures PassesLegalFilter(l, filter) <==> filter == All
  {
  }

  // ------------------------------------------------------------------ badges

  /** 'C': some case on record. */
  predicate CriminalBadge(s: LeaderLegalStanding) {
    s.totalCases > 0
  }

  /** 'J' as rendered: a jail history that, lower-cased, is not "none". */
  predicate JailBadgeAsWritten(s: LeaderLegalStanding) {
    s.jailHistory != "" && Lower(s.jailHistory) != "none"
  }

  /** 'J' corrected: the rendered test, with "no record" excluded as well. */
  predicate JailBadge(s: LeaderLegalStanding) {
    JailBadgeAsWritten(s) && Lower(s.jailHistory) != "no record"
  }

  /** 'A': some corruption allegation. */
  predicate CorruptionBadge(s: LeaderLegalStanding) {
    |s.corruptionAllegations| > 0
  }

  /** An audited leader shows each badge exactly when it passes the matching filter. */
  lemma BadgesMatchFilters(l: PoliticalLeader)
    requires l.legalStanding.Some?
    ensures CriminalBadge(l.legalStanding.value) <==> PassesLegalFilter(l, Criminal)
    ensures JailBadge(l.legalStanding.value) <==> PassesLegalFilter(l, Jail)
    ensures CorruptionBadge(l.legalStanding.value) <==> PassesLegalFilter(l, Corruption)
  {
  }

  /**
   * The rendered 'J' badge and the Jail filter disagree exactly on a jail history that
   * reads "no record" in any letter case: the badge shows there and the filter hides it.
   */
  lemma JailBadgeGap(s: LeaderLegalStanding)
    ensures JailBadgeAsWritten(s) && !JailRecorded(s) <==> Lower(s.jailHistory) == "no record"
    ensures JailRecorded(s) ==> JailBadgeAsWritten(s)
  {
    if Lower(s.jailHistory) == "no record" {
      assert |Lower(s.jailHistory)| != |"none"|;
      assert s.jailHistory != "" by {
        assert |Lower(s.jailHistory)| == |s.jailHistory|;
      }
    }
  }

  /** As written, a "No Record" jail history shows the 'J' badge, yet the Jail filter hides the leader. */
  lemma NoRecordShowsJailBadge(l: PoliticalLeader)
    requires l.legalStanding.Some? && l.legalStanding.value.jailHistory == "No Record"
    ensures JailBadgeAsWritten(l.legalStanding.value)
    ensures !PassesLegalFilter(l, Jail)
    ensures !JailBadge(l.legalStanding.value)
  {
    var h := l.legalStanding.value.jailHistory;
    assert Lower(h) == "no record";
    assert |Lower(h)| != |"none"|;
  }

  // ---------------------------------------------------------------- auditing

  /**
   * An audit attached to a list: with data, the leaders with this id get it as
   * their standing and nobody else changes; without data nothing changes.
   */
  function SyncedLegal(leaders: seq<PoliticalLeader>, id: string, data: Option<LeaderLegalStanding>)
    : (r: seq<PoliticalLeader>)
    ensures |r| == |leaders|
    ensures data.None? ==> r == leaders
    ensures forall i :: 0 <= i < |r| ==>
      if data.Some? && leaders[i].id == id then r[i] == leaders[i].(legalStanding := data) else r[i] == leaders[i]
  {
    if data.None? then leaders
    else
      seq(|leaders|, i requires 0 <= i < |leaders| =>
        if leaders[i].id == id then leaders[i].(legalStanding := data) else leaders[i])
  }

  /** The leader a discovery audits when its name is new: rating 3.0, no votes, not followed, no standing yet. */
  function Audited(profile: LeaderDirectory.Profile, id: string, roll: LeaderDirectory.Roll): (l: PoliticalLeader)
    requires roll.Valid()
    ensures l.id == id && l.name == profile.name && l.constituency == profile.constituency
    ensures l.role == profile.role && l.party == profile.party && l.state == profile.state
    ensures l.sinceYear == profile.sinceYear
    ensures l.rating == 3.0 && l.ratingCount == 0 && !l.isFollowed && l.legalStanding.None?
    ensures l.attendance == LeaderDirectory.Scaled(roll.first, 30) + 70
    ensures l.bills == LeaderDirectory.Scaled(roll.second, 5) && l.debates == LeaderDirectory.Scaled(roll.third, 15)
    ensures l.questions == LeaderDirectory.Scaled(roll.fourth, 40)
    ensures 70 <= l.attendance <= 99 && 0 <= l.bills <= 4 && 0 <= l.debates <= 14 && 0 <= l.questions <= 39
  {
    PoliticalLeader(id, profile.name, profile.role, profile.party, profile.constituency, profile.state,
                    3.0, 0,
                    LeaderDirectory.Scaled(roll.first, 30) + 70, LeaderDirectory.Scaled(roll.second, 5),
                    LeaderDirectory.Scaled(roll.third, 15), LeaderDirectory.Scaled(roll.fourth, 40),
                    profile.sinceYear, None, false, None)
  }

  /** `leaders.find` by lower-cased name: the first leader with that name. */
  function FindByName(leaders: seq<PoliticalLeader>, name: string): (r: Option<PoliticalLeader>)
    ensures r.None? <==> !LeaderDirectory.NameTaken(leaders, name)
    ensures r.Some? ==> exists i :: (0 <= i < |leaders| && leaders[i] == r.value
      && Lower(leaders[i].name) == Lower(name)
      && forall k :: 0 <= k < i ==> Lower(leaders[k].name) != Lower(name))
  {
    if leaders == [] then None
    else if Lower(leaders[0].name) == Lower(name) then Some(leaders[0])
    else
      var rest := leaders[1..];
      var r := FindByName(rest, name);
      assert forall k :: 1 <= k < |leaders| ==> leaders[k] == rest[k - 1];
      if r.Some? then
        var i :| 0 <= i < |rest| && rest[i] == r.value
          && Lower(rest[i].name) == Lower(name)
          && forall k :: 0 <= k < i ==> Lower(rest[k].name) != Lower(name);
        assert leaders[i + 1] == r.value;
        r
      else r
  }

  /**
   * The list `handleDiscoverAndAudit` leaves behind for a new name, as written: the
   * new leader is put in front, but the audit that follows maps over the list from
   * before the insertion and replaces the whole list with it.
   */
  function AfterDiscoverAsWritten(leaders: seq<PoliticalLeader>, added: PoliticalLeader, audit: Option<LeaderLegalStanding>)
    : (r: seq<PoliticalLeader>)
    ensures audit.None? ==> r == [added] + leaders
    ensures audit.Some? ==> r == SyncedLegal(leaders, added.id, audit)
  {
    var updated := [added] + leaders;
    if audit.Some? then SyncedLegal(leaders, added.id, audit) else updated
  }

  /** Ids of a list. */
  predicate HasId(leaders: seq<PoliticalLeader>, id: string) {
    exists i :: 0 <= i < |leaders| && leaders[i].id == id
  }

  /**
   * As written, a successful audit of a newly discovered leader removes that leader:
   * the list is the old one, and the selected id belongs to no listed leader.
   */
  lemma StaleAuditDropsNewLeader(leaders: seq<PoliticalLeader>, added: PoliticalLeader, audit: LeaderLegalStanding)
    requires !HasId(leaders, added.id)
    ensures AfterDiscoverAsWritten(leaders, added, Some(audit)) == leaders
    ensures !HasId(AfterDiscoverAsWritten(leaders, added, Some(audit)), added.id)
  {
    var r := AfterDiscoverAsWritten(leaders, added, Some(audit));
    assert forall i :: 0 <= i < |r| ==> r[i] == leaders[i];
  }

  /** The list after a new name is discovered and audited: the audit applied to the list holding the new leader. */
  function AfterDiscover(leaders: seq<PoliticalLeader>, added: PoliticalLeader, audit: Option<LeaderLegalStanding>)
    : (r: seq<PoliticalLeader>)
    ensures |r| == |leaders| + 1
  {
    SyncedLegal([added] + leaders, added.id, audit)
  }

  /**
   * A newly discovered leader stays at the front, carrying its audit when there is
   * one, and the rest of the list is unchanged.
   */
  lemma DiscoveredLeaderKept(leaders: seq<PoliticalLeader>, added: PoliticalLeader, audit: Option<LeaderLegalStanding>)
    requires !HasId(leaders, added.id)
    ensures var r := AfterDiscover(leaders, added, audit);
      r[0] == (if audit.Some? then added.(legalStanding := audit) else added) && r[1..] == leaders
      && HasId(r, added.id)
  {
    var r := AfterDiscover(leaders, added, audit);
    var s := [added] + leaders;
    assert forall i :: 1 <= i < |s| ==> s[i] == leaders[i - 1] && s[i].id != added.id;
    assert r[0].id == added.id;
  }

  // ------------------------------------------------------------- sync flag

  /**
   * The syncing flag after `handleSyncLegalData` as written: the await has no `try`,
   * so a rejected lookup skips the reset and the sync button stays disabled.
   */
  function SyncingAfterAsWritten(lookup: Outcome<Option<LeaderLegalStanding>>): (syncing: bool)
    ensures syncing <==> lookup.Threw?
  {
    match lookup
    case Threw(_) => true
    case Answered(_) => false
  }

  // ------------------------------------------------------------------ panel

  /**
   * The watch's state. Each handler runs from its guard to its last state update in
   * one step, with the awaited lookups passed in.
   */
  class LegalWatchPanel {
    var leaders: seq<PoliticalLeader>
    var selectedLeaderId: Option<string>
    var isSyncing: bool
    var isDiscovering: bool
    var searchQuery: string
    var filter: LegalFilter

    constructor(initial: seq<PoliticalLeader>)
      ensures leaders == initial && selectedLeaderId.None? && !isSyncing && !isDiscovering
      ensures searchQuery == "" && filter == All
    {
      leaders := initial;
      selectedLeaderId := None;
      isSyncing := false;
      isDiscovering := false;
      searchQuery := "";
      filter := All;
    }

    /**
     * `handleSyncLegalData`, with the flag reset however the lookup ends: returned
     * data becomes the standing of the leader with this id; nothing else changes.
     */
    method Sync(leader: PoliticalLeader, lookup: Outcome<Option<LeaderLegalStanding>>)
      modifies this
      ensures lookup.Answered? ==> leaders == SyncedLegal(old(leaders), leader.id, lookup.value)
      ensures lookup.Threw? ==> leaders == old(leaders)
      ensures !isSyncing
      ensures selectedLeaderId == old(selectedLeaderId) && isDiscovering == old(isDiscovering)
      ensures searchQuery == old(searchQuery) && filter == old(filter)
    {
      isSyncing := true;
      if lookup.Answered? {
        leaders := SyncedLegal(leaders, leader.id, lookup.value);
      }
      isSyncing := false;
    }

    /**
     * `handleDiscoverAndAudit`: nothing on a blank query or while discovering.
     * Otherwise a found name already listed is selected, and audited only when it has
     * no standing; a new name is put in front, selected and audited. A failed lookup
     * is swallowed. The query is cleared and the busy flag is down at the end.
     */
    method DiscoverAndAudit(profile: Outcome<Option<LeaderDirectory.Profile>>, id: string,
                            roll: LeaderDirectory.Roll, audit: Outcome<Option<LeaderLegalStanding>>)
      requires roll.Valid()
      modifies this
      ensures IsBlank(old(searchQuery)) || old(isDiscovering) ==>
        leaders == old(leaders) && searchQuery == old(searchQuery) && selectedLeaderId == old(selectedLeaderId)
        && isDiscovering == old(isDiscovering)
      ensures !IsBlank(old(searchQuery)) && !old(isDiscovering) ==>
        searchQuery == "" && !isDiscovering
        && (profile.Threw? || profile.value.None? ==> leaders == old(leaders) && selectedLeaderId == old(selectedLeaderId))
        && (profile.Answered? && profile.value.Some? ==>
              var found := FindByName(old(leaders), profile.value.value.name);
              (found.Some? ==>
                 selectedLeaderId == Some(found.value.id)
                 && (found.value.legalStanding.Some? || audit.Threw? ==> leaders == old(leaders))
                 && (found.value.legalStanding.None? && audit.Answered? ==>
                       leaders == SyncedLegal(old(leaders), found.value.id, audit.value)))
              && (found.None? ==>
                    selectedLeaderId == Some(id)
                    && (audit.Answered? ==> leaders == AfterDiscover(old(leaders), Audited(profile.value.value, id, roll), audit.value))
                    && (audit.Threw? ==> leaders == [Audited(profile.value.value, id, roll)] + old(leaders))))
      ensures isSyncing ==> old(isSyncing)
      ensures filter == old(filter)
    {
      if IsBlank(searchQuery) || isDiscovering {
        return;
      }
      isDiscovering := true;
      if profile.Answered? && profile.value.Some? {
        var found := FindByName(leaders, profile.value.value.name);
        if found.Some? {
          selectedLeaderId := Some(found.value.id);
          if found.value.legalStanding.None? {
            Sync(found.value, audit);
          }
        } else {
          var added := Audited(profile.value.value, id, roll);
          leaders := [added] + leaders;
          selectedLeaderId := Some(added.id);
          Sync(added, audit);
        }
      }
      isDiscovering := false;
      searchQuery := "";
    }
  }
}
