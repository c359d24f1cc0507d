/**
 * The leader directory (components/Leaders.tsx): searching and filtering the
 * leaders, ordering them by rating, discovering a profile by name, loading more
 * leaders in batches, adding one by hand, following and rating. The AI lookups,
 * `Math.random` and the rounding of the average rating are parameters.
 */
module LeaderDirectory {
  import opened Wrappers
  import opened Records
  import opened Text
  import opened Lists
  import opened Ai

  // ------------------------------------------------------------------ filter

  /** The search box matches the lower-cased name or constituency. */
  predicate MatchesSearch(l: PoliticalLeader, query: string) {
    Includes(Lower(l.name), Lower(query)) || Includes(Lower(l.constituency), Lower(query))
  }

  /** A leader is listed when it matches the search, the party filter and the state filter. */
  predicate Visible(l: PoliticalLeader, query: string, party: Choice<string>, state: Choice<string>) {
    MatchesSearch(l, query) && party.Admits(l.party) && state.Admits(l.state)
  }

  /** The leaders the filters let through, in list order. */
  function Shown(leaders: seq<PoliticalLeader>, query: string, party: Choice<string>, state: Choice<string>)
    : (r: seq<PoliticalLeader>)
    ensures IsSubsequence(r, leaders)
    ensures forall i :: 0 <= i < |r| ==> Visible(r[i], query, party, state)
    ensures forall i :: 0 <= i < |leaders| && Visible(leaders[i], query, party, state) ==> leaders[i] in r
  {
    var visible := l => Visible(l, query, party, state);
    FilterIsSubsequence(leaders, visible);
    Filter(leaders, visible)
  }

  /** An empty search with both wildcards lists every leader. */
  lemma {:induction false} EverythingShownWithoutFilters(leaders: seq<PoliticalLeader>)
    ensures Shown(leaders, "", Any, Any) == leaders
  {
    forall i | 0 <= i < |leaders| ensures Visible(leaders[i], "", Any, Any) {
      IncludesEmpty(Lower(leaders[i].name));
    }
    FilterAll(leaders, l => Visible(l, "", Any, Any));
  }

  // -------------------------------------------------------------------- sort

  datatype SortOption = HighestRated | LowestRated

  /** `x` may come before `y`: by rating descending, or ascending. */
  predicate RatedBefore(x: PoliticalLeader, y: PoliticalLeader, descending: bool) {
    if descending then x.rating >= y.rating else x.rating <= y.rating
  }

  predicate RatingOrdered(s: seq<PoliticalLeader>, descending: bool) {
    forall i, j :: 0 <= i < j < |s| ==> RatedBefore(s[i], s[j], descending)
  }

  /** The first `n` cells of `a` are in rating order. */
  predicate OrderedUpTo(a: array<PoliticalLeader>, n: int, descending: bool)
    requires n <= a.Length
    reads a
  {
    forall p, q :: 0 <= p < q < n ==> RatedBefore(a[p], a[q], descending)
  }

  /** Exchanges two neighbouring cells. */
  method SwapDown(a: array<PoliticalLeader>, j: int)
    requires 0 < j < a.Length
    modifies a
    ensures a[j - 1] == old(a[j]) && a[j] == old(a[j - 1])
    ensures forall m :: 0 <= m < a.Length && m != j - 1 && m != j ==> a[m] == old(a[m])
    ensures multiset(a[..]) == old(multiset(a[..]))
  {
    a[j - 1], a[j] := a[j], a[j - 1];
  }

  /** `Array.prototype.sort` with the rating comparator, in place: ordered, and a permutation. */
  method SortByRating(a: array<PoliticalLeader>, descending: bool)
    modifies a
    ensures RatingOrdered(a[..], descending)
    ensures multiset(a[..]) == old(multiset(a[..]))
  {
    var i := 0;
    while i < a.Length
      invariant 0 <= i <= a.Length
      invariant OrderedUpTo(a, i, descending)
      invariant multiset(a[..]) == old(multiset(a[..]))
    {
      var j := i;
      while j > 0 && !RatedBefore(a[j - 1], a[j], descending)
        invariant 0 <= j <= i
        invariant forall p, q :: 0 <= p < q <= i && q != j ==> RatedBefore(a[p], a[q], descending)
        invariant forall q :: j < q <= i ==> RatedBefore(a[j], a[q], descending)
        invariant 0 < j < i ==> RatedBefore(a[j - 1], a[j + 1], descending)
        invariant multiset(a[..]) == old(multiset(a[..]))
      {
        SwapDown(a, j);
        j := j - 1;
      }
      i := i + 1;
    }
  }

  /**
   * `filteredLeaders`: exactly the visible leaders, each as often as in the list,
   * ordered by rating in the chosen direction.
   */
  method FilteredLeaders(leaders: seq<PoliticalLeader>, query: string, party: Choice<string>,
                         state: Choice<string>, sort: SortOption) returns (result: seq<PoliticalLeader>)
    ensures multiset(result) == multiset(Shown(leaders, query, party, state))
    ensures forall i :: 0 <= i < |result| ==> result[i] in leaders && Visible(result[i], query, party, state)
    ensures forall i :: 0 <= i < |leaders| && Visible(leaders[i], query, party, state) ==> leaders[i] in result
    ensures RatingOrdered(result, sort == HighestRated)
  {
    var shown := Shown(leaders, query, party, state);
    var a := new PoliticalLeader[|shown|](i requires 0 <= i < |shown| => shown[i]);
    assert a[..] == shown;
    SortByRating(a, sort == HighestRated);
    result := a[..];
    forall i | 0 <= i < |result| ensures result[i] in shown {
      assert result[i] in multiset(result);
    }
    forall x | x in shown ensures x in result {
      assert x in multiset(shown);
    }
  }

  /**
   * Discovery is scheduled after typing when the query is longer than three UTF-16
   * code units (`searchQuery.length`) and nothing is listed.
   */
  predicate ShouldAutoDiscover(query: string, shownCount: int) {
    Utf16Length(query) > 3 && shownCount == 0
  }

  // -------------------------------------------------------- random stats

  /** `Math.floor(u * n)` for a draw `u` of `Math.random()`: an integer in [0, n). */
  function Scaled(u: real, n: nat): (k: int)
    requires 0.0 <= u < 1.0
    ensures 0 <= k < n || n == 0
  {
    assert u * n as real <= n as real;
    if n == 0 then 0
    else
      assert u * n as real < n as real;
      (u * n as real).Floor
  }

  /** Four draws of `Math.random()`, each in [0, 1). */
  datatype Roll = Roll(first: real, second: real, third: real, fourth: real) {
    predicate Valid() {
      0.0 <= first < 1.0 && 0.0 <= second < 1.0 && 0.0 <= third < 1.0 && 0.0 <= fourth < 1.0
    }
  }

  /** What the AI returns for a leader (`discoverLeaderProfile`, `discoverBatchLeaders`). */
  datatype Profile = Profile(name: string, role: Role, party: string, constituency: string, state: string, sinceYear: int)

  // ----------------------------------------------------------- discovery

  /**
   * The leader `handleDiscover` creates from a profile: neutral rating 3.0 with no
   * votes, not followed, attendance 60-99, up to 9 bills, 19 debates and 49 questions.
   */
  function Discovered(profile: Profile, id: string, roll: Roll): (l: PoliticalLeader)
    requires roll.Valid()
    ensures l.id == id && l.name == profile.name && l.party == profile.party
    ensures l.constituency == profile.constituency && l.state == profile.state && l.role == profile.role
    ensures l.sinceYear == profile.sinceYear
    ensures l.rating == 3.0 && l.ratingCount == 0 && !l.isFollowed && l.legalStanding.None?
    ensures l.attendance == Scaled(roll.first, 40) + 60 && l.bills == Scaled(roll.second, 10)
    ensures l.debates == Scaled(roll.third, 20) && l.questions == Scaled(roll.fourth, 50)
    ensures 60 <= l.attendance <= 99 && 0 <= l.bills <= 9 && 0 <= l.debates <= 19 && 0 <= l.questions <= 49
  {
    PoliticalLeader(id, profile.name, profile.role, profile.party, profile.constituency, profile.state,
                    3.0, 0, Scaled(roll.first, 40) + 60, Scaled(roll.second, 10), Scaled(roll.third, 20),
                    Scaled(roll.fourth, 50), profile.sinceYear, None, false, None)
  }

  /** Some listed leader has this lower-cased name. */
  predicate NameTaken(leaders: seq<PoliticalLeader>, name: string) {
    exists i :: 0 <= i < |leaders| && Lower(leaders[i].name) == Lower(name)
  }

  /** No two leaders share a lower-cased name. */
  predicate NamesDistinct(leaders: seq<PoliticalLeader>) {
    forall i, j :: 0 <= i < j < |leaders| ==> Lower(leaders[i].name) != Lower(leaders[j].name)
  }

  /**
   * The list after a discovered profile: unchanged when its lower-cased name is taken,
   * otherwise the new leader in front of the unchanged list.
   */
  function WithDiscovered(leaders: seq<PoliticalLeader>, profile: Profile, id: string, roll: Roll)
    : (r: seq<PoliticalLeader>)
    requires roll.Valid()
    ensures NameTaken(leaders, profile.name) ==> r == leaders
    ensures !NameTaken(leaders, profile.name) ==> r == [Discovered(profile, id, roll)] + leaders
    ensures NameTaken(r, profile.name)
  {
    if NameTaken(leaders, profile.name) then leaders
    else
      var r := [Discovered(profile, id, roll)] + leaders;
      assert Lower(r[0].name) == Lower(profile.name);
      r
  }

  /** Discovery never introduces a second leader with the same lower-cased name. */
  lemma DiscoveryKeepsNamesDistinct(leaders: seq<PoliticalLeader>, profile: Profile, id: string, roll: Roll)
    requires roll.Valid() && NamesDistinct(leaders)
    ensures NamesDistinct(WithDiscovered(leaders, profile, id, roll))
  {
    var r := WithDiscovered(leaders, profile, id, roll);
    if !NameTaken(leaders, profile.name) {
      forall i, j | 0 <= i < j < |r| ensures Lower(r[i].name) != Lower(r[j].name) {
        if i == 0 {
          assert r[j] == leaders[j - 1];
        } else {
          assert r[i] == leaders[i - 1] && r[j] == leaders[j - 1];
        }
      }
    }
  }

  // --------------------------------------------------------------- batches

  /**
   * A leader of a loaded batch: rating in [3, 5), up to 99 votes, attendance 70-99,
   * up to 4 bills, 14 debates and 39 questions, not followed.
   */
  function Batched(profile: Profile, draw: BatchDraw): (l: PoliticalLeader)
    requires draw.Valid()
    ensures l.id == draw.id && l.name == profile.name && l.party == profile.party
    ensures l.role == profile.role && l.constituency == profile.constituency && l.state == profile.state
    ensures l.sinceYear == profile.sinceYear && l.legalStanding.None?
    ensures l.rating == 3.0 + 2.0 * draw.rating && l.ratingCount == Scaled(draw.count, 100)
    ensures l.attendance == Scaled(draw.roll.first, 30) + 70 && l.bills == Scaled(draw.roll.second, 5)
    ensures l.debates == Scaled(draw.roll.third, 15) && l.questions == Scaled(draw.roll.fourth, 40)
    ensures 3.0 <= l.rating < 5.0 && 0 <= l.ratingCount <= 99 && !l.isFollowed
    ensures 70 <= l.attendance <= 99 && 0 <= l.bills <= 4 && 0 <= l.debates <= 14 && 0 <= l.questions <= 39
  {
    var roll := draw.roll;
    PoliticalLeader(draw.id, profile.name, profile.role, profile.party, profile.constituency, profile.state,
                    3.0 + draw.rating * 2.0, Scaled(draw.count, 100), Scaled(roll.first, 30) + 70,
                    Scaled(roll.second, 5), Scaled(roll.third, 15), Scaled(roll.fourth, 40),
                    profile.sinceYear, None, false, None)
  }

  /** The random values one batched leader draws. */
  datatype BatchDraw = BatchDraw(id: string, rating: real, count: real, roll: Roll) {
    predicate Valid() {
      0.0 <= rating < 1.0 && 0.0 <= count < 1.0 && roll.Valid()
    }
  }

  /** The batch as formatted leaders, one per profile, in order. */
  function FormattedBatch(batch: seq<Profile>, draws: seq<BatchDraw>): (r: seq<PoliticalLeader>)
    requires |draws| == |batch| && forall k :: 0 <= k < |draws| ==> draws[k].Valid()
    ensures |r| == |batch|
    ensures forall k :: 0 <= k < |r| ==> r[k] == Batched(batch[k], draws[k])
  {
    seq(|batch|, k requires 0 <= k < |batch| => Batched(batch[k], draws[k]))
  }

  // ------------------------------------------------------------- add by hand

  const FirstParty := "Bharatiya Janata Party (BJP)"
  const FirstState := "Andhra Pradesh"

  datatype LeaderForm = LeaderForm(name: string, role: Role, party: string, constituency: string, state: string, sinceYear: int)

  /** The empty form: an MP of the first party and state, serving since 2024. */
  const InitialForm := LeaderForm("", MP, FirstParty, "", FirstState, 2024)

  /** `handleAddManual`'s leader: the form's fields, rating 3.0, no votes and all activity counts zero. */
  function AddedManually(form: LeaderForm, id: string): (l: PoliticalLeader)
    ensures l.id == id && l.name == form.name && l.role == form.role && l.party == form.party
    ensures l.constituency == form.constituency && l.state == form.state && l.sinceYear == form.sinceYear
    ensures l.rating == 3.0 && l.ratingCount == 0 && !l.isFollowed
    ensures l.attendance == 0 && l.bills == 0 && l.debates == 0 && l.questions == 0
  {
    PoliticalLeader(id, form.name, form.role, form.party, form.constituency, form.state,
                    3.0, 0, 0, 0, 0, 0, form.sinceYear, None, false, None)
  }

  // ------------------------------------------------------- follow and rate

  /** `onToggleFollow`: the follow flag flips on the leaders with this id and nothing else changes. */
  function ToggledFollow(leaders: seq<PoliticalLeader>, id: string): (r: seq<PoliticalLeader>)
    ensures |r| == |leaders|
    ensures forall i :: 0 <= i < |r| ==>
      if leaders[i].id == id then r[i] == leaders[i].(isFollowed := !leaders[i].isFollowed) else r[i] == leaders[i]
  {
    seq(|leaders|, i requires 0 <= i < |leaders| =>
      if leaders[i].id == id then leaders[i].(isFollowed := !leaders[i].isFollowed) else leaders[i])
  }

  /** Toggling twice restores the list. */
  lemma ToggleFollowTwice(leaders: seq<PoliticalLeader>, id: string)
    ensures ToggledFollow(ToggledFollow(leaders, id), id) == leaders
  {
  }

  /**
   * `onUpdateRating`: on the leaders with this id the vote count grows by one and the
   * rating becomes the rounded mean including the new vote; others are unchanged.
   * `roundTenth` stands for `Number(x.toFixed(1))`.
   */
  function RatingCounted(leaders: seq<PoliticalLeader>, id: string, vote: real, roundTenth: real -> real)
    : (r: seq<PoliticalLeader>)
    ensures |r| == |leaders|
    ensures forall i :: 0 <= i < |r| ==> leaders[i].id != id ==> r[i] == leaders[i]
    ensures forall i :: 0 <= i < |r| ==> leaders[i].id == id ==>
      r[i].ratingCount == leaders[i].ratingCount + 1
      && r[i] == leaders[i].(rating := r[i].rating, ratingCount := r[i].ratingCount)
  {
    seq(|leaders|, i requires 0 <= i < |leaders| =>
      var l := leaders[i];
      if l.id == id then
        var count := l.ratingCount + 1;
        var mean := if count == 0 then 0.0 else (l.rating * l.ratingCount as real + vote) / count as real;
        l.(rating := roundTenth(mean), ratingCount := count)
      else l)
  }

  // ------------------------------------------------------------ the panel

  /**
   * The directory's state. Each handler runs from its guard to its last state
   * update in one step, with the awaited lookup passed in.
   */
  class LeadersPanel {
    var leaders: seq<PoliticalLeader>
    var searchQuery: string
    var partyFilter: Choice<string>
    var stateFilter: Choice<string>
    var sortOption: SortOption
    var isDiscovering: bool
    var isBatchLoading: bool
    var noMoreFound: bool
    var showAddModal: bool
    var form: LeaderForm

    /** The stored list (or the sample leaders), no search, both wildcards, highest rated first. */
    constructor(initial: seq<PoliticalLeader>)
      ensures leaders == initial && searchQuery == "" && partyFilter == Any && stateFilter == Any
      ensures sortOption == HighestRated && !isDiscovering && !isBatchLoading && !noMoreFound
      ensures !showAddModal && form == InitialForm
    {
      leaders := initial;
      searchQuery := "";
      partyFilter := Any;
      stateFilter := Any;
      sortOption := HighestRated;
      isDiscovering := false;
      isBatchLoading := false;
      noMoreFound := false;
      showAddModal := false;
      form := InitialForm;
    }

    /**
     * Whether typing schedules a discovery: exactly when the query is longer than
     * three characters and no leader passes the search and both filters.
     */
    method AutoDiscoverScheduled() returns (scheduled: bool)
      ensures scheduled <==>
        (Utf16Length(searchQuery) > 3
         && forall i :: 0 <= i < |leaders| ==> !Visible(leaders[i], searchQuery, partyFilter, stateFilter))
    {
      var shown := Shown(leaders, searchQuery, partyFilter, stateFilter);
      scheduled := ShouldAutoDiscover(searchQuery, |shown|);
      if shown != [] {
        assert shown[0] in leaders;
      }
    }

    /** The leaders on screen. */
    method Listed() returns (result: seq<PoliticalLeader>)
      ensures multiset(result) == multiset(Shown(leaders, searchQuery, partyFilter, stateFilter))
      ensures RatingOrdered(result, sortOption == HighestRated)
    {
      result := FilteredLeaders(leaders, searchQuery, partyFilter, stateFilter, sortOption);
    }

    /**
     * `handleDiscover`: nothing on a blank query or while a discovery runs. Otherwise
     * a found profile is added unless its name is taken; a missing profile or a failed
     * lookup changes nothing. The busy flag is down afterwards.
     */
    method Discover(lookup: Outcome<Option<Profile>>, id: string, roll: Roll)
      requires roll.Valid()
      modifies this
      ensures IsBlank(old(searchQuery)) || old(isDiscovering) ==> leaders == old(leaders) && isDiscovering == old(isDiscovering)
      ensures !IsBlank(old(searchQuery)) && !old(isDiscovering) ==>
        !isDiscovering
        && (lookup.Answered? && lookup.value.Some? ==> leaders == WithDiscovered(old(leaders), lookup.value.value, id, roll))
        && (lookup.Threw? || lookup.value.None? ==> leaders == old(leaders))
      ensures searchQuery == old(searchQuery) && partyFilter == old(partyFilter) && stateFilter == old(stateFilter)
      ensures sortOption == old(sortOption) && form == old(form) && showAddModal == old(showAddModal)
      ensures isBatchLoading == old(isBatchLoading) && noMoreFound == old(noMoreFound)
    {
      if IsBlank(searchQuery) || isDiscovering {
        return;
      }
      isDiscovering := true;
      if lookup.Answered? && lookup.value.Some? {
        leaders := WithDiscovered(leaders, lookup.value.value, id, roll);
      }
      isDiscovering := false;
    }

    /**
     * `handleLoadMore`, with the loading flag reset however the request ends: nothing
     * while loading or after the end was reached; a non-empty batch is appended after
     * the unchanged list; an empty batch marks the end and leaves the list unchanged.
     */
    method LoadMore(lookup: Outcome<seq<Profile>>, draws: seq<BatchDraw>)
      requires lookup.Answered? ==> |draws| == |lookup.value|
      requires forall k :: 0 <= k < |draws| ==> draws[k].Valid()
      modifies this
      ensures old(isBatchLoading) || old(noMoreFound) ==>
        leaders == old(leaders) && isBatchLoading == old(isBatchLoading) && noMoreFound == old(noMoreFound)
      ensures !old(isBatchLoading) && !old(noMoreFound) ==>
        !isBatchLoading
        && (lookup.Answered? && lookup.value != [] ==>
              leaders == old(leaders) + FormattedBatch(lookup.value, draws) && !noMoreFound)
        && (lookup.Answered? && lookup.value == [] ==> leaders == old(leaders) && noMoreFound)
        && (lookup.Threw? ==> leaders == old(leaders) && !noMoreFound)
      ensures searchQuery == old(searchQuery) && form == old(form) && isDiscovering == old(isDiscovering)
      ensures partyFilter == old(partyFilter) && stateFilter == old(stateFilter) && sortOption == old(sortOption)
      ensures showAddModal == old(showAddModal)
    {
      if isBatchLoading || noMoreFound {
        return;
      }
      isBatchLoading := true;
      if lookup.Answered? {
        if lookup.value != [] {
          leaders := leaders + FormattedBatch(lookup.value, draws);
        } else {
          noMoreFound := true;
        }
      }
      isBatchLoading := false;
    }

    /** `handleAddManual`: the form's leader goes in front, the dialog closes and the form resets. */
    method AddManual(id: string)
      modifies this
      ensures leaders == [AddedManually(old(form), id)] + old(leaders)
      ensures form == InitialForm && !showAddModal
      ensures searchQuery == old(searchQuery) && partyFilter == old(partyFilter) && stateFilter == old(stateFilter)
      ensures sortOption == old(sortOption) && isDiscovering == old(isDiscovering)
      ensures isBatchLoading == old(isBatchLoading) && noMoreFound == old(noMoreFound)
    {
      leaders := [AddedManually(form, id)] + leaders;
      showAddModal := false;
      form := InitialForm;
    }

    method ToggleFollow(id: string)
      modifies this`leaders
      ensures leaders == ToggledFollow(old(leaders), id)
    {
      leaders := ToggledFollow(leaders, id);
    }

    method UpdateRating(id: string, vote: real, roundTenth: real -> real)
      modifies this`leaders
      ensures leaders == RatingCounted(old(leaders), id, vote, roundTenth)
    {
      leaders := RatingCounted(leaders, id, vote, roundTenth);
    }
  }

  // --------------------------------------------------- load more as written

  /**
   * The loading flag after `handleLoadMore` as written: the await has no `try`, so a
   * rejected request skips the reset and the flag stays up.
   */
  function BatchLoadingAfterAsWritten(wasLoading: bool, noMore: bool, lookup: Outcome<seq<Profile>>): (loading: bool)
    ensures !wasLoading && !noMore ==> (loading <==> lookup.Threw?)
  {
    if wasLoading || noMore then wasLoading
    else lookup.Threw?
  }

  /**
   * One failed batch request disables loading for good: with the flag up, every later
   * call returns at the guard, whatever it would have received.
   */
  lemma FailedBatchLocksLoadMore(failure: Failure, later: Outcome<seq<Profile>>)
    ensures BatchLoadingAfterAsWritten(false, false, Threw(failure))
    ensures BatchLoadingAfterAsWritten(BatchLoadingAfterAsWritten(false, false, Threw(failure)), false, later)
  {
  }
}
