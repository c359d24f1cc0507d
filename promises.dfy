/**
 * The promise tracker (components/PromiseTracker.tsx): merging verified promises
 * from the intelligence service, the category list, the filtered list and its
 * counters, and when typing schedules a sync.
 */
module Promises {
  import opened Wrappers
  import opened Records
  import opened Text
  import opened Lists
  import opened Ai

  const DefaultQuery := "latest political manifestos India"

  // ----------------------------------------------------------------- merging

  /** Some promise in the list has this title, compared lower-cased. */
  predicate TitleKnown(promises: seq<PoliticalPromise>, title: string) {
    exists k :: 0 <= k < |promises| && Lower(promises[k].title) == Lower(title)
  }

  /** The incoming promises, each with the id drawn for its position. */
  function Stamped(incoming: seq<PoliticalPromise>, idFor: nat -> string): (r: seq<PoliticalPromise>)
    ensures |r| == |incoming|
    ensures forall i :: 0 <= i < |r| ==> r[i] == incoming[i].(id := idFor(i))
  {
    seq(|incoming|, i requires 0 <= i < |incoming| => incoming[i].(id := idFor(i)))
  }

  /** The incoming promises whose titles the existing list does not hold yet. */
  function Unseen(existing: seq<PoliticalPromise>, incoming: seq<PoliticalPromise>): (r: seq<PoliticalPromise>)
    ensures IsSubsequence(r, incoming)
    ensures forall i :: 0 <= i < |r| ==> !TitleKnown(existing, r[i].title)
    ensures forall i :: 0 <= i < |incoming| && !TitleKnown(existing, incoming[i].title) ==> incoming[i] in r
  {
    var unknown := (np: PoliticalPromise) => !TitleKnown(existing, np.title);
    FilterIsSubsequence(incoming, unknown);
    Filter(incoming, unknown)
  }

  /** The list after a sync: the unseen incoming promises in front of the unchanged list. */
  function Merged(existing: seq<PoliticalPromise>, incoming: seq<PoliticalPromise>): (r: seq<PoliticalPromise>)
    ensures |existing| <= |r| <= |existing| + |incoming|
    ensures r[|r| - |existing|..] == existing
  {
    Unseen(existing, incoming) + existing
  }

  /**
   * An incoming promise is added exactly when its lower-cased title is not among the
   * existing ones; the added ones keep their incoming order.
   */
  lemma {:induction false} MergeKeepsOnlyNewTitles(existing: seq<PoliticalPromise>, incoming: seq<PoliticalPromise>)
    ensures forall np :: np in incoming ==>
      (np in Unseen(existing, incoming) <==> !TitleKnown(existing, np.title))
    ensures forall np :: np in Unseen(existing, incoming) ==> np in incoming
    ensures IsSubsequence(Unseen(existing, incoming), incoming)
  {
    var p := (np: PoliticalPromise) => !TitleKnown(existing, np.title);
    var r := Unseen(existing, incoming);
    forall np | np in incoming ensures np in r <==> p(np) {
      if np in r {
        var i :| 0 <= i < |r| && r[i] == np;
      }
      var j :| 0 <= j < |incoming| && incoming[j] == np;
    }
    forall np | np in r ensures np in incoming {
      var i :| 0 <= i < |r| && r[i] == np;
    }
    FilterIsSubsequence(incoming, p);
  }

  /**
   * Titles are checked against the existing list only: when none of the incoming
   * titles is known, the whole batch goes in, duplicates among it included.
   */
  lemma {:induction false} BatchNotDeduplicated(existing: seq<PoliticalPromise>, incoming: seq<PoliticalPromise>)
    requires forall k :: 0 <= k < |incoming| ==> !TitleKnown(existing, incoming[k].title)
    ensures Merged(existing, incoming) == incoming + existing
  {
    forall np | np in incoming ensures !TitleKnown(existing, np.title) {
      var k :| 0 <= k < |incoming| && incoming[k] == np;
    }
    FilterAll(incoming, (np: PoliticalPromise) => !TitleKnown(existing, np.title));
  }

  /** Two incoming promises with one title both go into an empty list. */
  lemma TwinTitlesBothKept(a: PoliticalPromise, b: PoliticalPromise)
    requires a.title == b.title && a != b
    ensures Merged([], [a, b]) == [a, b]
    ensures |Merged([], [a, b])| == 2
  {
    BatchNotDeduplicated([], [a, b]);
  }

  // -------------------------------------------------------------- categories

  function CategoriesOf(promises: seq<PoliticalPromise>): (cs: seq<string>)
    ensures |cs| == |promises|
    ensures forall i :: 0 <= i < |promises| ==> cs[i] == promises[i].category
  {
    seq(|promises|, i requires 0 <= i < |promises| => promises[i].category)
  }

  /** The category options: 'All Categories', then each category once, by first appearance. */
  function CategoryOptions(promises: seq<PoliticalPromise>): (opts: seq<string>)
    ensures |opts| >= 1 && opts[0] == "All Categories"
    ensures forall k :: 0 <= k < |promises| ==> promises[k].category in opts
    ensures NoDuplicates(opts[1..])
  {
    ["All Categories"] + Distinct(CategoriesOf(promises))
  }

  lemma {:induction false} CategoryOptionsListEachOnce(promises: seq<PoliticalPromise>)
    ensures var opts := CategoryOptions(promises);
      opts[0] == "All Categories"
      && (forall k :: 0 <= k < |promises| ==> promises[k].category in opts[1..])
      && (forall c :: c in opts[1..] ==> exists k :: 0 <= k < |promises| && promises[k].category == c)
      && NoDuplicates(opts[1..])
      && (forall i, j :: 1 <= i < j < |opts| ==>
            FirstIndex(CategoriesOf(promises), opts[i]) < FirstIndex(CategoriesOf(promises), opts[j]))
  {
    var cs := CategoriesOf(promises);
    var opts := CategoryOptions(promises);
    assert opts[1..] == Distinct(cs);
    forall c | c in opts[1..] ensures exists k :: 0 <= k < |promises| && promises[k].category == c {
      var k :| 0 <= k < |cs| && cs[k] == c;
    }
    DistinctKeepsFirstAppearanceOrder(cs);
  }

  // ------------------------------------------------------------ the listing

  /** The lower-cased query occurs in the title, the description or the authority. */
  predicate MatchesQuery(p: PoliticalPromise, query: string) {
    Includes(Lower(p.title), Lower(query)) || Includes(Lower(p.description), Lower(query))
    || Includes(Lower(p.authority), Lower(query))
  }

  predicate PromiseShown(p: PoliticalPromise, query: string, status: Choice<ComplaintStatus>, category: Choice<string>) {
    MatchesQuery(p, query) && status.Admits(p.status) && category.Admits(p.category)
  }

  function FilteredPromises(promises: seq<PoliticalPromise>, query: string, status: Choice<ComplaintStatus>,
                            category: Choice<string>): (r: seq<PoliticalPromise>)
    ensures IsSubsequence(r, promises)
    ensures forall i :: 0 <= i < |r| ==> PromiseShown(r[i], query, status, category)
  {
    var shown := p => PromiseShown(p, query, status, category);
    FilterIsSubsequence(promises, shown);
    Filter(promises, shown)
  }

  /** A promise is listed exactly when the query and both filters admit it; an empty query admits all. */
  lemma {:induction false} FilteredPromisesExactly(promises: seq<PoliticalPromise>, query: string,
                                                   status: Choice<ComplaintStatus>, category: Choice<string>)
    ensures forall p :: p in FilteredPromises(promises, query, status, category) <==>
      (p in promises && MatchesQuery(p, query) && (status.Any? || p.status == status.value)
       && (category.Any? || p.category == category.value))
    ensures query == "" && status.Any? && category.Any? ==> FilteredPromises(promises, query, status, category) == promises
  {
    var r := FilteredPromises(promises, query, status, category);
    forall p | p in r ensures p in promises && PromiseShown(p, query, status, category) {
      var i :| 0 <= i < |r| && r[i] == p;
    }
    forall p | p in promises && PromiseShown(p, query, status, category) ensures p in r {
      var i :| 0 <= i < |promises| && promises[i] == p;
    }
    if query == "" && status.Any? && category.Any? {
      forall p | p in promises ensures PromiseShown(p, query, status, category) {
        IncludesEmpty(Lower(p.title));
      }
      FilterAll(promises, p => PromiseShown(p, query, status, category));
    }
  }

  // ---------------------------------------------------------------- counters

  predicate Done(p: PoliticalPromise) { p.status == Completed || p.status == Resolved }
  predicate Underway(p: PoliticalPromise) { p.status == InProgress || p.status == Processing || p.status == Active }
  predicate Late(p: PoliticalPromise) { p.status == Delayed }

  datatype PromiseStats = PromiseStats(total: nat, completed: nat, inProgress: nat, delayed: nat)

  function Stats(shown: seq<PoliticalPromise>): (s: PromiseStats)
    ensures s.total == |shown|
  {
    PromiseStats(|shown|, Count(shown, Done), Count(shown, Underway), Count(shown, Late))
  }

  /** The three counters count disjoint groups of the listed promises, so together they never exceed the total. */
  lemma {:induction false} StatsWithinTotal(shown: seq<PoliticalPromise>)
    ensures var s := Stats(shown);
      s.completed + s.inProgress + s.delayed <= s.total
  {
    var settled := (p: PoliticalPromise) => Done(p) || Underway(p);
    CountDisjoint(shown, Done, Underway, settled);
    CountDisjoint(shown, settled, Late, (p: PoliticalPromise) => settled(p) || Late(p));
  }

  // ------------------------------------------------------------------- board

  /** What the verification lookup hands back: promises, when any were found, and the sources. */
  datatype SyncResult = SyncResult(promises: Option<seq<PoliticalPromise>>, sources: seq<Citation>)

  /** The tracker's state; the lookup and the id draws are parameters of a sync. */
  class PromiseBoard {
    var promises: seq<PoliticalPromise>
    var searchQuery: string
    var statusFilter: Choice<ComplaintStatus>
    var categoryFilter: Choice<string>
    var isSyncing: bool
    var lastSyncSources: seq<Citation>

    constructor(saved: seq<PoliticalPromise>)
      ensures promises == saved && searchQuery == "" && statusFilter == Any && categoryFilter == Any
      ensures !isSyncing && lastSyncSources == []
    {
      promises := saved;
      searchQuery := "";
      statusFilter := Any;
      categoryFilter := Any;
      isSyncing := false;
      lastSyncSources := [];
    }

    /** Typing schedules a sync exactly when the query is longer than three UTF-16 code units. */
    method AutoSyncScheduled() returns (scheduled: bool)
      ensures scheduled <==> Utf16Length(searchQuery) > 3
    {
      scheduled := Utf16Length(searchQuery) > 3;
    }

    /**
     * `handleAISync`: nothing while a sync runs. The lookup gets the query, or the
     * default query when it is empty. A non-empty answer puts its unseen promises
     * in front and replaces the sources; an empty answer or a failure changes
     * neither. The busy flag is down at the end.
     */
    method Sync(lookup: string -> Outcome<SyncResult>, idFor: nat -> string)
      modifies this`promises, this`isSyncing, this`lastSyncSources
      ensures old(isSyncing) ==> promises == old(promises) && lastSyncSources == old(lastSyncSources) && isSyncing
      ensures !old(isSyncing) ==>
        var result := lookup(if old(searchQuery) == "" then DefaultQuery else old(searchQuery));
        !isSyncing
        && (if result.Answered? && result.value.promises.Some? && result.value.promises.value != [] then
              promises == Merged(old(promises), Stamped(result.value.promises.value, idFor))
              && lastSyncSources == result.value.sources
            else promises == old(promises) && lastSyncSources == old(lastSyncSources))
    {
      if isSyncing {
        return;
      }
      var query := if searchQuery == "" then DefaultQuery else searchQuery;
      isSyncing := true;
      var result := lookup(query);
      if result.Answered? && result.value.promises.Some? && result.value.promises.value != [] {
        var incoming := Stamped(result.value.promises.value, idFor);
        promises := Merged(promises, incoming);
        lastSyncSources := result.value.sources;
      }
      isSyncing := false;
    }
  }
}
