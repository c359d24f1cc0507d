/**
 * The dashboard home (components/DashboardHome.tsx): the promise counters, when
 * state intelligence is fetched, and which state is selected at first.
 */
module Dashboard {
  import opened Wrappers
  import opened Records
  import opened Lists
  import Promises

  predicate Settled(p: PoliticalPromise) { p.status == Resolved || p.status == Completed }
  /** 'Processing' or 'Active'; a promise 'In Progress' is not counted here. */
  predicate Moving(p: PoliticalPromise) { p.status == Processing || p.status == Active }
  predicate Overdue(p: PoliticalPromise) { p.status == Delayed }

  datatype DashboardStats = DashboardStats(total: nat, completed: nat, inProgress: nat, delayed: nat)

  function Stats(promises: seq<PoliticalPromise>): (s: DashboardStats)
    ensures s.total == |promises|
  {
    DashboardStats(|promises|, Count(promises, Settled), Count(promises, Moving), Count(promises, Overdue))
  }

  /** The three counters count disjoint groups, so together they never exceed the total. */
  lemma {:induction false} StatsWithinTotal(promises: seq<PoliticalPromise>)
    ensures var s := Stats(promises);
      s.completed + s.inProgress + s.delayed <= s.total
  {
    var either := (p: PoliticalPromise) => Settled(p) || Moving(p);
    CountDisjoint(promises, Settled, Moving, either);
    CountDisjoint(promises, either, Overdue, (p: PoliticalPromise) => either(p) || Overdue(p));
  }

  /**
   * Against the promise tracker's counters over the same list: completed and delayed
   * agree, and the tracker's in-progress count is larger by exactly the promises
   * 'In Progress'.
   */
  lemma {:induction false} StatsAgainstTracker(promises: seq<PoliticalPromise>)
    ensures var mine := Stats(promises);
      var theirs := Promises.Stats(promises);
      mine.completed == theirs.completed && mine.delayed == theirs.delayed
      && theirs.inProgress == mine.inProgress + Count(promises, (p: PoliticalPromise) => p.status == InProgress)
  {
    if promises != [] {
      StatsAgainstTracker(promises[1..]);
    }
  }

  /** The dashboard's state the model keeps: the scope and the selected state. */
  class DashboardView {
    var scope: Scope
    var selectedState: string

    /** The scope starts at the Centre, the selected state at the user's state, or 'Delhi' without one. */
    constructor(user: User)
      ensures scope == Centre
      ensures user.state.Some? && user.state.value != "" ==> selectedState == user.state.value
      ensures user.state.None? || user.state.value == "" ==> selectedState == "Delhi"
    {
      scope := Centre;
      selectedState := if user.state.Some? && user.state.value != "" then user.state.value else "Delhi";
    }

    /** A change of scope or state fetches state intelligence exactly when the scope is 'State'. */
    method StateFetchScheduled() returns (scheduled: bool)
      ensures scheduled <==> scope == State
    {
      scheduled := scope == State;
    }
  }
}
