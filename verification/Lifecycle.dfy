/** The states of one durable execution and the moves between them that the store accepts. */
module Lifecycle {
  datatype State =
    | Created | Queued | Dispatching | Running | Disconnected
    | Finished | Error | Interrupted | TimedOut | Unknown

  predicate IsTerminal(s: State) {
    s.Finished? || s.Error? || s.Interrupted? || s.TimedOut? || s.Unknown?
  }

  /** ALLOWED_TRANSITIONS: what transition_execution accepts. */
  predicate Allows(from: State, to: State) {
    match from
    case Created => to.Queued?
    case Queued => to.Dispatching? || to.Interrupted?
    case Dispatching => to.Running? || to.Unknown?
    case Running => to.Finished? || to.Error? || to.Interrupted? || to.TimedOut? || to.Disconnected?
    case Disconnected => to.Running? || IsTerminal(to)
    case _ => false
  }

  /** A journal is a path of accepted moves from creation. */
  predicate IsPath(journal: seq<State>) {
    && journal != []
    && journal[0] == Created
    && forall i :: 0 < i < |journal| ==> Allows(journal[i - 1], journal[i])
  }

  /** No caller ever resumes DISCONNECTED work as RUNNING. */
  predicate NeverResumes(journal: seq<State>) {
    forall i :: 0 < i < |journal| && journal[i] == Running ==> journal[i - 1] != Disconnected
  }

  /** How far along the lifecycle a state is; every move used by the program increases it. */
  function Rank(s: State): nat {
    match s
    case Created => 0
    case Queued => 1
    case Dispatching => 2
    case Running => 3
    case Disconnected => 4
    case _ => 5
  }

  /** Without DISCONNECTED -> RUNNING a path climbs, so it has at most six entries. */
  lemma PathClimbs(journal: seq<State>, i: nat)
    requires IsPath(journal) && NeverResumes(journal)
    requires i < |journal|
    ensures i <= Rank(journal[i]) <= 5
    ensures |journal| <= 6
  {
    PathRank(journal, i);
    PathRank(journal, |journal| - 1);
  }

  lemma {:induction false} PathRank(journal: seq<State>, i: nat)
    requires IsPath(journal) && NeverResumes(journal)
    requires i < |journal|
    ensures i <= Rank(journal[i])
  {
    if i > 0 {
      PathRank(journal, i - 1);
      assert Allows(journal[i - 1], journal[i]);
    }
  }

  /** Nothing follows a terminal entry, and a state occurs at most once. */
  lemma {:induction false} PathRankStrict(journal: seq<State>, i: nat, j: nat)
    requires IsPath(journal) && NeverResumes(journal)
    requires i < j < |journal|
    ensures Rank(journal[i]) < Rank(journal[j])
    ensures !IsTerminal(journal[i])
  {
    assert Allows(journal[j - 1], journal[j]);
    if i < j - 1 {
      PathRankStrict(journal, i, j - 1);
    }
  }
}
