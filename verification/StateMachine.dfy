/** The abstract machine of a ride: the transition table and what every path through it has
    in common. */
module StateMachine {

  datatype Status = Requested | Accepted | Started | Completed | Cancelled

  const VALID_TRANSITIONS: map<Status, seq<Status>> :=
    map[
      Requested := [Accepted, Cancelled],
      Accepted := [Started, Cancelled],
      Started := [Completed],
      Completed := [],
      Cancelled := []
    ]

  predicate IsValidTransition(from: Status, to: Status) {
    from in VALID_TRANSITIONS && to in VALID_TRANSITIONS[from]
  }

  /** A history of statuses in which every change is an entry of the table. */
  ghost predicate IsPath(history: seq<Status>) {
    forall i :: 0 < i < |history| ==> history[i-1] == history[i] || IsValidTransition(history[i-1], history[i])
  }

  function Rank(s: Status): nat {
    match s
    case Requested => 0
    case Accepted => 1
    case Started => 2
    case Completed => 3
    case Cancelled => 3
  }

  function Changes(history: seq<Status>): nat {
    if |history| < 2 then 0
    else Changes(history[..|history|-1]) + if history[|history|-1] == history[|history|-2] then 0 else 1
  }

  /** The table is acyclic: no path changes status more than three times. */
  lemma {:induction false} PathChangesAtMostThrice(history: seq<Status>)
    requires IsPath(history) && history != []
    ensures Rank(history[0]) + Changes(history) <= Rank(history[|history|-1]) <= 3
  {
    if |history| > 1 {
      var shorter := history[..|history|-1];
      PathChangesAtMostThrice(shorter);
      assert history[|history|-2] == shorter[|shorter|-1];
    }
  }

  /** COMPLETED and CANCELLED are absorbing along every path. */
  lemma {:induction false} TerminalIsAbsorbing(history: seq<Status>, i: nat, j: nat)
    requires IsPath(history) && i <= j < |history|
    requires history[i] in {Completed, Cancelled}
    ensures history[j] == history[i]
    decreases j - i
  {
    if i < j {
      TerminalIsAbsorbing(history, i, j - 1);
      assert history[j-1] == history[j] || IsValidTransition(history[j-1], history[j]);
    }
  }
}
