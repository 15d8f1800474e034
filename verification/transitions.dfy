/** engine/transitions.py: the six state categories and the moves between them. */
module Transitions {
  import opened Values

  datatype StateType = Triage | Backlog | Unstarted | Started | Completed | Canceled {
    predicate Terminal() {
      Completed? || Canceled?
    }
  }

  const VALID_TRANSITIONS: map<StateType, set<StateType>> := map[
    Triage := {Backlog, Unstarted, Canceled},
    Backlog := {Unstarted, Triage, Canceled},
    Unstarted := {Started, Backlog, Canceled},
    Started := {Completed, Unstarted, Backlog, Canceled},
    Completed := {Unstarted},
    Canceled := {Backlog}
  ]

  predicate IsValidTransition(from: StateType, to: StateType) {
    from == to || (from in VALID_TRANSITIONS && to in VALID_TRANSITIONS[from])
  }

  function StateTypeText(k: StateType): string {
    match k
    case Triage => "triage"
    case Backlog => "backlog"
    case Unstarted => "unstarted"
    case Started => "started"
    case Completed => "completed"
    case Canceled => "canceled"
  }

  /** `StateType(text)`; None stands for its ValueError. */
  function ParseStateType(s: string): Option<StateType> {
    if s == StateTypeText(Triage) then Some(Triage)
    else if s == StateTypeText(Backlog) then Some(Backlog)
    else if s == StateTypeText(Unstarted) then Some(Unstarted)
    else if s == StateTypeText(Started) then Some(Started)
    else if s == StateTypeText(Completed) then Some(Completed)
    else if s == StateTypeText(Canceled) then Some(Canceled)
    else None
  }

  lemma ParseInvertsText(k: StateType)
    ensures ParseStateType(StateTypeText(k)) == Some(k)
  {
    assert "backlog"[0] == 'b' && "started"[0] == 's';
    assert "unstarted"[0] == 'u' && "completed"[0] == 'c';
  }

  /** From where each category can be entered, besides itself: the table read by its targets. */
  predicate Joined(from: StateType, to: StateType) {
    from == to ||
    match to
    case Triage => from == Backlog
    case Backlog => from != Completed
    case Unstarted => from != Canceled
    case Started => from == Unstarted
    case Completed => from == Started
    case Canceled => from != Completed
  }

  lemma TableByTarget(from: StateType, to: StateType)
    ensures IsValidTransition(from, to) <==> Joined(from, to)
  {
  }

  /** The category each text names; no other text names one. */
  lemma TextsName(s: string)
    ensures ParseStateType("triage") == Some(Triage) && ParseStateType("backlog") == Some(Backlog)
    ensures ParseStateType("unstarted") == Some(Unstarted) && ParseStateType("started") == Some(Started)
    ensures ParseStateType("completed") == Some(Completed) && ParseStateType("canceled") == Some(Canceled)
    ensures ParseStateType(s).Some? <==>
      s in ["triage", "backlog", "unstarted", "started", "completed", "canceled"]
    ensures forall k :: ParseStateType(s) == Some(k) <==> StateTypeText(k) == s
  {
    assert "backlog"[0] == 'b' && "started"[0] == 's' && "triage"[0] == 't';
    assert "unstarted"[0] == 'u' && "completed"[0] == 'c' && "canceled"[0] == 'c';
    assert "completed"[1] == 'o' && "canceled"[1] == 'a';
  }

  /** A walk from a category to another. */
  function Route(from: StateType, to: StateType): seq<StateType>
    decreases from.Terminal()
  {
    if Joined(from, to) then [from, to]
    else if from == Completed then [Completed] + Route(Unstarted, to)
    else if from == Canceled then [Canceled] + Route(Backlog, to)
    else match to
      case Triage => [from, Backlog, Triage]
      case Started => [from, Unstarted, Started]
      case Completed => if from == Unstarted then [from, Started, Completed] else [from, Unstarted, Started, Completed]
      case _ => []
  }

  /** No category is a dead end: from each a walk leads to every other. */
  lemma EveryCategoryIsReachable(from: StateType, to: StateType)
    ensures var h := Route(from, to); h != [] && h[0] == from && h[|h| - 1] == to && IsWalk(h)
  {
    forall j: StateType, k: StateType ensures IsValidTransition(j, k) <==> Joined(j, k) {
      TableByTarget(j, k);
    }
    hide IsValidTransition;
  }

  /** Consecutive entries are equal or joined in the table. */
  ghost predicate IsWalk(h: seq<StateType>) {
    forall i :: 0 <= i < |h| - 1 ==> IsValidTransition(h[i], h[i + 1])
  }

  /** A stay in Completed that ends is left through Unstarted. */
  lemma {:induction false} LeavingCompleted(h: seq<StateType>, a: nat, m: nat) returns (u: nat)
    requires IsWalk(h) && a < m < |h| && h[a] == Completed && h[m] != Completed
    ensures a < u <= m && h[u] == Unstarted && forall j :: a <= j < u ==> h[j] == Completed
    decreases m - a
  {
    assert IsValidTransition(h[a], h[a + 1]);
    if h[a + 1] == Completed {
      u := LeavingCompleted(h, a + 1, m);
    } else {
      u := a + 1;
    }
  }

  /** Completed is entered only from Started. */
  lemma {:induction false} EnteringCompleted(h: seq<StateType>, m: nat, b: nat) returns (s: nat)
    requires IsWalk(h) && m < b < |h| && h[m] != Completed && h[b] == Completed
    ensures m <= s < b && h[s] == Started && forall j :: s < j <= b ==> h[j] == Completed
    decreases b - m
  {
    assert IsValidTransition(h[b - 1], h[b]);
    if h[b - 1] == Completed {
      s := EnteringCompleted(h, m, b - 1);
    } else {
      s := b - 1;
    }
  }

  /** Between two separate visits to Completed the walk passes through Unstarted and later Started. */
  lemma ReopeningPassesThroughUnstartedAndStarted(h: seq<StateType>, a: nat, m: nat, b: nat)
    requires IsWalk(h) && a < m < b < |h| && h[a] == h[b] == Completed && h[m] != Completed
    ensures exists u, s :: a < u < s < b && h[u] == Unstarted && h[s] == Started
  {
    var u := LeavingCompleted(h, a, m);
    var s := EnteringCompleted(h, u, b);
    assert h[u] != h[s];
  }
}
