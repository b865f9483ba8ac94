/**
 * The onboarding carousel (Clima/Views/Screens/OnboardingView.swift): six
 * steps in declaration order, a single tap moves forward, a double tap moves
 * back, and neither moves past the ends.
 */
module Onboarding {
  import opened Wrappers

  datatype Status =
    | WelcomeToClima
    | WhatIsClima
    | BeforeWeStart
    | ThisIsMap
    | ThisIsCharts
    | ThisIsCompare

  /** `Self.allCases`: the cases in declaration order. */
  const AllCases: seq<Status> :=
    [WelcomeToClima, WhatIsClima, BeforeWeStart, ThisIsMap, ThisIsCharts, ThisIsCompare]

  /** Position of a step in the declaration, written out case by case; it is
      the reference the index arithmetic over `AllCases` is checked against. */
  function Ord(s: Status): nat {
    match s
    case WelcomeToClima => 0
    case WhatIsClima => 1
    case BeforeWeStart => 2
    case ThisIsMap => 3
    case ThisIsCharts => 4
    case ThisIsCompare => 5
  }

  lemma OrdInjective(a: Status, b: Status)
    requires Ord(a) == Ord(b)
    ensures a == b
  {
  }

  /** `allCases` lists every case exactly once, in declaration order. */
  lemma AllCasesInOrder()
    ensures |AllCases| == 6
    ensures forall i :: 0 <= i < |AllCases| ==> Ord(AllCases[i]) == i
    ensures forall s: Status :: s in AllCases
  {
    forall s: Status ensures s in AllCases {
      assert AllCases[Ord(s)] == s;
    }
  }

  /** `Array.firstIndex(of:)`. */
  function FirstIndex<T(==)>(xs: seq<T>, x: T): (r: Option<nat>)
    ensures r.None? <==> x !in xs
    ensures r.Some? ==> r.value < |xs| && xs[r.value] == x && x !in xs[..r.value]
  {
    if |xs| == 0 then None
    else if xs[0] == x then Some(0)
    else
      match FirstIndex(xs[1..], x)
      case None => None
      case Some(i) =>
        assert xs[..i + 1] == [xs[0]] + xs[1..][..i];
        Some(i + 1)
  }

  /** `getNextStatus()`: the step declared right after `s`, none after the last. */
  function NextStatus(s: Status): (r: Option<Status>)
    ensures r.None? <==> s == ThisIsCompare
    ensures r.Some? ==> Ord(r.value) == Ord(s) + 1
  {
    AllCasesInOrder();
    match FirstIndex(AllCases, s)
    case None => None
    case Some(currentIndex) =>
      var nextIndex := currentIndex + 1;
      if nextIndex < |AllCases| then Some(AllCases[nextIndex]) else None
  }

  /** `getPreviousStatus()`: the step declared right before `s`, none before the first. */
  function PreviousStatus(s: Status): (r: Option<Status>)
    ensures r.None? <==> s == WelcomeToClima
    ensures r.Some? ==> Ord(r.value) + 1 == Ord(s)
  {
    AllCasesInOrder();
    match FirstIndex(AllCases, s)
    case None => None
    case Some(currentIndex) =>
      var previousIndex := currentIndex - 1;
      if previousIndex >= 0 then Some(AllCases[previousIndex]) else None
  }

  /** Going forward and then back returns to the same step. */
  lemma PreviousAfterNext(s: Status)
    requires NextStatus(s).Some?
    ensures PreviousStatus(NextStatus(s).value) == Some(s)
  {
    var p := PreviousStatus(NextStatus(s).value);
    OrdInjective(p.value, s);
  }

  /** Going back and then forward returns to the same step. */
  lemma NextAfterPrevious(s: Status)
    requires PreviousStatus(s).Some?
    ensures NextStatus(PreviousStatus(s).value) == Some(s)
  {
    var n := NextStatus(PreviousStatus(s).value);
    OrdInjective(n.value, s);
  }

  const BeginLabel: string := "Tap anywhere to begin"
  const ContinueLabel: string := "Tap anywhere to continue. Double tap to go back."

  /** The `OnboardingView` screen state: its one `@State` field. */
  class OnboardingView {
    var currentStatus: Status

    /** The screen opens on the Compare step. */
    constructor ()
      ensures currentStatus == ThisIsCompare
    {
      currentStatus := ThisIsCompare;
    }

    /** `continueLabelString`. */
    function ContinueLabelString(): (r: string)
      reads this
      ensures r == BeginLabel <==> currentStatus == WelcomeToClima
      ensures r == ContinueLabel <==> currentStatus != WelcomeToClima
    {
      if currentStatus == WelcomeToClima then BeginLabel else ContinueLabel
    }

    /** Whether the continue label is on screen: only on the first two steps. */
    predicate IsContinueLabelShown()
      reads this
      ensures IsContinueLabelShown() <==> Ord(currentStatus) <= 1
    {
      currentStatus == WelcomeToClima || currentStatus == WhatIsClima
    }

    /** `changeCurrentStatus(to:)`. */
    method ChangeCurrentStatusTo(status: Status)
      modifies this
      ensures currentStatus == status
    {
      currentStatus := status;
    }

    /** `changeCurrentStatus(forward:)`: one step in the given direction, or
        none when already at that end. */
    method ChangeCurrentStatus(forward: bool)
      modifies this
      ensures forward && old(currentStatus) != ThisIsCompare ==>
                Ord(currentStatus) == Ord(old(currentStatus)) + 1
      ensures !forward && old(currentStatus) != WelcomeToClima ==>
                Ord(currentStatus) + 1 == Ord(old(currentStatus))
      ensures forward && old(currentStatus) == ThisIsCompare ==> currentStatus == ThisIsCompare
      ensures !forward && old(currentStatus) == WelcomeToClima ==> currentStatus == WelcomeToClima
    {
      if forward {
        var next := NextStatus(currentStatus);
        if next.Some? {
          currentStatus := next.value;
        }
      } else {
        var previous := PreviousStatus(currentStatus);
        if previous.Some? {
          currentStatus := previous.value;
        }
      }
    }
  }
}
