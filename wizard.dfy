/** Navigation state of the strategy wizard (components/StrategyApp.tsx): the active
    section and the list of completed sections, changed by Back, Next and a direct
    jump from the sidebar.

    The transitions are stated for any section order `order`; the component uses
    `AllSections`. Proving them for a duplicate-free order in general keeps the proofs
    independent of the twelve key strings. */
module Wizard {
  import opened Seqs
  import opened Sections

  /** A snapshot of the two state fields. */
  datatype NavState = NavState(activeSection: string, completedSections: seq<string>)

  /** `useState("campaign-basics")` and `useState<string[]>([])`. */
  const Initial: NavState := NavState(FirstSection, [])

  /** The orders the wizard can run on: at least one key, none repeated. */
  predicate WellFormedOrder(order: seq<string>) {
    |order| > 0 && NoDuplicates(order)
  }

  lemma AllSectionsWellFormed()
    ensures WellFormedOrder(AllSections)
    ensures AllSections[0] == FirstSection && AllSections[|AllSections| - 1] == LastSection
    ensures Initial == NavState(AllSections[0], [])
  {
    SectionListShape();
  }

  /** `handleBack`: step to the previous section; at the first or an unknown section nothing moves. */
  function Back(order: seq<string>, s: NavState): (r: NavState)
    ensures r.completedSections == s.completedSections
  {
    var currentIndex := IndexOf(order, s.activeSection);
    if currentIndex > 0 then s.(activeSection := order[currentIndex - 1]) else s
  }

  /** Back moves one position towards the start and clamps there; an unknown key stays. */
  lemma BackMoves(order: seq<string>, s: NavState)
    requires WellFormedOrder(order)
    ensures forall i :: 1 <= i < |order| && s.activeSection == order[i] ==>
      Back(order, s).activeSection == order[i - 1]
    ensures s.activeSection == order[0] || s.activeSection !in order ==> Back(order, s) == s
  {
    forall i | 1 <= i < |order| && s.activeSection == order[i]
      ensures Back(order, s).activeSection == order[i - 1]
    {
      IndexOfDistinct(order, i);
    }
    if s.activeSection == order[0] {
      IndexOfDistinct(order, 0);
    }
  }

  /** `handleNext`: record the active section as completed unless it already is, then step
      to the next section; the last section stays put and an unknown one goes to the first. */
  function Next(order: seq<string>, s: NavState): (r: NavState)
    requires |order| > 0
    ensures s.activeSection in s.completedSections ==> r.completedSections == s.completedSections
    ensures s.activeSection !in s.completedSections ==>
      r.completedSections == s.completedSections + [s.activeSection]
  {
    var currentIndex := IndexOf(order, s.activeSection);
    var completed :=
      if s.activeSection !in s.completedSections then s.completedSections + [s.activeSection]
      else s.completedSections;
    var active :=
      if currentIndex < |order| - 1 then order[currentIndex + 1] else s.activeSection;
    NavState(active, completed)
  }

  /** Next moves one position towards the end, clamps at the last section, and
      sends a key outside the order to the first section. */
  lemma NextMoves(order: seq<string>, s: NavState)
    requires WellFormedOrder(order)
    ensures forall i :: 0 <= i < |order| - 1 && s.activeSection == order[i] ==>
      Next(order, s).activeSection == order[i + 1]
    ensures s.activeSection == order[|order| - 1] ==> Next(order, s).activeSection == s.activeSection
    ensures s.activeSection !in order ==> Next(order, s).activeSection == order[0]
  {
    forall i | 0 <= i < |order| - 1 && s.activeSection == order[i]
      ensures Next(order, s).activeSection == order[i + 1]
    {
      IndexOfDistinct(order, i);
    }
    if s.activeSection == order[|order| - 1] {
      IndexOfDistinct(order, |order| - 1);
    }
  }

  /** `handleSectionChange`: any key is accepted, known or not. */
  function SectionChange(s: NavState, section: string): (r: NavState)
    ensures r.activeSection == section && r.completedSections == s.completedSections
  {
    s.(activeSection := section)
  }

  /** The wizard's component state. */
  class StrategyApp {
    var activeSection: string
    var completedSections: seq<string>

    function State(): NavState
      reads this
    {
      NavState(activeSection, completedSections)
    }

    constructor ()
      ensures State() == Initial
    {
      activeSection := FirstSection;
      completedSections := [];
    }

    method HandleSectionChange(section: string)
      modifies this
      ensures State() == SectionChange(old(State()), section)
    {
      activeSection := section;
    }

    method HandleBack()
      modifies this
      ensures State() == Back(AllSections, old(State()))
    {
      var currentIndex := IndexOf(AllSections, activeSection);
      if currentIndex > 0 {
        activeSection := AllSections[currentIndex - 1];
      }
    }

    method HandleNext()
      modifies this
      ensures State() == Next(AllSections, old(State()))
    {
      var currentIndex := IndexOf(AllSections, activeSection);
      if activeSection !in completedSections {
        completedSections := completedSections + [activeSection];
      }
      if currentIndex < |AllSections| - 1 {
        activeSection := AllSections[currentIndex + 1];
      }
    }
  }

  /** The state the wizard keeps when every jump names a known section. */
  ghost predicate Valid(order: seq<string>, s: NavState) {
    && s.activeSection in order
    && NoDuplicates(s.completedSections)
    && (forall i :: 0 <= i < |s.completedSections| ==> s.completedSections[i] in order)
  }

  /** A valid state never records more sections than the order has. */
  lemma CompletedBounded(order: seq<string>, s: NavState)
    requires Valid(order, s)
    ensures |s.completedSections| <= |order|
  {
    DistinctSubsetLength(s.completedSections, order);
  }

  /** Back, Next and jumps to known sections keep the state valid. */
  lemma TransitionsPreserveValid(order: seq<string>, s: NavState, section: string)
    requires WellFormedOrder(order) && Valid(order, s)
    ensures Valid(order, Back(order, s)) && Valid(order, Next(order, s))
    ensures section in order ==> Valid(order, SectionChange(s, section))
  {
    var i := IndexOf(order, s.activeSection);
    if i > 0 {
      assert Back(order, s).activeSection == order[i - 1];
    }
    var n := Next(order, s);
    if i < |order| - 1 {
      assert n.activeSection == order[i + 1];
    }
    if s.activeSection !in s.completedSections {
      var c := s.completedSections;
      assert NoDuplicates(c + [s.activeSection]) by {
        forall j, k | 0 <= j < k < |c| + 1
          ensures (c + [s.activeSection])[j] != (c + [s.activeSection])[k]
        {
          if k == |c| {
            assert c[j] in c;
          }
        }
      }
    }
  }

  /** A user action on the wizard. */
  datatype Action = BackAction | NextAction | Jump(section: string)

  function Apply(order: seq<string>, s: NavState, a: Action): NavState
    requires |order| > 0
  {
    match a
    case BackAction => Back(order, s)
    case NextAction => Next(order, s)
    case Jump(section) => SectionChange(s, section)
  }

  /** The state after performing `actions` in order from `s`. */
  function Run(order: seq<string>, s: NavState, actions: seq<Action>): NavState
    requires |order| > 0
    decreases |actions|
  {
    if actions == [] then s else Run(order, Apply(order, s, actions[0]), actions[1..])
  }

  predicate KnownJumps(order: seq<string>, actions: seq<Action>) {
    forall i :: 0 <= i < |actions| && actions[i].Jump? ==> actions[i].section in order
  }

  lemma {:induction false} RunPreservesValid(order: seq<string>, s: NavState, actions: seq<Action>)
    requires WellFormedOrder(order) && Valid(order, s) && KnownJumps(order, actions)
    ensures Valid(order, Run(order, s, actions))
    decreases |actions|
  {
    if actions != [] {
      var a := actions[0];
      TransitionsPreserveValid(order, s, if a.Jump? then a.section else order[0]);
      assert KnownJumps(order, actions[1..]) by {
        forall i | 0 <= i < |actions[1..]| && actions[1..][i].Jump?
          ensures actions[1..][i].section in order
        {
          assert actions[1..][i] == actions[i + 1];
        }
      }
      RunPreservesValid(order, Apply(order, s, a), actions[1..]);
    }
  }

  /** From the initial state, with sidebar jumps only to known keys, the active section stays in the
      list and the completed list is a duplicate-free selection of at most twelve known sections. */
  lemma ReachableStatesValid(actions: seq<Action>)
    requires KnownJumps(AllSections, actions)
    ensures Valid(AllSections, Run(AllSections, Initial, actions))
    ensures |Run(AllSections, Initial, actions).completedSections| <= 12
  {
    AllSectionsWellFormed();
    RunPreservesValid(AllSections, Initial, actions);
    CompletedBounded(AllSections, Run(AllSections, Initial, actions));
    assert |AllSections| == 12;
  }

  /** Back undoes the move of Next from any known section but the last. */
  lemma BackAfterNext(order: seq<string>, s: NavState)
    requires WellFormedOrder(order)
    requires s.activeSection in order && s.activeSection != order[|order| - 1]
    ensures Back(order, Next(order, s)).activeSection == s.activeSection
  {
    var i := IndexOf(order, s.activeSection);
    NextMoves(order, s);
    BackMoves(order, Next(order, s));
    assert Next(order, s).activeSection == order[i + 1];
  }

  /** Next from the last section only records it; a second Next changes nothing. */
  lemma NextClampsAtEnd(order: seq<string>, s: NavState)
    requires WellFormedOrder(order) && s.activeSection == order[|order| - 1]
    ensures Next(order, s).activeSection == s.activeSection
    ensures s.activeSection in Next(order, s).completedSections
    ensures Next(order, Next(order, s)) == Next(order, s)
  {
    NextMoves(order, s);
    NextMoves(order, Next(order, s));
  }

  /** Next from a key outside the order goes to the first section and still records the unknown
      key; Back from it changes nothing. */
  lemma NextFromUnknown(order: seq<string>, s: NavState)
    requires WellFormedOrder(order) && s.activeSection !in order
    ensures Next(order, s).activeSection == order[0]
    ensures s.activeSection in Next(order, s).completedSections
    ensures Back(order, s) == s
  {
    NextMoves(order, s);
  }

  /** In the wizard, Next from the section at position `i` moves to position `i + 1`, or stays on
      the last section, and records the section left. */
  lemma NextInWizard(i: int, completed: seq<string>)
    requires 0 <= i < |AllSections|
    ensures Next(AllSections, NavState(AllSections[i], completed)).activeSection == AllSections[Min(i + 1, 11)]
    ensures AllSections[i] in Next(AllSections, NavState(AllSections[i], completed)).completedSections
  {
    AllSectionsWellFormed();
    NextAt(AllSections, i, completed);
    assert |AllSections| == 12;
  }

  /** Next from position `i` of a duplicate-free order, whatever the completed list. */
  lemma NextAt(order: seq<string>, i: int, completed: seq<string>)
    requires WellFormedOrder(order) && 0 <= i < |order|
    ensures Next(order, NavState(order[i], completed)).activeSection == order[Min(i + 1, |order| - 1)]
    ensures order[i] in Next(order, NavState(order[i], completed)).completedSections
  {
    IndexOfDistinct(order, i);
  }

  function NextN(order: seq<string>, s: NavState, n: nat): NavState
    requires |order| > 0
  {
    if n == 0 then s else Next(order, NextN(order, s, n - 1))
  }

  function Min(a: int, b: int): int { if a < b then a else b }

  /** Pressing Next `n` times from the first section walks strictly forward through the order,
      completing each section it leaves, and clamps at the last section. */
  lemma {:induction false} AdvanceFromStart(order: seq<string>, n: nat)
    requires WellFormedOrder(order)
    ensures NextN(order, NavState(order[0], []), n) ==
      NavState(order[Min(n, |order| - 1)], order[..Min(n, |order|)])
  {
    if n > 0 {
      AdvanceFromStart(order, n - 1);
      if n - 1 < |order| {
        NextFromPrefix(order, n - 1);
      } else {
        assert order[..|order|] == order;
        NextAfterAll(order);
      }
    }
  }

  /** One Next from position `k` with exactly the sections before it completed. */
  lemma NextFromPrefix(order: seq<string>, k: nat)
    requires WellFormedOrder(order) && k < |order|
    ensures Next(order, NavState(order[k], order[..k])) ==
      NavState(order[Min(k + 1, |order| - 1)], order[..k + 1])
  {
    var s := NavState(order[k], order[..k]);
    NextMoves(order, s);
    NotInPrefix(order, k);
    assert order[..k] + [order[k]] == order[..k + 1];
  }

  /** Next on the last section with every section completed changes nothing. */
  lemma NextAfterAll(order: seq<string>)
    requires WellFormedOrder(order)
    ensures Next(order, NavState(order[|order| - 1], order)) == NavState(order[|order| - 1], order)
  {
    NextMoves(order, NavState(order[|order| - 1], order));
  }

  lemma NotInPrefix(s: seq<string>, k: nat)
    requires NoDuplicates(s) && k < |s|
    ensures s[k] !in s[..k]
  {
  }

  /** In the wizard itself: `n` presses of Next from the start leave section `min(n, 11)`
      active with the first `min(n, 12)` sections completed, so the twelfth press completes
      them all. */
  lemma WalkThroughWizard(n: nat)
    ensures NextN(AllSections, Initial, n) == NavState(AllSections[Min(n, 11)], AllSections[..Min(n, 12)])
    ensures n >= 12 ==> NextN(AllSections, Initial, n) == NavState(LastSection, AllSections)
  {
    AllSectionsWellFormed();
    AdvanceFromStart(AllSections, n);
    assert |AllSections| == 12;
    assert AllSections[..12] == AllSections;
  }
}
