/** Facts the sidebar derives from the wizard state (components/SectionNavigation.tsx):
    the four steps and their sub-items, the current step, the progress ratio, which step
    cards show as completed, which sub-items carry a check mark, and whether the header
    offers "Import Brief". Nothing here holds state. */
module Navigation {
  import opened Seqs
  import opened Sections
  import Wizard

  datatype SubItem = SubItem(key: string, labelText: string)

  datatype Step = Step(id: nat, title: string, subItems: seq<SubItem>)

  /** The sidebar's own grouping of the section keys, with their labels. */
  const Steps: seq<Step> := [
    Step(1, "Brief", [
      SubItem("campaign-basics", "Campaign Basics"),
      SubItem("market-intelligence", "Market Intelligence"),
      SubItem("strategic-objectives", "Strategic Objectives")]),
    Step(2, "Strategy", [
      SubItem("strategy-selection", "Strategy Selection"),
      SubItem("strategy-customization", "Strategy Customization"),
      SubItem("strategy-validation", "Strategy Validation")]),
    Step(3, "Concept", [
      SubItem("concept-generation", "Concept Generation"),
      SubItem("concept-refinement", "Concept Refinement"),
      SubItem("concept-finalization", "Concept Finalization")]),
    Step(4, "Execution", [
      SubItem("execution-planning", "Execution Planning"),
      SubItem("resource-allocation", "Resource Allocation"),
      SubItem("timeline-management", "Timeline Management")])
  ]

  /** `subItems.map((s) => s.key)`. */
  function Keys(items: seq<SubItem>): (r: seq<string>)
    ensures |r| == |items|
    ensures forall i :: 0 <= i < |items| ==> r[i] == items[i].key
  {
    if items == [] then [] else [items[0].key] + Keys(items[1..])
  }

  /** The keys of step `i + 1` (`step1Keys` .. `step4Keys`). */
  function StepKeys(i: nat): seq<string>
    requires i < |Steps|
  {
    Keys(Steps[i].subItems)
  }

  /** `getStepFromSection`: the first step whose keys include `section`, else step 1. */
  function StepFromSection(section: string): (r: nat)
    ensures 1 <= r <= 4
  {
    if section in StepKeys(0) then 1
    else if section in StepKeys(1) then 2
    else if section in StepKeys(2) then 3
    else if section in StepKeys(3) then 4
    else 1
  }

  /** The keys of all steps, one step after the other. */
  function FlattenKeys(steps: seq<Step>): seq<string> {
    if steps == [] then [] else Keys(steps[0].subItems) + FlattenKeys(steps[1..])
  }

  /** `steps.reduce((sum, step) => sum + step.subItems.length, 0)`. */
  function SumSubItems(steps: seq<Step>): nat {
    if steps == [] then 0 else SumSubItems(steps[..|steps| - 1]) + |steps[|steps| - 1].subItems|
  }

  function TotalSubItems(): nat {
    SumSubItems(Steps)
  }

  /** The reduce counts exactly the keys that the steps list, one after the other. */
  lemma {:induction false} SumIsFlattenedLength(steps: seq<Step>)
    ensures SumSubItems(steps) == |FlattenKeys(steps)|
    decreases |steps|
  {
    if steps != [] {
      var last := steps[|steps| - 1];
      SumIsFlattenedLength(steps[..|steps| - 1]);
      FlattenAppend(steps[..|steps| - 1], last);
      assert steps[..|steps| - 1] + [last] == steps;
    }
  }

  lemma {:induction false} FlattenAppend(steps: seq<Step>, last: Step)
    ensures FlattenKeys(steps + [last]) == FlattenKeys(steps) + Keys(last.subItems)
    decreases |steps|
  {
    if steps == [] {
      assert FlattenKeys([last]) == Keys(last.subItems) + FlattenKeys([]);
    } else {
      assert (steps + [last])[1..] == steps[1..] + [last];
      FlattenAppend(steps[1..], last);
    }
  }

  /** Each step lists three consecutive keys of the section list. */
  lemma StepKeysAreSlices()
    ensures |AllSections| == 12
    ensures StepKeys(0) == AllSections[..3] && StepKeys(1) == AllSections[3..6]
    ensures StepKeys(2) == AllSections[6..9] && StepKeys(3) == AllSections[9..]
  {
  }

  /** The sidebar's grouping and the wizard's ordering agree: the steps' keys, read in
      order, are exactly the section list, so there are twelve sub-items in all. */
  lemma StepsMatchSections()
    ensures FlattenKeys(Steps) == AllSections
    ensures TotalSubItems() == 12 == |AllSections|
    ensures forall i :: 0 <= i < 4 ==> Steps[i].id == i + 1 && |Steps[i].subItems| == 3
  {
    StepKeysAreSlices();
    SumIsFlattenedLength(Steps);
    assert FlattenKeys(Steps) == StepKeys(0) + StepKeys(1) + StepKeys(2) + StepKeys(3);
    assert AllSections[..3] + AllSections[3..6] + AllSections[6..9] + AllSections[9..] == AllSections;
  }

  /** Every section lies in step `position / 3 + 1`. */
  lemma StepOfEachSection(i: int)
    requires 0 <= i < |AllSections|
    ensures StepFromSection(AllSections[i]) == i / 3 + 1
    ensures AllSections[i] in StepKeys(i / 3)
  {
    StepKeysAreSlices();
    Wizard.AllSectionsWellFormed();
    BlockOfPosition(AllSections, i);
  }

  /** In a duplicate-free list of twelve, the entry at `i` lies in the block of three
      holding position `i` and in none of the blocks before it. */
  lemma BlockOfPosition(s: seq<string>, i: int)
    requires |s| == 12 && NoDuplicates(s) && 0 <= i < 12
    ensures s[i] in s[..3] <==> i < 3
    ensures s[i] in s[3..6] <==> 3 <= i < 6
    ensures s[i] in s[6..9] <==> 6 <= i < 9
    ensures s[i] in s[9..] <==> 9 <= i
  {
    if i < 3 { assert s[i] == s[..3][i]; } else { NotInSlice(s, 0, 3, i); }
    if 3 <= i < 6 { assert s[i] == s[3..6][i - 3]; } else { NotInSlice(s, 3, 6, i); }
    if 6 <= i < 9 { assert s[i] == s[6..9][i - 6]; } else { NotInSlice(s, 6, 9, i); }
    if 9 <= i { assert s[i] == s[9..][i - 9]; } else { NotInSlice(s, 9, 12, i); }
  }

  lemma NotInSlice(s: seq<string>, lo: nat, hi: nat, i: nat)
    requires NoDuplicates(s) && lo <= hi <= |s| && i < |s| && !(lo <= i < hi)
    ensures s[i] !in s[lo..hi]
  {
  }

  /** The sidebar's sub-item labels are the page titles the wizard shows for the same keys. */
  lemma LabelsAreTitles(i: nat, j: nat)
    requires i < |Steps| && j < |Steps[i].subItems|
    ensures Steps[i].subItems[j].key in AllSections
    ensures SectionTitle(Steps[i].subItems[j].key) == Steps[i].subItems[j].labelText
  {
    if i == 0 {
      assert Steps[0].subItems[j].labelText == Titles[Steps[0].subItems[j].key];
    } else if i == 1 {
      assert Steps[1].subItems[j].labelText == Titles[Steps[1].subItems[j].key];
    } else if i == 2 {
      assert Steps[2].subItems[j].labelText == Titles[Steps[2].subItems[j].key];
    } else {
      assert Steps[3].subItems[j].labelText == Titles[Steps[3].subItems[j].key];
    }
  }

  /** A key in no step's sub-items is treated as step 1. */
  lemma UnknownSectionIsStepOne(section: string)
    requires section !in AllSections
    ensures StepFromSection(section) == 1
  {
    StepKeysAreSlices();
    assert section !in AllSections[..3] && section !in AllSections[3..6];
    assert section !in AllSections[6..9] && section !in AllSections[9..];
  }

  /** `(completedSections.length / totalSubItems) * 100`, as an exact ratio. */
  function ProgressPercent(completed: seq<string>): real {
    (|completed| as real / TotalSubItems() as real) * 100.0
  }

  /** Progress is 100 k / 12 for k completed entries, grows with the list, and stays
      within 0..100 for a duplicate-free list of known sections. */
  lemma ProgressFacts(completed: seq<string>, more: seq<string>)
    ensures ProgressPercent(completed) == 100.0 * (|completed| as real) / 12.0
    ensures |completed| <= |more| ==> ProgressPercent(completed) <= ProgressPercent(more)
    ensures NoDuplicates(completed) && (forall x :: x in completed ==> x in AllSections) ==>
      0.0 <= ProgressPercent(completed) <= 100.0
  {
    StepsMatchSections();
    if NoDuplicates(completed) && (forall x :: x in completed ==> x in AllSections) {
      DistinctSubsetLength(completed, AllSections);
    }
  }

  /** `isCurrentStep`: the step holding the active section. */
  predicate IsCurrentStep(stepId: nat, activeSection: string) {
    stepId == StepFromSection(activeSection)
  }

  /** `isCompleted` on a step card: positional, plus the special case of the last step. */
  predicate IsStepCompleted(stepId: nat, activeSection: string, completed: seq<string>) {
    stepId < StepFromSection(activeSection) || (stepId == 4 && |completed| == TotalSubItems())
  }

  /** Steps 1 to 3 are completed exactly when they lie before the current step; step 4
      exactly when all twelve entries are recorded, which position alone never achieves. */
  lemma StepCompletion(stepId: nat, activeSection: string, completed: seq<string>)
    ensures 1 <= stepId <= 3 ==>
      (IsStepCompleted(stepId, activeSection, completed) <==> stepId < StepFromSection(activeSection))
    ensures IsStepCompleted(4, activeSection, completed) <==> |completed| == 12
  {
    StepsMatchSections();
  }

  /** Steps 1 to 3 are never both current and completed. */
  lemma CurrentExcludesCompleted(stepId: nat, activeSection: string, completed: seq<string>)
    requires 1 <= stepId <= 3
    ensures !(IsCurrentStep(stepId, activeSection) && IsStepCompleted(stepId, activeSection, completed))
  {
  }

  /** Step 4 is both current and completed once every section is done and the last is active. */
  lemma LastStepCanBeBoth()
    ensures IsCurrentStep(4, LastSection) && IsStepCompleted(4, LastSection, AllSections)
  {
    StepOfEachSection(11);
    StepsMatchSections();
  }

  /** What a sub-item row shows. Rows are drawn only inside the current step's card; a drawn
      row is highlighted when its key is active and carries a check mark when its key is
      completed. The step of a sub-item is the step its key belongs to. */
  datatype SubItemView = SubItemView(isShown: bool, isActive: bool, isChecked: bool)

  function ViewSubItem(item: SubItem, activeSection: string, completed: seq<string>): SubItemView {
    SubItemView(
      IsCurrentStep(StepFromSection(item.key), activeSection),
      activeSection == item.key,
      item.key in completed)
  }

  /** The check predicate depends only on the completed list, never on which section is
      active; whether the row is drawn at all depends only on the active section's step. */
  lemma CheckMarkIgnoresActive(item: SubItem, active1: string, active2: string, completed: seq<string>)
    ensures ViewSubItem(item, active1, completed).isChecked == ViewSubItem(item, active2, completed).isChecked
    ensures ViewSubItem(item, active1, completed).isChecked <==> item.key in completed
    ensures ViewSubItem(item, active1, completed).isShown <==> StepFromSection(item.key) == StepFromSection(active1)
  {
  }

  /** After Next, the key of the section just left satisfies the check predicate. */
  lemma NextChecksLeftSection(s: Wizard.NavState, item: SubItem, active: string)
    requires item.key == s.activeSection
    ensures ViewSubItem(item, active, Wizard.Next(AllSections, s).completedSections).isChecked
  {
  }

  /** After Next from the section at position `i`, its row is still drawn, checked, exactly when
      Next stays inside the same step: `i` is not the last of its three, or `i` is the very last
      section. Leaving a step's third section makes that step a completed, non-current card,
      which shows its preview instead of its rows. */
  lemma NextShowsLeftRow(i: int, item: SubItem, completed: seq<string>)
    requires 0 <= i < |AllSections| && item.key == AllSections[i]
    ensures var s := Wizard.NavState(AllSections[i], completed);
      var n := Wizard.Next(AllSections, s);
      var v := ViewSubItem(item, n.activeSection, n.completedSections);
      v.isChecked && (v.isShown <==> i % 3 != 2 || i == 11)
    ensures var s := Wizard.NavState(AllSections[i], completed);
      var n := Wizard.Next(AllSections, s);
      i % 3 == 2 && i != 11 ==>
        !IsCurrentStep(i / 3 + 1, n.activeSection) && IsStepCompleted(i / 3 + 1, n.activeSection, n.completedSections)
  {
    Wizard.NextInWizard(i, completed);
    var j := Wizard.Min(i + 1, 11);
    StepOfEachSection(i);
    StepOfEachSection(j);
    SameStepAfterNext(i);
  }

  /** Positions `i` and the one Next leads to share a block of three exactly when `i` is not
      the third of its block, or is the last position. */
  lemma SameStepAfterNext(i: int)
    requires 0 <= i < 12
    ensures i / 3 == Wizard.Min(i + 1, 11) / 3 <==> i % 3 != 2 || i == 11
  {
  }

  /** The header variant shows "Import Brief" only on the first section. */
  predicate ShowsImportBrief(activeSection: string) {
    activeSection == "campaign-basics"
  }

  lemma ImportBriefOnFirstSectionOnly(activeSection: string)
    ensures ShowsImportBrief(activeSection) <==> activeSection == AllSections[0]
    ensures ShowsImportBrief(Wizard.Initial.activeSection)
  {
  }
}
