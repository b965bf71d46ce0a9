/** The fixed section list of the strategy wizard and the two lookups that give
    each section its page title and description (components/StrategyApp.tsx). */
module Sections {
  import opened Seqs

  /** Every section key, in wizard order: Brief, Strategy, Concept, Execution, three keys each. */
  const AllSections: seq<string> := [
    "campaign-basics", "market-intelligence", "strategic-objectives",
    "strategy-selection", "strategy-customization", "strategy-validation",
    "concept-generation", "concept-refinement", "concept-finalization",
    "execution-planning", "resource-allocation", "timeline-management"
  ]

  const FirstSection: string := "campaign-basics"
  const LastSection: string := "timeline-management"

  const DefaultTitle: string := "Section"
  const DefaultDescription: string := "Complete this section to move forward."

  const Titles: map<string, string> := map[
    "campaign-basics" := "Campaign Basics",
    "market-intelligence" := "Market Intelligence",
    "strategic-objectives" := "Strategic Objectives",
    "strategy-selection" := "Strategy Selection",
    "strategy-customization" := "Strategy Customization",
    "strategy-validation" := "Strategy Validation",
    "concept-generation" := "Concept Generation",
    "concept-refinement" := "Concept Refinement",
    "concept-finalization" := "Concept Finalization",
    "execution-planning" := "Execution Planning",
    "resource-allocation" := "Resource Allocation",
    "timeline-management" := "Timeline Management"
  ]

  const Descriptions: map<string, string> := map[
    "campaign-basics" := "Provide essential info about client, product, and resources.",
    "market-intelligence" := "Analyze market landscape, competitors, and target audience insights.",
    "strategic-objectives" := "Define clear objectives, success metrics, and key performance indicators.",
    "strategy-selection" := "Choose the most effective strategy from our AI-generated recommendations.",
    "strategy-customization" := "Customize your selected strategy to match your specific requirements.",
    "strategy-validation" := "Validate and refine your strategy before moving to concept development.",
    "concept-generation" := "Generate creative concepts based on your validated strategy.",
    "concept-refinement" := "Refine and improve your concepts through iterative feedback.",
    "concept-finalization" := "Finalize your concepts and prepare them for execution planning.",
    "execution-planning" := "Create detailed execution plans for your finalized concepts.",
    "resource-allocation" := "Allocate resources and assign responsibilities for execution.",
    "timeline-management" := "Set timelines and milestones for successful project delivery."
  ]

  /** The section list has twelve distinct keys, starting and ending where the wizard does. */
  lemma SectionListShape()
    ensures |AllSections| == 12 && NoDuplicates(AllSections)
    ensures AllSections[0] == FirstSection && AllSections[11] == LastSection
  {
  }

  /** `titles[section] || "Section"`: a mapped, non-empty title, otherwise the default. */
  function SectionTitle(section: string): (r: string)
    ensures section in AllSections ==> r == Titles[section]
    ensures section !in AllSections ==> r == DefaultTitle
  {
    if section in Titles && Titles[section] != "" then Titles[section] else DefaultTitle
  }

  /** `descriptions[section] || "Complete this section to move forward."`. */
  function SectionDescription(section: string): (r: string)
    ensures section in AllSections ==> r == Descriptions[section]
    ensures section !in AllSections ==> r == DefaultDescription
  {
    if section in Descriptions && Descriptions[section] != "" then Descriptions[section] else DefaultDescription
  }

  /** The default title and description are shown exactly for the keys outside the section list. */
  lemma DefaultsOnlyForUnknownKeys(section: string)
    ensures SectionTitle(section) == DefaultTitle <==> section !in AllSections
    ensures SectionDescription(section) == DefaultDescription <==> section !in AllSections
  {
  }
}
