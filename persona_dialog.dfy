/** The persona record (types/index.ts) and the persona form dialog
    (components/PersonaDialog.tsx): its starting form data, the field edits, the goal and
    motivation checklists, document replacement, and what Save hands back. */
module Personas {
  import opened Options
  import opened Seqs
  import opened Upload

  /** A target-audience profile; `id` and `profileImage` are optional in the source. */
  datatype Persona = Persona(
    id: Option<string>,
    name: string,
    category: string,
    demographic: string,
    lifestyles: string,
    behavioral: string,
    psychographic: string,
    personaPrompt: string,
    profileImage: Option<string>,
    quote: string,
    age: string,
    gender: string,
    location: string,
    relationshipStatus: string,
    title: string,
    education: string,
    description: string,
    goals: seq<string>,
    motivations: seq<string>,
    documents: seq<UploadedFile>)

  /** `defaultPersona`: every required text field empty, every list empty, no id or image. */
  const DefaultPersona: Persona := Persona(
    None, "", "", "", "", "", "", "", None, "", "", "", "", "", "", "", "", [], [], [])

  /** The text-valued fields `handleInputChange` is called with. */
  datatype TextField =
    | Id | Name | Category | Demographic | Lifestyles | Behavioral | Psychographic
    | PersonaPrompt | ProfileImage | Quote | Age | Gender | Location | RelationshipStatus
    | Title | Education | Description

  /** The value of a text field; `None` for an absent optional field. */
  function FieldValue(p: Persona, f: TextField): Option<string> {
    match f
    case Id => p.id
    case Name => Some(p.name)
    case Category => Some(p.category)
    case Demographic => Some(p.demographic)
    case Lifestyles => Some(p.lifestyles)
    case Behavioral => Some(p.behavioral)
    case Psychographic => Some(p.psychographic)
    case PersonaPrompt => Some(p.personaPrompt)
    case ProfileImage => p.profileImage
    case Quote => Some(p.quote)
    case Age => Some(p.age)
    case Gender => Some(p.gender)
    case Location => Some(p.location)
    case RelationshipStatus => Some(p.relationshipStatus)
    case Title => Some(p.title)
    case Education => Some(p.education)
    case Description => Some(p.description)
  }

  /** `{ ...prev, [field]: value }`: only `field` takes the new value. */
  function SetField(p: Persona, f: TextField, v: string): (r: Persona)
    ensures FieldValue(r, f) == Some(v)
    ensures r.goals == p.goals && r.motivations == p.motivations && r.documents == p.documents
  {
    match f
    case Id => p.(id := Some(v))
    case Name => p.(name := v)
    case Category => p.(category := v)
    case Demographic => p.(demographic := v)
    case Lifestyles => p.(lifestyles := v)
    case Behavioral => p.(behavioral := v)
    case Psychographic => p.(psychographic := v)
    case PersonaPrompt => p.(personaPrompt := v)
    case ProfileImage => p.(profileImage := Some(v))
    case Quote => p.(quote := v)
    case Age => p.(age := v)
    case Gender => p.(gender := v)
    case Location => p.(location := v)
    case RelationshipStatus => p.(relationshipStatus := v)
    case Title => p.(title := v)
    case Education => p.(education := v)
    case Description => p.(description := v)
  }

  /** Setting one field leaves every other text field as it was. */
  lemma SetFieldKeepsOthers(p: Persona, f: TextField, v: string, g: TextField)
    requires g != f
    ensures FieldValue(SetField(p, f, v), g) == FieldValue(p, g)
  {
  }

  /** A checklist toggle: drop every occurrence of `x` if present, otherwise append it. */
  function Toggle(xs: seq<string>, x: string): (r: seq<string>)
    ensures x in r <==> x !in xs
    ensures forall i :: 0 <= i < |xs| && xs[i] != x ==> xs[i] in r
    ensures forall i :: 0 <= i < |r| && r[i] != x ==> r[i] in xs
  {
    if x in xs then RemoveAll(xs, x) else xs + [x]
  }

  /** The other entries keep their relative order: removing leaves a subsequence, and
      adding puts the new entry after an unchanged list. */
  lemma ToggleKeepsOrder(xs: seq<string>, x: string)
    ensures x in xs ==> IsSubsequence(Toggle(xs, x), xs)
    ensures x !in xs ==> Toggle(xs, x)[..|xs|] == xs && Toggle(xs, x)[|xs|] == x
  {
    if x in xs {
      RemoveAllIsSubsequence(xs, x);
    }
  }

  /** Ticking an unticked entry and unticking it again restores the list exactly. */
  lemma ToggleTwiceRestores(xs: seq<string>, x: string)
    requires x !in xs
    ensures Toggle(Toggle(xs, x), x) == xs
  {
    RemoveAllAppend(xs, [x], x);
    RemoveAllAbsent(xs, x);
    assert RemoveAll([x], x) == [];
  }

  /** `handleGoalToggle`: only `goals` changes. */
  function ToggleGoal(p: Persona, goal: string): (r: Persona)
    ensures r == p.(goals := r.goals)
    ensures goal in r.goals <==> goal !in p.goals
  {
    p.(goals := Toggle(p.goals, goal))
  }

  /** `handleMotivationToggle`: only `motivations` changes. */
  function ToggleMotivation(p: Persona, motivation: string): (r: Persona)
    ensures r == p.(motivations := r.motivations)
    ensures motivation in r.motivations <==> motivation !in p.motivations
  {
    p.(motivations := Toggle(p.motivations, motivation))
  }

  /** Toggling the same absent goal, or the same absent motivation, twice gives back the record. */
  lemma ToggleRecordTwice(p: Persona, item: string)
    ensures item !in p.goals ==> ToggleGoal(ToggleGoal(p, item), item) == p
    ensures item !in p.motivations ==> ToggleMotivation(ToggleMotivation(p, item), item) == p
  {
    if item !in p.goals {
      ToggleTwiceRestores(p.goals, item);
    }
    if item !in p.motivations {
      ToggleTwiceRestores(p.motivations, item);
    }
  }

  /** `handleDocumentsChange`: the documents are replaced and nothing else changes. */
  function ReplaceDocuments(p: Persona, files: seq<UploadedFile>): (r: Persona)
    ensures r.documents == files
    ensures r.(documents := p.documents) == p
  {
    p.(documents := files)
  }

  /** `initialFormData`: a copy of the persona being edited, or the default. */
  function InitialFormData(persona: Option<Persona>): (r: Persona)
    ensures persona.Some? ==> r == persona.value
    ensures persona.None? ==> r == DefaultPersona
  {
    match persona
    case Some(p) => p
    case None => DefaultPersona
  }

  /** The default record has nothing filled in. */
  lemma DefaultPersonaIsBlank(f: TextField)
    ensures f == Id || f == ProfileImage ==> FieldValue(DefaultPersona, f) == None
    ensures f != Id && f != ProfileImage ==> FieldValue(DefaultPersona, f) == Some("")
    ensures DefaultPersona.goals == [] && DefaultPersona.motivations == [] && DefaultPersona.documents == []
  {
  }

  /** `personaKey`: "new" without a persona, else its name, or "edit" when the name is empty. */
  function PersonaKey(persona: Option<Persona>): (r: string)
    ensures persona.None? ==> r == "new"
    ensures persona.Some? && persona.value.name != "" ==> r == persona.value.name
    ensures persona.Some? && persona.value.name == "" ==> r == "edit"
  {
    match persona
    case None => "new"
    case Some(p) => if p.name != "" then p.name else "edit"
  }

  /** The dialog heading. */
  function DialogTitle(persona: Option<Persona>): (r: string)
    ensures r == "Edit Persona" <==> persona.Some?
    ensures r == "Create New Audience" <==> persona.None?
  {
    if persona.Some? then "Edit Persona" else "Create New Audience"
  }

  /** A call the dialog makes to its parent. */
  datatype DialogCall = OnSave(persona: Persona) | OnClose

  /** The dialog's form state for one persona (or for a new one). */
  class PersonaDialog {
    const persona: Option<Persona>
    var formData: Persona

    constructor (persona: Option<Persona>)
      ensures this.persona == persona
      ensures formData == InitialFormData(persona)
    {
      this.persona := persona;
      formData := InitialFormData(persona);
    }

    method HandleInputChange(field: TextField, value: string)
      modifies this
      ensures formData == SetField(old(formData), field, value)
    {
      formData := SetField(formData, field, value);
    }

    method HandleGoalToggle(goal: string)
      modifies this
      ensures formData == ToggleGoal(old(formData), goal)
    {
      formData := ToggleGoal(formData, goal);
    }

    method HandleMotivationToggle(motivation: string)
      modifies this
      ensures formData == ToggleMotivation(old(formData), motivation)
    {
      formData := ToggleMotivation(formData, motivation);
    }

    method HandleDocumentsChange(files: seq<UploadedFile>)
      modifies this
      ensures formData == ReplaceDocuments(old(formData), files)
    {
      formData := ReplaceDocuments(formData, files);
    }

    /** `handleSave`: hand the current form data to `onSave`, then call `onClose`. */
    method HandleSave() returns (calls: seq<DialogCall>)
      ensures calls == [OnSave(formData), OnClose]
    {
      calls := [OnSave(formData)];
      calls := calls + [OnClose];
    }
  }
}
