/** The target-audience dropdown (components/TargetAudienceDropdown.tsx): a list of
    audience items that can be ticked, the trigger label counting the ticked ones, and
    the requests it sends to open the persona dialog. */
module Audience {
  import opened Options
  import opened Personas

  datatype PersonaItem = PersonaItem(id: string, name: string, category: string, selected: bool)

  /** The five built-in audiences, none ticked. */
  const InitialPersonas: seq<PersonaItem> := [
    PersonaItem("1", "Solo Living", "Solo Living", false),
    PersonaItem("2", "Entrepreneur", "Entrepreneur", false),
    PersonaItem("3", "Designer", "Designer", false),
    PersonaItem("4", "Developer", "Developer", false),
    PersonaItem("5", "Marketer", "Marketer", false)
  ]

  /** The `map` inside `handlePersonaToggle`: flip `selected` on the items carrying `personaId`. */
  function TogglePersona(items: seq<PersonaItem>, personaId: string): (r: seq<PersonaItem>)
    ensures |r| == |items|
    ensures forall i :: 0 <= i < |items| ==>
      r[i] == items[i].(selected := if items[i].id == personaId then !items[i].selected else items[i].selected)
  {
    if items == [] then []
    else
      var head := items[0];
      var flipped := if head.id == personaId then head.(selected := !head.selected) else head;
      [flipped] + TogglePersona(items[1..], personaId)
  }

  /** Toggling the same id twice gives back the list. */
  lemma ToggleTwiceRestores(items: seq<PersonaItem>, personaId: string)
    ensures TogglePersona(TogglePersona(items, personaId), personaId) == items
  {
    var once := TogglePersona(items, personaId);
    var twice := TogglePersona(once, personaId);
    assert forall i :: 0 <= i < |items| ==> twice[i] == items[i];
  }

  /** Toggling an id no item carries leaves the list unchanged. */
  lemma ToggleUnknownId(items: seq<PersonaItem>, personaId: string)
    requires forall i :: 0 <= i < |items| ==> items[i].id != personaId
    ensures TogglePersona(items, personaId) == items
  {
    assert forall i :: 0 <= i < |items| ==> TogglePersona(items, personaId)[i] == items[i];
  }

  /** `personas.filter((p) => p.selected).length`. */
  function SelectedCount(items: seq<PersonaItem>): (r: nat)
    ensures r <= |items|
    ensures r == 0 <==> forall i :: 0 <= i < |items| ==> !items[i].selected
    ensures r == |items| <==> forall i :: 0 <= i < |items| ==> items[i].selected
  {
    if items == [] then 0
    else (if items[0].selected then 1 else 0) + SelectedCount(items[1..])
  }

  /** Toggling an id carried by exactly one item moves the count by one, up or down. */
  lemma {:induction false} ToggleUniqueIdCount(items: seq<PersonaItem>, k: nat)
    requires k < |items|
    requires forall i :: 0 <= i < |items| && i != k ==> items[i].id != items[k].id
    ensures SelectedCount(TogglePersona(items, items[k].id)) ==
      if items[k].selected then SelectedCount(items) - 1 else SelectedCount(items) + 1
  {
    var t := TogglePersona(items, items[k].id);
    if k == 0 {
      assert t[1..] == items[1..] by {
        assert forall i :: 0 <= i < |items| - 1 ==> t[1..][i] == items[1..][i];
      }
    } else {
      assert t[1..] == TogglePersona(items[1..], items[k].id);
      ToggleUniqueIdCount(items[1..], k - 1);
      assert t[0] == items[0];
    }
  }

  function DigitChar(d: nat): char
    requires d < 10
  {
    ('0' as int + d) as char
  }

  /** `${n}` for a natural number: its decimal digits without leading zeros. */
  function NatToString(n: nat): (r: string)
    ensures |r| >= 1
    ensures forall i :: 0 <= i < |r| ==> '0' <= r[i] <= '9'
    ensures r[0] == '0' ==> n == 0
    decreases n
  {
    if n < 10 then [DigitChar(n)] else NatToString(n / 10) + [DigitChar(n % 10)]
  }

  /** Reads a string of decimal digits back as a number. */
  function ParseDecimal(s: string): nat
    requires forall i :: 0 <= i < |s| ==> '0' <= s[i] <= '9'
  {
    if s == [] then 0
    else ParseDecimal(s[..|s| - 1]) * 10 + (s[|s| - 1] as int - '0' as int)
  }

  /** The count shown on the label reads back as the count. */
  lemma {:induction false} NatToStringRoundTrip(n: nat)
    ensures ParseDecimal(NatToString(n)) == n
    decreases n
  {
    if n >= 10 {
      NatToStringRoundTrip(n / 10);
      var s := NatToString(n);
      assert s[..|s| - 1] == NatToString(n / 10);
    }
  }

  /** The dropdown's trigger text. */
  function TriggerLabel(count: nat): string {
    if count > 0 then NatToString(count) + " audience" + (if count > 1 then "s" else "") + " selected"
    else "Select Target Audience"
  }

  /** Nothing ticked: the prompt; one: singular; more: the plural with the count. */
  lemma TriggerLabelCases(count: nat)
    ensures count == 0 ==> TriggerLabel(count) == "Select Target Audience"
    ensures count == 1 ==> TriggerLabel(count) == "1 audience selected"
    ensures count > 1 ==> TriggerLabel(count) == NatToString(count) + " audiences selected"
  {
    if count == 1 {
      SingularLabel();
    } else if count > 1 {
      var digits := NatToString(count);
      assert digits + " audience" + "s" + " selected" == digits + " audiences selected";
    }
  }

  lemma SingularLabel()
    ensures TriggerLabel(1) == "1 audience selected"
  {
    assert NatToString(1) == "1";
  }

  /** `handleEditPersona`: a blank persona carrying the item's id, name and category. */
  function ToPersona(item: PersonaItem): (r: Persona)
    ensures r == DefaultPersona.(id := Some(item.id), name := item.name, category := item.category)
  {
    Persona(Some(item.id), item.name, item.category, "", "", "", "", "", None,
      "", "", "", "", "", "", "", "", [], [], [])
  }

  /** What `onPersonaEdit` receives from the edit button of an item. */
  function EditRequest(item: PersonaItem): (r: Option<Persona>)
    ensures r.Some? && r.value == ToPersona(item)
  {
    Some(ToPersona(item))
  }

  /** What `onPersonaEdit` receives from "Create New Audience": no persona. */
  function CreateNewRequest(): (r: Option<Persona>)
    ensures r.None?
  {
    None
  }

  /** For a new audience the dialog's initial form data is the blank record, under
      "Create New Audience"; for an item it carries that item's fields, under "Edit Persona". */
  lemma RequestsOpenTheRightDialog(item: PersonaItem)
    ensures DialogTitle(CreateNewRequest()) == "Create New Audience"
    ensures PersonaKey(CreateNewRequest()) == "new"
    ensures InitialFormData(CreateNewRequest()) == DefaultPersona
    ensures DialogTitle(EditRequest(item)) == "Edit Persona"
    ensures PersonaKey(EditRequest(item)) == if item.name == "" then "edit" else item.name
    ensures InitialFormData(EditRequest(item)).id == Some(item.id)
  {
  }

  /** The dropdown's list state. */
  class TargetAudienceDropdown {
    var personas: seq<PersonaItem>

    constructor ()
      ensures personas == InitialPersonas
    {
      personas := InitialPersonas;
    }

    method HandlePersonaToggle(personaId: string)
      modifies this
      ensures personas == TogglePersona(old(personas), personaId)
    {
      personas := TogglePersona(personas, personaId);
    }
  }

  /** The initial list has ids "1".."5", none ticked, so the label starts as the prompt. */
  lemma InitialList()
    ensures |InitialPersonas| == 5
    ensures forall i :: 0 <= i < 5 ==> InitialPersonas[i].id == ["12345"[i]]
    ensures SelectedCount(InitialPersonas) == 0
    ensures TriggerLabel(SelectedCount(InitialPersonas)) == "Select Target Audience"
  {
  }
}
