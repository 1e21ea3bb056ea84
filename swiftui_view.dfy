/** SwiftUIView.swift: the dashboard. Its state is the emergency checklist, edited in place
    by toggling, removing and the add-item sheet; the model also covers the current-conditions
    panel and the fetches the dashboard starts when the latitude changes. */
module Dashboard {
  import opened Common
  import WeatherApi

  /** Stands for the `UUID` each item draws when it is created. */
  type ItemId = nat

  datatype ChecklistItem = ChecklistItem(name: string, id: ItemId, isChecked: bool)

  /** `firstIndex(where: { $0.id == id })`. */
  function FirstIndex(items: seq<ChecklistItem>, id: ItemId): (index: Option<nat>)
    ensures index.Some? ==>
              index.value < |items| && items[index.value].id == id
              && forall j :: 0 <= j < index.value ==> items[j].id != id
    ensures index.None? ==> forall j :: 0 <= j < |items| ==> items[j].id != id
  {
    if items == [] then None
    else if items[0].id == id then Some(0)
    else match FirstIndex(items[1..], id)
      case None => None
      case Some(k) => Some(k + 1)
  }

  /** `item.isChecked.toggle()` on the row at `i`. */
  function Toggled(items: seq<ChecklistItem>, i: nat): (toggled: seq<ChecklistItem>)
    requires i < |items|
    ensures |toggled| == |items|
    ensures toggled[i].isChecked == !items[i].isChecked
    ensures toggled[i].name == items[i].name && toggled[i].id == items[i].id
    ensures forall j :: 0 <= j < |items| && j != i ==> toggled[j] == items[j]
  {
    items[i := items[i].(isChecked := !items[i].isChecked)]
  }

  /** Tapping a box twice restores the list. */
  lemma ToggleTwiceRestores(items: seq<ChecklistItem>, i: nat)
    requires i < |items|
    ensures Toggled(Toggled(items, i), i) == items
  {
  }

  /** The remove button: `remove(at:)` at the first index holding `id`, if there is one. */
  function RemoveFirst(items: seq<ChecklistItem>, id: ItemId): (rest: seq<ChecklistItem>)
    ensures FirstIndex(items, id).None? ==> rest == items
    ensures FirstIndex(items, id).Some? ==>
              var k := FirstIndex(items, id).value;
              |rest| == |items| - 1
              && (forall j :: 0 <= j < k ==> rest[j] == items[j])
              && (forall j :: k <= j < |rest| ==> rest[j] == items[j + 1])
              && multiset(rest) + multiset{items[k]} == multiset(items)
  {
    match FirstIndex(items, id)
    case None => items
    case Some(k) =>
      assert items == items[..k] + [items[k]] + items[k + 1..];
      items[..k] + items[k + 1..]
  }

  /** No two items share an id. */
  ghost predicate DistinctIds(items: seq<ChecklistItem>) {
    forall j, l :: 0 <= j < l < |items| ==> items[j].id != items[l].id
  }

  /** With distinct ids, removing by id deletes exactly the item holding it: the rest is every
      other item, and the ids stay distinct. */
  lemma RemoveFirstDeletesOnlyThatItem(items: seq<ChecklistItem>, id: ItemId)
    requires DistinctIds(items)
    ensures DistinctIds(RemoveFirst(items, id))
    ensures forall x :: x in RemoveFirst(items, id) <==> x in items && x.id != id
  {
    var rest := RemoveFirst(items, id);
    match FirstIndex(items, id)
    case None =>
    case Some(k) =>
      forall x
        ensures x in rest <==> x in items && x.id != id
      {
        if x in rest {
          var j :| 0 <= j < |rest| && rest[j] == x;
          if j < k {
            assert rest[j] == items[j];
          } else {
            assert rest[j] == items[j + 1];
          }
        }
        if x in items && x.id != id {
          var j :| 0 <= j < |items| && items[j] == x;
          if j < k {
            assert rest[j] == x;
          } else {
            assert j != k;
            assert rest[j - 1] == x;
          }
        }
      }
  }

  const InitialNames: seq<string> :=
    ["Food (3-day supply)", "Water (1 gallon/person/day)", "Flashlight"]

  /** The dashboard's own state. */
  class SwiftUIView {
    var checklist: seq<ChecklistItem>
    var showingAddItemSheet: bool
    /** The next id to hand out; stands for `UUID()`. */
    var nextId: ItemId

    /** Ids are distinct, and all below the next one to hand out. */
    ghost predicate Valid()
      reads this
    {
      DistinctIds(checklist) && forall k :: 0 <= k < |checklist| ==> checklist[k].id < nextId
    }

    /** The three named items, unchecked, in order; the sheet is closed. */
    constructor ()
      ensures Valid() && !showingAddItemSheet
      ensures |checklist| == |InitialNames|
      ensures forall k :: 0 <= k < |checklist| ==>
                checklist[k].name == InitialNames[k] && !checklist[k].isChecked
    {
      checklist := [ChecklistItem(InitialNames[0], 0, false),
                    ChecklistItem(InitialNames[1], 1, false),
                    ChecklistItem(InitialNames[2], 2, false)];
      showingAddItemSheet := false;
      nextId := 3;
    }

    /** The tap gesture on the box of row `i`. */
    method ToggleItem(i: nat)
      requires Valid() && i < |checklist|
      modifies this
      ensures Valid()
      ensures checklist == Toggled(old(checklist), i)
      ensures showingAddItemSheet == old(showingAddItemSheet) && nextId == old(nextId)
    {
      checklist := checklist[i := checklist[i].(isChecked := !checklist[i].isChecked)];
    }

    /** The remove button of the row whose item has `id`. */
    method RemoveItem(id: ItemId)
      requires Valid()
      modifies this
      ensures Valid()
      ensures checklist == RemoveFirst(old(checklist), id)
      ensures showingAddItemSheet == old(showingAddItemSheet) && nextId == old(nextId)
    {
      var index := FirstIndex(checklist, id);
      if index.Some? {
        checklist := checklist[..index.value] + checklist[index.value + 1..];
      }
      RemoveFirstDeletesOnlyThatItem(old(checklist), id);
    }

    /** The plus button. */
    method ShowAddItemSheet()
      requires Valid()
      modifies this
      ensures Valid() && showingAddItemSheet
      ensures checklist == old(checklist) && nextId == old(nextId)
    {
      showingAddItemSheet := true;
    }

    /** The sheet's "Add Item" button with the text field's contents. An empty name changes
        nothing and leaves the sheet open; otherwise exactly one unchecked item with a fresh
        id is appended and the sheet closes. */
    method AddItem(name: string)
      requires Valid()
      modifies this
      ensures Valid()
      ensures name == "" ==>
                checklist == old(checklist) && showingAddItemSheet == old(showingAddItemSheet)
      ensures name != "" ==>
                |checklist| == |old(checklist)| + 1
                && checklist[..|old(checklist)|] == old(checklist)
                && checklist[|old(checklist)|].name == name
                && !checklist[|old(checklist)|].isChecked
                && !showingAddItemSheet
      ensures name != "" ==>
                forall k :: 0 <= k < |old(checklist)| ==>
                  old(checklist)[k].id != checklist[|old(checklist)|].id
    {
      if name != "" {
        checklist := checklist + [ChecklistItem(name, nextId, false)];
        nextId := nextId + 1;
        showingAddItemSheet := false;
      }
    }

    /** The sheet's "Cancel" button. */
    method CancelAddItem()
      requires Valid()
      modifies this
      ensures Valid() && !showingAddItemSheet
      ensures checklist == old(checklist) && nextId == old(nextId)
    {
      showingAddItemSheet := false;
    }
  }

  // ---------------------------------------------------------------------------------------
  // The current-conditions panel

  datatype ConditionsPanel =
    Conditions(data: WeatherApi.WeatherData) | ErrorText(text: string) | LoadingText

  /** Conditions whenever there are any, even with an error message still set; otherwise
      the message with an "Error: " prefix; otherwise "Loading...". */
  function CurrentConditions(weatherData: Option<WeatherApi.WeatherData>,
                             errorMessage: Option<string>): (panel: ConditionsPanel)
    ensures panel.Conditions? <==> weatherData.Some?
    ensures panel.Conditions? ==> panel.data == weatherData.value
    ensures panel.ErrorText? <==> weatherData.None? && errorMessage.Some?
    ensures panel.ErrorText? ==> panel.text == "Error: " + errorMessage.value
  {
    match weatherData
    case Some(data) => Conditions(data)
    case None =>
      match errorMessage
      case Some(message) => ErrorText("Error: " + message)
      case None => LoadingText
  }

  /** A transport error reaches the panel with the prefix twice: the manager already stores
      "Error: " and the description. */
  lemma TransportErrorShownWithPrefixTwice(description: string)
    ensures CurrentConditions(None, WeatherApi.FailureMessage(Some(description), None))
            == ErrorText("Error: Error: " + description)
  {
  }

  /** `onChange(of: locationmanager.latitude)`: both fetches are started, for the same
      coordinate, exactly when latitude and longitude are both known. */
  function FetchOnLatitudeChange(latitude: Option<real>, longitude: Option<real>)
    : (fetch: Option<Coordinate>)
    ensures fetch.Some? <==> latitude.Some? && longitude.Some?
    ensures fetch.Some? ==> fetch.value == Coordinate(latitude.value, longitude.value)
  {
    if latitude.Some? && longitude.Some? then Some(Coordinate(latitude.value, longitude.value))
    else None
  }
}
