/** The CI viewer's selection of error lines: a set of error ids that
    clicks, deselection and clearing replace. */
module Selection {
  import opened SetUtils
  import opened MockData

  class SelectionState {
    var selectedIds: set<string>

    constructor()
      ensures selectedIds == {}
    {
      selectedIds := {};
    }

    /** `select`: a shift-click toggles the id; a plain click on the sole
        selected id clears the selection, any other plain click selects
        that id alone. */
    method Select(id: string, shiftKey: bool)
      modifies this
      ensures shiftKey ==> selectedIds == ToggleInSet(old(selectedIds), id)
      ensures !shiftKey && old(selectedIds) == {id} ==> selectedIds == {}
      ensures !shiftKey && old(selectedIds) != {id} ==> selectedIds == {id}
    {
      if shiftKey {
        selectedIds := ToggleInSet(selectedIds, id);
      } else if |selectedIds| == 1 && id in selectedIds {
        SingletonBySize(selectedIds, id);
        selectedIds := {};
      } else {
        selectedIds := {id};
      }
    }

    /** `deselect`: only that id leaves the selection. */
    method Deselect(id: string)
      modifies this
      ensures selectedIds == old(selectedIds) - {id}
    {
      var next, _ := RemoveFromSet(selectedIds, [id]);
      assert Elements([id]) == {id};
      selectedIds := next;
    }

    /** `deselectMany`: only the given ids leave the selection. */
    method DeselectMany(ids: seq<string>)
      modifies this
      ensures selectedIds == old(selectedIds) - Elements(ids)
    {
      var next, _ := RemoveFromSet(selectedIds, ids);
      selectedIds := next;
    }

    method SelectSingle(id: string)
      modifies this
      ensures selectedIds == {id}
    {
      selectedIds := {id};
    }

    method ClearSelection()
      modifies this
      ensures selectedIds == {}
    {
      selectedIds := {};
    }

    /** `selectedErrors`: the errors of the run whose ids are selected, each
        looked up in the run's error map; selected ids with no error add
        nothing. */
    function SelectedErrors(errorMap: map<string, ErrorDetail>): (r: map<string, ErrorDetail>)
      reads this
      ensures r.Keys == selectedIds * errorMap.Keys
      ensures forall id :: id in r ==> r[id] == errorMap[id]
    {
      map id | id in selectedIds && id in errorMap :: errorMap[id]
    }
  }
}
