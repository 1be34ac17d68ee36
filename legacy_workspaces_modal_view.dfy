/** np/components/WorkspacesModalView.tsx: the older workspace modal. Its
    search reads the description without a guard; clicking an item selects
    it and reports it through `onSelect`, recorded here as the list of
    workspaces passed. */
module LegacyWorkspacesModalView {
  import opened Wrappers
  import opened Workspaces

  class ModalView {
    const workspaces: seq<Workspace>
    var filter: string
    var selectedId: Option<string>
    var selections: seq<Workspace>
    var closeRequests: nat

    constructor (workspaces: seq<Workspace>)
      ensures this.workspaces == workspaces
      ensures filter == "" && selectedId == None && selections == [] && closeRequests == 0
    {
      this.workspaces := workspaces;
      filter := "";
      selectedId := None;
      selections := [];
      closeRequests := 0;
    }

    /** The listed workspaces, by the unguarded search: `None` exactly when
      some workspace has a name that does not match and no description, so
      that the search throws on it; otherwise the workspaces whose name or
      description matches, in order; the input itself for the empty filter. */
    function Listed(): (r: Option<seq<Workspace>>)
      reads this`filter
      ensures r == FilterStrict(workspaces, filter)
      ensures r.None? <==> exists i :: 0 <= i < |workspaces| &&
                                      !Matches(workspaces[i].name, filter) && workspaces[i].description.None?
      ensures r.Some? ==> r.value == FilterLenient(workspaces, filter)
      ensures filter == "" ==> r == Some(workspaces)
    {
      StrictEmptyFilter(workspaces);
      var r := FilterStrict(workspaces, filter);
      if r.Some? then (StrictAgreesWithLenient(workspaces, filter); r) else r
    }

    /** Typing into the search box. */
    method SetFilter(value: string)
      modifies this
      ensures filter == value
      ensures selectedId == old(selectedId) && selections == old(selections)
      ensures closeRequests == old(closeRequests)
    {
      filter := value;
    }

    /** Clicking the `i`th listed workspace: `selectedId` becomes its id and
      `onSelect` receives that same workspace. */
    method Select(i: nat)
      requires Listed().Some? && i < |Listed().value|
      modifies this
      ensures filter == old(filter)
      ensures selectedId == Some(Listed().value[i].id)
      ensures selections == old(selections) + [Listed().value[i]]
      ensures Listed().value[i] in workspaces
      ensures closeRequests == old(closeRequests)
    {
      StrictAgreesWithLenient(workspaces, filter);
      var w := Listed().value[i];
      selectedId := Some(w.id);
      selections := selections + [w];
    }

    /** The Cancel button: `onClose`. */
    method Cancel()
      modifies this
      ensures closeRequests == old(closeRequests) + 1
      ensures filter == old(filter) && selectedId == old(selectedId) && selections == old(selections)
    {
      closeRequests := closeRequests + 1;
    }
  }
}
