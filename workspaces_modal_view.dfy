/** np/components/workspace/WorkspacesModalView.tsx: the workspace modal with
    a loading state, a search that tolerates a missing description, a clear
    button and an empty-result message. `onSelect` and `onClose` are recorded
    as the workspaces passed to the first and the number of calls of the
    second. */
module WorkspacesModalView {
  import opened Wrappers
  import opened Workspaces

  /** What the modal's body shows. */
  datatype View =
    | Loading                          // "Loading Workspaces"
    | Items(listed: seq<Workspace>)    // one button per listed workspace
    | NotFound(filter: string)         // `No workspaces found for "<filter>"` and a clear button
    | NoneAvailable                    // "No workspaces available"

  /** The choice of body: the loading notice while loading; otherwise the
      listed workspaces, or, when none are listed, the not-found message for a
      non-empty filter and the none-available message for an empty one. */
  function ViewOf(loading: bool, workspaces: seq<Workspace>, filter: string): (v: View)
    ensures v.Loading? <==> loading
    ensures v.Items? ==> v.listed == FilterLenient(workspaces, filter) && v.listed != []
    ensures !loading && FilterLenient(workspaces, filter) != [] ==> v.Items?
    ensures v.NotFound? <==> !loading && FilterLenient(workspaces, filter) == [] && filter != ""
    ensures v.NotFound? ==> v.filter == filter
    ensures v.NoneAvailable? <==> !loading && FilterLenient(workspaces, filter) == [] && filter == ""
  {
    if loading then Loading
    else
      var listed := FilterLenient(workspaces, filter);
      if |listed| == 0 then (if filter != "" then NotFound(filter) else NoneAvailable)
      else Items(listed)
  }

  /** With the search cleared the modal lists every workspace, or says that
      there are none; it never shows the not-found message. */
  lemma ClearedView(workspaces: seq<Workspace>)
    ensures workspaces != [] ==> ViewOf(false, workspaces, "") == Items(workspaces)
    ensures workspaces == [] ==> ViewOf(false, workspaces, "") == NoneAvailable
  {
    LenientEmptyFilter(workspaces);
  }

  class ModalView {
    const workspaces: seq<Workspace>
    const loading: bool
    var filter: string
    var selectedId: Option<string>
    var selections: seq<Workspace>
    var closeRequests: nat

    constructor (workspaces: seq<Workspace>, loading: bool)
      ensures this.workspaces == workspaces && this.loading == loading
      ensures filter == "" && selectedId == None && selections == [] && closeRequests == 0
    {
      this.workspaces := workspaces;
      this.loading := loading;
      filter := "";
      selectedId := None;
      selections := [];
      closeRequests := 0;
    }

    /** The current body. */
    function Shown(): (v: View)
      reads this`filter
    {
      ViewOf(loading, workspaces, filter)
    }

    /** Typing into the search box. */
    method SetFilter(value: string)
      modifies this
      ensures filter == value
      ensures selectedId == old(selectedId) && selections == old(selections)
      ensures closeRequests == old(closeRequests)
    {
      filter := value;
    }

    /** `handleClearSearch`, from the clear button or the not-found message:
      the filter becomes empty, so every workspace is listed again. */
    method ClearSearch()
      modifies this
      ensures filter == ""
      ensures !loading && workspaces != [] ==> Shown() == Items(workspaces)
      ensures selectedId == old(selectedId) && selections == old(selections)
      ensures closeRequests == old(closeRequests)
    {
      filter := "";
      ClearedView(workspaces);
    }

    /** Clicking the `i`th listed workspace selects it and reports that same
      workspace. Only a listed workspace can be clicked. */
    method Select(i: nat)
      requires Shown().Items? && i < |Shown().listed|
      modifies this
      ensures filter == old(filter)
      ensures selectedId == Some(Shown().listed[i].id)
      ensures selections == old(selections) + [Shown().listed[i]]
      ensures Shown().listed[i] in workspaces
      ensures closeRequests == old(closeRequests)
    {
      var w := Shown().listed[i];
      selectedId := Some(w.id);
      selections := selections + [w];
    }

    /** The Cancel button: `onClose`. */
    method Cancel()
      modifies this
      ensures closeRequests == old(closeRequests) + 1
      ensures filter == old(filter) && selectedId == old(selectedId) && selections == old(selections)
    {
      closeRequests := closeRequests + 1;
    }
  }
}
