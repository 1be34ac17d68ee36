/** np/components/WorkspaceSelector.tsx: a keyboard-driven workspace picker.
    The list is searched with the unguarded filter; the arrow keys move a
    focus index, Enter picks the focused workspace and Escape asks to close.
    The `onSelect` and `onClose` callbacks are recorded as the workspaces
    passed to the first and the number of calls of the second. */
module WorkspaceSelector {
  import opened Wrappers
  import opened Workspaces

  /** The demo list used in demo mode; every entry has a description. */
  const DemoWorkspaces: seq<Workspace> := [
    Workspace("eng-2024", "Engineering", Some("Technical team workspace for product development")),
    Workspace("mkt-2024", "Marketing", Some("Campaign planning and content management")),
    Workspace("sales-2024", "Sales", Some("Client accounts and sales pipeline")),
    Workspace("design-2024", "Design", Some("UI/UX and brand design projects")),
    Workspace("hr-2024", "Human Resources", Some("Employee management and recruitment")),
    Workspace("prod-2024", "Product", Some("Product strategy and roadmap planning")),
    Workspace("cs-2024", "Customer Success", Some("Customer support and success management"))
  ]

  /** `demoMode ? DEMO_WORKSPACES : data ?? []` */
  function SourceList(demoMode: bool, data: Option<seq<Workspace>>): (ws: seq<Workspace>)
    ensures demoMode ==> ws == DemoWorkspaces
    ensures !demoMode && data.Some? ==> ws == data.value
    ensures !demoMode && data.None? ==> ws == []
  {
    if demoMode then DemoWorkspaces else data.GetOr([])
  }

  /** Every demo workspace has a description. */
  lemma DemoDescribed()
    ensures forall i :: 0 <= i < |DemoWorkspaces| ==> DemoWorkspaces[i].description.Some?
  {
  }

  /** In demo mode the search never throws and agrees with the guarded one. */
  lemma DemoSearchTotal(filter: string)
    ensures FilterStrict(DemoWorkspaces, filter) == Some(FilterLenient(DemoWorkspaces, filter))
  {
    DemoDescribed();
    StrictTotalWithDescriptions(DemoWorkspaces, filter);
  }

  /** The keys `handleKeyDown` distinguishes. */
  datatype Key = ArrowDown | ArrowUp | Enter | Escape | Other(name: string)

  /** The focus index after an arrow key, for a list of `len` workspaces:
      down moves one on but not past the last item, up moves one back but not
      below the first. Other keys leave it. */
  function FocusAfter(key: Key, prev: int, len: nat): (next: int)
    ensures key == ArrowDown ==> next <= prev + 1 && next <= len - 1 && (next == prev + 1 || next == len - 1)
    ensures key == ArrowUp ==> next >= prev - 1 && next >= 0 && (next == prev - 1 || next == 0)
    ensures key != ArrowDown && key != ArrowUp ==> next == prev
  {
    match key
    case ArrowDown => if prev + 1 < len - 1 then prev + 1 else len - 1
    case ArrowUp => if prev - 1 > 0 then prev - 1 else 0
    case _ => prev
  }

  /** On a non-empty list the arrows never take a focus that starts on an
      item, or one before the first, off the list. */
  lemma FocusStaysOnList(key: Key, prev: int, len: nat)
    requires len > 0 && -1 <= prev < len
    requires key != ArrowDown && key != ArrowUp ==> 0 <= prev
    ensures 0 <= FocusAfter(key, prev, len) < len
  {
  }

  /** On an empty list ArrowDown from the reset position gives -1, an index
      that Enter then ignores. */
  lemma EmptyListArrowDown()
    ensures FocusAfter(ArrowDown, 0, 0) == -1
  {
  }

  class Selector {
    const demoMode: bool
    const data: Option<seq<Workspace>>
    var open: bool
    var filter: string
    var selectedId: Option<string>
    var focusedIndex: int
    var selections: seq<Workspace>
    var closeRequests: nat

    constructor (open: bool, demoMode: bool, data: Option<seq<Workspace>>)
      ensures this.open == open && this.demoMode == demoMode && this.data == data
      ensures filter == "" && selectedId == None && focusedIndex == 0
      ensures selections == [] && closeRequests == 0
    {
      this.open := open;
      this.demoMode := demoMode;
      this.data := data;
      filter := "";
      selectedId := None;
      focusedIndex := 0;
      selections := [];
      closeRequests := 0;
    }

    /** The listed workspaces; `None` when the search throws on a workspace
      without a description. */
    function Filtered(): (r: Option<seq<Workspace>>)
      reads this`filter
      ensures demoMode ==> r == Some(FilterLenient(DemoWorkspaces, filter))
    {
      DemoSearchTotal(filter);
      FilterStrict(SourceList(demoMode, data), filter)
    }

    /** Typing into the search box. A changed filter moves the focus back to
      the first item. */
    method SetFilter(value: string)
      modifies this
      ensures filter == value
      ensures value != old(filter) ==> focusedIndex == 0
      ensures value == old(filter) ==> focusedIndex == old(focusedIndex)
      ensures open == old(open) && selectedId == old(selectedId)
      ensures selections == old(selections) && closeRequests == old(closeRequests)
    {
      if value != filter {
        filter := value;
        focusedIndex := 0;
      }
    }

    /** `handleKeyDown`. Nothing happens while the picker is closed, or when
      the list could not be computed (the picker did not render). Arrow keys
      move the focus as `FocusAfter` says; Enter selects and reports the
      focused workspace only when the focus is on an item; Escape asks to
      close. */
    method HandleKeyDown(key: Key)
      modifies this
      ensures filter == old(filter) && open == old(open)
      ensures !open || Filtered().None? ==>
        focusedIndex == old(focusedIndex) && selectedId == old(selectedId) &&
        selections == old(selections) && closeRequests == old(closeRequests)
      ensures open && Filtered().Some? ==>
        focusedIndex == FocusAfter(key, old(focusedIndex), |Filtered().value|)
      ensures open && Filtered().Some? && key == Enter && 0 <= focusedIndex < |Filtered().value| ==>
        selectedId == Some(Filtered().value[focusedIndex].id) &&
        selections == old(selections) + [Filtered().value[focusedIndex]]
      ensures !(open && Filtered().Some? && key == Enter && 0 <= focusedIndex < |Filtered().value|) ==>
        selectedId == old(selectedId) && selections == old(selections)
      ensures open && Filtered().Some? && key == Escape ==> closeRequests == old(closeRequests) + 1
      ensures !(open && Filtered().Some? && key == Escape) ==> closeRequests == old(closeRequests)
    {
      if !open {
        return;
      }
      var listed := Filtered();
      if listed.None? {
        return;
      }
      var ws := listed.value;
      match key {
        case ArrowDown =>
          focusedIndex := if focusedIndex + 1 < |ws| - 1 then focusedIndex + 1 else |ws| - 1;
        case ArrowUp =>
          focusedIndex := if focusedIndex - 1 > 0 then focusedIndex - 1 else 0;
        case Enter =>
          if 0 <= focusedIndex < |ws| {
            selectedId := Some(ws[focusedIndex].id);
            selections := selections + [ws[focusedIndex]];
          }
        case Escape =>
          closeRequests := closeRequests + 1;
        case Other(_) =>
      }
    }

    /** Clicking a listed workspace selects it and reports that same
      workspace. Only listed workspaces of an open picker can be clicked. */
    method Click(i: nat)
      requires open && Filtered().Some? && i < |Filtered().value|
      modifies this
      ensures filter == old(filter) && focusedIndex == old(focusedIndex) && open == old(open)
      ensures selectedId == Some(Filtered().value[i].id)
      ensures selections == old(selections) + [Filtered().value[i]]
      ensures closeRequests == old(closeRequests)
    {
      var w := Filtered().value[i];
      selectedId := Some(w.id);
      selections := selections + [w];
    }

    /** The Cancel button: `onClose`. */
    method Cancel()
      modifies this
      ensures closeRequests == old(closeRequests) + 1
      ensures filter == old(filter) && focusedIndex == old(focusedIndex) && open == old(open)
      ensures selectedId == old(selectedId) && selections == old(selections)
    {
      closeRequests := closeRequests + 1;
    }
  }
}
