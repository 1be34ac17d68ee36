/** The workspace record shown by the workspace pickers, and the search
    filter they apply to a list of them. Three components filter the same
    way, by a case-insensitive substring match on the name or on the
    description; they differ in how a missing description is treated. */
module Workspaces {
  import opened Wrappers
  import opened Text

  /** A workspace as the pickers use it. The declared type says the
      description is always a string; the newer modal guards against it being
      absent, so the model lets it be absent. */
  datatype Workspace = Workspace(id: string, name: string, description: Option<string>)

  /** `text.toLowerCase().includes(filter.toLowerCase())` */
  predicate Matches(text: string, filter: string) {
    Contains(ToLower(text), ToLower(filter))
  }

  /** The empty filter matches every text. */
  lemma EmptyFilterMatches(text: string)
    ensures Matches(text, "")
  {
    assert ToLower("") == "";
    assert Contains(ToLower(text), "") by {
      assert "" <= ToLower(text);
    }
  }

  /** `workspaces.filter(keep)`: the workspaces `keep` accepts, in their
      original order. */
  function FilterBy(ws: seq<Workspace>, keep: Workspace -> bool): (r: seq<Workspace>)
    ensures |r| <= |ws|
    ensures forall i :: 0 <= i < |r| ==> r[i] in ws && keep(r[i])
    ensures forall i :: 0 <= i < |ws| && keep(ws[i]) ==> ws[i] in r
  {
    if ws == [] then []
    else if keep(ws[0]) then [ws[0]] + FilterBy(ws[1..], keep)
    else FilterBy(ws[1..], keep)
  }

  /** `a` is `b` with some elements left out and the rest in order: the head
      of `b` is either matched by the head of `a` or skipped. */
  predicate Subsequence(a: seq<Workspace>, b: seq<Workspace>)
    decreases |b|
  {
    if b == [] then a == []
    else (a != [] && a[0] == b[0] && Subsequence(a[1..], b[1..])) || Subsequence(a, b[1..])
  }

  /** Filtering only drops elements: it never reorders or repeats them. */
  lemma {:induction false} FilterIsSubsequence(ws: seq<Workspace>, keep: Workspace -> bool)
    ensures Subsequence(FilterBy(ws, keep), ws)
  {
    if ws != [] {
      FilterIsSubsequence(ws[1..], keep);
      var rest := FilterBy(ws[1..], keep);
      if keep(ws[0]) {
        assert ([ws[0]] + rest)[1..] == rest;
      }
    }
  }

  /** A filter that accepts everything returns the list unchanged. */
  lemma {:induction false} FilterKeepingAll(ws: seq<Workspace>, keep: Workspace -> bool)
    requires forall i :: 0 <= i < |ws| ==> keep(ws[i])
    ensures FilterBy(ws, keep) == ws
  {
    if ws != [] {
      FilterKeepingAll(ws[1..], keep);
      assert [ws[0]] + ws[1..] == ws;
    }
  }

  // ---------------------------------------------------------------------------
  // The newer modal: an absent or empty description is skipped

  /** `name matches || (description && description matches)` */
  predicate KeepLenient(w: Workspace, filter: string) {
    Matches(w.name, filter) ||
    (w.description.Some? && w.description.value != "" && Matches(w.description.value, filter))
  }

  /** np/components/workspace/WorkspacesModalView.tsx's filter. */
  function FilterLenient(ws: seq<Workspace>, filter: string): (r: seq<Workspace>)
    ensures forall i :: 0 <= i < |r| ==> r[i] in ws && KeepLenient(r[i], filter)
    ensures forall i :: 0 <= i < |ws| && KeepLenient(ws[i], filter) ==> ws[i] in r
  {
    FilterBy(ws, w => KeepLenient(w, filter))
  }

  /** A workspace is listed exactly when it is in the input and its name, or
      its present description, contains the filter; a name match is never
      lost to a missing description. */
  lemma LenientMembership(ws: seq<Workspace>, filter: string, w: Workspace)
    ensures w in FilterLenient(ws, filter) <==> w in ws && KeepLenient(w, filter)
    ensures w in ws && Matches(w.name, filter) ==> w in FilterLenient(ws, filter)
  {
    var r := FilterLenient(ws, filter);
    if w in r {
      var i :| 0 <= i < |r| && r[i] == w;
    }
    if w in ws && KeepLenient(w, filter) {
      var i :| 0 <= i < |ws| && ws[i] == w;
    }
  }

  /** The empty filter lists every workspace, in order. */
  lemma LenientEmptyFilter(ws: seq<Workspace>)
    ensures FilterLenient(ws, "") == ws
  {
    forall i | 0 <= i < |ws|
      ensures KeepLenient(ws[i], "")
    {
      EmptyFilterMatches(ws[i].name);
    }
    FilterKeepingAll(ws, w => KeepLenient(w, ""));
  }

  /** The lenient filter only drops workspaces. */
  lemma LenientIsSubsequence(ws: seq<Workspace>, filter: string)
    ensures Subsequence(FilterLenient(ws, filter), ws)
  {
    FilterIsSubsequence(ws, w => KeepLenient(w, filter));
  }

  // ---------------------------------------------------------------------------
  // The selector and the older modal: the description is read unguarded

  /** `name matches || description matches`. JavaScript's `||` only reads the
      description when the name does not match; reading an absent one throws.
      `None` is that throw. */
  function KeepStrict(w: Workspace, filter: string): (r: Option<bool>)
    ensures r.None? <==> !Matches(w.name, filter) && w.description.None?
    ensures r.Some? && w.description.Some? ==>
      (r.value <==> Matches(w.name, filter) || Matches(w.description.value, filter))
  {
    if Matches(w.name, filter) then Some(true)
    else if w.description.None? then None
    else Some(Matches(w.description.value, filter))
  }

  /** The filter of np/components/WorkspaceSelector.tsx and
      np/components/WorkspacesModalView.tsx: `None` when some workspace makes
      the callback throw, which aborts the whole filter. */
  function FilterStrict(ws: seq<Workspace>, filter: string): (r: Option<seq<Workspace>>)
    ensures r.None? <==> exists i :: 0 <= i < |ws| && KeepStrict(ws[i], filter).None?
  {
    if ws == [] then Some([])
    else
      match KeepStrict(ws[0], filter)
      case None => None
      case Some(keep) =>
        match FilterStrict(ws[1..], filter)
        case None => (assert ws[1..][0] == ws[1]; None)
        case Some(rest) => Some(if keep then [ws[0]] + rest else rest)
  }

  /** When the strict filter does not throw it lists what the lenient one
      does; in particular, when every workspace has a description the two
      filters agree. */
  lemma {:induction false} StrictAgreesWithLenient(ws: seq<Workspace>, filter: string)
    requires FilterStrict(ws, filter).Some?
    ensures FilterStrict(ws, filter) == Some(FilterLenient(ws, filter))
  {
    if ws != [] {
      StrictAgreesWithLenient(ws[1..], filter);
      KeepStrictAgrees(ws[0], filter);
    }
  }

  /** On a workspace it does not throw on, the strict test keeps what the
      lenient one keeps: an empty description matches only the empty filter,
      which the name matches too. */
  lemma KeepStrictAgrees(w: Workspace, filter: string)
    requires KeepStrict(w, filter).Some?
    ensures KeepStrict(w, filter).value == KeepLenient(w, filter)
  {
    if Matches("", filter) {
      assert |ToLower(filter)| == 0;
      assert filter == "";
      EmptyFilterMatches(w.name);
    }
  }

  /** Every workspace of the two fixed lists has a description, so the strict
      filter never throws on them. */
  lemma StrictTotalWithDescriptions(ws: seq<Workspace>, filter: string)
    requires forall i :: 0 <= i < |ws| ==> ws[i].description.Some?
    ensures FilterStrict(ws, filter) == Some(FilterLenient(ws, filter))
  {
    StrictAgreesWithLenient(ws, filter);
  }

  /** With the empty filter the unguarded search never throws and lists every
      workspace, in order. */
  lemma StrictEmptyFilter(ws: seq<Workspace>)
    ensures FilterStrict(ws, "") == Some(ws)
  {
    forall i | 0 <= i < |ws|
      ensures KeepStrict(ws[i], "").Some?
    {
      EmptyFilterMatches(ws[i].name);
    }
    StrictAgreesWithLenient(ws, "");
    LenientEmptyFilter(ws);
  }

  /** What the unguarded search lists, when it does not throw, is an
      order-preserving selection of the input, and a workspace is listed
      exactly when its name or description contains the filter. */
  lemma StrictSelection(ws: seq<Workspace>, filter: string, w: Workspace)
    requires forall i :: 0 <= i < |ws| ==> ws[i].description.Some?
    ensures FilterStrict(ws, filter).Some?
    ensures Subsequence(FilterStrict(ws, filter).value, ws)
    ensures w in FilterStrict(ws, filter).value <==>
      w in ws && (Matches(w.name, filter) || Matches(w.description.value, filter))
  {
    StrictTotalWithDescriptions(ws, filter);
    LenientIsSubsequence(ws, filter);
    LenientMembership(ws, filter, w);
    if w in ws {
      var i :| 0 <= i < |ws| && ws[i] == w;
      KeepStrictAgrees(w, filter);
    }
  }
}
