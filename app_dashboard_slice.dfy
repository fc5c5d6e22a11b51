/**
 * The dashboard list slice of the app directory
 * (src/app/dashboard/_redux/dashboard-slice.tsx, state and initial value in
 * dashboard-state.tsx): the user's whiteboards with loading, error, filter,
 * sort and search fields. `Reduce` is the reducer as a function of the old
 * state and the action; `DashboardSlice` is the draft object the reducers
 * mutate, and each of its methods is proved to produce `Reduce`'s result.
 */
module AppDashboardSlice {
  import opened Wrappers

  datatype Whiteboard = Whiteboard(
    id: string,
    title: string,
    thumbnail: Option<string>,
    createdAt: string,
    updatedAt: string,
    shared: bool)

  /** A `Partial<Whiteboard>`: `None` is a key left out. For the optional
      `thumbnail`, `Some(None)` is the key present with value `undefined`. */
  datatype WhiteboardPatch = WhiteboardPatch(
    id: Option<string>,
    title: Option<string>,
    thumbnail: Option<Option<string>>,
    createdAt: Option<string>,
    updatedAt: Option<string>,
    shared: Option<bool>)

  const EmptyPatch := WhiteboardPatch(None, None, None, None, None, None)

  datatype Filter = All | Recent | Shared
  datatype SortBy = Date | Name

  datatype DashboardState = DashboardState(
    whiteboards: seq<Whiteboard>,
    isLoading: bool,
    error: Option<string>,
    filter: Filter,
    sortBy: SortBy,
    searchQuery: string)

  const InitialDashboardState := DashboardState([], false, None, All, Date, "")

  datatype DashboardAction =
    | SetWhiteboards(list: seq<Whiteboard>)
    | AddWhiteboard(whiteboard: Whiteboard)
    | UpdateWhiteboard(id: string, updates: WhiteboardPatch)
    | DeleteWhiteboard(deleteId: string)
    | SetLoading(loading: bool)
    | SetError(message: Option<string>)
    | SetFilter(newFilter: Filter)
    | SetSortBy(newSortBy: SortBy)
    | SetSearchQuery(query: string)

  // ---------------------------------------------------------------------
  // The list operations
  // ---------------------------------------------------------------------

  /** `{ ...w, ...p }`: every key present in the patch wins. */
  function Merge(w: Whiteboard, p: WhiteboardPatch): Whiteboard {
    Whiteboard(
      p.id.GetOr(w.id),
      p.title.GetOr(w.title),
      p.thumbnail.GetOr(w.thumbnail),
      p.createdAt.GetOr(w.createdAt),
      p.updatedAt.GetOr(w.updatedAt),
      p.shared.GetOr(w.shared))
  }

  /** The patch holding every key of `w`. */
  function FullPatch(w: Whiteboard): WhiteboardPatch {
    WhiteboardPatch(Some(w.id), Some(w.title), Some(w.thumbnail), Some(w.createdAt), Some(w.updatedAt), Some(w.shared))
  }

  /** `{ ...p, ...q }` on patches: the keys of `q` win. */
  function CombinePatches(p: WhiteboardPatch, q: WhiteboardPatch): WhiteboardPatch {
    WhiteboardPatch(
      if q.id.Some? then q.id else p.id,
      if q.title.Some? then q.title else p.title,
      if q.thumbnail.Some? then q.thumbnail else p.thumbnail,
      if q.createdAt.Some? then q.createdAt else p.createdAt,
      if q.updatedAt.Some? then q.updatedAt else p.updatedAt,
      if q.shared.Some? then q.shared else p.shared)
  }

  lemma MergeLaws(w: Whiteboard, v: Whiteboard, p: WhiteboardPatch, q: WhiteboardPatch)
    ensures Merge(w, EmptyPatch) == w
    ensures Merge(w, FullPatch(v)) == v
    ensures Merge(Merge(w, p), p) == Merge(w, p)
    ensures Merge(Merge(w, p), q) == Merge(w, CombinePatches(p, q))
  {
  }

  /** `list.findIndex(wb => wb.id === id)`: the first index holding `id`,
      or -1 when there is none. */
  method FindIndex(list: seq<Whiteboard>, id: string) returns (index: int)
    ensures -1 <= index < |list|
    ensures index >= 0 ==> list[index].id == id
    ensures forall j :: 0 <= j < |list| && (index == -1 || j < index) ==> list[j].id != id
  {
    index := 0;
    while index < |list|
      invariant 0 <= index <= |list|
      invariant forall j :: 0 <= j < index ==> list[j].id != id
    {
      if list[index].id == id {
        return;
      }
      index := index + 1;
    }
    index := -1;
  }

  /** Specification of updateWhiteboard on the list: the first entry with the
      id is merged with the patch. */
  function UpdateFirst(list: seq<Whiteboard>, id: string, p: WhiteboardPatch): (r: seq<Whiteboard>)
    ensures |r| == |list|
  {
    if list == [] then []
    else if list[0].id == id then [Merge(list[0], p)] + list[1..]
    else [list[0]] + UpdateFirst(list[1..], id, p)
  }

  /** When `k` is the first index holding `id`, the update is a single
      assignment at `k`. */
  lemma {:induction false} UpdateFirstAt(list: seq<Whiteboard>, id: string, p: WhiteboardPatch, k: nat)
    requires k < |list| && list[k].id == id
    requires forall j :: 0 <= j < k ==> list[j].id != id
    ensures UpdateFirst(list, id, p) == list[k := Merge(list[k], p)]
    decreases k
  {
    if k > 0 {
      UpdateFirstAt(list[1..], id, p, k - 1);
      assert list[1..][k - 1 := Merge(list[k], p)] == list[k := Merge(list[k], p)][1..];
    }
  }

  lemma {:induction false} UpdateFirstAbsent(list: seq<Whiteboard>, id: string, p: WhiteboardPatch)
    requires forall j :: 0 <= j < |list| ==> list[j].id != id
    ensures UpdateFirst(list, id, p) == list
    decreases |list|
  {
    if list != [] {
      UpdateFirstAbsent(list[1..], id, p);
    }
  }

  /** `list.filter(wb => wb.id !== id)` */
  function RemoveId(list: seq<Whiteboard>, id: string): (r: seq<Whiteboard>)
    ensures |r| <= |list|
    ensures forall j :: 0 <= j < |r| ==> r[j].id != id
    ensures forall w :: w in r <==> w in list && w.id != id
  {
    if list == [] then []
    else if list[0].id == id then RemoveId(list[1..], id)
    else [list[0]] + RemoveId(list[1..], id)
  }

  /** The filter works piecewise, so the kept entries keep their order. */
  lemma {:induction false} RemoveIdAppend(a: seq<Whiteboard>, b: seq<Whiteboard>, id: string)
    ensures RemoveId(a + b, id) == RemoveId(a, id) + RemoveId(b, id)
    decreases |a|
  {
    if a == [] {
      assert a + b == b;
    } else {
      assert (a + b)[1..] == a[1..] + b;
      RemoveIdAppend(a[1..], b, id);
    }
  }

  /** Deleting an id that is not in the list changes nothing. */
  lemma {:induction false} RemoveIdAbsent(list: seq<Whiteboard>, id: string)
    requires forall j :: 0 <= j < |list| ==> list[j].id != id
    ensures RemoveId(list, id) == list
    decreases |list|
  {
    if list != [] {
      RemoveIdAbsent(list[1..], id);
    }
  }

  /** Every entry whose id differs keeps its multiplicity. */
  lemma {:induction false} RemoveIdCounts(list: seq<Whiteboard>, id: string, w: Whiteboard)
    ensures multiset(RemoveId(list, id))[w] == if w.id == id then 0 else multiset(list)[w]
    decreases |list|
  {
    if list != [] {
      var rest := RemoveId(list[1..], id);
      RemoveIdCounts(list[1..], id, w);
      assert list == [list[0]] + list[1..];
      var own := if list[0] == w then 1 else 0;
      assert multiset(list)[w] == own + multiset(list[1..])[w];
      if list[0].id == id {
        assert RemoveId(list, id) == rest;
      } else {
        assert RemoveId(list, id) == [list[0]] + rest;
        assert multiset(RemoveId(list, id))[w] == own + multiset(rest)[w];
      }
    }
  }

  lemma RemoveIdIdempotent(list: seq<Whiteboard>, id: string)
    ensures RemoveId(RemoveId(list, id), id) == RemoveId(list, id)
  {
    RemoveIdAbsent(RemoveId(list, id), id);
  }

  lemma {:induction false} RemoveIdCommute(list: seq<Whiteboard>, a: string, b: string)
    ensures RemoveId(RemoveId(list, a), b) == RemoveId(RemoveId(list, b), a)
    decreases |list|
  {
    if list != [] {
      RemoveIdCommute(list[1..], a, b);
    }
  }

  // ---------------------------------------------------------------------
  // The reducer
  // ---------------------------------------------------------------------

  function Reduce(s: DashboardState, a: DashboardAction): DashboardState {
    match a
    case SetWhiteboards(list) => s.(whiteboards := list, isLoading := false, error := None)
    case AddWhiteboard(w) => s.(whiteboards := s.whiteboards + [w])
    case UpdateWhiteboard(id, updates) => s.(whiteboards := UpdateFirst(s.whiteboards, id, updates))
    case DeleteWhiteboard(id) => s.(whiteboards := RemoveId(s.whiteboards, id))
    case SetLoading(b) => s.(isLoading := b)
    case SetError(e) => s.(error := e, isLoading := false)
    case SetFilter(f) => s.(filter := f)
    case SetSortBy(o) => s.(sortBy := o)
    case SetSearchQuery(q) => s.(searchQuery := q)
  }

  /** setWhiteboards replaces the list and also settles the request:
      loading off, no error. */
  lemma SetWhiteboardsSettles(s: DashboardState, list: seq<Whiteboard>)
    ensures Reduce(s, SetWhiteboards(list)).whiteboards == list
    ensures !Reduce(s, SetWhiteboards(list)).isLoading && Reduce(s, SetWhiteboards(list)).error == None
    ensures Reduce(s, SetWhiteboards(list)).(whiteboards := s.whiteboards, isLoading := s.isLoading, error := s.error) == s
  {
  }

  /** addWhiteboard appends at the end, keeps every earlier entry, and does
      not reject an id that is already present. */
  lemma AddWhiteboardAppends(s: DashboardState, w: Whiteboard)
    ensures var r := Reduce(s, AddWhiteboard(w));
      && |r.whiteboards| == |s.whiteboards| + 1
      && r.whiteboards[|s.whiteboards|] == w
      && r.whiteboards[..|s.whiteboards|] == s.whiteboards
      && r.(whiteboards := s.whiteboards) == s
  {
  }

  /** After adding a second entry with an id already in the list, an update
      of that id changes the older entry and a delete removes both. */
  lemma DuplicateAddShadowed(s: DashboardState, w: Whiteboard, p: WhiteboardPatch, k: nat)
    requires k < |s.whiteboards| && s.whiteboards[k].id == w.id
    requires forall j :: 0 <= j < k ==> s.whiteboards[j].id != w.id
    ensures var added := Reduce(s, AddWhiteboard(w)).whiteboards;
      && UpdateFirst(added, w.id, p) == added[k := Merge(added[k], p)]
      && UpdateFirst(added, w.id, p)[|s.whiteboards|] == w
      && RemoveId(added, w.id) == RemoveId(s.whiteboards, w.id)
  {
    var added := s.whiteboards + [w];
    UpdateFirstAt(added, w.id, p, k);
    RemoveIdAppend(s.whiteboards, [w], w.id);
  }

  /** updateWhiteboard merges the patch into the first entry with the id and
      leaves the length, every other entry and every other field alone; an
      unknown id leaves the whole state unchanged. */
  lemma UpdateWhiteboardMerges(s: DashboardState, id: string, p: WhiteboardPatch)
    ensures var r := Reduce(s, UpdateWhiteboard(id, p));
      && |r.whiteboards| == |s.whiteboards|
      && r.(whiteboards := s.whiteboards) == s
      && ((forall j :: 0 <= j < |s.whiteboards| ==> s.whiteboards[j].id != id) ==> r == s)
      && (forall k :: 0 <= k < |s.whiteboards| && s.whiteboards[k].id == id
                      && (forall j :: 0 <= j < k ==> s.whiteboards[j].id != id)
                      ==> r.whiteboards == s.whiteboards[k := Merge(s.whiteboards[k], p)])
  {
    if forall j :: 0 <= j < |s.whiteboards| ==> s.whiteboards[j].id != id {
      UpdateFirstAbsent(s.whiteboards, id, p);
    }
    forall k | 0 <= k < |s.whiteboards| && s.whiteboards[k].id == id
                && (forall j :: 0 <= j < k ==> s.whiteboards[j].id != id)
      ensures UpdateFirst(s.whiteboards, id, p) == s.whiteboards[k := Merge(s.whiteboards[k], p)]
    {
      UpdateFirstAt(s.whiteboards, id, p, k);
    }
  }

  /** Repeating an update is harmless as long as the patch keeps the id. */
  lemma UpdateWhiteboardIdempotent(s: DashboardState, id: string, p: WhiteboardPatch)
    requires p.id == None || p.id == Some(id)
    ensures Reduce(Reduce(s, UpdateWhiteboard(id, p)), UpdateWhiteboard(id, p)) == Reduce(s, UpdateWhiteboard(id, p))
  {
    UpdateFirstIdempotent(s.whiteboards, id, p);
  }

  lemma {:induction false} UpdateFirstIdempotent(list: seq<Whiteboard>, id: string, p: WhiteboardPatch)
    requires p.id == None || p.id == Some(id)
    ensures UpdateFirst(UpdateFirst(list, id, p), id, p) == UpdateFirst(list, id, p)
    decreases |list|
  {
    if list != [] {
      var once := UpdateFirst(list, id, p);
      if list[0].id == id {
        MergeLaws(list[0], list[0], p, p);
        assert once[0].id == id && once[1..] == list[1..];
      } else {
        UpdateFirstIdempotent(list[1..], id, p);
        assert once[0] == list[0] && once[1..] == UpdateFirst(list[1..], id, p);
      }
    }
  }

  /** Any index holding `id` has a first one at or before it. */
  lemma FirstWithId(list: seq<Whiteboard>, id: string, j: nat)
    requires j < |list| && list[j].id == id
    ensures exists k :: 0 <= k <= j && list[k].id == id && forall i :: 0 <= i < k ==> list[i].id != id
  {
    var k := j;
    while k > 0 && exists i :: 0 <= i < k && list[i].id == id
      invariant 0 <= k <= j && list[k].id == id
      decreases k
    {
      var i :| 0 <= i < k && list[i].id == id;
      k := i;
    }
  }

  /** deleteWhiteboard leaves no entry with the id, keeps every other entry
      in order with its multiplicity, and is idempotent. */
  lemma DeleteWhiteboardFilters(s: DashboardState, id: string, w: Whiteboard)
    ensures var r := Reduce(s, DeleteWhiteboard(id));
      && (forall j :: 0 <= j < |r.whiteboards| ==> r.whiteboards[j].id != id)
      && multiset(r.whiteboards)[w] == (if w.id == id then 0 else multiset(s.whiteboards)[w])
      && r.(whiteboards := s.whiteboards) == s
      && Reduce(r, DeleteWhiteboard(id)) == r
  {
    RemoveIdCounts(s.whiteboards, id, w);
    RemoveIdIdempotent(s.whiteboards, id);
  }

  /** setError records the message and stops loading; setLoading, setFilter,
      setSortBy and setSearchQuery each change only their own field. */
  lemma FieldSettersFrame(s: DashboardState, b: bool, e: Option<string>, f: Filter, o: SortBy, q: string)
    ensures Reduce(s, SetError(e)).error == e && !Reduce(s, SetError(e)).isLoading
    ensures Reduce(s, SetError(e)).(error := s.error, isLoading := s.isLoading) == s
    ensures Reduce(s, SetLoading(b)).isLoading == b && Reduce(s, SetLoading(b)).(isLoading := s.isLoading) == s
    ensures Reduce(s, SetFilter(f)).filter == f && Reduce(s, SetFilter(f)).(filter := s.filter) == s
    ensures Reduce(s, SetSortBy(o)).sortBy == o && Reduce(s, SetSortBy(o)).(sortBy := s.sortBy) == s
    ensures Reduce(s, SetSearchQuery(q)).searchQuery == q && Reduce(s, SetSearchQuery(q)).(searchQuery := s.searchQuery) == s
  {
  }

  // ---------------------------------------------------------------------
  // The draft state the reducers mutate
  // ---------------------------------------------------------------------

  class DashboardSlice {
    var whiteboards: seq<Whiteboard>
    var isLoading: bool
    var error: Option<string>
    var filter: Filter
    var sortBy: SortBy
    var searchQuery: string

    function State(): DashboardState
      reads this
    {
      DashboardState(whiteboards, isLoading, error, filter, sortBy, searchQuery)
    }

    constructor ()
      ensures State() == InitialDashboardState
    {
      whiteboards, isLoading, error := [], false, None;
      filter, sortBy, searchQuery := All, Date, "";
    }

    method SetWhiteboards(list: seq<Whiteboard>)
      modifies this
      ensures State() == Reduce(old(State()), DashboardAction.SetWhiteboards(list))
    {
      whiteboards := list;
      isLoading := false;
      error := None;
    }

    method AddWhiteboard(w: Whiteboard)
      modifies this
      ensures State() == Reduce(old(State()), DashboardAction.AddWhiteboard(w))
    {
      whiteboards := whiteboards + [w];
    }

    method UpdateWhiteboard(id: string, updates: WhiteboardPatch)
      modifies this
      ensures State() == Reduce(old(State()), DashboardAction.UpdateWhiteboard(id, updates))
    {
      var index := FindIndex(whiteboards, id);
      if index != -1 {
        UpdateFirstAt(whiteboards, id, updates, index);
        whiteboards := whiteboards[index := Merge(whiteboards[index], updates)];
      } else {
        UpdateFirstAbsent(whiteboards, id, updates);
      }
    }

    method DeleteWhiteboard(id: string)
      modifies this
      ensures State() == Reduce(old(State()), DashboardAction.DeleteWhiteboard(id))
    {
      whiteboards := RemoveId(whiteboards, id);
    }

    method SetLoading(b: bool)
      modifies this
      ensures State() == Reduce(old(State()), DashboardAction.SetLoading(b))
    {
      isLoading := b;
    }

    method SetError(e: Option<string>)
      modifies this
      ensures State() == Reduce(old(State()), DashboardAction.SetError(e))
    {
      error := e;
      isLoading := false;
    }

    method SetFilter(f: Filter)
      modifies this
      ensures State() == Reduce(old(State()), DashboardAction.SetFilter(f))
    {
      filter := f;
    }

    method SetSortBy(o: SortBy)
      modifies this
      ensures State() == Reduce(old(State()), DashboardAction.SetSortBy(o))
    {
      sortBy := o;
    }

    method SetSearchQuery(q: string)
      modifies this
      ensures State() == Reduce(old(State()), DashboardAction.SetSearchQuery(q))
    {
      searchQuery := q;
    }
  }
}
