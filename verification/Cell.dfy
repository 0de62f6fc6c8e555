/** The cell cache of an entity: a cell id and its covering, kept in a slice over a shared array. */
module Cells {
  import opened Decimal
  import opened Locations

  /** The parts of the S2 library the server uses, at the configured level and radius. */
  datatype Geometry = Geometry(cellAt: (Bits64, Bits64) -> CellId,
                               covering: CellId -> seq<CellId>,
                               centreLat: CellId -> Bits64,
                               centreLng: CellId -> Bits64)
  {
    /** The cell at the configured level that contains a location. */
    function CellOf(loc: Location): CellId {
      cellAt(loc.lat, loc.lng)
    }

    /** CellCenterLocation. */
    function Centre(id: CellId): Location {
      Location(centreLat(id), centreLng(id), 0, 0, 0)
    }
  }

  /** A cell as a value: what an isolated copy of a Cell would hold for ever. */
  datatype CellValue = CellValue(id: CellId, group: seq<CellId>)

  const INITIAL_CAPACITY := 9

  /** The contents of an array after a covering has been written over it from the start, cut at its end. */
  function Overlay(contents: seq<CellId>, covering: seq<CellId>): (r: seq<CellId>)
    ensures |r| == |contents|
  {
    if |covering| <= |contents| then covering + contents[|covering|..] else covering[..|contents|]
  }

  lemma OverlayNext(contents: seq<CellId>, covering: seq<CellId>, i: nat)
    requires i < |covering|
    ensures Overlay(contents, covering[..i + 1])
         == var before := Overlay(contents, covering[..i]);
            if i < |contents| then before[i := covering[i]] else before
  {
  }

  /** Cell: cellGroup is the slice backing[..len]. */
  class Cell {
    const geo: Geometry
    var s2cellID: CellId
    var backing: array<CellId>
    var len: nat

    ghost predicate Valid()
      reads this
    {
      len <= backing.Length
    }

    ghost function Group(): seq<CellId>
      reads this, backing
      requires Valid()
    {
      backing[..len]
    }

    ghost function Value(): CellValue
      reads this, backing
      requires Valid()
    {
      CellValue(s2cellID, Group())
    }

    /** The group is the covering of the id, unless the cell has never been placed. */
    ghost predicate Agrees()
      reads this, backing
      requires Valid()
    {
      Group() == geo.covering(s2cellID) || Value() == CellValue(0, [])
    }

    constructor (geo: Geometry)
      ensures Valid() && fresh(backing) && this.geo == geo
      ensures Value() == CellValue(0, []) && backing.Length == INITIAL_CAPACITY
    {
      this.geo := geo;
      s2cellID, len := 0, 0;
      backing := new CellId[INITIAL_CAPACITY](_ => 0);
    }

    /** The struct copy of Entity.Update: the new cell shares the array of this one. */
    constructor ShallowCopy(cell: Cell)
      requires cell.Valid()
      ensures Valid() && geo == cell.geo && backing == cell.backing && len == cell.len
      ensures Value() == cell.Value()
    {
      geo, s2cellID, backing, len := cell.geo, cell.s2cellID, cell.backing, cell.len;
    }

    /** An isolated copy: it holds the value in an array of its own. */
    constructor Isolated(geo: Geometry, value: CellValue)
      ensures Valid() && this.geo == geo && Value() == value && fresh(backing)
    {
      var group := value.group;
      this.geo, s2cellID, len := geo, value.id, |group|;
      backing := new CellId[|group|](i requires 0 <= i < |group| => group[i]);
    }

    /** Go's append: in place while there is room, otherwise in a new and larger array. */
    method Append(x: CellId)
      requires Valid()
      modifies this`backing, this`len, backing
      ensures Valid() && Group() == old(Group()) + [x]
      ensures
        if old(len) < old(backing).Length then
          backing == old(backing) && backing[..] == old(backing[..])[old(len) := x]
        else
          fresh(backing) && old(backing)[..] == old(backing[..])
    {
      if len < backing.Length {
        backing[len] := x;
      } else {
        var larger := new CellId[2 * backing.Length + 1](_ => 0);
        forall i | 0 <= i < len {
          larger[i] := backing[i];
        }
        larger[len] := x;
        assert larger[..len] == backing[..len];
        backing := larger;
      }
      len := len + 1;
    }

    /** Clear the slice, keeping its array, and append the covering of the current cell. */
    method UpdateBoundingCells()
      requires Valid()
      modifies this`backing, this`len, backing
      ensures Valid() && Group() == geo.covering(s2cellID)
      ensures old(backing)[..] == Overlay(old(backing[..]), geo.covering(s2cellID))
      ensures if |geo.covering(s2cellID)| <= old(backing).Length then backing == old(backing) else fresh(backing)
    {
      var cells := geo.covering(s2cellID);
      ghost var first, before := backing, backing[..];
      len := 0;
      for i := 0 to |cells|
        invariant Written(first, before, cells, i)
        invariant backing == first || fresh(backing)
      {
        WriteNext(first, before, cells, i);
      }
      assert cells[..|cells|] == cells;
    }

    /** The first i cells are in the slice; first is the array it began with, which held before. */
    ghost predicate Written(first: array<CellId>, before: seq<CellId>, cells: seq<CellId>, i: nat)
      reads this, backing, first
    {
      && Valid() && i <= |cells| && len == i && Group() == cells[..i]
      && first[..] == Overlay(before, cells[..i]) && first.Length == |before|
      && (backing == first <==> i <= first.Length)
    }

    method WriteNext(ghost first: array<CellId>, ghost before: seq<CellId>, cells: seq<CellId>, i: nat)
      requires i < |cells| && Written(first, before, cells, i)
      modifies this`backing, this`len, backing
      ensures Written(first, before, cells, i + 1)
      ensures backing == old(backing) || fresh(backing)
    {
      OverlayNext(before, cells, i);
      assert cells[..i + 1] == cells[..i] + [cells[i]];
      Append(cells[i]);
    }

    method Update(cid: CellId)
      requires Valid()
      modifies this, backing
      ensures Valid() && Value() == CellValue(cid, geo.covering(cid))
      ensures old(backing)[..] == Overlay(old(backing[..]), geo.covering(cid))
      ensures if |geo.covering(cid)| <= old(backing).Length then backing == old(backing) else fresh(backing)
    {
      s2cellID := cid;
      UpdateBoundingCells();
    }

    /** Move to the cell of loc; the covering is recomputed only if that is another cell. */
    method Changed(loc: Location) returns (changed: bool)
      requires Valid()
      modifies this, backing
      ensures Valid() && s2cellID == geo.CellOf(loc)
      ensures old(Agrees()) ==> Agrees()
      ensures changed <==> old(s2cellID) != geo.CellOf(loc)
      ensures !changed ==> backing == old(backing) && len == old(len) && backing[..] == old(backing[..])
      ensures changed ==>
        && Group() == geo.covering(s2cellID)
        && old(backing)[..] == Overlay(old(backing[..]), geo.covering(s2cellID))
        && if |geo.covering(s2cellID)| <= old(backing).Length then backing == old(backing) else fresh(backing)
    {
      var id := geo.CellOf(loc);
      if id != s2cellID {
        s2cellID := id;
        UpdateBoundingCells();
        return true;
      }
      return false;
    }
  }

  // ---------- what a shallow copy sees ----------

  /** The coverings fit in the original's array, so that it still shares the array with the copy. */
  predicate Fit(capacity: nat, coverings: seq<seq<CellId>>) {
    forall j :: 0 <= j < |coverings| ==> |coverings[j]| <= capacity
  }

  /** The group a shallow copy shows after the original cell took on the coverings in turn. */
  function SharedView(view: seq<CellId>, capacity: nat, coverings: seq<seq<CellId>>): (r: seq<CellId>)
    ensures |r| == |view|
  {
    if coverings == [] then view
    else
      var n := |coverings| - 1;
      var before := SharedView(view, capacity, coverings[..n]);
      if Fit(capacity, coverings[..n]) then Overlay(before, coverings[n]) else before
  }

  lemma OverlayPrefix(contents: seq<CellId>, covering: seq<CellId>, n: nat)
    requires n <= |contents|
    ensures Overlay(contents, covering)[..n] == Overlay(contents[..n], covering)
  {
  }

  /** A covering and a group agree as far as both go. */
  predicate Alike(view: seq<CellId>, covering: seq<CellId>) {
    forall i :: 0 <= i < |view| && i < |covering| ==> covering[i] == view[i]
  }

  lemma OverlayIntact(view: seq<CellId>, covering: seq<CellId>)
    ensures Overlay(view, covering) == view <==> Alike(view, covering)
  {
    assert forall i :: 0 <= i < |view| && i < |covering| ==> Overlay(view, covering)[i] == covering[i];
  }

  /** Every covering is alike to the group, up to and including the first that outgrows the array. */
  predicate AlikeUntilOutgrown(view: seq<CellId>, capacity: nat, coverings: seq<seq<CellId>>) {
    forall k :: 0 <= k < |coverings| && Fit(capacity, coverings[..k]) ==> Alike(view, coverings[k])
  }

  lemma IntactNext(view: seq<CellId>, capacity: nat, coverings: seq<seq<CellId>>, last: seq<CellId>)
    ensures AlikeUntilOutgrown(view, capacity, coverings + [last])
       <==> AlikeUntilOutgrown(view, capacity, coverings) && (Fit(capacity, coverings) ==> Alike(view, last))
    ensures SharedView(view, capacity, coverings) == view ==>
      (SharedView(view, capacity, coverings + [last]) == view <==> (Fit(capacity, coverings) ==> Alike(view, last)))
  {
    var all := coverings + [last];
    assert all[..|coverings|] == coverings;
    assert forall k :: 0 <= k < |coverings| ==> all[..k] == coverings[..k];
    OverlayIntact(view, last);
  }

  // ---------- a series of moves beside a shallow copy ----------

  /** The two calls that change a cell: Update takes a cell id, Changed a location. */
  datatype Move = Place(id: CellId) | Locate(loc: Location)

  function Goal(geo: Geometry, move: Move): CellId {
    if move.Place? then move.id else geo.CellOf(move.loc)
  }

  /** The cell after a series of moves. */
  function Reached(geo: Geometry, id: CellId, moves: seq<Move>): CellId {
    if moves == [] then id else Goal(geo, moves[|moves| - 1])
  }

  /** The coverings computed along the way: one for every Update and every change of cell. */
  function Recomputed(geo: Geometry, id: CellId, moves: seq<Move>): seq<seq<CellId>> {
    if moves == [] then []
    else
      var n := |moves| - 1;
      var goal := Goal(geo, moves[n]);
      Recomputed(geo, id, moves[..n])
      + (if moves[n].Place? || goal != Reached(geo, id, moves[..n]) then [geo.covering(goal)] else [])
  }

  /** The group that a copy which showed view shows after a series of moves. */
  function ViewAfter(view: seq<CellId>, capacity: nat, geo: Geometry, id: CellId, moves: seq<Move>): seq<CellId> {
    SharedView(view, capacity, Recomputed(geo, id, moves))
  }

  /** The groups such a copy shows from the start up to the last of the moves. */
  ghost predicate Shows(shown: seq<seq<CellId>>, view: seq<CellId>, capacity: nat, geo: Geometry, id: CellId,
                        moves: seq<Move>) {
    && |shown| == |moves| + 1
    && forall n :: 0 <= n <= |moves| ==> shown[n] == ViewAfter(view, capacity, geo, id, moves[..n])
  }

  lemma RecomputedNext(geo: Geometry, id: CellId, moves: seq<Move>, i: nat)
    requires i < |moves|
    ensures
      var goal, before := Goal(geo, moves[i]), Recomputed(geo, id, moves[..i]);
      Recomputed(geo, id, moves[..i + 1])
      == if moves[i].Place? || goal != Reached(geo, id, moves[..i]) then before + [geo.covering(goal)] else before
  {
    assert moves[..i + 1][..i] == moves[..i];
  }

  /** A copy shows its group throughout a series of moves exactly when every covering is alike until outgrown. */
  lemma {:induction false} CopyIntactIff(view: seq<CellId>, capacity: nat, geo: Geometry, id: CellId,
                                         moves: seq<Move>, k: nat)
    requires k <= |moves|
    ensures (forall n :: 0 <= n <= k ==> ViewAfter(view, capacity, geo, id, moves[..n]) == view)
       <==> AlikeUntilOutgrown(view, capacity, Recomputed(geo, id, moves[..k]))
    decreases k
  {
    if k > 0 {
      CopyIntactIff(view, capacity, geo, id, moves, k - 1);
      MoveIntact(view, capacity, geo, id, moves, k - 1);
    }
  }

  lemma MoveIntact(view: seq<CellId>, capacity: nat, geo: Geometry, id: CellId, moves: seq<Move>, i: nat)
    requires i < |moves|
    ensures
      var before := AlikeUntilOutgrown(view, capacity, Recomputed(geo, id, moves[..i]));
      var after := AlikeUntilOutgrown(view, capacity, Recomputed(geo, id, moves[..i + 1]));
      && (after ==> before)
      && (ViewAfter(view, capacity, geo, id, moves[..i]) == view ==>
            (after <==> before && ViewAfter(view, capacity, geo, id, moves[..i + 1]) == view))
  {
    RecomputedNext(geo, id, moves, i);
    IntactNext(view, capacity, Recomputed(geo, id, moves[..i]), geo.covering(Goal(geo, moves[i])));
  }

  /** One move of a cell beside a copy, which is overwritten as long as the array is shared. */
  method MoveBeside(cell: Cell, copy: Cell, move: Move)
    requires cell.Valid() && copy.Valid() && cell != copy
    modifies cell, cell.backing
    ensures cell.Valid() && copy.Valid() && cell.s2cellID == Goal(cell.geo, move)
    ensures
      var covering := cell.geo.covering(Goal(cell.geo, move));
      if move.Place? || Goal(cell.geo, move) != old(cell.s2cellID) then
        && cell.Group() == covering
        && copy.Group() == (if old(cell.backing) == copy.backing then Overlay(old(copy.Group()), covering)
                            else old(copy.Group()))
        && if |covering| <= old(cell.backing).Length then cell.backing == old(cell.backing) else fresh(cell.backing)
      else
        && cell.Group() == old(cell.Group())
        && copy.Group() == old(copy.Group()) && cell.backing == old(cell.backing)
  {
    ghost var whole := copy.backing[..];
    OverlayPrefix(whole, cell.geo.covering(Goal(cell.geo, move)), copy.len);
    match move
    case Place(id) =>
      cell.Update(id);
    case Locate(loc) =>
      var changed := cell.Changed(loc);
  }

  lemma SharedNext(view: seq<CellId>, capacity: nat, coverings: seq<seq<CellId>>, last: seq<CellId>)
    ensures Fit(capacity, coverings + [last]) <==> Fit(capacity, coverings) && |last| <= capacity
    ensures
      var before := SharedView(view, capacity, coverings);
      SharedView(view, capacity, coverings + [last])
      == if Fit(capacity, coverings) then Overlay(before, last) else before
  {
    var all := coverings + [last];
    assert all[..|coverings|] == coverings;
    assert all[|coverings|] == last && forall j :: 0 <= j < |coverings| ==> all[j] == coverings[j];
  }

  /** Where a cell and its copy stand after a series of moves. */
  ghost predicate Beside(cell: Cell, copy: Cell, view: seq<CellId>, capacity: nat, start: CellValue,
                         moves: seq<Move>)
    reads cell, cell.backing, copy, copy.backing
  {
    && cell.Valid() && copy.Valid() && cell != copy
    && cell.s2cellID == Reached(cell.geo, start.id, moves)
    && cell.Group() == (if Recomputed(cell.geo, start.id, moves) == [] then start.group
                        else cell.geo.covering(cell.s2cellID))
    && copy.backing.Length == capacity && copy.Group() == ViewAfter(view, capacity, cell.geo, start.id, moves)
    && (Fit(capacity, Recomputed(cell.geo, start.id, moves)) <==> cell.backing == copy.backing)
  }

  method MoveNext(cell: Cell, copy: Cell, moves: seq<Move>, i: nat,
                  ghost view: seq<CellId>, ghost capacity: nat, ghost start: CellValue)
    requires i < |moves| && Beside(cell, copy, view, capacity, start, moves[..i])
    modifies cell, cell.backing
    ensures Beside(cell, copy, view, capacity, start, moves[..i + 1])
    ensures cell.backing == old(cell.backing) || fresh(cell.backing)
  {
    ghost var covering := cell.geo.covering(Goal(cell.geo, moves[i]));
    RecomputedNext(cell.geo, start.id, moves, i);
    SharedNext(view, capacity, Recomputed(cell.geo, start.id, moves[..i]), covering);
    MoveBeside(cell, copy, moves[i]);
  }

  lemma ShownNext(shown: seq<seq<CellId>>, view: seq<CellId>, capacity: nat, geo: Geometry, id: CellId,
                  moves: seq<Move>, i: nat, group: seq<CellId>)
    requires i < |moves| && Shows(shown, view, capacity, geo, id, moves[..i])
    requires group == ViewAfter(view, capacity, geo, id, moves[..i + 1])
    ensures Shows(shown + [group], view, capacity, geo, id, moves[..i + 1])
  {
    assert forall n :: 0 <= n <= i ==> moves[..i][..n] == moves[..i + 1][..n];
    assert moves[..i + 1][..i + 1] == moves[..i + 1];
  }

  /**
   * A cell takes on any series of moves while a shallow copy of it exists. Its group is the covering
   * of its id as soon as one has been computed. The copy, whose id stays, shows the shared view: its
   * old group throughout exactly when every covering is alike to it until one outgrows the array.
   */
  method MoveWhileShared(cell: Cell, copy: Cell, moves: seq<Move>) returns (ghost shown: seq<seq<CellId>>)
    requires cell.Valid() && copy.Valid() && cell != copy
    requires cell.backing == copy.backing
    modifies cell, cell.backing
    ensures cell.Valid() && cell.s2cellID == Reached(cell.geo, old(cell.s2cellID), moves)
    ensures cell.Group() == if Recomputed(cell.geo, old(cell.s2cellID), moves) == [] then old(cell.Group())
                            else cell.geo.covering(cell.s2cellID)
    ensures Shows(shown, old(copy.Group()), old(cell.backing.Length), cell.geo, old(cell.s2cellID), moves)
    ensures copy.Valid() && copy.s2cellID == old(copy.s2cellID) && copy.Group() == shown[|moves|]
    ensures (forall n :: 0 <= n <= |moves| ==> shown[n] == old(copy.Group()))
       <==> AlikeUntilOutgrown(old(copy.Group()), old(cell.backing.Length),
                               Recomputed(cell.geo, old(cell.s2cellID), moves))
  {
    ghost var view, capacity, start := copy.Group(), copy.backing.Length, cell.Value();
    shown := [view];
    for i := 0 to |moves|
      invariant Beside(cell, copy, view, capacity, start, moves[..i])
      invariant Shows(shown, view, capacity, cell.geo, start.id, moves[..i])
      invariant cell.backing == old(cell.backing) || fresh(cell.backing)
    {
      MoveNext(cell, copy, moves, i, view, capacity, start);
      ShownNext(shown, view, capacity, cell.geo, start.id, moves, i, copy.Group());
      shown := shown + [copy.Group()];
    }
    assert moves[..|moves|] == moves;
    CopyIntactIff(view, capacity, cell.geo, start.id, moves, |moves|);
  }

}
