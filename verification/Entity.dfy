/** Entities: a client's session with its location, its cell and its groups. */
module Entities {
  import opened Decimal
  import opened Locations
  import opened Cells

  class Entity {
    const clientId: nat
    const tokenId: nat
    const cell: Cell
    var location: Location
    var groups: seq<string>
    // The cell copies handed to the subscription, as they were at that moment
    ghost var offered: seq<CellValue>

    ghost predicate Valid()
      reads this, cell
    {
      cell.Valid()
    }

    constructor (clientId: nat, tokenId: nat, cell: Cell)
      requires cell.Valid()
      ensures Valid() && this.clientId == clientId && this.tokenId == tokenId && this.cell == cell
      ensures groups == [] && offered == []
    {
      this.clientId, this.tokenId, this.cell := clientId, tokenId, cell;
      location, groups, offered := ZERO, [], [];
    }

    method SetGroups(groups: seq<string>)
      modifies this`groups
      ensures this.groups == groups
    {
      this.groups := groups;
    }

    /** Move the entity; its subscription is offered a copy of the cell only when the cell changes. */
    method Update(loc: Location) returns (cellCpy: Cell?)
      requires Valid()
      modifies this`location, this`offered, cell, cell.backing
      ensures Valid() && location == loc && cell.s2cellID == cell.geo.CellOf(loc)
      ensures cell.backing == old(cell.backing) || fresh(cell.backing)
      ensures
        if old(cell.s2cellID) == cell.geo.CellOf(loc) then
          && cellCpy == null && cell.Value() == old(cell.Value()) && offered == old(offered)
          && cell.backing == old(cell.backing) && cell.backing[..] == old(cell.backing[..])
        else
          var covering := cell.geo.covering(cell.geo.CellOf(loc));
          && cell.Value() == CellValue(cell.geo.CellOf(loc), covering)
          && offered == old(offered) + [cell.Value()]
          && old(cell.backing)[..] == Overlay(old(cell.backing[..]), covering)
          && (if |covering| <= old(cell.backing).Length then cell.backing == old(cell.backing) else fresh(cell.backing))
          && cellCpy != null && fresh(cellCpy) && cellCpy.Valid() && cellCpy.Value() == cell.Value()
          && cellCpy.backing == cell.backing
    {
      location := loc;
      var changed := cell.Changed(loc);
      if !changed {
        return null;
      }
      cellCpy := new Cell.ShallowCopy(cell);
      offered := offered + [cellCpy.Value()];
    }
  }

  /** Two cells, with groups of three and of two. */
  function TwoCells(): Geometry {
    Geometry((lat, lng) => if lat == 0 then 1 else 7, id => if id == 1 then [1, 2, 3] else [7, 8],
             id => if id == 1 then 0 else 1, id => 0)
  }

  /**
   * A concrete entity: it enters a cell with a group of three, and its subscription gets a copy of the
   * cell. When it moves on to a cell with a group of two, that copy shows neither the old group nor
   * the new one, and neither do the channels that a subscription takes from it.
   */
  method CopyNotIsolated() returns (entity: Entity, copy: Cell)
    ensures entity.offered == [CellValue(1, [1, 2, 3]), CellValue(7, [7, 8])]
    ensures copy.Valid() && copy.Value() == CellValue(1, [7, 8, 3])
    ensures Channels(copy.Group()) != Channels([1, 2, 3]) && Channels(copy.Group()) != Channels([7, 8])
  {
    var cell := new Cell(TwoCells());
    entity := new Entity(0, 0, cell);
    var first := entity.Update(ZERO);
    copy := first;
    ghost var whole := copy.backing[..];
    var second := entity.Update(ZERO.(lat := 1));
    OverlayPrefix(whole, [7, 8], 3);
    MixedChannels();
  }

  lemma MixedChannels()
    ensures Channels([7, 8, 3]) != Channels([1, 2, 3]) && Channels([7, 8, 3]) != Channels([7, 8])
  {
    NamedIffMember(7, [7, 8, 3]);
    NamedIffMember(7, [1, 2, 3]);
    NamedIffMember(3, [7, 8, 3]);
    NamedIffMember(3, [7, 8]);
  }
}
