/** What a run of tile deltas does to one cell of the tile grid. */
module TileGrid {
  import opened Packets

  predicate At(t: Tile, x: int, y: int) {
    t.x == x && t.y == y
  }

  /** The value of cell (x, y) after writing `tiles` in order onto a cell that held `prior`. */
  function TileAt(tiles: seq<Tile>, x: int, y: int, prior: int): int {
    if tiles == [] then prior
    else if At(tiles[|tiles| - 1], x, y) then tiles[|tiles| - 1].tileType
    else TileAt(tiles[..|tiles| - 1], x, y, prior)
  }

  /** The last delta naming a cell decides its value. */
  lemma {:induction false} LastWriteWins(tiles: seq<Tile>, x: int, y: int, prior: int, k: nat)
    requires k < |tiles| && At(tiles[k], x, y)
    requires forall j :: k < j < |tiles| ==> !At(tiles[j], x, y)
    ensures TileAt(tiles, x, y, prior) == tiles[k].tileType
  {
    if k < |tiles| - 1 {
      var init := tiles[..|tiles| - 1];
      assert forall j :: k < j < |init| ==> init[j] == tiles[j];
      LastWriteWins(init, x, y, prior, k);
    }
  }

  /** A cell no delta names keeps its value. */
  lemma {:induction false} UntouchedCell(tiles: seq<Tile>, x: int, y: int, prior: int)
    requires forall j :: 0 <= j < |tiles| ==> !At(tiles[j], x, y)
    ensures TileAt(tiles, x, y, prior) == prior
  {
    if tiles != [] {
      var init := tiles[..|tiles| - 1];
      assert forall j :: 0 <= j < |init| ==> init[j] == tiles[j];
      UntouchedCell(init, x, y, prior);
    }
  }
}
