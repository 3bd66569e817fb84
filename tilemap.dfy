/**
 * Tile queries of game.js: `getTile` and `isSolid` over the current level's
 * ASCII map, and the geometry constants shared by the physics.
 */
module Tilemap {
  import opened Levels

  /** `TILE_SIZE` (sprites.js), as an integer and as a real. */
  const TILE_SIZE: int := 16
  const TS: real := 16.0
  /** The player's collision box, in pixels. */
  const PLAYER_W: real := 10.0
  const PLAYER_H: real := 15.0

  /**
   * `getTile(col, row)`: the map character, or `' '` outside the
   * `height` x `width` grid, for a missing row and past the end of a short row.
   */
  function GetTile(level: Level, col: int, row: int): (t: char)
    ensures row < 0 || row >= level.height || col < 0 || col >= level.width ==> t == ' '
    ensures 0 <= row < |level.rows| && col >= |level.rows[row]| ==> t == ' '
    ensures (0 <= row < level.height && 0 <= col < level.width &&
             row < |level.rows| && col < |level.rows[row]|) ==> t == level.rows[row][col]
  {
    if row < 0 || row >= level.height || col < 0 || col >= level.width then ' '
    else if row >= |level.rows| || col >= |level.rows[row]| then ' '
    else level.rows[row][col]
  }

  /** A solid tile code: ground, ground fill or platform. */
  predicate IsSolidCode(t: char)
  {
    t == '#' || t == 'G' || t == '='
  }

  /**
   * `isSolid(col, row)`: holds exactly for cells inside the grid whose map
   * character is '#', 'G' or '='; hearts, portals, air and unknown codes are not solid.
   */
  predicate IsSolid(level: Level, col: int, row: int)
    ensures IsSolid(level, col, row) <==>
              0 <= row < level.height && 0 <= col < level.width &&
              0 <= row < |level.rows| && 0 <= col < |level.rows[row]| &&
              IsSolidCode(level.rows[row][col])
  {
    IsSolidCode(GetTile(level, col, row))
  }
}
