/**
 * The level table of levels.js: the two string builders used to write the
 * ASCII tile maps, the level record, and the post-pass that derives each
 * level's heart count and grid dimensions from its map.
 *
 * Map legend: ' ' air, '#' solid ground, 'G' ground fill (solid),
 * '=' floating platform (solid), 'H' heart, 'P' portal.
 */
module Levels {
  import opened Wrappers

  /** Enemy types named in a level's placement list; any other name is kept as written. */
  datatype EnemyKind = BrokenHeart | Teardrop | Thorn | OtherKind(name: string)

  /** One entry of a level's `enemies` list, in tile units; a missing patrol bound is `None`. */
  datatype EnemyDef = EnemyDef(kind: EnemyKind, x: int, y: int,
                               patrolLeft: Option<int>, patrolRight: Option<int>)

  /** A level object. `totalHearts`, `width` and `height` are filled in by the post-pass. */
  datatype Level = Level(theme: string, startCol: int, startRow: int,
                         enemies: seq<EnemyDef>, rows: seq<string>,
                         totalHearts: int, width: int, height: int)

  /** `ch.repeat(n)`. */
  function Repeat(ch: char, n: nat): (r: string)
    ensures |r| == n
    ensures forall i :: 0 <= i < n ==> r[i] == ch
  {
    if n == 0 then [] else Repeat(ch, n - 1) + [ch]
  }

  /** `pad(str, len)`: right-pads with spaces up to `len`; a string already that long is returned as is. */
  function Pad(s: string, len: int): (r: string)
    ensures |s| >= len ==> r == s
    ensures |s| < len ==> |r| == len && r[..|s|] == s
    ensures |s| < len ==> forall i :: |s| <= i < len ==> r[i] == ' '
  {
    if |s| >= len then s else s + Repeat(' ', len - |s|)
  }

  /** `makeSolidRow(len, char)`. */
  function MakeSolidRow(len: nat, ch: char): (r: string)
    ensures |r| == len
    ensures forall i :: 0 <= i < len ==> r[i] == ch
  {
    Repeat(ch, len)
  }

  /** Number of occurrences of `ch` in `s`. */
  function CountChar(s: string, ch: char): nat
  {
    if s == [] then 0 else CountChar(s[..|s| - 1], ch) + (if s[|s| - 1] == ch then 1 else 0)
  }

  /** Number of heart tiles over all rows of a map. */
  function CountHearts(rows: seq<string>): nat
  {
    if rows == [] then 0 else CountHearts(rows[..|rows| - 1]) + CountChar(rows[|rows| - 1], 'H')
  }

  /** Length of the longest row (0 for an empty map). */
  function MaxLen(rows: seq<string>): nat
  {
    if rows == [] then 0
    else var m := MaxLen(rows[..|rows| - 1]);
         if |rows[|rows| - 1]| > m then |rows[|rows| - 1]| else m
  }

  /** The heart count agrees with the multiset view of a row. */
  lemma {:induction false} CountCharIsMultiplicity(s: string, ch: char)
    ensures CountChar(s, ch) == multiset(s)[ch]
  {
    if s != [] {
      CountCharIsMultiplicity(s[..|s| - 1], ch);
      assert s == s[..|s| - 1] + [s[|s| - 1]];
    }
  }

  /** Hearts of a map counted through the concatenation of its rows. */
  function Flatten(rows: seq<string>): string
  {
    if rows == [] then [] else Flatten(rows[..|rows| - 1]) + rows[|rows| - 1]
  }

  /** `totalHearts` is the number of 'H' characters in the whole map. */
  lemma {:induction false} CountHeartsIsMultiplicity(rows: seq<string>)
    ensures CountHearts(rows) == multiset(Flatten(rows))['H']
  {
    if rows != [] {
      CountHeartsIsMultiplicity(rows[..|rows| - 1]);
      CountCharIsMultiplicity(rows[|rows| - 1], 'H');
    }
  }

  /** `width` bounds every row and, for a non-empty map, is the length of one of them. */
  lemma {:induction false} MaxLenIsMaximum(rows: seq<string>)
    ensures forall i :: 0 <= i < |rows| ==> |rows[i]| <= MaxLen(rows)
    ensures rows != [] ==> exists i :: 0 <= i < |rows| && |rows[i]| == MaxLen(rows)
  {
    if rows != [] {
      var init := rows[..|rows| - 1];
      MaxLenIsMaximum(init);
      assert forall i :: 0 <= i < |init| ==> rows[i] == init[i];
      if |rows[|rows| - 1]| <= MaxLen(init) && init != [] {
        var j :| 0 <= j < |init| && |init[j]| == MaxLen(init);
        assert rows[j] == init[j];
      }
    }
  }

  /**
   * The loops of the post-pass over one map: counts the 'H' characters row by row,
   * takes the longest row and the number of rows.
   */
  method Measure(rows: seq<string>) returns (hearts: nat, width: nat, height: nat)
    ensures hearts == CountHearts(rows)
    ensures width == MaxLen(rows)
    ensures height == |rows|
  {
    hearts := 0;
    var r := 0;
    while r < |rows|
      invariant 0 <= r <= |rows|
      invariant hearts == CountHearts(rows[..r])
    {
      var row := rows[r];
      var c := 0;
      var inRow := 0;
      while c < |row|
        invariant 0 <= c <= |row|
        invariant inRow == CountChar(row[..c], 'H')
      {
        if row[c] == 'H' {
          inRow := inRow + 1;
        }
        assert row[..c + 1][..c] == row[..c];
        c := c + 1;
      }
      assert row[..c] == row;
      assert rows[..r + 1][..r] == rows[..r];
      hearts := hearts + inRow;
      r := r + 1;
    }
    assert rows[..r] == rows;
    width := 0;
    var i := 0;
    while i < |rows|
      invariant 0 <= i <= |rows|
      invariant width == MaxLen(rows[..i])
    {
      assert rows[..i + 1][..i] == rows[..i];
      if |rows[i]| > width {
        width := |rows[i]|;
      }
      i := i + 1;
    }
    assert rows[..i] == rows;
    height := |rows|;
  }

  /** The level record as the post-pass leaves it. */
  function Annotated(level: Level): (r: Level)
    ensures r.rows == level.rows && r.theme == level.theme && r.enemies == level.enemies
    ensures r.startCol == level.startCol && r.startRow == level.startRow
    ensures r.totalHearts == multiset(Flatten(level.rows))['H']
    ensures forall i :: 0 <= i < |r.rows| ==> |r.rows[i]| <= r.width
    ensures r.rows != [] ==> exists i :: 0 <= i < |r.rows| && |r.rows[i]| == r.width
    ensures r.rows == [] ==> r.width == 0
    ensures r.height == |r.rows|
  {
    CountHeartsIsMultiplicity(level.rows);
    MaxLenIsMaximum(level.rows);
    level.(totalHearts := CountHearts(level.rows), width := MaxLen(level.rows), height := |level.rows|)
  }

  /** `LEVELS.forEach(...)`: assigns `totalHearts`, `width` and `height` onto every level. */
  method AnnotateAll(levels: array<Level>)
    modifies levels
    ensures forall i :: 0 <= i < levels.Length ==> levels[i] == Annotated(old(levels[i]))
  {
    var k := 0;
    while k < levels.Length
      invariant 0 <= k <= levels.Length
      invariant forall i :: 0 <= i < k ==> levels[i] == Annotated(old(levels[i]))
      invariant forall i :: k <= i < levels.Length ==> levels[i] == old(levels[i])
    {
      var hearts, width, height := Measure(levels[k].rows);
      levels[k] := levels[k].(totalHearts := hearts, width := width, height := height);
      k := k + 1;
    }
  }
}
