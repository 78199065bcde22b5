/**
 * The "diamond" layout of chunk links around the player, shared by
 * TerrainSystem::FullWriteChunkData (src/Engine/Components/Terrain/TerrainSystem.cpp)
 * and ChunkManager::diamondUpdateChunkLinks (src/Apps/MeshApp/Components/ChunkManager.cpp).
 *
 * Both fill INSTANCE_COUNT = r^2 + (r + 1)^2 slots from the top: the last
 * slot gets the player's chunk, then for i in [0, r) and j in [0, r - i) a
 * block of four slots c - 3 .. c gets four cells around it, and c drops
 * by 4.  The layout is described by a `Tag` per slot, saying which step
 * wrote it; the cells the tags stand for are given separately, as the code
 * writes them and as a diamond evidently needs them.
 */
module DiamondLayout {
  import opened Common

  /** INSTANCE_COUNT for DIAMOND_EXPLORATION_RADIUS r. */
  function InstanceCount(r: nat): nat
  {
    r * r + (r + 1) * (r + 1)
  }

  /** Which write filled a slot: the player's own chunk, or member q of the block of step (i, j). */
  datatype Tag = Center | Quad(i: nat, j: nat, q: nat)

  /** The block of step (i, j) in slot order c - 3, c - 2, c - 1, c. */
  function Block(i: nat, j: nat): seq<Tag>
  {
    [Quad(i, j, 0), Quad(i, j, 1), Quad(i, j, 2), Quad(i, j, 3)]
  }

  /**
   * The slots written once the loops reach step (i, j), lowest slot
   * first: they are the top |Filled(r, i, j)| slots of the buffer.
   */
  function Filled(r: nat, i: nat, j: nat): seq<Tag>
    requires i <= r && j <= r - i
    decreases i, j
  {
    if j > 0 then Block(i, j - 1) + Filled(r, i, j - 1)
    else if i == 0 then [Center]
    else Filled(r, i - 1, r - (i - 1))
  }

  /** The whole buffer once both loops are done. */
  function Tags(r: nat): seq<Tag>
  {
    Filled(r, r, 0)
  }

  /** The number of inner steps of the outer iterations before i. */
  function StepsBefore(r: nat, i: nat): nat
    requires i <= r
  {
    if i == 0 then 0 else StepsBefore(r, i - 1) + (r - (i - 1))
  }

  lemma {:induction false} FilledLength(r: nat, i: nat, j: nat)
    requires i <= r && j <= r - i
    ensures |Filled(r, i, j)| == 1 + 4 * (StepsBefore(r, i) + j)
    decreases i, j
  {
    if j > 0 {
      FilledLength(r, i, j - 1);
    } else if i > 0 {
      FilledLength(r, i - 1, r - (i - 1));
    }
  }

  lemma {:induction false} StepsBeforeClosed(r: nat, i: nat)
    requires i <= r
    ensures 2 * StepsBefore(r, i) == i * (2 * r - i + 1)
  {
    if i > 0 {
      StepsBeforeClosed(r, i - 1);
      assert (i - 1) * (2 * r - i + 2) + 2 * (r - i + 1) == i * (2 * r - i + 1);
    }
  }

  /**
   * With INSTANCE_COUNT = r^2 + (r + 1)^2 the loops write exactly
   * INSTANCE_COUNT slots: the counter ends at -1, and every slot from 0
   * to INSTANCE_COUNT - 1 is written.
   */
  lemma TagsFillInstances(r: nat)
    ensures |Tags(r)| == InstanceCount(r)
  {
    FilledLength(r, r, 0);
    StepsBeforeClosed(r, r);
    assert r * (2 * r - r + 1) == r * r + r;
  }

  /** The counter after step (i, j) leaves at least one free block below it while steps remain. */
  lemma {:induction false} BlockFits(r: nat, i: nat, j: nat)
    requires i < r && j < r - i
    ensures |Filled(r, i, j)| + 4 <= InstanceCount(r)
    ensures |Filled(r, i, j + 1)| == |Filled(r, i, j)| + 4
  {
    FilledLength(r, i, j);
    FilledLength(r, i, j + 1);
    TagsFillInstances(r);
    FilledLength(r, r, 0);
    StepsGrow(r, i, j);
  }

  lemma {:induction false} StepsGrow(r: nat, i: nat, j: nat)
    requires i < r && j < r - i
    ensures StepsBefore(r, i) + j + 1 <= StepsBefore(r, r)
    decreases r - i
  {
    if i + 1 < r {
      StepsGrow(r, i + 1, 0);
    } else {
      assert StepsBefore(r, r) == StepsBefore(r, i) + (r - i);
    }
  }

  // ---------------------------------------------------------------------
  // Which tags the layout holds, and that none is repeated.

  /** The tags the loops can produce. */
  predicate ValidTag(r: nat, t: Tag)
  {
    t.Center? || (t.i < r && t.j < r - t.i && t.q < 4)
  }

  /** t was written by a step before (i, j), in loop order (the player's chunk first). */
  predicate Before(t: Tag, i: nat, j: nat)
  {
    t.Center? || t.i < i || (t.i == i && t.j < j)
  }

  predicate NoRepeats<T(==)>(s: seq<T>)
  {
    forall a, b :: 0 <= a < b < |s| ==> s[a] != s[b]
  }

  lemma {:induction false} FilledTagsBefore(r: nat, i: nat, j: nat)
    requires i <= r && j <= r - i
    ensures forall t :: t in Filled(r, i, j) ==> Before(t, i, j) && ValidTag(r, t)
    decreases i, j
  {
    if j > 0 {
      FilledTagsBefore(r, i, j - 1);
    } else if i > 0 {
      FilledTagsBefore(r, i - 1, r - (i - 1));
    }
  }

  lemma {:induction false} FilledNoRepeats(r: nat, i: nat, j: nat)
    requires i <= r && j <= r - i
    ensures NoRepeats(Filled(r, i, j))
    decreases i, j
  {
    if j > 0 {
      var rest := Filled(r, i, j - 1);
      var block := Block(i, j - 1);
      FilledNoRepeats(r, i, j - 1);
      FilledTagsBefore(r, i, j - 1);
      var s := block + rest;
      forall a, b | 0 <= a < b < |s|
        ensures s[a] != s[b]
      {
        if b < 4 {
        } else if a < 4 {
          assert s[b] == rest[b - 4] && s[b] in rest;
        } else {
          assert s[a] == rest[a - 4] && s[b] == rest[b - 4];
        }
      }
    } else if i > 0 {
      FilledNoRepeats(r, i - 1, r - (i - 1));
    }
  }

  lemma {:induction false} FilledHoldsEarlierSteps(r: nat, i: nat, j: nat, t: Tag)
    requires i <= r && j <= r - i
    requires ValidTag(r, t) && Before(t, i, j)
    ensures t in Filled(r, i, j)
    decreases i, j
  {
    if j > 0 {
      if !(t.Quad? && t.i == i && t.j == j - 1) {
        FilledHoldsEarlierSteps(r, i, j - 1, t);
      } else {
        assert t == Block(i, j - 1)[t.q];
      }
    } else if i > 0 {
      FilledHoldsEarlierSteps(r, i - 1, r - (i - 1), t);
    }
  }

  /** The buffer holds every tag the loops can produce, each exactly once. */
  lemma TagsAreTheSteps(r: nat)
    ensures NoRepeats(Tags(r))
    ensures forall t :: t in Tags(r) <==> ValidTag(r, t)
  {
    FilledNoRepeats(r, r, 0);
    FilledTagsBefore(r, r, 0);
    forall t | ValidTag(r, t)
      ensures t in Tags(r)
    {
      FilledHoldsEarlierSteps(r, r, 0, t);
    }
  }

  /** The last n entries of a + b are the last n of b. */
  lemma SuffixOfConcat<T>(a: seq<T>, b: seq<T>, n: nat)
    requires n <= |b|
    ensures (a + b)[|a + b| - n..] == b[|b| - n..]
  {
    var c := (a + b)[|a + b| - n..];
    assert forall k :: 0 <= k < n ==> c[k] == b[|b| - n + k];
  }

  /** The last five slots hold the first block and, on top, the player's chunk. */
  lemma {:induction false} FirstBlockOnTop(r: nat, i: nat, j: nat)
    requires i <= r && j <= r - i && (i > 0 || j > 0)
    ensures |Filled(r, i, j)| >= 5
    ensures Filled(r, i, j)[|Filled(r, i, j)| - 5..] == Block(0, 0) + [Center]
    decreases i, j
  {
    var f := Filled(r, i, j);
    if j > 1 || (j == 1 && i > 0) {
      var rest := Filled(r, i, j - 1);
      FirstBlockOnTop(r, i, j - 1);
      assert f == Block(i, j - 1) + rest;
      SuffixOfConcat(Block(i, j - 1), rest, 5);
    } else if j == 0 {
      FirstBlockOnTop(r, i - 1, r - (i - 1));
      assert f == Filled(r, i - 1, r - (i - 1));
    } else {
      assert f == Block(0, 0) + Filled(r, 0, 0);
      assert Filled(r, 0, 0) == [Center];
      assert f[|f| - 5..] == f;
    }
  }

  // ---------------------------------------------------------------------
  // The cells.

  /** ivec2 + offset with the int32 arithmetic of the code (computed in uint32_t, stored as int32_t). */
  function Shift(p: IVec2, dx: int, dy: int): IVec2
  {
    IVec2(AsInt32(Wrap32(p.x + dx)), AsInt32(Wrap32(p.y + dy)))
  }

  /**
   * The cell the code writes for a tag: x_pos = px + i + 1,
   * x_neg = px - i + 1, y_pos = py + j, y_neg = py - j, and the block
   * (x_neg, y_pos), (x_pos, y_neg), (x_neg, y_neg), (x_pos, y_pos).
   */
  function AsWrittenCell(player: IVec2, t: Tag): IVec2
  {
    match t
    case Center => player
    case Quad(i, j, q) =>
      var xPos: int := i + 1;
      var xNeg: int := -(i as int) + 1;
      var yPos: int := j;
      var yNeg: int := -(j as int);
      if q == 0 then Shift(player, xNeg, yPos)
      else if q == 1 then Shift(player, xPos, yNeg)
      else if q == 2 then Shift(player, xNeg, yNeg)
      else Shift(player, xPos, yPos)
  }

  /** The four cells of step (i, j), in the words of the loop body: its x_pos, x_neg, y_pos and y_neg. */
  lemma BlockCells(player: IVec2, i: nat, j: nat)
    ensures AsWrittenCell(player, Quad(i, j, 0))
         == IVec2(AsInt32(Wrap32(player.x - i + 1)), AsInt32(Wrap32(player.y + j)))
    ensures AsWrittenCell(player, Quad(i, j, 1))
         == IVec2(AsInt32(Wrap32(player.x + i + 1)), AsInt32(Wrap32(player.y - j)))
    ensures AsWrittenCell(player, Quad(i, j, 2))
         == IVec2(AsInt32(Wrap32(player.x - i + 1)), AsInt32(Wrap32(player.y - j)))
    ensures AsWrittenCell(player, Quad(i, j, 3))
         == IVec2(AsInt32(Wrap32(player.x + i + 1)), AsInt32(Wrap32(player.y + j)))
  {
    assert player.x + (-(i as int) + 1) == player.x - i + 1;
    assert player.y + -(j as int) == player.y - j;
  }

  /**
   * As written, the first block after the player's chunk holds the same
   * cell, one to the right of the player, four times: with i = 0 x_neg
   * equals x_pos, and with j = 0 y_neg equals y_pos.
   */
  lemma AsWrittenRepeatsCells(r: nat, player: IVec2)
    requires r >= 1
    ensures |Tags(r)| == InstanceCount(r)
    ensures var n := InstanceCount(r);
      && AsWrittenCell(player, Tags(r)[n - 5]) == Shift(player, 1, 0)
      && AsWrittenCell(player, Tags(r)[n - 4]) == Shift(player, 1, 0)
      && AsWrittenCell(player, Tags(r)[n - 3]) == Shift(player, 1, 0)
      && AsWrittenCell(player, Tags(r)[n - 2]) == Shift(player, 1, 0)
  {
    TagsFillInstances(r);
    FirstBlockOnTop(r, r, 0);
    var n := InstanceCount(r);
    assert Tags(r)[n - 5..] == Block(0, 0) + [Center];
    assert Tags(r)[n - 5] == Quad(0, 0, 0) && Tags(r)[n - 4] == Quad(0, 0, 1);
    assert Tags(r)[n - 3] == Quad(0, 0, 2) && Tags(r)[n - 2] == Quad(0, 0, 3);
  }

  /** A cell offset from the player's chunk. */
  datatype Offset = Offset(dx: int, dy: int)

  function Abs(v: int): nat { if v < 0 then -v else v }

  /** The offsets within Manhattan distance r: the diamond the layout is named after. */
  predicate InDiamond(r: nat, d: Offset)
  {
    Abs(d.dx) + Abs(d.dy) <= r
  }

  /**
   * The evidently intended offsets: the four quarter-turns of (i + 1, j),
   * each covering one quadrant of the diamond without its centre.
   */
  function CorrectedOffset(t: Tag): Offset
  {
    match t
    case Center => Offset(0, 0)
    case Quad(i, j, q) =>
      var along: int := i + 1;
      var across: int := j;
      if q == 0 then Offset(along, across)
      else if q == 1 then Offset(-across, along)
      else if q == 2 then Offset(-along, -across)
      else Offset(across, -along)
  }

  /** The tag whose corrected offset is d. */
  function TagOf(d: Offset): Tag
  {
    if d.dx == 0 && d.dy == 0 then Center
    else if d.dx > 0 && d.dy >= 0 then Quad(d.dx - 1, d.dy, 0)
    else if d.dx <= 0 && d.dy > 0 then Quad(d.dy - 1, -d.dx, 1)
    else if d.dx < 0 && d.dy <= 0 then Quad(-d.dx - 1, -d.dy, 2)
    else Quad(-d.dy - 1, d.dx, 3)
  }

  lemma OffsetRoundTrip(r: nat, t: Tag)
    requires ValidTag(r, t)
    ensures InDiamond(r, CorrectedOffset(t))
    ensures TagOf(CorrectedOffset(t)) == t
  {
  }

  lemma TagRoundTrip(r: nat, d: Offset)
    requires InDiamond(r, d)
    ensures ValidTag(r, TagOf(d))
    ensures CorrectedOffset(TagOf(d)) == d
  {
  }

  /**
   * With the corrected offsets the INSTANCE_COUNT slots hold the diamond
   * exactly: every slot a cell within distance r, no cell twice, and
   * every cell within distance r in some slot.
   */
  lemma CorrectedLayoutIsDiamond(r: nat)
    ensures |Tags(r)| == InstanceCount(r)
    ensures forall s :: 0 <= s < |Tags(r)| ==> InDiamond(r, CorrectedOffset(Tags(r)[s]))
    ensures forall a, b :: 0 <= a < b < |Tags(r)| ==> CorrectedOffset(Tags(r)[a]) != CorrectedOffset(Tags(r)[b])
    ensures forall d :: InDiamond(r, d) ==> exists s :: 0 <= s < |Tags(r)| && CorrectedOffset(Tags(r)[s]) == d
  {
    var tags := Tags(r);
    TagsFillInstances(r);
    TagsAreTheSteps(r);
    forall s | 0 <= s < |tags|
      ensures InDiamond(r, CorrectedOffset(tags[s]))
    {
      assert tags[s] in tags;
      OffsetRoundTrip(r, tags[s]);
    }
    forall a, b | 0 <= a < b < |tags|
      ensures CorrectedOffset(tags[a]) != CorrectedOffset(tags[b])
    {
      assert tags[a] in tags && tags[b] in tags;
      OffsetRoundTrip(r, tags[a]);
      OffsetRoundTrip(r, tags[b]);
    }
    forall d | InDiamond(r, d)
      ensures exists s :: 0 <= s < |tags| && CorrectedOffset(tags[s]) == d
    {
      TagRoundTrip(r, d);
      var s :| 0 <= s < |tags| && tags[s] == TagOf(d);
    }
  }
}
