/**
 * The server's synthetic video: a white circle of radius 50 on a black
 * 640x480 canvas, moving 10 pixels per frame down the diagonal for 30 frames
 * and back up for 30 more. `CircleVideoStreamTrack` precomputes the 60 frames
 * and hands them out one per `Recv`, looping.
 */
module Animation {

  const Height: nat := 480
  const Width: nat := 640
  const Radius: nat := 50
  /** Frames in one loop of the animation. */
  const Period: nat := 60
  /** Frames in each direction of travel. */
  const Leg: nat := 30

  /** One pixel, in the blue-green-red channel order of the frames. */
  datatype Bgr = Bgr(blue: int, green: int, red: int)

  const Black: Bgr := Bgr(0, 0, 0)
  const White: Bgr := Bgr(255, 255, 255)

  /** A raster, row by row. */
  type Image = seq<seq<Bgr>>

  predicate IsImage(img: Image, rows: nat, cols: nat)
  {
    |img| == rows && forall i :: 0 <= i < rows ==> |img[i]| == cols
  }

  /** `n ** 2`. */
  function Square(n: int): (s: int)
    ensures s >= 0
    ensures s == 0 <==> n == 0
  {
    if n == 0 then 0
    else
      assert n * n > 0 by {
        if n < 0 {
          assert n * n == (-n) * (-n);
        }
      }
      n * n
  }

  /** Squares grow with the distance from zero. */
  lemma SquareBeyond(n: int, r: nat)
    requires n > r || n + r < 0
    ensures Square(n) > Square(r)
  {
    var m := if n < 0 then -n else n;
    assert Square(n) == m * m by {
      if n < 0 {
        assert n * n == m * m;
      }
    }
    assert m * m >= m * (r + 1) >= (r + 1) * r >= r * r;
  }

  /**
   * The boolean index `x**2 + y**2 <= radius**2` over
   * `np.ogrid[-radius:radius, -radius:radius]`: entry (a, b) stands for the
   * offsets y = a - radius and x = b - radius, each running from -radius to
   * radius - 1.
   */
  function OgridDisk(radius: nat): (index: seq<seq<bool>>)
    ensures |index| == 2 * radius
    ensures forall a :: 0 <= a < |index| ==> |index[a]| == 2 * radius
  {
    seq(2 * radius, a => seq(2 * radius, b => InDisk(radius, b - radius, a - radius)))
  }

  /** `x**2 + y**2 <= radius**2`. */
  predicate InDisk(radius: nat, x: int, y: int)
  {
    Square(x) + Square(y) <= Square(radius)
  }

  /**
   * `img[top:top + rows, left:left + cols][index] = color` on a copy of `img`:
   * the cells of the window whose entry in the rows x cols boolean index is
   * true take the colour.
   */
  function AssignMasked(img: Image, top: nat, left: nat, index: seq<seq<bool>>, cols: nat, color: Bgr): (r: Image)
    requires |img| > 0 && IsImage(img, |img|, |img[0]|)
    requires forall a :: 0 <= a < |index| ==> |index[a]| == cols
    requires top + |index| <= |img| && left + cols <= |img[0]|
    ensures IsImage(r, |img|, |img[0]|)
  {
    seq(|img|, i requires 0 <= i < |img| =>
      seq(|img[0]|, j requires 0 <= j < |img[0]| =>
        MaskedCell(img, top, left, index, cols, color, i, j)))
  }

  /** Cell (i, j) of `img` after the masked assignment. */
  function MaskedCell(img: Image, top: nat, left: nat, index: seq<seq<bool>>, cols: nat, color: Bgr, i: nat, j: nat): Bgr
    requires i < |img| && |img[i]| == |img[0]| && j < |img[0]|
    requires forall a :: 0 <= a < |index| ==> |index[a]| == cols
  {
    if top <= i < top + |index| && left <= j < left + cols && index[i - top][j - left]
    then color
    else img[i][j]
  }

  /**
   * `_create_circle(radius, color)`: a black (2 radius + 1)-square mask whose
   * window [c - radius, c + radius) on both axes, with c = radius + 1, is
   * assigned the colour through the ogrid disk.
   */
  function CreateCircle(radius: nat, color: Bgr): (mask: Image)
    ensures IsImage(mask, 2 * radius + 1, 2 * radius + 1)
  {
    var c := radius + 1;
    var zeros := seq(2 * radius + 1, _ => seq(2 * radius + 1, _ => Black));
    AssignMasked(zeros, c - radius, c - radius, OgridDisk(radius), 2 * radius, color)
  }

  /** A black canvas of the frame size. */
  function Background(): (img: Image)
    ensures IsImage(img, Height, Width)
  {
    seq(Height, _ => seq(Width, _ => Black))
  }

  /**
   * A copy of `canvas` whose window starting at row `top` and column `left`
   * is overwritten by `patch` (a slice assignment on a copy of the array).
   */
  function Paste(canvas: Image, patch: Image, top: nat, left: nat): (img: Image)
    requires |canvas| > 0 && IsImage(canvas, |canvas|, |canvas[0]|)
    requires |patch| > 0 && IsImage(patch, |patch|, |patch[0]|)
    requires top + |patch| <= |canvas| && left + |patch[0]| <= |canvas[0]|
    ensures IsImage(img, |canvas|, |canvas[0]|)
  {
    seq(|canvas|, i requires 0 <= i < |canvas| =>
      seq(|canvas[0]|, j requires 0 <= j < |canvas[0]| =>
        if top <= i < top + |patch| && left <= j < left + |patch[0]|
        then patch[i - top][j - left]
        else canvas[i][j]))
  }

  /** `radius + 5 + 10 * k`: the map coordinate of step k, on either axis. */
  function PathCoord(k: int): int
  {
    Radius + 5 + 10 * k
  }

  /** Whether a circle mask whose map coordinate is (mapX, mapY) fits in the frame. */
  predicate FitsFrame(mapX: int, mapY: int)
  {
    Radius <= mapX && mapX + Radius + 1 <= Width && Radius <= mapY && mapY + Radius + 1 <= Height
  }

  /** The frame with the circle mask's top-left corner at (mapY - radius, mapX - radius). */
  function CircleFrame(mapX: int, mapY: int): (frame: Image)
    requires FitsFrame(mapX, mapY)
    ensures IsImage(frame, Height, Width)
  {
    Paste(Background(), CreateCircle(Radius, White), mapY - Radius, mapX - Radius)
  }

  /**
   * Pixel by pixel, the frame whose map coordinate is (mapX, mapY) is white
   * exactly on the disk of the radius around (mapX + 1, mapY + 1), less the
   * disk's bottom-most row and right-most column, and black elsewhere.
   */
  lemma {:induction false} CircleFramePixel(mapX: int, mapY: int, row: int, col: int)
    requires FitsFrame(mapX, mapY)
    requires 0 <= row < Height && 0 <= col < Width
    ensures CircleFrame(mapX, mapY)[row][col] ==
      if row <= mapY + Radius && col <= mapX + Radius
         && Square(row - mapY - 1) + Square(col - mapX - 1) <= Square(Radius)
      then White else Black
  {
    var mask := CreateCircle(Radius, White);
    var top, left := mapY - Radius, mapX - Radius;
    var frame := CircleFrame(mapX, mapY);
    if top <= row < top + |mask| && left <= col < left + |mask[0]| {
      var i, j := row - top, col - left;
      assert frame[row][col] == mask[i][j];
      CircleMaskCells(Radius, White, i, j);
      assert i - Radius - 1 == row - mapY - 1 && j - Radius - 1 == col - mapX - 1;
      if i == 0 {
        SquareBeyond(row - mapY - 1, Radius);
      }
      if j == 0 {
        SquareBeyond(col - mapX - 1, Radius);
      }
    } else {
      assert frame[row][col] == Black;
      if row < top {
        SquareBeyond(row - mapY - 1, Radius);
      } else if col < left {
        SquareBeyond(col - mapX - 1, Radius);
      }
    }
  }

  /** The frame for step k of the path. */
  function StepFrame(k: int): (frame: Image)
    requires 0 <= k < Leg
    ensures IsImage(frame, Height, Width)
  {
    CircleFrame(PathCoord(k), PathCoord(k))
  }

  /** The frame list `__init__` builds: steps 0 to 29, then steps 29 down to 0. */
  function FrameTable(): (table: seq<Image>)
    ensures |table| == Period
    ensures forall i :: 0 <= i < Period ==> IsImage(table[i], Height, Width)
  {
    seq(Leg, k requires 0 <= k < Leg => StepFrame(k))
    + seq(Leg, j requires 0 <= j < Leg => StepFrame(Leg - 1 - j))
  }

  lemma FrameTableAt(i: int)
    requires 0 <= i < Period
    ensures FrameTable()[i] == if i < Leg then StepFrame(i) else StepFrame(Period - 1 - i)
  {
  }

  /** A video track that plays the looping moving-circle animation. */
  class CircleVideoStreamTrack {
    /** Frames handed out so far. */
    var counter: nat
    var frames: seq<Image>

    /** One frame per tick of the loop, so that every tick has its frame. */
    ghost predicate Valid()
      reads this
    {
      |frames| == Period
    }

    constructor ()
      ensures Valid() && frames == FrameTable() && counter == 0
    {
      counter := 0;
      var circle := CreateCircle(Radius, White);
      var background := Background();
      var table: seq<Image> := [];
      var k := 0;
      while k < Leg
        invariant 0 <= k <= Leg
        invariant |table| == k
        invariant forall i :: 0 <= i < k ==> table[i] == StepFrame(i)
      {
        var mapX, mapY := PathCoord(k), PathCoord(k);
        var temp := Paste(background, circle, mapY - Radius, mapX - Radius);
        table := table + [temp];
        k := k + 1;
      }
      k := Leg - 1;
      while k >= 0
        invariant -1 <= k < Leg
        invariant |table| == 2 * Leg - 1 - k
        invariant forall i :: 0 <= i < Leg ==> table[i] == StepFrame(i)
        invariant forall i :: Leg <= i < |table| ==> table[i] == StepFrame(Period - 1 - i)
      {
        var mapX, mapY := PathCoord(k), PathCoord(k);
        var temp := Paste(background, circle, mapY - Radius, mapX - Radius);
        table := table + [temp];
        k := k - 1;
      }
      forall i | 0 <= i < Period
        ensures table[i] == FrameTable()[i]
      {
        FrameTableAt(i);
      }
      frames := table;
    }

    /** Hands out the frame for the current tick and advances the tick. */
    method Recv() returns (frame: Image)
      requires Valid()
      modifies this
      ensures Valid() && frames == old(frames)
      ensures frame == frames[old(counter) % Period]
      ensures counter == old(counter) + 1
    {
      frame := frames[counter % Period];
      counter := counter + 1;
    }
  }

  /**
   * A client of a fresh track: the first frame `recv` hands out and the one it
   * hands out after sixty more calls are the same, the table's first entry.
   */
  method FirstAndSixtyFirstFrames() returns (first: Image, sixtyFirst: Image)
    ensures first == sixtyFirst == FrameTable()[0]
  {
    var stream := new CircleVideoStreamTrack();
    ghost var table := stream.frames;
    first := stream.Recv();
    var i := 0;
    while i < Period - 1
      invariant 0 <= i <= Period - 1
      invariant stream.Valid() && stream.frames == table && stream.counter == i + 1
    {
      var _ := stream.Recv();
      i := i + 1;
    }
    sixtyFirst := stream.Recv();
  }

  /**
   * Whatever the counter, the frame `recv` hands out now and the one it hands
   * out sixty calls later are the same entry of the frame list.
   */
  method FrameAndSixtyLater(stream: CircleVideoStreamTrack) returns (now: Image, later: Image)
    requires stream.Valid()
    modifies stream
    ensures stream.Valid() && stream.frames == old(stream.frames)
    ensures now == later == stream.frames[old(stream.counter) % Period]
    ensures stream.counter == old(stream.counter) + Period + 1
  {
    now := stream.Recv();
    var i := 0;
    while i < Period - 1
      invariant 0 <= i <= Period - 1
      invariant stream.Valid() && stream.frames == old(stream.frames)
      invariant stream.counter == old(stream.counter) + i + 1
    {
      var _ := stream.Recv();
      i := i + 1;
    }
    later := stream.Recv();
  }

  /**
   * The mask, cell by cell: the ogrid disk, assigned through the window that
   * starts at row and column 1, lights exactly the cells of rows and columns
   * 1 to 2 radius within the radius of cell (radius + 1, radius + 1); every
   * other cell stays black.
   */
  lemma CircleMaskCells(radius: nat, color: Bgr, i: int, j: int)
    requires 0 <= i < 2 * radius + 1 && 0 <= j < 2 * radius + 1
    ensures CreateCircle(radius, color)[i][j] ==
      if 1 <= i <= 2 * radius && 1 <= j <= 2 * radius
         && Square(i - radius - 1) + Square(j - radius - 1) <= Square(radius)
      then color else Black
  {
    var mask := CreateCircle(radius, color);
    if 1 <= i <= 2 * radius && 1 <= j <= 2 * radius {
      assert mask[i][j] == if OgridDisk(radius)[i - 1][j - 1] then color else Black;
      assert OgridDisk(radius)[i - 1][j - 1] == InDisk(radius, j - 1 - radius, i - 1 - radius);
      assert i - 1 - radius == i - radius - 1 && j - 1 - radius == j - radius - 1;
    } else {
      assert mask[i][j] == Black;
    }
  }

  /** The mask is symmetric under transposition, and its row 0 and column 0 are clear. */
  lemma CircleMaskSymmetric(radius: nat, color: Bgr, i: int, j: int)
    requires 0 <= i < 2 * radius + 1 && 0 <= j < 2 * radius + 1
    ensures var mask := CreateCircle(radius, color);
      mask[i][j] == mask[j][i] && mask[0][j] == Black && mask[j][0] == Black
  {
    CircleMaskCells(radius, color, i, j);
    CircleMaskCells(radius, color, j, i);
    CircleMaskCells(radius, color, 0, j);
    CircleMaskCells(radius, color, j, 0);
  }

  /**
   * The lit part of the mask reaches columns 1 and 2 radius in row radius + 1,
   * and rows 1 and 2 radius in column radius + 1: it is 2 radius cells across,
   * one cell less than the mask.
   */
  lemma CircleMaskExtent(radius: nat, color: Bgr)
    requires radius >= 1
    ensures var mask := CreateCircle(radius, color);
      var c := radius + 1;
      && mask[c][1] == color && mask[c][2 * radius] == color
      && mask[1][c] == color && mask[2 * radius][c] == color
  {
    var c := radius + 1;
    CircleMaskCells(radius, color, c, 1);
    CircleMaskCells(radius, color, c, 2 * radius);
    CircleMaskCells(radius, color, 1, c);
    CircleMaskCells(radius, color, 2 * radius, c);
    var r: int := radius;
    assert Square(-r) == Square(r) by {
      assert (-r) * (-r) == r * r;
    }
    assert Square(r - 1) <= Square(r) by {
      assert (r - 1) * (r - 1) <= r * r;
    }
  }
}
