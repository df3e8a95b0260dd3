/**
 * The devices the CPU talks to: the monochrome pixel grid with its XOR sprite
 * draw, and the state of the sixteen-key keypad.
 */
module Interfaces {
  import opened Types

  /** Pixels by row, then column; `true` is lit. */
  type Grid = seq<seq<bool>>

  predicate Shaped(g: Grid, width: nat, height: nat)
  {
    |g| == height && forall r :: 0 <= r < height ==> |g[r]| == width
  }

  function Blank(width: nat, height: nat): (g: Grid)
    ensures Shaped(g, width, height)
    ensures forall r, c :: 0 <= r < height && 0 <= c < width ==> !g[r][c]
  {
    seq(height, _ => seq(width, _ => false))
  }

  /** Bit k of a sprite byte, counting from the most significant (k = 0). */
  function SpriteBit(b: u8, k: nat): bool
    requires k < 8
  {
    (b as int / Pow2(7 - k)) % 2 == 1
  }

  /** Sprite bits are read most significant first. */
  lemma SpriteBitOrder(b: u8)
    ensures SpriteBit(b, 0) <==> b >= 0x80
    ensures SpriteBit(b, 7) <==> b % 2 == 1
  {
    assert Pow2(7) == 0x80;
  }

  /** Where offset i of a sprite that starts at p0 lands: `(p0 + i) % size`. */
  function Place(p0: nat, i: nat, size: nat): nat
    requires 0 < size
  {
    (p0 + i) % size
  }

  /** The sprite offset at which screen coordinate p is reached from p0, going
      forward and wrapping round the edge: the inverse of Place. */
  function Offset(p0: nat, p: nat, size: nat): nat
    requires p0 < size && p < size
  {
    if p >= p0 then p - p0 else p + size - p0
  }

  lemma PlaceOffset(p0: nat, i: nat, size: nat)
    requires p0 < size && i < size
    ensures Place(p0, i, size) < size && Offset(p0, Place(p0, i, size), size) == i
  {
    if p0 + i >= size {
      assert (p0 + i) % size == p0 + i - size by { Wrap(p0 + i, size); }
    }
  }

  lemma OffsetPlace(p0: nat, p: nat, size: nat)
    requires p0 < size && p < size
    ensures Offset(p0, p, size) < size && Place(p0, Offset(p0, p, size), size) == p
  {
    if p < p0 {
      Wrap(p + size, size);
    }
  }

  lemma NoWrap(q: nat, size: nat)
    requires q < size
    ensures q % size == q
  {
  }

  lemma Wrap(q: nat, size: nat)
    requires 0 < size <= q < 2 * size
    ensures q % size == q - size
  {
    assert q == 1 * size + (q - size);
  }

  /** Within a row drawn from a sprite byte `bits` whose left edge is at x0: column c
      lies under a set bit, and that bit is not clipped away at the right edge. */
  predicate ColumnCovered(width: nat, wrap: bool, x0: nat, bits: u8, c: nat)
    requires x0 < width && c < width
  {
    var k := Offset(x0, c, width);
    k < 8 && (wrap || x0 + k < width) && SpriteBit(bits, k)
  }

  /** Everything about one draw call that decides which pixels flip: the screen size,
      wrap or clip, the top-left corner already reduced into the screen, and the rows. */
  datatype Placement = Placement(width: nat, height: nat, wrap: bool, x0: nat, y0: nat, sprite: seq<u8>)
  {
    predicate Valid()
    {
      8 <= width && 0 < height && x0 < width && y0 < height && |sprite| <= height
    }

    /** Sprite row i exists and is not clipped away at the bottom edge. */
    predicate RowDrawn(i: nat)
    {
      i < |sprite| && (wrap || y0 + i < height)
    }

    /** Pixel (r, c) lies under a set bit of a drawn sprite row. */
    predicate Covers(r: nat, c: nat)
      requires Valid() && r < height && c < width
    {
      var i := Offset(y0, r, height);
      RowDrawn(i) && ColumnCovered(width, wrap, x0, sprite[i], c)
    }

    /** Drawn sprite row i turns off at least one pixel of g that was on. */
    predicate RowCollides(g: Grid, i: nat)
      requires Valid() && Shaped(g, width, height) && RowDrawn(i)
    {
      var r := Place(y0, i, height);
      exists c :: 0 <= c < width && ColumnCovered(width, wrap, x0, sprite[i], c) && g[r][c]
    }
  }

  /** The grid after the XOR: each pixel under a set sprite bit is negated. */
  function Flipped(g: Grid, p: Placement): (f: Grid)
    requires p.Valid() && Shaped(g, p.width, p.height)
    ensures Shaped(f, p.width, p.height)
  {
    seq(p.height, r requires 0 <= r < p.height =>
      seq(p.width, c requires 0 <= c < p.width => g[r][c] != p.Covers(r, c)))
  }

  /** How many of the first n sprite rows turn off a lit pixel. */
  function CollidingRows(g: Grid, p: Placement, n: nat): (count: nat)
    requires p.Valid() && Shaped(g, p.width, p.height) && n <= |p.sprite|
    ensures count <= n
  {
    if n == 0 then 0
    else CollidingRows(g, p, n - 1) + (if p.RowDrawn(n - 1) && p.RowCollides(g, n - 1) then 1 else 0)
  }

  /** The value of a display buffer. */
  datatype Screen = Screen(width: nat, height: nat, grid: Grid, dirty: bool, wrapSprites: bool, halfResolution: bool)
  {
    predicate Valid()
    {
      8 <= width && 0 < height && Shaped(grid, width, height)
    }

    function PlacementOf(x: nat, y: nat, sprite: seq<u8>): (p: Placement)
      requires Valid() && |sprite| <= height
      ensures p.Valid()
    {
      Placement(width, height, wrapSprites, x % width, y % height, sprite)
    }

    function Cleared(): (s: Screen)
      requires Valid()
      ensures s.Valid()
    {
      this.(grid := Blank(width, height), dirty := true)
    }

    function Drawn(x: nat, y: nat, sprite: seq<u8>): (s: Screen)
      requires Valid() && |sprite| <= height
      ensures s.Valid()
    {
      this.(grid := Flipped(grid, PlacementOf(x, y, sprite)), dirty := true)
    }

    /** What `draw` reports: the number of sprite rows that turned a lit pixel off. */
    function Collisions(x: nat, y: nat, sprite: seq<u8>): nat
      requires Valid() && |sprite| <= height
    {
      CollidingRows(grid, PlacementOf(x, y, sprite), |sprite|)
    }
  }

  datatype DisplayOptions = DisplayOptions(wrapSprites: bool)

  class DisplayBuffer {
    const width: nat
    const height: nat
    const buffer: array<seq<bool>>
    var dirty: bool
    var wrapSprites: bool
    var halfResolution: bool

    ghost predicate Valid()
      reads this, buffer
    {
      8 <= width && 0 < height && buffer.Length == height
      && forall r :: 0 <= r < height ==> |buffer[r]| == width
    }

    ghost function Snapshot(): (s: Screen)
      reads this, buffer
      ensures Valid() ==> s.Valid()
    {
      Screen(width, height, buffer[..], dirty, wrapSprites, halfResolution)
    }

    constructor (width: nat, height: nat, options: DisplayOptions)
      requires 8 <= width && 0 < height
      ensures Valid() && fresh(buffer)
      ensures Snapshot() == Screen(width, height, Blank(width, height), false, options.wrapSprites, false)
    {
      this.width := width;
      this.height := height;
      buffer := new seq<bool>[height](_ => seq(width, _ => false));
      dirty := false;
      wrapSprites := options.wrapSprites;
      halfResolution := false;
      new;
      assert buffer[..] == Blank(width, height);
    }

    /** Turns every pixel off. */
    method Clear()
      requires Valid()
      modifies this, buffer
      ensures Valid() && Snapshot() == old(Snapshot()).Cleared()
    {
      for r := 0 to height
        modifies buffer
        invariant forall j :: 0 <= j < r ==> buffer[j] == seq(width, _ => false)
        invariant forall j :: r <= j < height ==> buffer[j] == old(buffer[j])
      {
        buffer[r] := seq(width, _ => false);
      }
      dirty := true;
      assert buffer[..] == Blank(width, height);
    }

    /** XORs sprite row i, the byte `bits`, onto screen row cy, and says whether it
        turned a lit pixel off. */
    method DrawRow(ghost g: Grid, ghost p: Placement, i: nat, x0: nat, cy: nat, bits: u8) returns (collided: bool)
      requires Valid() && p.Valid() && Shaped(g, width, height)
      requires p.width == width && p.height == height && p.wrap == wrapSprites && p.x0 == x0
      requires i < |p.sprite| && bits == p.sprite[i] && (p.wrap || p.y0 + i < height)
      requires cy == Place(p.y0, i, height) && PartlyFlipped(buffer[..], g, p, i)
      modifies buffer
      ensures Valid()
      ensures PartlyFlipped(buffer[..], g, p, i + 1)
      ensures CollidingRows(g, p, i + 1) == CollidingRows(g, p, i) + (if collided then 1 else 0)
    {
      UntouchedRow(buffer[..], g, p, i);
      var row;
      row, collided := ToggleRow(buffer[cy], x0, bits, wrapSprites);
      ghost var before := buffer[..];
      buffer[cy] := row;
      FlipRow(before, g, p, i, row, collided);
      assert buffer[..] == before[cy := row];
    }

    /** XORs the sprite onto the grid with its top-left corner at (x, y) reduced into
        the screen, and returns how many sprite rows turned a lit pixel off. */
    method Draw(x: nat, y: nat, sprite: seq<u8>) returns (collidingRows: nat)
      requires Valid() && |sprite| <= height
      modifies this, buffer
      ensures Valid()
      ensures Snapshot() == old(Snapshot()).Drawn(x, y, sprite)
      ensures collidingRows == old(Snapshot()).Collisions(x, y, sprite)
    {
      ghost var g := buffer[..];
      var x0, y0 := x % width, y % height;
      ghost var p := Placement(width, height, wrapSprites, x0, y0, sprite);
      collidingRows := 0;
      var i := 0;
      while i < |sprite|
        modifies buffer
        invariant Valid()
        invariant i <= |sprite|
        invariant !wrapSprites ==> y0 + i < height
        invariant PartlyFlipped(buffer[..], g, p, i)
        invariant collidingRows == CollidingRows(g, p, i)
      {
        var cy := (y0 + i) % height;
        if !wrapSprites {
          NoWrap(y0 + i, height);
        }
        var collided := DrawRow(g, p, i, x0, cy, sprite[i]);
        if collided {
          collidingRows := collidingRows + 1;
        }
        if !wrapSprites && cy == height - 1 {
          i := i + 1;
          break;
        }
        i := i + 1;
      }
      NoRowsBeyond(g, p, i);
      dirty := true;
      AllFlipped(buffer[..], g, p, i);
    }
  }

  /** The first i sprite rows have been XORed onto g, and nothing else changed. */
  ghost predicate PartlyFlipped(b: Grid, g: Grid, p: Placement, i: nat)
    requires p.Valid() && Shaped(g, p.width, p.height)
  {
    && Shaped(b, p.width, p.height)
    && forall r, c :: 0 <= r < p.height && 0 <= c < p.width ==>
         b[r][c] == (g[r][c] != (p.Covers(r, c) && Offset(p.y0, r, p.height) < i))
  }

  /** The row sprite row i lands on has not been touched yet. */
  lemma UntouchedRow(b: Grid, g: Grid, p: Placement, i: nat)
    requires p.Valid() && Shaped(g, p.width, p.height) && i < |p.sprite|
    requires PartlyFlipped(b, g, p, i)
    ensures Place(p.y0, i, p.height) < p.height && b[Place(p.y0, i, p.height)] == g[Place(p.y0, i, p.height)]
  {
    var r := Place(p.y0, i, p.height);
    PlaceOffset(p.y0, i, p.height);
    assert forall c :: 0 <= c < p.width ==> b[r][c] == g[r][c];
  }

  /** Writing back the toggled row i extends the XOR by one row, and the row's
      collision flag is the one the count adds. */
  lemma FlipRow(b: Grid, g: Grid, p: Placement, i: nat, row: seq<bool>, collided: bool)
    requires p.Valid() && Shaped(g, p.width, p.height) && i < |p.sprite|
    requires p.wrap || p.y0 + i < p.height
    requires PartlyFlipped(b, g, p, i)
    requires var cy := Place(p.y0, i, p.height);
      && cy < p.height
      && |row| == p.width
      && (forall c :: 0 <= c < p.width ==> row[c] == (g[cy][c] != ColumnCovered(p.width, p.wrap, p.x0, p.sprite[i], c)))
      && (collided <==> exists c :: 0 <= c < p.width && ColumnCovered(p.width, p.wrap, p.x0, p.sprite[i], c) && g[cy][c])
    ensures PartlyFlipped(b[Place(p.y0, i, p.height) := row], g, p, i + 1)
    ensures CollidingRows(g, p, i + 1) == CollidingRows(g, p, i) + (if collided then 1 else 0)
  {
    var cy := Place(p.y0, i, p.height);
    PlaceOffset(p.y0, i, p.height);
    var b' := b[cy := row];
    forall r, c | 0 <= r < p.height && 0 <= c < p.width
      ensures b'[r][c] == (g[r][c] != (p.Covers(r, c) && Offset(p.y0, r, p.height) < i + 1))
    {
      if r != cy {
        OffsetPlace(p.y0, r, p.height);
      }
    }
  }

  /** Once every drawn row is done, the buffer is the flipped grid. */
  lemma AllFlipped(b: Grid, g: Grid, p: Placement, i: nat)
    requires p.Valid() && Shaped(g, p.width, p.height) && PartlyFlipped(b, g, p, i)
    requires forall r, c :: 0 <= r < p.height && 0 <= c < p.width && p.Covers(r, c) ==> Offset(p.y0, r, p.height) < i
    ensures b == Flipped(g, p)
  {
    var f := Flipped(g, p);
    forall r | 0 <= r < p.height
      ensures b[r] == f[r]
    {
    }
  }

  /** One sprite row: toggles the pixels of `row` under the set bits of `bits`, whose
      leftmost bit lands on column x0, and says whether a lit pixel was turned off. */
  method ToggleRow(row: seq<bool>, x0: nat, bits: u8, wrap: bool) returns (toggled: seq<bool>, collided: bool)
    requires 8 <= |row| && x0 < |row|
    ensures |toggled| == |row|
    ensures forall c :: 0 <= c < |row| ==> toggled[c] == (row[c] != ColumnCovered(|row|, wrap, x0, bits, c))
    ensures collided <==> exists c :: 0 <= c < |row| && ColumnCovered(|row|, wrap, x0, bits, c) && row[c]
  {
    var width := |row|;
    toggled, collided := row, false;
    var k := 0;
    while k < 8
      invariant k <= 8
      invariant !wrap ==> x0 + k < width
      invariant |toggled| == width
      invariant forall c :: 0 <= c < width ==>
        toggled[c] == (row[c] != (ColumnCovered(width, wrap, x0, bits, c) && Offset(x0, c, width) < k))
      invariant collided <==> exists c ::
        0 <= c < width && ColumnCovered(width, wrap, x0, bits, c) && Offset(x0, c, width) < k && row[c]
    {
      var cx := (x0 + k) % width;
      PlaceOffset(x0, k, width);
      if !wrap {
        NoWrap(x0 + k, width);
      }
      if SpriteBit(bits, k) {
        if toggled[cx] {
          collided := true;
        }
        toggled := toggled[cx := !toggled[cx]];
      }
      if !wrap && cx == width - 1 {
        k := k + 1;
        break;
      }
      k := k + 1;
    }
    forall c | 0 <= c < width && ColumnCovered(width, wrap, x0, bits, c)
      ensures Offset(x0, c, width) < k
    {
    }
  }

  /** Rows past the last one drawn add no collisions, and none of their pixels are covered. */
  lemma NoRowsBeyond(g: Grid, p: Placement, i: nat)
    requires p.Valid() && Shaped(g, p.width, p.height) && i <= |p.sprite|
    requires i == |p.sprite| || (!p.wrap && p.y0 + i == p.height)
    ensures CollidingRows(g, p, |p.sprite|) == CollidingRows(g, p, i)
    ensures forall r, c :: 0 <= r < p.height && 0 <= c < p.width && p.Covers(r, c) ==> Offset(p.y0, r, p.height) < i
  {
    CollidingRowsStable(g, p, i, |p.sprite|);
  }

  lemma {:induction false} CollidingRowsStable(g: Grid, p: Placement, m: nat, n: nat)
    requires p.Valid() && Shaped(g, p.width, p.height) && m <= n <= |p.sprite|
    requires forall i :: m <= i < n ==> !p.RowDrawn(i)
    ensures CollidingRows(g, p, n) == CollidingRows(g, p, m)
    decreases n
  {
    if n > m {
      CollidingRowsStable(g, p, m, n - 1);
    }
  }

  // ---- Properties of the draw ----

  /** A pixel flips exactly when some drawn, set sprite bit lands on it. */
  lemma FlipsExactly(g: Grid, p: Placement, r: nat, c: nat)
    requires p.Valid() && Shaped(g, p.width, p.height) && r < p.height && c < p.width
    ensures Flipped(g, p)[r][c] != g[r][c] <==>
      exists i, k :: 0 <= i < |p.sprite| && 0 <= k < 8 && p.RowDrawn(i) && (p.wrap || p.x0 + k < p.width)
        && SpriteBit(p.sprite[i], k) && r == Place(p.y0, i, p.height) && c == Place(p.x0, k, p.width)
  {
    var i, k := Offset(p.y0, r, p.height), Offset(p.x0, c, p.width);
    OffsetPlace(p.y0, r, p.height);
    OffsetPlace(p.x0, c, p.width);
    if Flipped(g, p)[r][c] != g[r][c] {
      assert p.RowDrawn(i) && SpriteBit(p.sprite[i], k);
    }
    forall i', k' | 0 <= i' < |p.sprite| && 0 <= k' < 8 && r == Place(p.y0, i', p.height) && c == Place(p.x0, k', p.width)
      ensures i' == i && k' == k
    {
      PlaceOffset(p.y0, i', p.height);
      PlaceOffset(p.x0, k', p.width);
    }
  }

  /** Drawing the same sprite at the same place twice gives back the grid. */
  lemma DrawTwice(s: Screen, x: nat, y: nat, sprite: seq<u8>)
    requires s.Valid() && |sprite| <= s.height
    ensures s.Drawn(x, y, sprite).Drawn(x, y, sprite) == s.(dirty := true)
  {
    var p := s.PlacementOf(x, y, sprite);
    var twice := Flipped(Flipped(s.grid, p), p);
    forall r | 0 <= r < s.height
      ensures twice[r] == s.grid[r]
    {
    }
  }

  /** Clearing leaves every pixel off and marks the buffer dirty. */
  lemma ClearBlank(s: Screen)
    requires s.Valid()
    ensures var t := s.Cleared();
      t.dirty && t.width == s.width && t.height == s.height
      && forall r, c :: 0 <= r < s.height && 0 <= c < s.width ==> !t.grid[r][c]
  {
  }

  /** Drawing marks the buffer dirty, keeps its size and options, and leaves every
      pixel that no set sprite bit covers as it was. */
  lemma DrawFrame(s: Screen, x: nat, y: nat, sprite: seq<u8>, r: nat, c: nat)
    requires s.Valid() && |sprite| <= s.height && r < s.height && c < s.width
    ensures var t := s.Drawn(x, y, sprite);
      && t.dirty && t.width == s.width && t.height == s.height
      && t.wrapSprites == s.wrapSprites && t.halfResolution == s.halfResolution
      && (!s.PlacementOf(x, y, sprite).Covers(r, c) ==> t.grid[r][c] == s.grid[r][c])
  {
  }

  /** In clip mode nothing is drawn left of or above the sprite's reduced corner. */
  lemma ClipStaysInside(p: Placement, r: nat, c: nat)
    requires p.Valid() && !p.wrap && r < p.height && c < p.width && p.Covers(r, c)
    ensures p.y0 <= r && p.x0 <= c
  {
  }

  /** In clip mode sprite rows and bits past the bottom or right edge are dropped. */
  lemma ClipDiscards(p: Placement, i: nat, k: nat)
    requires p.Valid() && !p.wrap && i < |p.sprite| && k < 8
    requires p.y0 + i >= p.height || p.x0 + k >= p.width
    ensures forall r, c :: (0 <= r < p.height && 0 <= c < p.width
      && Offset(p.y0, r, p.height) == i && Offset(p.x0, c, p.width) == k) ==> !p.Covers(r, c)
  {
  }

  /** The count is positive exactly when some covered pixel was lit. */
  lemma CollisionIff(g: Grid, p: Placement)
    requires p.Valid() && Shaped(g, p.width, p.height)
    ensures CollidingRows(g, p, |p.sprite|) > 0 <==>
      exists r, c :: 0 <= r < p.height && 0 <= c < p.width && p.Covers(r, c) && g[r][c]
  {
    CollidingRowsPositive(g, p, |p.sprite|);
    if CollidingRows(g, p, |p.sprite|) > 0 {
      var i :| 0 <= i < |p.sprite| && p.RowDrawn(i) && p.RowCollides(g, i);
      var r := Place(p.y0, i, p.height);
      PlaceOffset(p.y0, i, p.height);
      var c :| 0 <= c < p.width && ColumnCovered(p.width, p.wrap, p.x0, p.sprite[i], c) && g[r][c];
      assert p.Covers(r, c);
    } else if r, c :| 0 <= r < p.height && 0 <= c < p.width && p.Covers(r, c) && g[r][c] {
      var i := Offset(p.y0, r, p.height);
      OffsetPlace(p.y0, r, p.height);
      assert p.RowCollides(g, i);
    }
  }

  lemma {:induction false} CollidingRowsPositive(g: Grid, p: Placement, n: nat)
    requires p.Valid() && Shaped(g, p.width, p.height) && n <= |p.sprite|
    ensures CollidingRows(g, p, n) > 0 <==> exists i :: 0 <= i < n && p.RowDrawn(i) && p.RowCollides(g, i)
  {
    if n > 0 {
      CollidingRowsPositive(g, p, n - 1);
    }
  }

  // ---- Keypad ----

  /** The lowest index at or after `from` whose key is pressed. */
  function FirstPressed(state: seq<bool>, from: nat): (r: Option<nat>)
    requires from <= |state|
    ensures r.Some? ==> (from <= r.value < |state| && state[r.value]
      && forall j :: from <= j < r.value ==> !state[j])
    ensures r.None? <==> forall j :: from <= j < |state| ==> !state[j]
    decreases |state| - from
  {
    if from == |state| then None
    else if state[from] then Some(from)
    else FirstPressed(state, from + 1)
  }

  /** Which of the sixteen keys are held down. */
  class KeypadState {
    var state: seq<bool>

    ghost predicate Valid()
      reads this
    {
      |state| == KEY_COUNT
    }

    constructor ()
      ensures Valid() && forall k :: 0 <= k < KEY_COUNT ==> !state[k]
    {
      state := seq(KEY_COUNT, _ => false);
    }

    /** Whether the key is held down: a held key means some key is reported as
        pressed, no higher than it, and the reported key is held. */
    predicate Pressed(key: nat)
      reads this
      requires Valid() && key < KEY_COUNT
      ensures Pressed(key) ==> PressedKey().Some? && PressedKey().value <= key
      ensures PressedKey() == Some(key) ==> Pressed(key)
    {
      state[key]
    }

    /** The lowest-numbered pressed key, if any. */
    function PressedKey(): (r: Option<nat>)
      reads this
      requires Valid()
      ensures r.Some? ==> (r.value < KEY_COUNT && state[r.value]
        && forall j :: 0 <= j < r.value ==> !state[j])
      ensures r.None? <==> forall j :: 0 <= j < KEY_COUNT ==> !state[j]
    {
      FirstPressed(state, 0)
    }

    method Release()
      requires Valid()
      modifies this
      ensures Valid() && forall k :: 0 <= k < KEY_COUNT ==> !state[k]
    {
      state := seq(|state|, _ => false);
    }

    method Set(key: nat, pressed: bool)
      requires Valid() && key < KEY_COUNT
      modifies this
      ensures Valid() && state == old(state)[key := pressed]
    {
      state := state[key := pressed];
    }
  }
}
