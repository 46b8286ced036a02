/** The face: where the two eyes sit on the 320x240 sprite, what one frame
    of the face is made of, and how a pupil axis steps toward its target.
    Everything here is pure; the class in module Robot applies it to the
    firmware's globals. */
module Eyes {

  /* ===== Eye layout constants ===== */
  const LeftEyeX: int := 100
  const RightEyeX: int := 220
  const EyeCenterY: int := 120
  const WhiteRadius: int := 55
  const BlackRadius: int := 20

  /** Half-size of a closed-eye bar (a 60x10 black rectangle per eye). */
  const BarHalfWidth: int := 30
  const BarHalfHeight: int := 5
  /** Text size of the "$" glyph drawn in money mode. */
  const DollarTextSize: nat := 5

  /** Travel envelope of the pupil offset: targets are drawn from
      random(-30, 31) horizontally and random(-15, 16) vertically. */
  const TravelX: int := 30
  const TravelY: int := 15

  predicate InEnvelope(x: int, y: int) {
    -TravelX <= x <= TravelX && -TravelY <= y <= TravelY
  }

  /* ===== One frame of the face ===== */

  /** The drawing primitives the face is built from, in sprite coordinates. */
  datatype Shape =
    | Background                                 // fillScreen(TFT_BLACK)
    | WhiteDisk(cx: int, cy: int, r: int)        // eye white, TFT_WHITE
    | Bar(x: int, y: int, w: int, h: int)        // closed-eye bar, TFT_BLACK
    | DollarGlyph(cx: int, cy: int, size: nat)   // "$" centred on (cx, cy)
    | PupilDisk(cx: int, cy: int, r: int)        // pupil, TFT_BLACK

  /** A frame is the list of primitives drawn, in order, before the sprite is pushed. */
  type Frame = seq<Shape>

  predicate ShowsClosed(f: Frame) {
    exists i :: 0 <= i < |f| && f[i].Bar?
  }

  predicate ShowsDollars(f: Frame) {
    exists i :: 0 <= i < |f| && f[i].DollarGlyph?
  }

  predicate ShowsPupils(f: Frame) {
    exists i :: 0 <= i < |f| && f[i].PupilDisk?
  }

  /** The two eye whites, drawn into every frame on a black background. */
  function EyeWhites(): Frame {
    [Background,
     WhiteDisk(LeftEyeX, EyeCenterY, WhiteRadius),
     WhiteDisk(RightEyeX, EyeCenterY, WhiteRadius)]
  }

  /** The frame drawEyes composes for the given pupil offset: closed bars win
      over everything, the "$" glyphs come next in money mode, and the black
      pupils are drawn otherwise. Glyphs and pupils sit on the eye centres
      moved by the offset. */
  function Compose(offsetX: int, offsetY: int, closed: bool, moneyMode: bool): (f: Frame)
    ensures |f| == 5 && f[..3] == EyeWhites()
    ensures ShowsClosed(f) <==> closed
    ensures ShowsDollars(f) <==> !closed && moneyMode
    ensures ShowsPupils(f) <==> !closed && !moneyMode
    ensures forall i :: 3 <= i < |f| && (f[i].DollarGlyph? || f[i].PupilDisk?) ==>
              f[i].cy == EyeCenterY + offsetY &&
              f[i].cx == (if i == 3 then LeftEyeX else RightEyeX) + offsetX
  {
    var centreY := EyeCenterY + offsetY;
    var marks :=
      if closed then
        [Bar(LeftEyeX - BarHalfWidth, EyeCenterY - BarHalfHeight, 2 * BarHalfWidth, 2 * BarHalfHeight),
         Bar(RightEyeX - BarHalfWidth, EyeCenterY - BarHalfHeight, 2 * BarHalfWidth, 2 * BarHalfHeight)]
      else if moneyMode then
        [DollarGlyph(LeftEyeX + offsetX, centreY, DollarTextSize),
         DollarGlyph(RightEyeX + offsetX, centreY, DollarTextSize)]
      else
        [PupilDisk(LeftEyeX + offsetX, centreY, BlackRadius),
         PupilDisk(RightEyeX + offsetX, centreY, BlackRadius)];
    var f := EyeWhites() + marks;
    assert f[3] == marks[0] && f[4] == marks[1];
    f
  }

  /* ===== Geometry of the layout ===== */

  /** A disk of radius r centred on (x, y) lies inside the white disk w. */
  predicate DiskInside(x: int, y: int, r: int, w: Shape)
    requires w.WhiteDisk?
  {
    0 <= r <= w.r && (x - w.cx) * (x - w.cx) + (y - w.cy) * (y - w.cy) <= (w.r - r) * (w.r - r)
  }

  /** A point lies inside (or on the rim of) the white disk w. */
  predicate PointInside(x: int, y: int, w: Shape)
    requires w.WhiteDisk?
  {
    (x - w.cx) * (x - w.cx) + (y - w.cy) * (y - w.cy) <= w.r * w.r
  }

  lemma SquareAtMost(x: int, b: int)
    requires -b <= x <= b
    ensures x * x <= b * b
  {
    if x >= 0 {
      assert x * x <= x * b;
      assert x * b <= b * b;
    } else {
      assert x * x == (-x) * (-x);
      assert (-x) * (-x) <= (-x) * b;
      assert (-x) * b <= b * b;
    }
  }

  /** Any offset in the travel envelope keeps a pupil-sized disk inside an
      eye white: 30*30 + 15*15 <= (55 - 20) * (55 - 20). */
  lemma EnvelopeFitsWhite(dx: int, dy: int)
    requires InEnvelope(dx, dy)
    ensures dx * dx + dy * dy <= (WhiteRadius - BlackRadius) * (WhiteRadius - BlackRadius)
  {
    SquareAtMost(dx, TravelX);
    SquareAtMost(dy, TravelY);
  }

  /** In a normal frame with the offset in the envelope, each pupil disk lies
      entirely inside the white of its own eye. */
  lemma PupilsInsideWhites(offsetX: int, offsetY: int)
    requires InEnvelope(offsetX, offsetY)
    ensures var f := Compose(offsetX, offsetY, false, false);
            f[3].PupilDisk? && DiskInside(f[3].cx, f[3].cy, f[3].r, f[1]) &&
            f[4].PupilDisk? && DiskInside(f[4].cx, f[4].cy, f[4].r, f[2])
  {
    EnvelopeFitsWhite(offsetX, offsetY);
  }

  /** In a money frame with the offset in the envelope, each "$" is centred
      inside the white of its own eye, at least a pupil radius from the rim. */
  lemma DollarsCentredInWhites(offsetX: int, offsetY: int)
    requires InEnvelope(offsetX, offsetY)
    ensures var f := Compose(offsetX, offsetY, false, true);
            f[3].DollarGlyph? && DiskInside(f[3].cx, f[3].cy, BlackRadius, f[1]) &&
            f[4].DollarGlyph? && DiskInside(f[4].cx, f[4].cy, BlackRadius, f[2])
  {
    EnvelopeFitsWhite(offsetX, offsetY);
  }

  /** Bar b is centred on the centre of white w and all four of its
      corners lie inside w. */
  predicate BarAcross(b: Shape, w: Shape)
    requires w.WhiteDisk?
  {
    b.Bar? && b.x + b.w / 2 == w.cx && b.y + b.h / 2 == w.cy &&
    PointInside(b.x, b.y, w) && PointInside(b.x + b.w, b.y, w) &&
    PointInside(b.x, b.y + b.h, w) && PointInside(b.x + b.w, b.y + b.h, w)
  }

  /** A closed-eye bar lies across the middle of its eye white. */
  lemma BarsInsideWhites(offsetX: int, offsetY: int, moneyMode: bool)
    ensures var f := Compose(offsetX, offsetY, true, moneyMode);
            BarAcross(f[3], f[1]) && BarAcross(f[4], f[2])
  {
    var f := Compose(offsetX, offsetY, true, moneyMode);
    assert f[1] == WhiteDisk(LeftEyeX, EyeCenterY, WhiteRadius);
    assert f[2] == WhiteDisk(RightEyeX, EyeCenterY, WhiteRadius);
    assert f[3] == Bar(LeftEyeX - BarHalfWidth, EyeCenterY - BarHalfHeight, 2 * BarHalfWidth, 2 * BarHalfHeight);
    assert f[4] == Bar(RightEyeX - BarHalfWidth, EyeCenterY - BarHalfHeight, 2 * BarHalfWidth, 2 * BarHalfHeight);
  }

  /* ===== Pupil motion ===== */

  function Dist(a: int, b: int): nat {
    if a <= b then b - a else a - b
  }

  /** One tick of one pupil axis: move one unit toward the target, or stay
      when already there. */
  function StepToward(current: int, target: int): (next: int)
    ensures Dist(next, current) <= 1
    ensures current <= target ==> current <= next <= target
    ensures target <= current ==> target <= next <= current
    ensures current != target ==> Dist(next, target) == Dist(current, target) - 1
    ensures current == target ==> next == current
  {
    if current < target then current + 1
    else if current > target then current - 1
    else current
  }

  /** An axis driven toward a fixed target for n ticks. */
  function Walk(current: int, target: int, n: nat): int
    decreases n
  {
    if n == 0 then current else Walk(StepToward(current, target), target, n - 1)
  }

  /** After n ticks toward a fixed target the axis is max(d - n, 0) away from
      it, d being the starting distance: it arrives after exactly d ticks and
      stays there afterwards. */
  lemma {:induction false} WalkDistance(current: int, target: int, n: nat)
    ensures Dist(Walk(current, target, n), target) ==
            if n <= Dist(current, target) then Dist(current, target) - n else 0
    decreases n
  {
    if n > 0 {
      WalkDistance(StepToward(current, target), target, n - 1);
    }
  }

  /** While the axis moves toward a target inside the envelope it never
      leaves the envelope. */
  lemma {:induction false} WalkStaysInRange(current: int, target: int, bound: int, n: nat)
    requires -bound <= current <= bound && -bound <= target <= bound
    ensures -bound <= Walk(current, target, n) <= bound
    decreases n
  {
    if n > 0 {
      WalkStaysInRange(StepToward(current, target), target, bound, n - 1);
    }
  }
}
