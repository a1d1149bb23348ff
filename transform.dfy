/**
 * The sprite's transform: the affine matrix the quad is drawn with, the
 * quad's four corners computed from it, and the plan of elementary steps
 * (translate, rotate, scale) that the sprite-sheet path composes while
 * climbing from the sprite to the sheet under the honor-parent masks.
 */
module TransformEngine {
  import opened Wrappers
  import opened Geometry

  /** x' = m00 x + m01 y + m02, y' = m10 x + m11 y + m12. */
  datatype Affine = Affine(m00: real, m01: real, m02: real, m10: real, m11: real, m12: real)

  const Identity: Affine := Affine(1.0, 0.0, 0.0, 0.0, 1.0, 0.0)

  function Apply(m: Affine, p: Point): Point {
    Point(m.m00 * p.x + m.m01 * p.y + m.m02, m.m10 * p.x + m.m11 * p.y + m.m12)
  }

  /** make(a, b, c, d, tx, ty): (a, b) is the image of the x axis, (c, d) that of the y axis. */
  function Make(a: real, b: real, c: real, d: real, tx: real, ty: real): (r: Affine)
    ensures Apply(r, Point(1.0, 0.0)) == Point(a + tx, b + ty) && Apply(r, Point(0.0, 1.0)) == Point(c + tx, d + ty)
    ensures Apply(r, Origin) == Point(tx, ty)
  {
    Affine(a, c, tx, b, d, ty)
  }

  /** getTransformTranslate: the matrix with a translation put in front of it. */
  function Translated(m: Affine, tx: real, ty: real): Affine {
    Affine(m.m00, m.m01, m.m00 * tx + m.m01 * ty + m.m02, m.m10, m.m11, m.m10 * tx + m.m11 * ty + m.m12)
  }

  /** The translated matrix applies the translation first, then the matrix. */
  lemma TranslatedApplies(m: Affine, tx: real, ty: real, p: Point)
    ensures Apply(Translated(m, tx, ty), p) == Apply(m, Point(p.x + tx, p.y + ty))
  {
    var q := Point(p.x + tx, p.y + ty);
    assert Apply(Translated(m, tx, ty), p).x == Apply(m, q).x;
    assert Apply(Translated(m, tx, ty), p).y == Apply(m, q).y;
  }

  /** The values getTransformValues gathers from one node (position, scale, rotation, anchor in pixels). */
  datatype TransformValues = TransformValues(pos: Point, scale: Point, rotation: real, ap: Point)

  /** The matrix the direct path makes before its final translation by the anchor. */
  function RotateScaleMove(cos: real, sin: real, tv: TransformValues): Affine {
    Make(cos * tv.scale.x, sin * tv.scale.x, -sin * tv.scale.y, cos * tv.scale.y, tv.pos.x, tv.pos.y)
  }

  /**
   * The direct path's matrix, for a sprite whose parent is the sheet or
   * nothing: rotation and scale about the anchor, then the position. The
   * cosine and sine of the (negated) rotation are parameters, since the
   * model has no trigonometry.
   */
  function DirectMatrix(cos: real, sin: real, tv: TransformValues): (r: Affine)
    ensures Apply(r, tv.ap) == tv.pos
    ensures forall p :: Apply(r, p) == Point(
      tv.pos.x + cos * tv.scale.x * (p.x - tv.ap.x) - sin * tv.scale.y * (p.y - tv.ap.y),
      tv.pos.y + sin * tv.scale.x * (p.x - tv.ap.x) + cos * tv.scale.y * (p.y - tv.ap.y))
  {
    var r := Translated(RotateScaleMove(cos, sin, tv), -tv.ap.x, -tv.ap.y);
    assert forall p :: Apply(r, p) == Point(
        tv.pos.x + cos * tv.scale.x * (p.x - tv.ap.x) - sin * tv.scale.y * (p.y - tv.ap.y),
        tv.pos.y + sin * tv.scale.x * (p.x - tv.ap.x) + cos * tv.scale.y * (p.y - tv.ap.y)) by {
      forall p ensures Apply(r, p) == Point(
          tv.pos.x + cos * tv.scale.x * (p.x - tv.ap.x) - sin * tv.scale.y * (p.y - tv.ap.y),
          tv.pos.y + sin * tv.scale.x * (p.x - tv.ap.x) + cos * tv.scale.y * (p.y - tv.ap.y)) {
        DirectMatrixAt(cos, sin, tv, p);
      }
    }
    AnchorToPosition(cos, sin, tv);
    r
  }

  /** One point through the direct path's matrix: rotated and scaled about the anchor, then moved to the position. */
  lemma DirectMatrixAt(cos: real, sin: real, tv: TransformValues, p: Point)
    ensures Apply(Translated(RotateScaleMove(cos, sin, tv), -tv.ap.x, -tv.ap.y), p) == Point(
      tv.pos.x + cos * tv.scale.x * (p.x - tv.ap.x) - sin * tv.scale.y * (p.y - tv.ap.y),
      tv.pos.y + sin * tv.scale.x * (p.x - tv.ap.x) + cos * tv.scale.y * (p.y - tv.ap.y))
  {
    var m := RotateScaleMove(cos, sin, tv);
    var d := Point(p.x - tv.ap.x, p.y - tv.ap.y);
    TranslatedApplies(m, -tv.ap.x, -tv.ap.y, p);
    assert Point(p.x + -tv.ap.x, p.y + -tv.ap.y) == d;
    RotateScaleTerms(cos, sin, tv.scale.x, tv.scale.y, d.x, d.y);
    assert Apply(m, d).x == tv.pos.x + cos * tv.scale.x * (p.x - tv.ap.x) - sin * tv.scale.y * (p.y - tv.ap.y);
    assert Apply(m, d).y == tv.pos.y + sin * tv.scale.x * (p.x - tv.ap.x) + cos * tv.scale.y * (p.y - tv.ap.y);
  }

  lemma RotateScaleTerms(cos: real, sin: real, sx: real, sy: real, dx: real, dy: real)
    ensures (cos * sx) * dx + (-sin * sy) * dy == cos * sx * dx - sin * sy * dy
    ensures (sin * sx) * dx + (cos * sy) * dy == sin * sx * dx + cos * sy * dy
  { }

  /** The anchor in pixels is drawn at the position. */
  lemma AnchorToPosition(cos: real, sin: real, tv: TransformValues)
    ensures Apply(Translated(RotateScaleMove(cos, sin, tv), -tv.ap.x, -tv.ap.y), tv.ap) == tv.pos
  {
    TranslatedApplies(RotateScaleMove(cos, sin, tv), -tv.ap.x, -tv.ap.y, tv.ap);
    assert Point(tv.ap.x + -tv.ap.x, tv.ap.y + -tv.ap.y) == Origin;
  }

  /** Twelve floats: three per corner, the corners in the given order, all at height z. */
  function Corners(p0: Point, p1: Point, p2: Point, p3: Point, z: real): seq<real> {
    [p0.x, p0.y, z, p1.x, p1.y, z, p2.x, p2.y, z, p3.x, p3.y, z]
  }

  /**
   * updateTransform's quad: the corners of the sprite's rectangle, placed
   * at its offset, computed from the matrix with the source's formulas
   * and stored in the order top-left, bottom-left, top-right, bottom-right.
   */
  function QuadVertices(m: Affine, offset: Point, size: Size, z: real): (v: seq<real>)
    ensures var x1 := offset.x; var y1 := offset.y;
      var x2 := x1 + size.width; var y2 := y1 + size.height;
      v == Corners(Apply(m, Point(x1, y2)), Apply(m, Point(x1, y1)), Apply(m, Point(x2, y2)), Apply(m, Point(x2, y1)), z)
  {
    var x1 := offset.x;
    var y1 := offset.y;
    var x2 := x1 + size.width;
    var y2 := y1 + size.height;
    var a := CornerOf(m, x1, y1);
    var b := CornerOf(m, x2, y1);
    var c := CornerOf(m, x2, y2);
    var d := CornerOf(m, x1, y2);
    [d.x, d.y, z, a.x, a.y, z, c.x, c.y, z, b.x, b.y, z]
  }

  /**
   * One corner with updateTransform's formulas: x times the cosine term
   * minus y times the negated shear, plus the translation, and likewise
   * for the second coordinate.
   */
  function CornerOf(m: Affine, x: real, y: real): (p: Point)
    ensures p == Apply(m, Point(x, y))
  {
    var cr := m.m00;
    var sr := m.m10;
    var cr2 := m.m11;
    var sr2 := -m.m01;
    assert y * sr2 == -(m.m01 * y);
    Point(x * cr - y * sr2 + m.m02, x * sr + y * cr2 + m.m12)
  }

  /** The self-render vertex buffer: the rectangle at its offset, untransformed, at height 0. */
  function LocalQuad(offset: Point, size: Size): (v: seq<real>)
    ensures |v| == 12
  {
    var x1 := offset.x;
    var y1 := offset.y;
    var x2 := x1 + size.width;
    var y2 := y1 + size.height;
    Corners(Point(x1, y2), Point(x1, y1), Point(x2, y2), Point(x2, y1), 0.0)
  }

  /** The invisible sprite's quad: twelve zeros. */
  const ZeroQuad: seq<real> := seq(12, _ => 0.0)

  /** Both render modes lay the corners out alike: under the identity the sheet quad is the self-render one. */
  lemma IdentityQuadIsLocalQuad(offset: Point, size: Size)
    ensures QuadVertices(Identity, offset, size, 0.0) == LocalQuad(offset, size)
  { }

  /** Whatever the matrix, the four corners form a parallelogram: top edge and bottom edge are the same vector. */
  lemma QuadIsParallelogram(m: Affine, offset: Point, size: Size, z: real)
    ensures var v := QuadVertices(m, offset, size, z);
      v[6] - v[0] == v[9] - v[3] && v[7] - v[1] == v[10] - v[4]
  { }

  /** A sprite at (100, 100), anchored at (16, 16), unrotated and unscaled, is drawn through a pure translation by (84, 84). */
  lemma CentredSpriteMatrix()
    ensures DirectMatrix(1.0, 0.0, TransformValues(Point(100.0, 100.0), Point(1.0, 1.0), 0.0, Point(16.0, 16.0)))
         == Affine(1.0, 0.0, 84.0, 0.0, 1.0, 84.0)
  { }

  /** Through that translation a 32 by 32 quad at offset zero runs from (84, 84) to (116, 116). */
  lemma CentredSpriteQuad(z: real)
    ensures var v := QuadVertices(Affine(1.0, 0.0, 84.0, 0.0, 1.0, 84.0), Origin, Size(32.0, 32.0), z);
      && v[3..6] == [84.0, 84.0, z]
      && v[6..9] == [116.0, 116.0, z]
  { }

  // Honor-parent masks: bits saying which of its parent's transforms a sprite follows.

  const HonorTranslate: bv32 := 1
  const HonorRotate: bv32 := 2
  const HonorScale: bv32 := 4
  const HonorAll: bv32 := 7

  predicate Honors(mask: bv32, bit: bv32) {
    mask & bit != 0
  }

  lemma HonorAllHonorsEverything()
    ensures HonorAll == HonorTranslate | HonorRotate | HonorScale
    ensures Honors(HonorAll, HonorTranslate) && Honors(HonorAll, HonorRotate) && Honors(HonorAll, HonorScale)
  { }

  /** One elementary transform step of the chain path, named instead of multiplied out. */
  datatype Step = Translate(tx: real, ty: real) | Rotate(degrees: real) | Scale(sx: real, sy: real)

  /**
   * The raw fields one ancestor contributes: position, scale, rotation,
   * anchor in pixels and its own honor mask.
   */
  datatype NodeFields = NodeFields(position: Point, scaleX: real, scaleY: real, rotation: real,
                                   anchorPointInPixels: Point, honorParentTransform: bv32)

  /** getTransformValues as intended: a fresh record holding the node's own values. */
  function GetTransformValues(n: NodeFields): (tv: TransformValues)
    ensures tv.pos == n.position && tv.rotation == n.rotation && tv.ap == n.anchorPointInPixels
    ensures tv.scale.x == n.scaleX && tv.scale.y == n.scaleY
  {
    TransformValues(n.position, Point(n.scaleX, n.scaleY), n.rotation, n.anchorPointInPixels)
  }

  /** The steps a node contributes, in order, given the mask in force for it. */
  function Increment(tv: TransformValues, honor: bv32): seq<Step> {
    (if Honors(honor, HonorTranslate) then [Translate(tv.pos.x, tv.pos.y)] else [])
    + (if Honors(honor, HonorRotate) then [Rotate(tv.rotation)] else [])
    + (if Honors(honor, HonorScale) then [Scale(tv.scale.x, tv.scale.y)] else [])
    + [Translate(-tv.ap.x, -tv.ap.y)]
  }

  /** The rotations among some steps, in order. */
  function Rotations(steps: seq<Step>): (r: seq<real>)
    ensures |r| <= |steps|
  {
    if steps == [] then []
    else (if steps[0].Rotate? then [steps[0].degrees] else []) + Rotations(steps[1..])
  }

  lemma {:induction false} RotationsAppend(a: seq<Step>, b: seq<Step>)
    ensures Rotations(a + b) == Rotations(a) + Rotations(b)
  {
    if a != [] {
      RotationsAppend(a[1..], b);
      var head: seq<real> := if a[0].Rotate? then [a[0].degrees] else [];
      assert (a + b)[0] == a[0];
      assert (a + b)[1..] == a[1..] + b;
      assert Rotations(a + b) == head + Rotations(a[1..] + b);
      assert head + (Rotations(a[1..]) + Rotations(b)) == (head + Rotations(a[1..])) + Rotations(b);
    } else {
      assert a + b == b;
    }
  }

  lemma RotationsOfOne(s: Step)
    ensures Rotations([s]) == if s.Rotate? then [s.degrees] else []
  {
    assert [s][1..] == [];
  }

  /** A node rotates with what it contributes exactly when the mask in force honors rotation. */
  lemma IncrementRotations(tv: TransformValues, honor: bv32)
    ensures Rotations(Increment(tv, honor)) == if Honors(honor, HonorRotate) then [tv.rotation] else []
    ensures Increment(tv, honor)[|Increment(tv, honor)| - 1] == Translate(-tv.ap.x, -tv.ap.y)
  {
    var t: seq<Step> := if Honors(honor, HonorTranslate) then [Translate(tv.pos.x, tv.pos.y)] else [];
    var r: seq<Step> := if Honors(honor, HonorRotate) then [Rotate(tv.rotation)] else [];
    var s: seq<Step> := if Honors(honor, HonorScale) then [Scale(tv.scale.x, tv.scale.y)] else [];
    var a: seq<Step> := [Translate(-tv.ap.x, -tv.ap.y)];
    RotationsAppend(t + r + s, a);
    RotationsAppend(t + r, s);
    RotationsAppend(t, r);
    RotationsOfOne(Translate(tv.pos.x, tv.pos.y));
    RotationsOfOne(Rotate(tv.rotation));
    RotationsOfOne(Scale(tv.scale.x, tv.scale.y));
    RotationsOfOne(Translate(-tv.ap.x, -tv.ap.y));
  }

  /**
   * The chain path from a node upwards: each node gets the mask of the node
   * before it (initially everything), and then passes on its own mask.
   */
  function ChainFrom(chain: seq<NodeFields>, prevHonor: bv32): seq<Step>
    decreases |chain|
  {
    if chain == [] then []
    else Increment(GetTransformValues(chain[0]), prevHonor) + ChainFrom(chain[1..], chain[0].honorParentTransform)
  }

  /** The whole plan for a chain listed from the sprite up to the child of the sheet. */
  function ChainPlan(chain: seq<NodeFields>): seq<Step> {
    ChainFrom(chain, HonorAll)
  }

  /** The mask in force for the k-th node of the chain. */
  function MaskAt(chain: seq<NodeFields>, k: nat): bv32
    requires k <= |chain|
  {
    if k == 0 then HonorAll else chain[k - 1].honorParentTransform
  }

  function Flatten(parts: seq<seq<Step>>): seq<Step>
    decreases |parts|
  {
    if parts == [] then [] else parts[0] + Flatten(parts[1..])
  }

  lemma {:induction false} ChainFromFlattens(chain: seq<NodeFields>, prevHonor: bv32)
    ensures ChainFrom(chain, prevHonor)
         == Flatten(seq(|chain|, k requires 0 <= k < |chain| =>
              Increment(GetTransformValues(chain[k]), if k == 0 then prevHonor else chain[k - 1].honorParentTransform)))
    decreases |chain|
  {
    if chain != [] {
      var tail := chain[1..];
      ChainFromFlattens(tail, chain[0].honorParentTransform);
      var whole := seq(|chain|, k requires 0 <= k < |chain| =>
        Increment(GetTransformValues(chain[k]), if k == 0 then prevHonor else chain[k - 1].honorParentTransform));
      var rest := seq(|tail|, k requires 0 <= k < |tail| =>
        Increment(GetTransformValues(tail[k]), if k == 0 then chain[0].honorParentTransform else tail[k - 1].honorParentTransform));
      assert whole[1..] == rest;
    }
  }

  /**
   * Every node of the chain is transformed under the mask of the node just
   * below it, not its own: the plan is the concatenation of the nodes'
   * increments, the k-th under MaskAt(chain, k).
   */
  lemma ChainPlanUsesPreviousMask(chain: seq<NodeFields>)
    ensures ChainPlan(chain)
         == Flatten(seq(|chain|, k requires 0 <= k < |chain| => Increment(GetTransformValues(chain[k]), MaskAt(chain, k))))
  {
    ChainFromFlattens(chain, HonorAll);
    assert seq(|chain|, k requires 0 <= k < |chain| => Increment(GetTransformValues(chain[k]), MaskAt(chain, k)))
        == seq(|chain|, k requires 0 <= k < |chain| =>
             Increment(GetTransformValues(chain[k]), if k == 0 then HonorAll else chain[k - 1].honorParentTransform));
  }

  /**
   * Sprite, parent, grandparent: when the parent's mask drops rotation,
   * the rotations applied are the sprite's and the parent's, and the
   * grandparent's rotation is the one skipped.
   */
  lemma ParentMaskGovernsGrandparent(chain: seq<NodeFields>)
    requires |chain| == 3
    requires Honors(chain[0].honorParentTransform, HonorRotate)
    requires !Honors(chain[1].honorParentTransform, HonorRotate)
    ensures Rotations(ChainPlan(chain)) == [chain[0].rotation, chain[1].rotation]
  {
    var i0 := Increment(GetTransformValues(chain[0]), HonorAll);
    var i1 := Increment(GetTransformValues(chain[1]), chain[0].honorParentTransform);
    var i2 := Increment(GetTransformValues(chain[2]), chain[1].honorParentTransform);
    ChainOfThree(chain);
    HonorAllHonorsEverything();
    IncrementRotations(GetTransformValues(chain[0]), HonorAll);
    IncrementRotations(GetTransformValues(chain[1]), chain[0].honorParentTransform);
    IncrementRotations(GetTransformValues(chain[2]), chain[1].honorParentTransform);
    RotationsAppend(i1, i2);
    RotationsAppend(i0, i1 + i2);
  }

  /** A chain of three contributes the three increments, each under the mask of the node before. */
  lemma ChainOfThree(chain: seq<NodeFields>)
    requires |chain| == 3
    ensures ChainPlan(chain) == Increment(GetTransformValues(chain[0]), HonorAll)
      + (Increment(GetTransformValues(chain[1]), chain[0].honorParentTransform)
      + Increment(GetTransformValues(chain[2]), chain[1].honorParentTransform))
  {
    var i1 := Increment(GetTransformValues(chain[1]), chain[0].honorParentTransform);
    var i2 := Increment(GetTransformValues(chain[2]), chain[1].honorParentTransform);
    assert chain[1..][1..] == chain[2..];
    assert chain[2..][1..] == [];
    assert ChainFrom(chain[2..], chain[1].honorParentTransform) == i2 + [];
    assert i2 + [] == i2;
    assert ChainFrom(chain[1..], chain[0].honorParentTransform) == i1 + i2;
  }

  /** The direct path's steps: position, rotation, scale, then the anchor. */
  function DirectPlan(tv: TransformValues): seq<Step> {
    [Translate(tv.pos.x, tv.pos.y), Rotate(tv.rotation), Scale(tv.scale.x, tv.scale.y), Translate(-tv.ap.x, -tv.ap.y)]
  }

  /** The product m n: the matrix that applies n first, then m. */
  function Concat(m: Affine, n: Affine): Affine {
    Affine(m.m00 * n.m00 + m.m01 * n.m10, m.m00 * n.m01 + m.m01 * n.m11, m.m00 * n.m02 + m.m01 * n.m12 + m.m02,
           m.m10 * n.m00 + m.m11 * n.m10, m.m10 * n.m01 + m.m11 * n.m11, m.m10 * n.m02 + m.m11 * n.m12 + m.m12)
  }

  /** The product applies n first, then m. */
  lemma ConcatApplies(m: Affine, n: Affine, p: Point)
    ensures Apply(Concat(m, n), p) == Apply(m, Apply(n, p))
  {
    var q := Apply(n, p);
    ProductRow(m.m00, m.m01, m.m02, n, p);
    ProductRow(m.m10, m.m11, m.m12, n, p);
    assert Apply(Concat(m, n), p).x == Apply(m, q).x;
    assert Apply(Concat(m, n), p).y == Apply(m, q).y;
  }

  /** One row of the product, multiplied out. */
  lemma ProductRow(a: real, b: real, c: real, n: Affine, p: Point)
    ensures a * (n.m00 * p.x + n.m01 * p.y + n.m02) + b * (n.m10 * p.x + n.m11 * p.y + n.m12) + c
         == (a * n.m00 + b * n.m10) * p.x + (a * n.m01 + b * n.m11) * p.y + (a * n.m02 + b * n.m12 + c)
  { }

  /**
   * The matrix of one step, a rotation drawn with the given cosine and sine
   * of its angle -deg2rad(degrees), since the model has no trigonometry.
   */
  function StepMatrix(s: Step, cos: real, sin: real): Affine {
    match s
    case Translate(tx, ty) => Affine(1.0, 0.0, tx, 0.0, 1.0, ty)
    case Rotate(_) => Make(cos, sin, -sin, cos, 0.0, 0.0)
    case Scale(sx, sy) => Make(sx, 0.0, 0.0, sy, 0.0, 0.0)
  }

  /**
   * The matrix one node's increment builds from the identity, each step
   * applied to the matrix so far the way getTransformTranslate applies its
   * translation, so that the last step acts on a point first. An increment
   * rotates at most once, by its node's rotation, whose cosine and sine
   * are the parameters.
   */
  function Compose(steps: seq<Step>, cos: real, sin: real): Affine {
    if steps == [] then Identity else Concat(StepMatrix(steps[0], cos, sin), Compose(steps[1..], cos, sin))
  }

  /** getTransformTranslate is the product with a translation step. */
  lemma TranslatedIsConcat(m: Affine, tx: real, ty: real, cos: real, sin: real)
    ensures Translated(m, tx, ty) == Concat(m, StepMatrix(Translate(tx, ty), cos, sin))
  {
    var c := Concat(m, Affine(1.0, 0.0, tx, 0.0, 1.0, ty));
    assert c.m00 == m.m00 && c.m01 == m.m01 && c.m10 == m.m10 && c.m11 == m.m11;
    assert c.m02 == m.m00 * tx + m.m01 * ty + m.m02;
    assert c.m12 == m.m10 * tx + m.m11 * ty + m.m12;
  }

  /**
   * The direct path's matrix is what its four steps compose to: moving the
   * anchor to the origin, scaling, rotating and moving to the position.
   */
  lemma DirectPlanComposesToDirectMatrix(tv: TransformValues, cos: real, sin: real)
    ensures Compose(DirectPlan(tv), cos, sin) == DirectMatrix(cos, sin, tv)
  {
    DirectPlanUnfolds(tv, cos, sin);
    StepsMultiplyOut(tv.pos.x, tv.pos.y, cos, sin, tv.scale.x, tv.scale.y, tv.ap.x, tv.ap.y);
    MoveAfterRotate(cos, sin, tv);
    DirectMatrixUnfolds(cos, sin, tv);
  }

  lemma DirectMatrixUnfolds(cos: real, sin: real, tv: TransformValues)
    ensures DirectMatrix(cos, sin, tv) == Translated(RotateScaleMove(cos, sin, tv), -tv.ap.x, -tv.ap.y)
  { }

  /** The four step matrices multiplied out, the move left as a factor. */
  lemma StepsMultiplyOut(px: real, py: real, cos: real, sin: real, sx: real, sy: real, ax: real, ay: real)
    ensures Concat(Affine(1.0, 0.0, px, 0.0, 1.0, py),
                   Concat(Affine(cos, -sin, 0.0, sin, cos, 0.0),
                          Concat(Affine(sx, 0.0, 0.0, 0.0, sy, 0.0),
                                 Concat(Affine(1.0, 0.0, -ax, 0.0, 1.0, -ay), Identity))))
         == Concat(Affine(1.0, 0.0, px, 0.0, 1.0, py),
                   Affine(cos * sx, -sin * sy, (cos * sx) * -ax + (-sin * sy) * -ay,
                          sin * sx, cos * sy, (sin * sx) * -ax + (cos * sy) * -ay))
  {
    ProductWithIdentity(Affine(1.0, 0.0, -ax, 0.0, 1.0, -ay));
    ScaleAfterAnchor(sx, sy, ax, ay);
    RotateAfterScale(cos, sin, sx, sy, ax, ay);
  }

  /** The direct plan's four steps, each as its matrix. */
  lemma DirectPlanUnfolds(tv: TransformValues, cos: real, sin: real)
    ensures Compose(DirectPlan(tv), cos, sin)
      == Concat(Affine(1.0, 0.0, tv.pos.x, 0.0, 1.0, tv.pos.y),
                Concat(Affine(cos, -sin, 0.0, sin, cos, 0.0),
                       Concat(Affine(tv.scale.x, 0.0, 0.0, 0.0, tv.scale.y, 0.0),
                              Concat(Affine(1.0, 0.0, -tv.ap.x, 0.0, 1.0, -tv.ap.y), Identity))))
  {
    var plan := DirectPlan(tv);
    var anchor := Concat(Affine(1.0, 0.0, -tv.ap.x, 0.0, 1.0, -tv.ap.y), Identity);
    var scaled := Concat(Affine(tv.scale.x, 0.0, 0.0, 0.0, tv.scale.y, 0.0), anchor);
    var rotated := Concat(Affine(cos, -sin, 0.0, sin, cos, 0.0), scaled);
    assert plan[3..][1..] == [];
    assert Compose(plan[3..], cos, sin) == anchor;
    assert plan[2..][1..] == plan[3..];
    assert Compose(plan[2..], cos, sin) == scaled;
    assert plan[1..][1..] == plan[2..];
    assert Compose(plan[1..], cos, sin) == rotated;
  }

  lemma ProductWithIdentity(m: Affine)
    ensures Concat(m, Identity) == m
  { }

  lemma ScaleAfterAnchor(sx: real, sy: real, ax: real, ay: real)
    ensures Concat(Affine(sx, 0.0, 0.0, 0.0, sy, 0.0), Affine(1.0, 0.0, -ax, 0.0, 1.0, -ay))
         == Affine(sx, 0.0, sx * -ax, 0.0, sy, sy * -ay)
  { }

  lemma RotateAfterScale(cos: real, sin: real, sx: real, sy: real, ax: real, ay: real)
    ensures Concat(Affine(cos, -sin, 0.0, sin, cos, 0.0), Affine(sx, 0.0, sx * -ax, 0.0, sy, sy * -ay))
         == Affine(cos * sx, -sin * sy, (cos * sx) * -ax + (-sin * sy) * -ay,
                   sin * sx, cos * sy, (sin * sx) * -ax + (cos * sy) * -ay)
  {
    var c := Concat(Affine(cos, -sin, 0.0, sin, cos, 0.0), Affine(sx, 0.0, sx * -ax, 0.0, sy, sy * -ay));
    ProductsRegroup(cos, -sin, sx, sy, -ax, -ay);
    ProductsRegroup(sin, cos, sx, sy, -ax, -ay);
    assert c.m00 == cos * sx && c.m01 == -sin * sy && c.m10 == sin * sx && c.m11 == cos * sy;
    assert c.m02 == (cos * sx) * -ax + (-sin * sy) * -ay;
    assert c.m12 == (sin * sx) * -ax + (cos * sy) * -ay;
  }

  lemma ProductsRegroup(a: real, b: real, sx: real, sy: real, u: real, v: real)
    ensures a * (sx * u) + b * (sy * v) + 0.0 == (a * sx) * u + (b * sy) * v
  { }

  lemma MoveAfterRotate(cos: real, sin: real, tv: TransformValues)
    ensures var sx, sy, ax, ay := tv.scale.x, tv.scale.y, tv.ap.x, tv.ap.y;
      Concat(Affine(1.0, 0.0, tv.pos.x, 0.0, 1.0, tv.pos.y),
             Affine(cos * sx, -sin * sy, (cos * sx) * -ax + (-sin * sy) * -ay,
                    sin * sx, cos * sy, (sin * sx) * -ax + (cos * sy) * -ay))
      == Translated(RotateScaleMove(cos, sin, tv), -ax, -ay)
  { }

  /** A sprite directly under the sheet gets the same steps on either path. */
  lemma DirectPlanIsChainOfOne(n: NodeFields)
    ensures DirectPlan(GetTransformValues(n)) == ChainPlan([n])
  {
    HonorAllHonorsEverything();
    var tv := GetTransformValues(n);
    assert [n][1..] == [];
    assert ChainFrom([n][1..], n.honorParentTransform) == [];
    assert ChainPlan([n]) == Increment(tv, HonorAll) + [];
    assert Increment(tv, HonorAll) == [Translate(tv.pos.x, tv.pos.y)] + [Rotate(tv.rotation)] + [Scale(tv.scale.x, tv.scale.y)] + [Translate(-tv.ap.x, -tv.ap.y)];
  }

  /**
   * updateTransform's chain loop: climbs the chain, building each node's
   * increment under the mask carried from the node before, and appends it.
   */
  method PlanTransform(chain: seq<NodeFields>) returns (steps: seq<Step>)
    ensures steps == ChainPlan(chain)
  {
    steps := [];
    var prevHonor := HonorAll;
    var i := 0;
    while i < |chain|
      invariant 0 <= i <= |chain|
      invariant prevHonor == MaskAt(chain, i)
      invariant steps + ChainFrom(chain[i..], prevHonor) == ChainPlan(chain)
    {
      var newMatrix := NodeSteps(chain[i], prevHonor);
      assert chain[i..][1..] == chain[i + 1..];
      ghost var rest := ChainFrom(chain[i + 1..], chain[i].honorParentTransform);
      assert ChainFrom(chain[i..], prevHonor) == newMatrix + rest;
      assert steps + (newMatrix + rest) == (steps + newMatrix) + rest;
      steps := steps + newMatrix;
      prevHonor := chain[i].honorParentTransform;
      i := i + 1;
    }
  }

  /** The body of the chain loop for one node: its translate, rotate and scale as the mask allows, then its anchor. */
  method NodeSteps(n: NodeFields, prevHonor: bv32) returns (newMatrix: seq<Step>)
    ensures newMatrix == Increment(GetTransformValues(n), prevHonor)
  {
    var tv := GetTransformValues(n);
    newMatrix := [];
    if Honors(prevHonor, HonorTranslate) {
      newMatrix := newMatrix + [Translate(tv.pos.x, tv.pos.y)];
    }
    if Honors(prevHonor, HonorRotate) {
      newMatrix := newMatrix + [Rotate(tv.rotation)];
    }
    if Honors(prevHonor, HonorScale) {
      newMatrix := newMatrix + [Scale(tv.scale.x, tv.scale.y)];
    }
    newMatrix := newMatrix + [Translate(-tv.ap.x, -tv.ap.y)];
  }

  // getTransformValues as written: the fresh record's scale point is never
  // allocated, so the first write through it fails.

  datatype Fault = NullPointerException

  /** The record as allocated: only the rotation has a (default) value. */
  datatype PartialValues = PartialValues(pos: Option<Point>, scale: Option<Point>, rotation: real, ap: Option<Point>)

  function GetTransformValuesAsWritten(n: NodeFields): Result<TransformValues, Fault> {
    var tv := PartialValues(None, None, 0.0, None);
    var tv := tv.(pos := Some(n.position));
    match tv.scale
    case None => Failure(NullPointerException)
    case Some(s) =>
      Success(TransformValues(n.position, Point(n.scaleX, n.scaleY), n.rotation, n.anchorPointInPixels))
  }

  lemma GetTransformValuesAlwaysFails(n: NodeFields)
    ensures GetTransformValuesAsWritten(n) == Failure(NullPointerException)
  { }

  /** The chain loop as written, failing where its getTransformValues fails. */
  function ChainFromAsWritten(chain: seq<NodeFields>, prevHonor: bv32): Result<seq<Step>, Fault>
    decreases |chain|
  {
    if chain == [] then Success([])
    else
      var rest := ChainFromAsWritten(chain[1..], chain[0].honorParentTransform);
      match (GetTransformValuesAsWritten(chain[0]), rest)
      case (Failure(e), _) => Failure(e)
      case (_, Failure(e)) => Failure(e)
      case (Success(tv), Success(steps)) => Success(Increment(tv, prevHonor) + steps)
  }

  /** Every sprite whose parent is another sprite fails on the first node it visits, itself. */
  lemma ChainPathAlwaysFails(chain: seq<NodeFields>)
    requires chain != []
    ensures ChainFromAsWritten(chain, HonorAll) == Failure(NullPointerException)
  { }
}
