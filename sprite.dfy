/**
 * The sprite itself: its colour, texture-rectangle, dirty-flag and
 * render-mode state, the three float buffers it renders from, and the
 * tree of child sprites it propagates dirtiness and visibility through;
 * next to it the two collaborators it writes to in sprite-sheet mode,
 * reduced to what the sprite can observe of them.
 */
module Sprites {
  import opened Wrappers
  import opened Geometry
  import opened ColorModel
  import opened TextureRect
  import opened TransformEngine

  /** Reads a 32-bit pattern as a two's-complement int, as a Java int literal does. */
  function ToInt32(bits: int): (r: int)
    requires 0 <= bits < 0x1_0000_0000
    ensures -0x8000_0000 <= r < 0x8000_0000
    ensures (r - bits) % 0x1_0000_0000 == 0
  {
    if bits < 0x8000_0000 then bits else bits - 0x1_0000_0000
  }

  /** The atlas index of a sprite that has no slot in a sheet: 0xffffffff, that is -1. */
  const IndexNotInitialized: int := ToInt32(0xffff_ffff)

  lemma IndexNotInitializedIsMinusOne()
    ensures IndexNotInitialized == -1
  { }

  /** The shared texture atlas of a sheet: the quad vertices and the quad colours stored per index. */
  class TextureAtlas {
    var quadVertices: map<int, seq<real>>
    var quadColors: map<int, seq<Color4>>

    constructor ()
      ensures quadVertices == map[] && quadColors == map[]
    {
      quadVertices := map[];
      quadColors := map[];
    }

    method PutVertex(v: seq<real>, index: int)
      modifies this`quadVertices
      ensures quadVertices == old(quadVertices)[index := v]
    {
      quadVertices := quadVertices[index := v];
    }

    method UpdateColor(c: seq<Color4>, index: int)
      modifies this`quadColors
      ensures quadColors == old(quadColors)[index := c]
    {
      quadColors := quadColors[index := c];
    }
  }

  /** The calls a sprite makes on its sheet, in the order made. */
  datatype SheetCall = Inserted(child: Sprite, index: int) | Removed(sprite: Sprite)

  /** The sprite sheet a sprite is batched in: its atlas, and a log of what sprites asked of it. */
  class SpriteSheet {
    const textureAtlas: TextureAtlas
    var log: seq<SheetCall>

    constructor (atlas: TextureAtlas)
      ensures textureAtlas == atlas && log == []
    {
      textureAtlas := atlas;
      log := [];
    }

    method InsertChild(child: Sprite, index: int)
      modifies this`log
      ensures log == old(log) + [Inserted(child, index)]
    {
      log := log + [Inserted(child, index)];
    }

    method RemoveSpriteFromAtlas(sprite: Sprite)
      modifies this`log
      ensures log == old(log) + [Removed(sprite)]
    {
      log := log + [Removed(sprite)];
    }
  }

  /** A sprite frame: a texture, the rectangle in it, the untrimmed size and the offset from the centre. */
  datatype SpriteFrame = SpriteFrame(texture: Texture, rect: Rect, originalSize: Size, offset: Point)

  /** The sequence with every occurrence of x removed, order kept. */
  function Without(cs: seq<Sprite>, x: Sprite): (r: seq<Sprite>)
    ensures forall c :: c in r ==> c in cs && c != x
    ensures forall c :: c in cs && c != x ==> c in r
    ensures |r| <= |cs|
    ensures x !in cs ==> r == cs
  {
    if cs == [] then []
    else if cs[0] == x then Without(cs[1..], x)
    else [cs[0]] + Without(cs[1..], x)
  }

  /** The removal requests removeAllChildren sends, one per child, in order. */
  function Removals(kids: seq<Sprite>): (r: seq<SheetCall>)
    ensures |r| == |kids| && forall k :: 0 <= k < |kids| ==> r[k] == Removed(kids[k])
  {
    seq(|kids|, k requires 0 <= k < |kids| => Removed(kids[k]))
  }

  /** FloatBuffer.put of a whole array: the buffer afterwards holds exactly the values. */
  method Put(buffer: array<real>, values: seq<real>)
    requires buffer.Length == |values|
    modifies buffer
    ensures buffer[..] == values
  {
    var i := 0;
    while i < |values|
      invariant 0 <= i <= |values|
      invariant forall k :: 0 <= k < i ==> buffer[k] == values[k]
    {
      buffer[i] := values[i];
      i := i + 1;
    }
  }

  /** The test updateBlendFunc is meant to assert: the sprite renders itself. */
  predicate BlendUpdateAllowed(usesSpriteSheet: bool) {
    !usesSpriteSheet
  }

  /** The test as written, the opposite of its own message. */
  predicate BlendUpdateAllowedAsWritten(usesSpriteSheet: bool) {
    usesSpriteSheet
  }

  /**
   * setTexture may only be called on a self-rendered sprite, and it calls
   * updateBlendFunc: the intended test always passes there, the written one
   * never does (init calls setTexture on every new sprite).
   */
  lemma InvertedAssertRejectsEverySetTexture(usesSpriteSheet: bool)
    requires !usesSpriteSheet
    ensures BlendUpdateAllowed(usesSpriteSheet) && !BlendUpdateAllowedAsWritten(usesSpriteSheet)
  { }

  /** Whether setVisible passes the change on: a real change, in sheet mode, not already recursively dirty. */
  predicate VisibilityCascades(visibleBefore: bool, v: bool, usesSpriteSheet: bool, recursiveDirty: bool) {
    v != visibleBefore && usesSpriteSheet && !recursiveDirty
  }

  /** The test as written: it compares with the visibility already overwritten by the node's own setter. */
  predicate VisibilityCascadesAsWritten(visibleBefore: bool, v: bool, usesSpriteSheet: bool, recursiveDirty: bool) {
    var visibleAfter := v;
    v != visibleAfter && usesSpriteSheet && !recursiveDirty
  }

  /** The written test never passes, so hiding a batched parent never reaches its children. */
  lemma VisibilityNeverCascadesAsWritten(visibleBefore: bool, v: bool, usesSpriteSheet: bool, recursiveDirty: bool)
    ensures !VisibilityCascadesAsWritten(visibleBefore, v, usesSpriteSheet, recursiveDirty)
    ensures VisibilityCascades(visibleBefore, v, usesSpriteSheet, recursiveDirty)
        <==> v != visibleBefore && usesSpriteSheet && !recursiveDirty
  { }

  /** The sprites below a sequence of children: the union of their footprints. */
  ghost function ChildNodes(kids: seq<Sprite>): (r: set<Sprite>)
    reads (set c | c in kids)`Nodes
    ensures forall k :: 0 <= k < |kids| ==> kids[k].Nodes <= r
  {
    if kids == [] then {} else kids[0].Nodes + ChildNodes(kids[1..])
  }

  /** A sprite below some children lies below one of them. */
  lemma {:induction false} ChildOf(kids: seq<Sprite>, t: Sprite) returns (k: nat)
    requires t in ChildNodes(kids)
    ensures k < |kids| && t in kids[k].Nodes
  {
    if t in kids[0].Nodes {
      k := 0;
    } else {
      var j := ChildOf(kids[1..], t);
      k := j + 1;
    }
  }

  /** Appending a child adds exactly its footprint. */
  lemma {:induction false} ChildNodesAppend(kids: seq<Sprite>, c: Sprite)
    ensures ChildNodes(kids + [c]) == ChildNodes(kids) + c.Nodes
  {
    if kids == [] {
      assert [] + [c] == [c];
      assert [c][1..] == [];
    } else {
      assert (kids + [c])[1..] == kids[1..] + [c];
      ChildNodesAppend(kids[1..], c);
    }
  }

  class Sprite {
    // RGBA protocol
    var color: Color3
    var colorUnmodified: Color3
    var opacity: Byte
    var opacityModifyRGB: bool

    // texture and the part of it shown
    var texture: Option<Texture>
    var blendFunc: BlendFunc
    var rect: Rect
    var offsetPosition: Point
    var unflippedOffset: Option<Point>
    var flipX: bool
    var flipY: bool

    // sprite-sheet rendering
    var textureAtlas: TextureAtlas?
    var atlasIndex: int
    var spriteSheet: SpriteSheet?
    var usesSpriteSheet: bool
    var honorParentTransform: bv32
    var dirty: bool
    var recursiveDirty: bool
    var hasChildren: bool

    // self rendering: 4 texture coordinates, 4 vertices, 4 colours
    const texCoords: array<real>
    const vertexes: array<real>
    const colors: array<real>

    // node state the sprite reads and sets through its node base
    var visible: bool
    var position: Point
    var rotation: real
    var scaleX: real
    var scaleY: real
    var vertexZ: real
    var anchorPoint: Point
    var anchorPointInPixels: Point
    var contentSize: Size
    var children: seq<Sprite>

    /** This sprite and all sprites below it. */
    ghost var Nodes: set<Sprite>

    /** Buffer sizes, and the render mode agreeing with the sheet and atlas references. */
    ghost predicate Valid()
      reads this`usesSpriteSheet, this`spriteSheet, this`textureAtlas
    {
      && texCoords.Length == 8 && vertexes.Length == 12 && colors.Length == 16
      && texCoords != vertexes && texCoords != colors && vertexes != colors
      && (usesSpriteSheet ==> spriteSheet != null && textureAtlas == spriteSheet.textureAtlas)
      && (!usesSpriteSheet ==> spriteSheet == null && textureAtlas == null)
    }

    /** One level of the tree: children lie below, none contains this sprite, the footprint is closed and exact. */
    ghost predicate Local()
      reads this`Nodes, this`children, Nodes`Nodes
    {
      && this in Nodes
      && (forall c :: c in children ==> c in Nodes && this !in c.Nodes)
      && (forall t :: t in Nodes ==> t.Nodes <= Nodes)
      && Nodes == {this} + ChildNodes(children)
    }

    /** Every sprite of the footprint satisfies Local. */
    ghost predicate Tree()
      reads this`Nodes, Nodes`Nodes, Nodes`children
    {
      this in Nodes && Local() && forall s {:trigger s.Local()} :: s in Nodes ==> s.Local()
    }

    lemma ChildrenAreTrees()
      requires Tree()
      ensures forall c :: c in children ==> c.Tree() && c.Nodes <= Nodes - {this}
    {
      forall c | c in children
        ensures c.Tree() && c.Nodes <= Nodes - {this}
      {
        assert c.Local();
      }
    }

    /** One child is a tree below this sprite. */
    lemma ChildIsTree(c: Sprite)
      requires Tree() && c in children
      ensures c.Tree() && c.Nodes <= Nodes - {this} && this !in c.Nodes
    {
      assert c.Local();
    }

    /** Facts about the other sprites of the footprint that survive a change to this sprite's own tree fields. */
    lemma BelowThis()
      requires Tree()
      ensures forall s :: s in Nodes - {this} ==> this !in s.Nodes && s.Local()
    {
      forall s | s in Nodes - {this}
        ensures this !in s.Nodes
      {
        var k := ChildOf(children, s);
        assert children[k].Local();
      }
    }

    /** A sprite without children is a tree of its own. */
    lemma Leaf()
      requires Nodes == {this} && children == []
      ensures Tree()
    { }

    lemma Assemble(others: set<Sprite>)
      requires this in Nodes && Local()
      requires forall s :: s in others ==> s.Local()
      requires forall s :: s in Nodes ==> s == this || s in others
      ensures Tree()
    { }

    /**
     * The children flag of every sprite of the footprint tells whether it
     * has children. addChild, removeChild and removeAllChildren keep it so;
     * the node's own insertion, which reorderChild uses, does not.
     */
    ghost predicate FlagsAgree()
      reads this`Nodes, Nodes`children, Nodes`hasChildren
    {
      forall s :: s in Nodes ==> (s.hasChildren <==> |s.children| > 0)
    }

    /**
     * recursiveDirty implies dirty in every sprite of the tree: the two
     * flags are always written together, and dirty alone is only raised.
     */
    ghost predicate FlagsOrdered()
      reads this`Nodes, Nodes`dirty, Nodes`recursiveDirty
    {
      forall s :: s in Nodes ==> s.recursiveDirty ==> s.dirty
    }

    /**
     * The sprites below this one that setDirtyRecursively reaches: the
     * walk enters the children only of a sprite whose children flag is set.
     */
    ghost function Visited(): (r: set<Sprite>)
      requires Tree()
      reads this`Nodes, Nodes`Nodes, Nodes`children, Nodes`hasChildren
      ensures r <= Nodes - {this}
      decreases Nodes, 1
    {
      ChildrenAreTrees();
      if hasChildren then VisitedBelow(children, Nodes - {this}) else {}
    }

    /** The sprites the walk reaches from a sequence of children: each child and what it reaches. */
    static ghost function VisitedBelow(kids: seq<Sprite>, below: set<Sprite>): (r: set<Sprite>)
      requires forall c :: c in kids ==> c.Tree() && c in below && c.Nodes <= below
      reads below`Nodes, below`children, below`hasChildren
      ensures r <= below
      decreases below, 2, |kids|
    {
      if kids == [] then {}
      else
        var last := kids[|kids| - 1];
        VisitedBelow(kids[..|kids| - 1], below) + {last} + last.Visited()
    }

    /** With the children flags in agreement, the walk reaches every sprite below this one. */
    lemma {:induction false} VisitedAllWhenFlagsAgree()
      requires Tree() && FlagsAgree()
      ensures Visited() == Nodes - {this}
      decreases Nodes, 1
    {
      ChildrenAreTrees();
      if hasChildren {
        VisitedBelowCovers(children, Nodes - {this});
      }
    }

    static lemma {:induction false} VisitedBelowCovers(kids: seq<Sprite>, below: set<Sprite>)
      requires forall c :: c in kids ==> c.Tree() && c in below && c.Nodes <= below && c.FlagsAgree()
      ensures VisitedBelow(kids, below) == ChildNodes(kids)
      decreases below, 2, |kids|
    {
      if kids != [] {
        var init, last := kids[..|kids| - 1], kids[|kids| - 1];
        assert kids == init + [last];
        VisitedBelowCovers(init, below);
        last.VisitedAllWhenFlagsAgree();
        ChildNodesAppend(init, last);
      }
    }

    /**
     * A sprite that has children while its flag says it has none hides
     * them all from the walk.
     */
    lemma StaleFlagHidesChildren()
      requires Tree() && !hasChildren && children != []
      ensures Visited() == {} && children[0] in Nodes - {this}
    {
      ChildrenAreTrees();
    }

    // ------------------------------------------------------------------
    // Colour

    function ColorFields(): ColorState
      reads this`color, this`colorUnmodified, this`opacity, this`opacityModifyRGB
    {
      ColorState(color, colorUnmodified, opacity, opacityModifyRGB)
    }

    /** getColor: the colour the user asked for, whatever the premultiplying mode. */
    function GetColor(): (c: Color3)
      reads this`color, this`colorUnmodified, this`opacity, this`opacityModifyRGB
      ensures Coherent(ColorFields()) ==> c == colorUnmodified
      ensures !opacityModifyRGB ==> c == color
    {
      Logical(ColorFields())
    }

    /**
     * What updateColor leaves behind: the colour buffer holds the stored
     * colour and opacity four times; in sheet mode the atlas slot gets the
     * colour, or, without a slot yet, the sprite is marked dirty.
     */
    twostate predicate ColorPushed(atlas: TextureAtlas?)
      reads this, colors, atlas
    {
      && colors[..] == ColorBuffer(color, opacity)
      && (atlas != null ==> atlas.quadVertices == old(atlas.quadVertices))
      && (if usesSpriteSheet && atlasIndex != IndexNotInitialized then
            && atlas != null
            && atlas.quadColors == old(atlas.quadColors)[atlasIndex := QuadColors(color, opacity)]
            && dirty == old(dirty)
          else
            && (atlas != null ==> atlas.quadColors == old(atlas.quadColors))
            && dirty == (old(dirty) || usesSpriteSheet))
    }

    method UpdateColor()
      requires Valid()
      modifies colors, this`dirty, textureAtlas
      ensures ColorPushed(textureAtlas)
    {
      var rgba := VertexColor(color, opacity);
      Put(colors, rgba + rgba + rgba + rgba);
      if usesSpriteSheet {
        if atlasIndex != IndexNotInitialized {
          var q := Color4(color.r, color.g, color.b, opacity);
          textureAtlas.UpdateColor([q, q, q, q], atlasIndex);
        } else {
          dirty := true;
        }
      }
    }

    method SetColor(c: Color3)
      requires Valid()
      modifies this`color, this`colorUnmodified, colors, this`dirty, textureAtlas
      ensures ColorFields() == WithColor(old(ColorFields()), c)
      ensures GetColor() == c
      ensures ColorPushed(textureAtlas)
    {
      color := c;
      colorUnmodified := c;
      if opacityModifyRGB {
        color := Color3(Modulate(c.r, opacity), Modulate(c.g, opacity), Modulate(c.b, opacity));
      }
      UpdateColor();
    }

    method SetOpacity(anOpacity: Byte)
      requires Valid()
      modifies this`opacity, this`color, this`colorUnmodified, colors, this`dirty, textureAtlas
      ensures ColorFields() == WithOpacity(old(ColorFields()), anOpacity)
      ensures GetColor() == old(GetColor())
      ensures ColorPushed(textureAtlas)
    {
      opacity := anOpacity;
      if opacityModifyRGB {
        SetColor(colorUnmodified);
      }
      UpdateColor();
    }

    /** setOpacityModifyRGB, reading the colour through getColor so that switching keeps it. */
    method SetOpacityModifyRGB(enabled: bool)
      requires Valid()
      modifies this`opacityModifyRGB, this`color, this`colorUnmodified, colors, this`dirty, textureAtlas
      ensures ColorFields() == WithOpacityModifyRGB(old(ColorFields()), enabled)
      ensures GetColor() == old(GetColor())
      ensures ColorPushed(textureAtlas)
    {
      var oldColor := GetColor();
      opacityModifyRGB := enabled;
      SetColor(oldColor);
    }

    /** updateBlendFunc, with the assertion it evidently means. */
    method UpdateBlendFunc()
      requires Valid() && BlendUpdateAllowed(usesSpriteSheet)
      modifies this`blendFunc, this`opacityModifyRGB, this`color, this`colorUnmodified, colors, this`dirty
      ensures (blendFunc, opacityModifyRGB) == BlendFor(texture)
      ensures dirty == old(dirty)
      ensures ColorFields() == WithOpacityModifyRGB(old(ColorFields()), BlendFor(texture).1)
      ensures colors[..] == ColorBuffer(color, opacity)
    {
      if texture.None? || !texture.value.hasPremultipliedAlpha {
        blendFunc := StraightAlpha;
        SetOpacityModifyRGB(false);
      } else {
        blendFunc := ConfiguredDefault;
        SetOpacityModifyRGB(true);
      }
    }

    method SetTexture(t: Option<Texture>)
      requires Valid() && !usesSpriteSheet
      modifies this`texture, this`blendFunc, this`opacityModifyRGB, this`color, this`colorUnmodified, colors, this`dirty
      ensures texture == t && (blendFunc, opacityModifyRGB) == BlendFor(t)
      ensures dirty == old(dirty)
      ensures ColorFields() == WithOpacityModifyRGB(old(ColorFields()), BlendFor(t).1)
      ensures GetColor() == old(GetColor())
      ensures colors[..] == ColorBuffer(color, opacity)
    {
      texture := t;
      UpdateBlendFunc();
    }

    // ------------------------------------------------------------------
    // Texture rectangle

    /** The texture-coordinate buffer is the one the rectangle, texture and flips call for. */
    ghost predicate TexCoordsCurrent()
      reads this`rect, this`texture, this`flipX, this`flipY, texCoords
    {
      texCoords[..] == TexCoordBuffer(rect, texture, flipX, flipY)
    }

    /** Everything setTextureRect(r, size) establishes, in terms of the state after it. */
    ghost predicate RectApplied(r: Rect, size: Size)
      reads this`rect, this`contentSize, this`anchorPointInPixels, this`anchorPoint, this`texture, this`flipX, this`flipY
      reads this`offsetPosition, this`unflippedOffset, this`usesSpriteSheet, texCoords, vertexes
    {
      && rect == r && contentSize == size
      && anchorPointInPixels == Point(size.width * anchorPoint.x, size.height * anchorPoint.y)
      && TexCoordsCurrent()
      && offsetPosition == RectOffset(unflippedOffset, flipX, flipY, size, r.size)
      && (!usesSpriteSheet ==> vertexes[..] == LocalQuad(offsetPosition, r.size))
    }

    /** The node's setContentSize, which keeps the anchor in pixels in step. */
    method SetContentSize(size: Size)
      modifies this`contentSize, this`anchorPointInPixels
      ensures contentSize == size
      ensures anchorPointInPixels == Point(size.width * anchorPoint.x, size.height * anchorPoint.y)
    {
      contentSize := size;
      anchorPointInPixels := Point(size.width * anchorPoint.x, size.height * anchorPoint.y);
    }

    method UpdateTextureCoords(r: Rect)
      requires Valid()
      modifies texCoords
      ensures texCoords[..] == TexCoordBuffer(r, texture, flipX, flipY)
    {
      var atlasWidth := 1.0;
      var atlasHeight := 1.0;
      if texture.Some? {
        atlasWidth := texture.value.pixelsWide as real;
        atlasHeight := texture.value.pixelsHigh as real;
      }
      var left := r.origin.x / atlasWidth;
      var right := (r.origin.x + r.size.width) / atlasWidth;
      var top := r.origin.y / atlasHeight;
      var bottom := (r.origin.y + r.size.height) / atlasHeight;
      if flipX {
        left, right := right, left;
      }
      if flipY {
        top, bottom := bottom, top;
      }
      texCoords[0] := left;
      texCoords[1] := top;
      texCoords[2] := left;
      texCoords[3] := bottom;
      texCoords[4] := right;
      texCoords[5] := top;
      texCoords[6] := right;
      texCoords[7] := bottom;
      assert texCoords[..] == [left, top, left, bottom, right, top, right, bottom];
    }

    /** The offset of the drawn rectangle: the frame offset, mirrored by the flips, plus the centring margin. */
    method UpdateOffsetPosition()
      modifies this`offsetPosition
      ensures offsetPosition == RectOffset(unflippedOffset, flipX, flipY, contentSize, rect.size)
    {
      var relativeOffset := unflippedOffset.GetOr(Origin);
      if flipX {
        relativeOffset := relativeOffset.(x := -relativeOffset.x);
      }
      if flipY {
        relativeOffset := relativeOffset.(y := -relativeOffset.y);
      }
      offsetPosition := Point(relativeOffset.x + (contentSize.width - rect.size.width) / 2.0,
                              relativeOffset.y + (contentSize.height - rect.size.height) / 2.0);
    }

    /** The self-render vertex buffer: the rectangle at the offset, in the z = 0 plane. */
    method PutLocalQuad()
      requires Valid()
      modifies vertexes
      ensures vertexes[..] == LocalQuad(offsetPosition, rect.size)
    {
      var x1 := 0.0 + offsetPosition.x;
      var y1 := 0.0 + offsetPosition.y;
      var x2 := x1 + rect.size.width;
      var y2 := y1 + rect.size.height;
      Put(vertexes, [x1, y2, 0.0, x1, y1, 0.0, x2, y2, 0.0, x2, y1, 0.0]);
    }

    /** The first part of setTextureRect: the rectangle, the content size and the texture coordinates. */
    method ResizeAndMap(r: Rect, size: Size)
      requires Valid()
      modifies this`rect, this`contentSize, this`anchorPointInPixels, texCoords
      ensures rect == r && contentSize == size
      ensures anchorPointInPixels == Point(size.width * anchorPoint.x, size.height * anchorPoint.y)
      ensures TexCoordsCurrent()
    {
      rect := r;
      SetContentSize(size);
      UpdateTextureCoords(rect);
    }

    /**
     * The second part of setTextureRect: the offset, then either the sheet
     * told the quad is stale or the self-render vertices rebuilt.
     */
    method PlaceQuad()
      requires Valid()
      modifies this`offsetPosition, this`dirty, vertexes
      ensures offsetPosition == RectOffset(unflippedOffset, flipX, flipY, contentSize, rect.size)
      ensures usesSpriteSheet ==> dirty && vertexes[..] == old(vertexes[..])
      ensures !usesSpriteSheet ==> dirty == old(dirty) && vertexes[..] == LocalQuad(offsetPosition, rect.size)
    {
      UpdateOffsetPosition();
      if usesSpriteSheet {
        dirty := true;
      } else {
        PutLocalQuad();
      }
    }

    /**
     * setTextureRect(rect, size), with the frame offset copied before it is
     * negated so the stored offset is left alone.
     */
    method SetTextureRectWithSize(r: Rect, size: Size)
      requires Valid()
      modifies this`rect, this`contentSize, this`anchorPointInPixels, this`offsetPosition, this`dirty, texCoords, vertexes
      ensures RectApplied(r, size)
      ensures usesSpriteSheet ==> dirty && vertexes[..] == old(vertexes[..])
      ensures !usesSpriteSheet ==> dirty == old(dirty)
    {
      ResizeAndMap(r, size);
      PlaceQuad();
    }

    method SetTextureRect(r: Rect)
      requires Valid()
      modifies this`rect, this`contentSize, this`anchorPointInPixels, this`offsetPosition, this`dirty, texCoords, vertexes
      ensures RectApplied(r, r.size)
      ensures usesSpriteSheet ==> dirty && vertexes[..] == old(vertexes[..])
      ensures !usesSpriteSheet ==> dirty == old(dirty)
    {
      SetTextureRectWithSize(r, r.size);
    }

    method SetFlipX(b: bool)
      requires Valid()
      modifies this`flipX, this`rect, this`contentSize, this`anchorPointInPixels, this`offsetPosition, this`dirty, texCoords, vertexes
      ensures flipX == b
      ensures old(flipX) == b ==> unchanged(this) && unchanged(texCoords) && unchanged(vertexes)
      ensures old(flipX) != b ==> RectApplied(old(rect), old(rect).size)
      ensures old(flipX) != b && usesSpriteSheet ==> dirty && vertexes[..] == old(vertexes[..])
      ensures old(flipX) != b && !usesSpriteSheet ==> dirty == old(dirty)
    {
      if flipX != b {
        flipX := b;
        SetTextureRect(rect);
      }
    }

    method SetFlipY(b: bool)
      requires Valid()
      modifies this`flipY, this`rect, this`contentSize, this`anchorPointInPixels, this`offsetPosition, this`dirty, texCoords, vertexes
      ensures flipY == b
      ensures old(flipY) == b ==> unchanged(this) && unchanged(texCoords) && unchanged(vertexes)
      ensures old(flipY) != b ==> RectApplied(old(rect), old(rect).size)
      ensures old(flipY) != b && usesSpriteSheet ==> dirty && vertexes[..] == old(vertexes[..])
      ensures old(flipY) != b && !usesSpriteSheet ==> dirty == old(dirty)
    {
      if flipY != b {
        flipY := b;
        SetTextureRect(rect);
      }
    }

    /** setDisplayFrame(frame): adopt the frame's offset, its texture when the name differs, and its rectangle. */
    method SetDisplayFrame(frame: SpriteFrame)
      requires Valid() && texture.Some?
      requires frame.texture.name != texture.value.name ==> !usesSpriteSheet
      modifies this`unflippedOffset, this`texture, this`blendFunc, this`opacityModifyRGB, this`color, this`colorUnmodified, colors
      modifies this`rect, this`contentSize, this`anchorPointInPixels, this`offsetPosition, this`dirty, texCoords, vertexes
      ensures unflippedOffset == Some(frame.offset)
      ensures texture == if frame.texture.name != old(texture).value.name then Some(frame.texture) else old(texture)
      ensures GetColor() == old(GetColor())
      ensures frame.texture.name != old(texture).value.name ==>
        (blendFunc, opacityModifyRGB) == BlendFor(Some(frame.texture)) && colors[..] == ColorBuffer(color, opacity)
      ensures frame.texture.name == old(texture).value.name ==>
        blendFunc == old(blendFunc) && ColorFields() == old(ColorFields()) && colors[..] == old(colors[..])
      ensures RectApplied(frame.rect, frame.originalSize)
      ensures usesSpriteSheet ==> dirty && vertexes[..] == old(vertexes[..])
      ensures !usesSpriteSheet ==> dirty == old(dirty)
    {
      unflippedOffset := Some(frame.offset);
      if frame.texture.name != texture.value.name {
        SetTexture(Some(frame.texture));
      }
      ghost var shade := (blendFunc, ColorFields(), colors[..]);
      SetTextureRectWithSize(frame.rect, frame.originalSize);
      assert (blendFunc, ColorFields(), colors[..]) == shade;
    }

    // ------------------------------------------------------------------
    // Render mode

    method UseSelfRender()
      requires Valid()
      modifies this`atlasIndex, this`usesSpriteSheet, this`textureAtlas, this`spriteSheet, this`dirty, this`recursiveDirty, vertexes
      ensures Valid()
      ensures atlasIndex == IndexNotInitialized && !usesSpriteSheet && textureAtlas == null && spriteSheet == null
      ensures !dirty && !recursiveDirty
      ensures vertexes[..] == LocalQuad(offsetPosition, rect.size)
    {
      atlasIndex := IndexNotInitialized;
      usesSpriteSheet := false;
      textureAtlas := null;
      spriteSheet := null;
      dirty, recursiveDirty := false, false;
      PutLocalQuad();
    }

    method UseSpriteSheetRender(sheet: SpriteSheet)
      requires Valid()
      modifies this`usesSpriteSheet, this`textureAtlas, this`spriteSheet
      ensures Valid()
      ensures usesSpriteSheet && spriteSheet == sheet && textureAtlas == sheet.textureAtlas
    {
      usesSpriteSheet := true;
      textureAtlas := sheet.textureAtlas;
      spriteSheet := sheet;
    }

    /**
     * The colour part of init(): opaque white with premultiplying on, then
     * setTexture(null), which turns premultiplying off again.
     */
    method InitColor()
      requires Valid() && !usesSpriteSheet
      modifies this`opacityModifyRGB, this`opacity, this`color, this`colorUnmodified, this`texture, this`blendFunc, colors, this`dirty
      ensures ColorFields() == ColorState(White, White, 255, false) && colors[..] == ColorBuffer(White, 255)
      ensures texture == None && blendFunc == StraightAlpha && dirty == old(dirty)
    {
      opacityModifyRGB := true;
      opacity := 255;
      color := White;
      colorUnmodified := White;
      SetTexture(None);
    }

    /**
     * The part of init() before the texture rectangle: clean flags, the
     * zwoptex defaults for offset and rectangle, self-render mode, then
     * opaque white and no texture.
     */
    method InitRenderAndColor()
      requires Valid()
      modifies this`atlasIndex, this`usesSpriteSheet, this`textureAtlas, this`spriteSheet, this`dirty, this`recursiveDirty, vertexes
      modifies this`opacityModifyRGB, this`opacity, this`color, this`colorUnmodified, this`texture, this`blendFunc, colors
      modifies this`offsetPosition, this`rect
      ensures Valid()
      ensures ColorFields() == ColorState(White, White, 255, false) && colors[..] == ColorBuffer(White, 255)
      ensures texture == None && blendFunc == StraightAlpha
      ensures !usesSpriteSheet && atlasIndex == IndexNotInitialized && !dirty && !recursiveDirty
      ensures offsetPosition == Origin && rect == MakeRect(0.0, 0.0, 1.0, 1.0)
    {
      dirty, recursiveDirty := false, false;
      offsetPosition, rect := Origin, MakeRect(0.0, 0.0, 1.0, 1.0);
      UseSelfRender();
      InitColor();
    }

    /**
     * The rest of init() before the texture rectangle: no flips, the anchor
     * in the middle, the parent's whole transform honoured, no children and
     * a white colour buffer.
     */
    method InitFlagsAndBuffer()
      requires Valid()
      modifies this`flipX, this`flipY, this`anchorPoint, this`honorParentTransform, this`hasChildren, colors
      ensures !flipX && !flipY && honorParentTransform == HonorAll && !hasChildren
      ensures anchorPoint == Point(0.5, 0.5)
      ensures colors[..] == ColorBuffer(White, 255)
    {
      flipY, flipX := false, false;
      anchorPoint := Point(0.5, 0.5);
      honorParentTransform := HonorAll;
      hasChildren := false;
      WhiteColorBuffer();
      Put(colors, seq(16, _ => 1.0));
    }

    /** What init() has set up before it fixes the texture rectangle. */
    ghost predicate InitialBeforeRect()
      reads this`usesSpriteSheet, this`spriteSheet, this`textureAtlas, colors
      reads this`color, this`colorUnmodified, this`opacity, this`opacityModifyRGB, this`texture, this`blendFunc
      reads this`atlasIndex, this`recursiveDirty, this`flipX, this`flipY, this`honorParentTransform, this`hasChildren, this`anchorPoint
    {
      && Valid()
      && ColorFields() == ColorState(White, White, 255, false) && colors[..] == ColorBuffer(White, 255)
      && texture == None && blendFunc == StraightAlpha
      && !usesSpriteSheet && atlasIndex == IndexNotInitialized && !recursiveDirty
      && !flipX && !flipY && honorParentTransform == HonorAll && !hasChildren
      && anchorPoint == Point(0.5, 0.5)
    }

    /** The state init() leaves a sprite in: white, opaque, self-rendered, untextured, unflipped, clean and empty. */
    ghost predicate Initial()
      reads this`usesSpriteSheet, this`spriteSheet, this`textureAtlas, colors, texCoords, vertexes
      reads this`color, this`colorUnmodified, this`opacity, this`opacityModifyRGB, this`texture, this`blendFunc
      reads this`atlasIndex, this`recursiveDirty, this`flipX, this`flipY, this`honorParentTransform, this`hasChildren, this`anchorPoint
      reads this`dirty, this`rect, this`contentSize, this`anchorPointInPixels, this`offsetPosition, this`unflippedOffset
    {
      InitialBeforeRect() && !dirty && RectApplied(MakeRect(0.0, 0.0, 0.0, 0.0), Size(0.0, 0.0))
    }

    /** The part of init() before the texture rectangle. */
    method InitBeforeRect()
      requires Valid()
      modifies this`atlasIndex, this`usesSpriteSheet, this`textureAtlas, this`spriteSheet, this`dirty, this`recursiveDirty, vertexes
      modifies this`opacityModifyRGB, this`opacity, this`color, this`colorUnmodified, this`texture, this`blendFunc, colors
      modifies this`flipX, this`flipY, this`anchorPoint, this`honorParentTransform, this`hasChildren
      modifies this`offsetPosition, this`rect
      ensures InitialBeforeRect() && !dirty
    {
      InitRenderAndColor();
      InitFlagsAndBuffer();
    }

    /**
     * init(): clean flags and the zwoptex defaults for offset and rectangle,
     * the render mode, colour and flags, then the empty texture rectangle.
     * The node's own state (position, rotation, scale, z, visibility,
     * children) and the frame offset are left alone.
     */
    method Init()
      requires Valid()
      modifies this`atlasIndex, this`usesSpriteSheet, this`textureAtlas, this`spriteSheet, this`dirty, this`recursiveDirty
      modifies this`opacityModifyRGB, this`opacity, this`color, this`colorUnmodified, this`texture, this`blendFunc
      modifies this`flipX, this`flipY, this`anchorPoint, this`honorParentTransform, this`hasChildren
      modifies this`rect, this`contentSize, this`anchorPointInPixels, this`offsetPosition, vertexes, colors, texCoords
      ensures visible == old(visible) && Nodes == old(Nodes) && children == old(children)
      ensures Initial()
    {
      ghost var node := (visible, Nodes, children);
      InitBeforeRect();
      assert (visible, Nodes, children) == node;
      SetTextureRect(MakeRect(0.0, 0.0, 0.0, 0.0));
    }

    /** A new sprite: the fields' defaults, a one-sprite tree, then init(). */
    constructor ()
      ensures visible && Nodes == {this} && children == []
      ensures Tree() && Initial()
      ensures fresh(texCoords) && fresh(vertexes) && fresh(colors)
    {
      texCoords := new real[8];
      vertexes := new real[12];
      colors := new real[16];
      unflippedOffset := None;
      textureAtlas, spriteSheet, usesSpriteSheet := null, null, false;
      visible, position, rotation, scaleX, scaleY, vertexZ := true, Origin, 0.0, 1.0, 1.0, 0.0;
      children := [];
      new;
      Nodes := {this};
      Init();
      Leaf();
    }

    // ------------------------------------------------------------------
    // Dirty tracking

    /**
     * What SET_DIRTY_RECURSIVELY leaves behind: a batched sprite that was
     * not already recursively dirty is dirty, with every sprite the walk
     * reached from it, and the other sprites below keep their flags; in
     * every other case no sprite's flags change.
     */
    twostate predicate MarkedDirty(nodes: set<Sprite>, reached: set<Sprite>)
      reads this, nodes, reached
    {
      if old(usesSpriteSheet) && !old(recursiveDirty) then
        && dirty && recursiveDirty
        && (forall t :: t in reached ==> t.dirty && t.recursiveDirty)
        && (forall t :: t in nodes - {this} - reached ==>
              t.dirty == old(t.dirty) && t.recursiveDirty == old(t.recursiveDirty))
      else
        forall t :: t in nodes ==> t.dirty == old(t.dirty) && t.recursiveDirty == old(t.recursiveDirty)
    }

    /**
     * setDirtyRecursively(b): this sprite gets b, every sprite the walk
     * reaches gets true, and the sprites it does not reach keep their flags.
     */
    method SetDirtyRecursively(b: bool)
      requires Tree()
      modifies Nodes`dirty, Nodes`recursiveDirty
      decreases Nodes, 1
      ensures dirty == b && recursiveDirty == b
      ensures forall t :: t in Visited() ==> t.dirty && t.recursiveDirty
      ensures old(FlagsOrdered()) ==> FlagsOrdered()
      ensures forall t :: t in Nodes - {this} - Visited() ==>
        t.dirty == old(t.dirty) && t.recursiveDirty == old(t.recursiveDirty)
    {
      ChildrenAreTrees();
      dirty, recursiveDirty := b, b;
      if hasChildren {
        SetChildrenDirty(children, Nodes - {this});
      }
    }

    /** The loop of setDirtyRecursively: each child in turn, with what it reaches. */
    static method SetChildrenDirty(kids: seq<Sprite>, ghost below: set<Sprite>)
      requires forall c :: c in kids ==> c.Tree() && c in below && c.Nodes <= below
      modifies below`dirty, below`recursiveDirty
      decreases below, 2
      ensures forall t :: t in VisitedBelow(kids, below) ==> t.dirty && t.recursiveDirty
      ensures forall t :: t in below - VisitedBelow(kids, below) ==>
        t.dirty == old(t.dirty) && t.recursiveDirty == old(t.recursiveDirty)
    {
      var i := 0;
      ghost var done: set<Sprite> := {};
      while i < |kids|
        invariant 0 <= i <= |kids|
        invariant forall c :: c in kids ==> c.Tree()
        invariant done == old(VisitedBelow(kids[..i], below))
        invariant forall t :: t in done ==> t.dirty && t.recursiveDirty
        invariant forall t :: t in below - done ==> t.dirty == old(t.dirty) && t.recursiveDirty == old(t.recursiveDirty)
      {
        assert kids[..i + 1][..i] == kids[..i];
        var kid := kids[i];
        ghost var reach := old(kid.Visited());
        assert reach == kid.Visited();
        kid.SetDirtyRecursively(true);
        done := done + {kid} + reach;
        i := i + 1;
      }
      assert kids[..i] == kids;
    }

    /** SET_DIRTY_RECURSIVELY, the step every transform setter ends with. */
    method MarkDirtyRecursively()
      requires Tree()
      modifies Nodes`dirty, Nodes`recursiveDirty
      ensures MarkedDirty(old(Nodes), old(Visited()))
      ensures usesSpriteSheet ==> recursiveDirty
      ensures old(FlagsOrdered()) ==> FlagsOrdered()
    {
      if usesSpriteSheet && !recursiveDirty {
        dirty, recursiveDirty := true, true;
        if hasChildren {
          SetDirtyRecursively(true);
        }
      }
    }

    // ------------------------------------------------------------------
    // Transform setters: the node's setter, then SET_DIRTY_RECURSIVELY

    method SetPosition(p: Point)
      requires Tree()
      modifies this`position, Nodes`dirty, Nodes`recursiveDirty
      ensures position == p && MarkedDirty(old(Nodes), old(Visited()))
    {
      position := p;
      MarkDirtyRecursively();
    }

    method SetRotation(degrees: real)
      requires Tree()
      modifies this`rotation, Nodes`dirty, Nodes`recursiveDirty
      ensures rotation == degrees && MarkedDirty(old(Nodes), old(Visited()))
    {
      rotation := degrees;
      MarkDirtyRecursively();
    }

    method SetScaleX(sx: real)
      requires Tree()
      modifies this`scaleX, Nodes`dirty, Nodes`recursiveDirty
      ensures scaleX == sx && MarkedDirty(old(Nodes), old(Visited()))
    {
      scaleX := sx;
      MarkDirtyRecursively();
    }

    method SetScaleY(sy: real)
      requires Tree()
      modifies this`scaleY, Nodes`dirty, Nodes`recursiveDirty
      ensures scaleY == sy && MarkedDirty(old(Nodes), old(Visited()))
    {
      scaleY := sy;
      MarkDirtyRecursively();
    }

    /** The node's setScale sets both factors. */
    method SetScale(sc: real)
      requires Tree()
      modifies this`scaleX, this`scaleY, Nodes`dirty, Nodes`recursiveDirty
      ensures scaleX == sc && scaleY == sc && MarkedDirty(old(Nodes), old(Visited()))
    {
      scaleX, scaleY := sc, sc;
      MarkDirtyRecursively();
    }

    method SetVertexZ(z: real)
      requires Tree()
      modifies this`vertexZ, Nodes`dirty, Nodes`recursiveDirty
      ensures vertexZ == z && MarkedDirty(old(Nodes), old(Visited()))
    {
      vertexZ := z;
      MarkDirtyRecursively();
    }

    /** The node's setAnchorPoint, which keeps the anchor in pixels in step with the content size. */
    method SetAnchorPoint(a: Point)
      requires Tree()
      modifies this`anchorPoint, this`anchorPointInPixels, Nodes`dirty, Nodes`recursiveDirty
      ensures anchorPoint == a
      ensures anchorPointInPixels == Point(contentSize.width * a.x, contentSize.height * a.y)
      ensures MarkedDirty(old(Nodes), old(Visited()))
    {
      anchorPoint := a;
      anchorPointInPixels := Point(contentSize.width * a.x, contentSize.height * a.y);
      MarkDirtyRecursively();
    }

    // ------------------------------------------------------------------
    // Visibility

    /**
     * What a visibility change may do to the given sprites: each one keeps
     * its visibility or takes the new one, and dirty flags are only raised.
     * A batched sprite that was not recursively dirty and whose visibility
     * changed ends dirty and recursively dirty, and recursiveDirty rises
     * only on such a sprite, together with dirty.
     */
    static twostate predicate VisibilitySpread(nodes: set<Sprite>, v: bool)
      reads nodes
    {
      forall t :: t in nodes ==>
        && (t.visible == old(t.visible) || t.visible == v)
        && (old(t.dirty) ==> t.dirty)
        && (old(t.recursiveDirty) ==> t.recursiveDirty)
        && (t.visible != old(t.visible) && t.usesSpriteSheet && !old(t.recursiveDirty) ==> t.dirty && t.recursiveDirty)
        && (t.recursiveDirty && !old(t.recursiveDirty) ==> t.visible != old(t.visible) && t.usesSpriteSheet && t.dirty)
    }

    /**
     * setVisible, with the change detected against the visibility before
     * the node's setter overwrote it: a batched sprite that is not already
     * recursively dirty becomes dirty and passes the value to its children.
     */
    method SetVisible(v: bool)
      requires Tree()
      modifies Nodes`visible, Nodes`dirty, Nodes`recursiveDirty
      decreases Nodes, 1
      ensures visible == v
      ensures VisibilityCascades(old(visible), v, usesSpriteSheet, old(recursiveDirty)) ==>
        && dirty && recursiveDirty
        && forall c :: c in children ==>
             && c.visible == v
             && (VisibilityCascades(old(c.visible), v, c.usesSpriteSheet, old(c.recursiveDirty)) ==> c.dirty && c.recursiveDirty)
      ensures !VisibilityCascades(old(visible), v, usesSpriteSheet, old(recursiveDirty)) ==>
        && dirty == old(dirty) && recursiveDirty == old(recursiveDirty)
        && forall t :: t in old(Nodes) - {this} ==>
             t.visible == old(t.visible) && t.dirty == old(t.dirty) && t.recursiveDirty == old(t.recursiveDirty)
      ensures VisibilitySpread(old(Nodes), v)
      ensures old(FlagsOrdered()) ==> FlagsOrdered()
    {
      ChildrenAreTrees();
      var before := visible;
      visible := v;
      if VisibilityCascades(before, v, usesSpriteSheet, recursiveDirty) {
        dirty, recursiveDirty := true, true;
        SetChildrenVisible(children, v, Nodes - {this});
      }
    }

    /** The loop of setVisible: each child is given the value in turn. */
    static method SetChildrenVisible(kids: seq<Sprite>, v: bool, ghost below: set<Sprite>)
      requires forall c :: c in kids ==> c.Tree() && c.Nodes <= below
      modifies below`visible, below`dirty, below`recursiveDirty
      decreases below, 2
      ensures forall k :: 0 <= k < |kids| ==> kids[k].visible == v
      ensures forall k :: 0 <= k < |kids| ==>
        VisibilityCascades(old(kids[k].visible), v, kids[k].usesSpriteSheet, old(kids[k].recursiveDirty)) ==>
        kids[k].dirty && kids[k].recursiveDirty
      ensures VisibilitySpread(below, v)
    {
      var i := 0;
      while i < |kids|
        invariant 0 <= i <= |kids|
        invariant forall c :: c in kids ==> c.Tree()
        invariant forall c :: c in kids ==> c in below
        invariant forall k :: 0 <= k < i ==> kids[k].visible == v
        invariant VisibilitySpread(below, v)
      {
        kids[i].SetVisible(v);
        i := i + 1;
      }
    }

    // ------------------------------------------------------------------
    // Children

    /** The footprint an adopted child brings along, in terms of the state before the adoption. */
    lemma AdoptionFootprint(child: Sprite)
      requires Tree() && child.Tree() && Nodes !! child.Nodes
      ensures forall s :: s in Nodes - {this} + child.Nodes ==>
        s != this && this !in s.Nodes && s.Local() && s.Nodes <= Nodes - {this} + child.Nodes
      ensures this !in children + [child]
      ensures ChildNodes(children + [child]) == Nodes - {this} + child.Nodes
      ensures forall c :: c in children + [child] ==> c in Nodes - {this} + child.Nodes
    {
      ChildrenAreTrees();
      BelowThis();
      ChildNodesAppend(children, child);
      assert forall s :: s in child.Nodes ==> s.Local() && s.Nodes <= child.Nodes;
      if this in ChildNodes(children) {
        var k := ChildOf(children, this);
      }
    }

    /** The node's addChild: the child is appended and its footprint joins this one. */
    method Adopt(child: Sprite)
      requires Tree() && child.Tree() && Nodes !! child.Nodes
      modifies this`children, this`Nodes
      ensures Tree()
      ensures children == old(children) + [child]
      ensures Nodes == old(Nodes) + child.Nodes
    {
      ghost var others := Nodes - {this} + child.Nodes;
      AdoptionFootprint(child);
      children := children + [child];
      Nodes := Nodes + child.Nodes;
      Assemble(others);
    }

    /** The footprint left after removing a child, in terms of the state before the removal. */
    lemma DetachFootprint(sprite: Sprite)
      requires Tree()
      ensures var below := ChildNodes(Without(children, sprite));
        && (forall t :: t in below ==> t in Nodes - {this} && this !in t.Nodes && t.Local() && t.Nodes <= below)
        && this !in Without(children, sprite)
        && (forall c :: c in Without(children, sprite) ==> c in below)
    {
      ChildrenAreTrees();
      BelowThis();
      var kids := Without(children, sprite);
      forall t | t in ChildNodes(kids)
        ensures t in Nodes - {this} && t.Nodes <= ChildNodes(kids)
      {
        var k := ChildOf(kids, t);
        assert kids[k] in children;
        assert kids[k].Local();
      }
    }

    /** The node's removeChild: every occurrence of the sprite leaves the children, and its footprint with it. */
    method Detach(sprite: Sprite)
      requires Tree()
      modifies this`children, this`Nodes
      ensures Tree()
      ensures children == Without(old(children), sprite)
      ensures Nodes <= old(Nodes)
    {
      var kids := Without(children, sprite);
      ghost var below := ChildNodes(kids);
      DetachFootprint(sprite);
      children := kids;
      Nodes := {this} + below;
      Assemble(below);
    }

    /** addChild: the node's insertion, the sheet told where the child goes, and the children flag raised. */
    method AddChild(child: Sprite, index: int)
      requires Tree() && Valid() && child.Tree() && Nodes !! child.Nodes
      modifies this`children, this`hasChildren, this`Nodes, ({spriteSheet} - {null})`log
      ensures Tree() && children == old(children) + [child] && hasChildren
      ensures Nodes == old(Nodes) + child.Nodes
      ensures old(FlagsAgree()) && child.FlagsAgree() ==> FlagsAgree()
      ensures usesSpriteSheet ==> spriteSheet.log == old(spriteSheet.log) + [Inserted(child, index)]
    {
      Adopt(child);
      ghost var adopted := children;
      if usesSpriteSheet {
        spriteSheet.InsertChild(child, index);
      }
      assert Tree() && children == adopted;
      hasChildren := true;
    }

    /** removeChild: the sheet is told first, whether or not the sprite is a child; then the node's removal. */
    method RemoveChild(sprite: Sprite)
      requires Tree() && Valid()
      modifies this`children, this`hasChildren, this`Nodes, ({spriteSheet} - {null})`log
      ensures Tree() && children == Without(old(children), sprite)
      ensures hasChildren <==> |children| > 0
      ensures old(FlagsAgree()) ==> FlagsAgree()
      ensures usesSpriteSheet ==> spriteSheet.log == old(spriteSheet.log) + [Removed(sprite)]
    {
      if usesSpriteSheet {
        spriteSheet.RemoveSpriteFromAtlas(sprite);
      }
      Detach(sprite);
      hasChildren := |children| > 0;
    }

    /** removeAllChildren: in sheet mode each child is removed from the atlas in order; then no children remain. */
    method RemoveAllChildren()
      requires Tree() && Valid()
      modifies this`children, this`hasChildren, this`Nodes, ({spriteSheet} - {null})`log
      ensures Tree() && children == [] && !hasChildren && Nodes == {this} && FlagsAgree()
      ensures usesSpriteSheet ==> spriteSheet.log == old(spriteSheet.log) + Removals(old(children))
    {
      if usesSpriteSheet {
        var i := 0;
        while i < |children|
          invariant 0 <= i <= |children|
          invariant children == old(children)
          invariant spriteSheet.log == old(spriteSheet.log) + Removals(children[..i])
        {
          assert Removals(children[..i + 1]) == Removals(children[..i]) + [Removed(children[i])];
          spriteSheet.RemoveSpriteFromAtlas(children[i]);
          i := i + 1;
        }
        assert children[..i] == children;
      }
      children := [];
      hasChildren := false;
      Nodes := {this};
      Leaf();
    }

    /**
     * The sheet branch of reorderChild as written: the sprite's removeChild,
     * then the node's two-argument addChild, which does not reach the
     * sprite's own addChild (that one takes a sprite, so it overloads the
     * node's rather than overriding it). The sheet is told of the removal
     * only, and the children flag keeps the value removeChild gave it. A
     * sprite reordered under a parent with no other child is left with a
     * child its flag hides, so the dirty walk no longer reaches it.
     */
    method ReinsertInSheetAsWritten(child: Sprite)
      requires Tree() && Valid() && usesSpriteSheet && child in children
      requires child.Nodes !! ChildNodes(Without(children, child))
      modifies this`children, this`hasChildren, this`Nodes, spriteSheet`log
      ensures Tree()
      ensures children == Without(old(children), child) + [child]
      ensures hasChildren == (|Without(old(children), child)| > 0)
      ensures spriteSheet.log == old(spriteSheet.log) + [Removed(child)]
      ensures old(children) == [child] ==> !hasChildren && Visited() == {} && child in Nodes - {this}
    {
      ChildIsTree(child);
      ghost var kept := Without(children, child);
      ghost var rest := ChildNodes(kept);
      RemoveChild(child);
      assert children == kept && Nodes == {this} + rest && child.Tree();
      Adopt(child);
      if old(children) == [child] {
        assert children == [child];
        StaleFlagHidesChildren();
      }
    }

    /**
     * The sheet branch of reorderChild as intended: the sprite's removeChild
     * and then its own addChild, so the sheet gets the child back at the
     * given index and the children flag is raised.
     */
    method ReinsertInSheet(child: Sprite, index: int)
      requires Tree() && Valid() && usesSpriteSheet && child in children
      requires child.Nodes !! ChildNodes(Without(children, child))
      modifies this`children, this`hasChildren, this`Nodes, spriteSheet`log
      ensures Tree() && hasChildren
      ensures children == Without(old(children), child) + [child]
      ensures spriteSheet.log == old(spriteSheet.log) + [Removed(child), Inserted(child, index)]
    {
      ChildIsTree(child);
      ghost var kept := Without(children, child);
      ghost var rest := ChildNodes(kept);
      RemoveChild(child);
      assert children == kept && Nodes == {this} + rest && child.Tree();
      AddChild(child, index);
    }

    // ------------------------------------------------------------------
    // Quad of a batched sprite

    /**
     * updateTransform once its matrix is known: the atlas slot gets the
     * transformed quad, or twelve zeros for an invisible sprite, and both
     * dirty flags are cleared.
     */
    method UpdateTransform(m: Affine)
      requires Valid() && usesSpriteSheet
      modifies textureAtlas`quadVertices, this`dirty, this`recursiveDirty
      ensures textureAtlas.quadVertices == old(textureAtlas.quadVertices)[atlasIndex :=
        if visible then QuadVertices(m, offsetPosition, rect.size, vertexZ) else ZeroQuad]
      ensures !dirty && !recursiveDirty
      ensures old(FlagsOrdered()) ==> FlagsOrdered()
    {
      if !visible {
        textureAtlas.PutVertex(ZeroQuad, atlasIndex);
        dirty, recursiveDirty := false, false;
        return;
      }
      textureAtlas.PutVertex(QuadVertices(m, offsetPosition, rect.size, vertexZ), atlasIndex);
      dirty, recursiveDirty := false, false;
    }
  }
}
