/**
 * The sprite's colour state: the stored colour (already multiplied by the
 * opacity when the texture has premultiplied alpha), the colour the user
 * asked for, the opacity, and the flag choosing between the two modes;
 * plus what is derived from it (the logical colour, the 16-float colour
 * buffer, the four atlas colours) and the blend policy tied to a texture.
 */
module ColorModel {
  import opened Wrappers
  import opened Geometry

  /** A colour channel or an opacity: an unsigned byte, 0..255. */
  type Byte = n: int | 0 <= n < 256

  datatype Color3 = Color3(r: Byte, g: Byte, b: Byte)

  datatype Color4 = Color4(r: Byte, g: Byte, b: Byte, a: Byte)

  const White: Color3 := Color3(255, 255, 255)

  lemma {:induction false} MulMonotone(a: nat, b: nat, c: nat)
    requires b <= c
    ensures a * b <= a * c
  {
    if a > 0 {
      MulMonotone(a - 1, b, c);
      assert a * b == (a - 1) * b + b;
      assert a * c == (a - 1) * c + c;
    }
  }

  /**
   * One channel scaled by an opacity with integer arithmetic: the product
   * divided by 255 and truncated (both operands are non-negative, so
   * Java's truncating division and Dafny's agree).
   */
  function Modulate(channel: Byte, opacity: Byte): (r: Byte)
    ensures r <= channel
    ensures opacity == 255 ==> r == channel
    ensures opacity == 0 ==> r == 0
  {
    MulMonotone(channel, opacity, 255);
    channel * opacity / 255
  }

  /** The scaled channel is the largest byte whose 255-fold does not exceed channel times opacity. */
  lemma ModulateIsFloor(channel: Byte, opacity: Byte)
    ensures Modulate(channel, opacity) * 255 <= channel * opacity < Modulate(channel, opacity) * 255 + 255
  { }

  /** Scaling never brightens: a larger opacity gives a channel at least as large. */
  lemma ModulateMonotone(channel: Byte, lo: Byte, hi: Byte)
    requires lo <= hi
    ensures Modulate(channel, lo) <= Modulate(channel, hi)
  {
    MulMonotone(channel, lo, hi);
    ModulateIsFloor(channel, lo);
    ModulateIsFloor(channel, hi);
  }

  function ModulateColor(c: Color3, opacity: Byte): (r: Color3)
    ensures r.r <= c.r && r.g <= c.g && r.b <= c.b
    ensures opacity == 255 ==> r == c
  {
    Color3(Modulate(c.r, opacity), Modulate(c.g, opacity), Modulate(c.b, opacity))
  }

  /** The four colour fields of a sprite. */
  datatype ColorState = ColorState(color: Color3, colorUnmodified: Color3, opacity: Byte, opacityModifyRGB: bool)

  /** The stored colour is the requested one, scaled by the opacity when the flag is set. */
  ghost predicate Coherent(st: ColorState) {
    st.color == if st.opacityModifyRGB then ModulateColor(st.colorUnmodified, st.opacity) else st.colorUnmodified
  }

  /** What getColor reports: the colour the user asked for when premultiplying, else the stored one. */
  function Logical(st: ColorState): (r: Color3)
    ensures Coherent(st) ==> r == st.colorUnmodified
  {
    if st.opacityModifyRGB then st.colorUnmodified else st.color
  }

  /** setColor: remember the requested colour and store it, scaled when the flag is set. */
  function WithColor(st: ColorState, c: Color3): (r: ColorState)
    ensures Coherent(r)
    ensures Logical(r) == c && r.colorUnmodified == c
    ensures r.opacity == st.opacity && r.opacityModifyRGB == st.opacityModifyRGB
  {
    var st1 := st.(color := c, colorUnmodified := c);
    if st.opacityModifyRGB then st1.(color := ModulateColor(c, st.opacity)) else st1
  }

  /** setOpacity: record the opacity, then re-derive the stored colour from the requested one. */
  function WithOpacity(st: ColorState, opacity: Byte): (r: ColorState)
    ensures r.opacity == opacity && r.opacityModifyRGB == st.opacityModifyRGB
    ensures r.colorUnmodified == st.colorUnmodified
    ensures Logical(r) == Logical(st)
    ensures r.opacityModifyRGB ==> r.color == ModulateColor(st.colorUnmodified, opacity)
    ensures !r.opacityModifyRGB ==> r.color == st.color
    ensures Coherent(st) ==> Coherent(r)
  {
    var st1 := st.(opacity := opacity);
    if st.opacityModifyRGB then WithColor(st1, st.colorUnmodified) else st1
  }

  /** Applies a sequence of opacity changes in order. */
  function ApplyOpacities(st: ColorState, opacities: seq<Byte>): ColorState
    decreases |opacities|
  {
    if opacities == [] then st else ApplyOpacities(WithOpacity(st, opacities[0]), opacities[1..])
  }

  /**
   * Truncation never accumulates: after any number of opacity changes the
   * state is what the last change alone would have produced.
   */
  lemma {:induction false} OpacityChangesDoNotAccumulate(st: ColorState, opacities: seq<Byte>)
    requires opacities != []
    ensures ApplyOpacities(st, opacities) == WithOpacity(st, opacities[|opacities| - 1])
    decreases |opacities|
  {
    if |opacities| > 1 {
      var st1 := WithOpacity(st, opacities[0]);
      OpacityChangesDoNotAccumulate(st1, opacities[1..]);
      assert opacities[1..][|opacities[1..]| - 1] == opacities[|opacities| - 1];
    }
  }

  /** Going back to full opacity restores exactly the requested colour. */
  lemma FullOpacityRestoresColor(st: ColorState, opacity: Byte)
    requires st.opacityModifyRGB
    ensures WithOpacity(WithOpacity(st, opacity), 255).color == st.colorUnmodified
  { }

  /**
   * setOpacityModifyRGB as it is meant to work: switching the mode keeps
   * the logical colour, so the colour is read with getColor before the
   * flag changes.
   */
  function WithOpacityModifyRGB(st: ColorState, enabled: bool): (r: ColorState)
    ensures r.opacityModifyRGB == enabled && r.opacity == st.opacity
    ensures Logical(r) == Logical(st)
    ensures Coherent(r)
  {
    WithColor(st.(opacityModifyRGB := enabled), Logical(st))
  }

  /** setOpacityModifyRGB as written: it re-stores the raw colour field, which may already be scaled. */
  function WithOpacityModifyRGBAsWritten(st: ColorState, enabled: bool): (r: ColorState)
    ensures r.opacityModifyRGB == enabled && r.opacity == st.opacity
    ensures Logical(r) == st.color
  {
    WithColor(st.(opacityModifyRGB := enabled), st.color)
  }

  /** The two versions agree exactly when the stored colour is the logical one. */
  lemma ModifyRGBVersionsAgree(st: ColorState, enabled: bool)
    ensures WithOpacityModifyRGBAsWritten(st, enabled) == WithOpacityModifyRGB(st, enabled)
        <==> st.color == Logical(st)
  {
    if WithOpacityModifyRGBAsWritten(st, enabled) == WithOpacityModifyRGB(st, enabled) {
      assert Logical(WithOpacityModifyRGBAsWritten(st, enabled)) == Logical(WithOpacityModifyRGB(st, enabled));
    }
  }

  /**
   * A premultiplied white-ish sprite at half opacity: requesting (200, 100, 50)
   * stores (100, 50, 25); re-asserting the mode with the written version then
   * loses the requested colour, while the corrected version keeps it.
   */
  lemma ModifyRGBAsWrittenLosesColor()
    ensures var st := WithOpacity(WithColor(ColorState(White, White, 255, true), Color3(200, 100, 50)), 128);
      && st.color == Color3(100, 50, 25)
      && Logical(WithOpacityModifyRGBAsWritten(st, true)) == Color3(100, 50, 25)
      && WithOpacityModifyRGBAsWritten(st, true).color == Color3(50, 25, 12)
      && Logical(WithOpacityModifyRGB(st, true)) == Color3(200, 100, 50)
  {
    var st := WithOpacity(WithColor(ColorState(White, White, 255, true), Color3(200, 100, 50)), 128);
    assert st.color == Color3(100, 50, 25);
  }

  /** The four floats a vertex carries: the stored colour and the opacity scaled to 0..1. */
  function VertexColor(c: Color3, opacity: Byte): (r: seq<real>)
    ensures |r| == 4
  {
    [c.r as real / 255.0, c.g as real / 255.0, c.b as real / 255.0, opacity as real / 255.0]
  }

  /** Each float is its byte scaled into 0..1, and scaling back by 255 recovers the byte. */
  lemma VertexColorScales(c: Color3, opacity: Byte)
    ensures var r := VertexColor(c, opacity);
      && (forall k :: 0 <= k < 4 ==> 0.0 <= r[k] <= 1.0)
      && r[0] * 255.0 == c.r as real && r[1] * 255.0 == c.g as real
      && r[2] * 255.0 == c.b as real && r[3] * 255.0 == opacity as real
  { }

  /** updateColor's self-render buffer: the same four floats for each of the four vertices. */
  function ColorBuffer(c: Color3, opacity: Byte): (r: seq<real>)
    ensures |r| == 16
  {
    var v := VertexColor(c, opacity);
    v + v + v + v
  }

  /** The buffer is the vertex colour four times over, so every entry lies in 0..1. */
  lemma ColorBufferRepeats(c: Color3, opacity: Byte)
    ensures var r := ColorBuffer(c, opacity);
      && r[0..4] == r[4..8] == r[8..12] == r[12..16] == VertexColor(c, opacity)
      && forall k :: 0 <= k < 16 ==> 0.0 <= r[k] <= 1.0
  {
    VertexColorScales(c, opacity);
  }

  /** Opaque white is all ones: the buffer init() writes by hand. */
  lemma WhiteColorBuffer()
    ensures ColorBuffer(White, 255) == seq(16, _ => 1.0)
  {
    var v := VertexColor(White, 255);
    assert v == [1.0, 1.0, 1.0, 1.0];
  }

  /** updateColor's atlas entry: one byte colour, repeated for the four corners. */
  function QuadColors(c: Color3, opacity: Byte): (r: seq<Color4>)
    ensures |r| == 4
    ensures forall k :: 0 <= k < 4 ==> r[k] == Color4(c.r, c.g, c.b, opacity)
  {
    var q := Color4(c.r, c.g, c.b, opacity);
    [q, q, q, q]
  }

  /**
   * The two blend functions the sprite chooses between: straight alpha
   * (source alpha, one minus source alpha) and the configured default.
   */
  datatype BlendFunc = StraightAlpha | ConfiguredDefault

  /** updateBlendFunc's policy: the blend function and the premultiplying flag follow the texture. */
  function BlendFor(texture: Option<Texture>): (r: (BlendFunc, bool))
    ensures r.1 <==> texture.Some? && texture.value.hasPremultipliedAlpha
    ensures r.0 == ConfiguredDefault <==> r.1
  {
    if texture.None? || !texture.value.hasPremultipliedAlpha then (StraightAlpha, false)
    else (ConfiguredDefault, true)
  }
}
