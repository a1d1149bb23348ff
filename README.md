# CCSprite, modelled in Dafny

A model of the sprite node of cocos2d-android (`org.cocos2d.nodes.CCSprite`). It covers the sprite's own state machine and bookkeeping:

- **Colour compositor.** This covers the stored colour, the requested ("unmodified") colour, the opacity and the premultiplying flag. With premultiplying on, the stored colour is the requested one scaled by `opacity / 255` in truncating integer arithmetic; otherwise it is the requested colour. The colour buffer and the atlas colours are derived from it.
- **Texture rectangle.** The rectangle's texture coordinates are normalised by the texture's pixel size. The horizontal and vertical flips swap the edge pairs. The 8-float texture-coordinate buffer has a fixed layout. The quad's offset is the frame offset, mirrored by the flips, plus the centring margin.
- **Dirty tracker.** `SET_DIRTY_RECURSIVELY` and `setDirtyRecursively` spread the `dirty` and `recursiveDirty` flags over the tree of child sprites. They descend only into sprites whose `hasChildren` flag is set. Every transform setter ends with them.
- **Visibility cascade.** As written, `setVisible` never passes a change of visibility on to the children (see Findings). The model's `SetVisible` is the corrected version: a batched sprite that is not recursively dirty passes the change on.
- **Render mode.** Self rendering uses the sprite's own three float buffers. Sprite-sheet rendering uses a slot of a shared texture atlas. The model covers switching between the two and keeping `hasChildren` in step when children are added and removed.
- **Quad of `updateTransform`.** This is the invisible short-circuit, the corner formulas applied to a given affine matrix, and the d, a, c, b corner order at height `vertexZ`. The ancestor-chain loop under the honor-parent masks is modelled as the sequence of translate, rotate and scale steps it composes.

There are six modules, one per file:

| file | module | contents |
|---|---|---|
| wrappers.dfy | `Wrappers` | `Option` and `Result` |
| geometry.dfy | `Geometry` | points, sizes, rectangles and what the sprite knows of a texture |
| color.dfy | `ColorModel` | the colour state as a value, with the functions the colour setters follow |
| texture_rect.dfy | `TextureRect` | texture coordinates and the quad offset |
| transform.dfy | `TransformEngine` | the matrix, the quad corners and the plan of the honor-mask chain |
| sprite.dfy | `Sprites` | the classes |

`Sprites` has three classes:
- `Sprite` holds the fields of `CCSprite` and of its node base that the sprite reads. Its three float buffers are arrays, and its children are a sequence field.
- `TextureAtlas` holds the quad vertices and quad colours stored per index.
- `SpriteSheet` keeps a log of the insertions and removals a sprite asks of it.

The methods of `Sprite` change the fields in place. Each is proved against the value-level functions of the other modules.

The tree of sprites carries a ghost footprint `Nodes`. `Tree()` says that the footprint is an acyclic graph of sprites (every tree is one): each sprite's footprint is itself plus its children's footprints, none of which contains it. The recursive methods (`SetDirtyRecursively`, `SetVisible`) are proved by induction on that footprint.

`hasChildren` is a flag of its own, not a function of the children. `FlagsAgree()` says that it matches the children in every sprite of the tree. `AddChild`, `RemoveChild` and `RemoveAllChildren` keep that agreement. The re-insertion path of `reorderChild` breaks it (see Findings). The dirty walk is therefore stated over `Visited()`, the sprites the walk actually reaches. `VisitedAllWhenFlagsAgree` proves that it is the whole subtree whenever the flags agree.

`FlagsOrdered()` says that in every sprite of the tree, `recursiveDirty` implies `dirty`: the program raises the two flags together, resets them together in `updateTransform`, and otherwise only raises `dirty`. `SetVisible`, `SetDirtyRecursively`, `MarkDirtyRecursively` and `UpdateTransform` keep it. The model does not state that every descendant of a recursively dirty sprite is dirty, because `addChild` can attach a clean child below one.

Two points of the source are easy to misread:
- **Honor masks.** The comment on `honorParentTransform_` (`CCSprite.java:176-181`) says a sprite's mask decides what it takes over from its parent. The loop reads each node's mask after composing that node, and applies it to the increment of the next node up, its parent (`CCSprite.java:944`). So the sprite's own increment is taken in full, the sprite's mask filters the parent's increment, and the parent's mask filters the grandparent's: when the parent's mask drops rotation, the grandparent's rotation is the one skipped. `ParentMaskGovernsGrandparent` proves this.
- **Visibility cascade.** The loop over the children at `CCSprite.java:521-525` is dead code as written, because the test before it compares the new value with the one just stored. The model's `SetVisible` is the corrected version.

## Model

| member | source | states |
|---|---|---|
| ColorModel.Modulate | cocos2d-android/src/org/cocos2d/nodes/CCSprite.java:137-141 | a channel scaled by the opacity never exceeds the channel; full opacity keeps it, zero opacity clears it |
| ColorModel.ModulateIsFloor | cocos2d-android/src/org/cocos2d/nodes/CCSprite.java:138-140 | the scaled channel is the floor of channel times opacity over 255 |
| ColorModel.ModulateMonotone | cocos2d-android/src/org/cocos2d/nodes/CCSprite.java:138-140 | a larger opacity never yields a smaller channel |
| ColorModel.ModulateColor | cocos2d-android/src/org/cocos2d/nodes/CCSprite.java:137-141 | each channel of the scaled colour is at most the original's, and full opacity leaves the colour unchanged |
| ColorModel.Logical | cocos2d-android/src/org/cocos2d/nodes/CCSprite.java:126-131 | on a coherent state, the colour reported is the requested colour |
| ColorModel.WithColor | cocos2d-android/src/org/cocos2d/nodes/CCSprite.java:133-144 | after setColor(c) the state is coherent, getColor reports c, and the opacity and mode are unchanged |
| ColorModel.WithOpacity | cocos2d-android/src/org/cocos2d/nodes/CCSprite.java:106-113 | the new opacity is stored; the requested colour and the reported colour survive; with premultiplying, the stored colour is re-derived from the requested one; coherence is preserved |
| ColorModel.OpacityChangesDoNotAccumulate | cocos2d-android/src/org/cocos2d/nodes/CCSprite.java:106-113 | any sequence of opacity changes leaves the state the last change alone would leave: truncation never accumulates |
| ColorModel.FullOpacityRestoresColor | cocos2d-android/src/org/cocos2d/nodes/CCSprite.java:106-113 | with premultiplying, returning to opacity 255 restores exactly the requested colour |
| ColorModel.WithOpacityModifyRGB | cocos2d-android/src/org/cocos2d/nodes/CCSprite.java:120-124 | switching the premultiplying mode (corrected) keeps the reported colour and leaves the state coherent |
| ColorModel.WithOpacityModifyRGBAsWritten | cocos2d-android/src/org/cocos2d/nodes/CCSprite.java:120-124 | as written, the colour reported afterwards is the raw stored colour, which may already be scaled |
| ColorModel.ModifyRGBVersionsAgree | cocos2d-android/src/org/cocos2d/nodes/CCSprite.java:120-124 | the written and corrected mode switches agree exactly when the stored colour is the reported one |
| ColorModel.ModifyRGBAsWrittenLosesColor | cocos2d-android/src/org/cocos2d/nodes/CCSprite.java:120-124 | (200, 100, 50) at opacity 128 is stored as (100, 50, 25); the written switch then reports (100, 50, 25) and stores (50, 25, 12), the corrected one reports (200, 100, 50) |
| ColorModel.VertexColorScales | cocos2d-android/src/org/cocos2d/nodes/CCSprite.java:547-548 | each vertex colour float lies in 0..1 and times 255 gives back its byte |
| ColorModel.ColorBufferRepeats | cocos2d-android/src/org/cocos2d/nodes/CCSprite.java:547-553 | the 16-float colour buffer is the same vertex colour four times, every entry in 0..1 |
| ColorModel.WhiteColorBuffer | cocos2d-android/src/org/cocos2d/nodes/CCSprite.java:480-486 | the all-ones buffer init writes is the colour buffer of opaque white |
| ColorModel.QuadColors | cocos2d-android/src/org/cocos2d/nodes/CCSprite.java:556-562 | the atlas gets four copies of the same RGBA byte colour |
| ColorModel.BlendFor | cocos2d-android/src/org/cocos2d/nodes/CCSprite.java:638-647 | premultiplying is on exactly when a texture with premultiplied alpha is bound, and the configured default blend goes with it |
| TextureRect.AtlasSize | cocos2d-android/src/org/cocos2d/nodes/CCSprite.java:860-866 | the divisor is the texture's pixel size, or 1 by 1 without a texture; it is always positive |
| TextureRect.NormalizedScalesBack | cocos2d-android/src/org/cocos2d/nodes/CCSprite.java:868-871 | multiplying the normalised edges by the atlas size gives back the pixel edges |
| TextureRect.TexCoordLayout | cocos2d-android/src/org/cocos2d/nodes/CCSprite.java:859-894 | the buffer holds (left, top), (left, bottom), (right, top), (right, bottom), with left and right exchanged under flipX and top and bottom under flipY |
| TextureRect.FlipXSwapsColumns | cocos2d-android/src/org/cocos2d/nodes/CCSprite.java:873-877 | toggling flipX exchanges the u values of the left and right corners and changes nothing else |
| TextureRect.FlipYSwapsRows | cocos2d-android/src/org/cocos2d/nodes/CCSprite.java:879-883 | toggling flipY exchanges the v values of the top and bottom corners and changes nothing else |
| TextureRect.SwapsAreInvolutions | cocos2d-android/src/org/cocos2d/nodes/CCSprite.java:575-591 | each swap undoes itself, so flipping twice restores the eight coordinates |
| TextureRect.TexCoordsInUnitSquare | cocos2d-android/src/org/cocos2d/nodes/CCSprite.java:868-871 | a rectangle inside its texture yields coordinates in 0..1 whatever the flips |
| TextureRect.QuarterOfTexture | cocos2d-android/src/org/cocos2d/nodes/CCSprite.java:859-894 | the 32 by 32 upper-left quarter of a 64 by 64 texture maps to 0..0.5 on both axes |
| TextureRect.FlipMirrorsOffset | cocos2d-android/src/org/cocos2d/nodes/CCSprite.java:665-671 | a flip mirrors the offset about the centre of the content box on its own axis and leaves the other axis alone |
| TextureRect.NoFrameOffsetCentres | cocos2d-android/src/org/cocos2d/nodes/CCSprite.java:659-671 | without a frame offset the quad is centred in the content box, flipped or not |
| TextureRect.RectOffsetAsWritten | cocos2d-android/src/org/cocos2d/nodes/CCSprite.java:659-671 | as written, the computed offset is the corrected one for the stored offset; the stored offset itself comes back mirrored on each flipped axis, and a missing frame offset stays missing |
| TextureRect.FlipCycleRoundTripsIffNoHorizontalOffset | cocos2d-android/src/org/cocos2d/nodes/CCSprite.java:659-671 | as written, flipping and unflipping horizontally gives back the unflipped offset exactly when the stored frame offset has no horizontal part |
| TextureRect.AliasedOffsetDoesNotRoundTrip | cocos2d-android/src/org/cocos2d/nodes/CCSprite.java:659-669 | a frame offset of (3, 0) flipped and unflipped ends at (-3, 0) as written, where the corrected offset is (3, 0) |
| TransformEngine.Make | cocos2d-android/src/org/cocos2d/nodes/CCSprite.java:916-918 | make(a, b, c, d, tx, ty) maps the unit axes to (a, b) and (c, d) plus (tx, ty), and the origin to (tx, ty) |
| TransformEngine.TranslatedApplies | cocos2d-android/src/org/cocos2d/nodes/CCSprite.java:919 | getTransformTranslate's matrix maps a point to the original matrix applied to the point moved by the translation: the translation comes first |
| TransformEngine.DirectMatrix | cocos2d-android/src/org/cocos2d/nodes/CCSprite.java:911-919 | the direct path's matrix maps the anchor point in pixels to the position, and every point p to the position plus the offset of p from the anchor, scaled by the scales and then rotated |
| TransformEngine.ConcatApplies | cocos2d-android/src/org/cocos2d/nodes/CCSprite.java:911-919 | the matrix product applies its right-hand factor first, then its left-hand one |
| TransformEngine.TranslatedIsConcat | cocos2d-android/src/org/cocos2d/nodes/CCSprite.java:919 | getTransformTranslate is the product with the matrix of a translation step |
| TransformEngine.DirectPlanComposesToDirectMatrix | cocos2d-android/src/org/cocos2d/nodes/CCSprite.java:911-919 | multiplying out the direct path's four steps (translate to the position, rotate, scale, translate by minus the anchor) gives exactly the matrix the direct path builds |
| TransformEngine.CornerOf | cocos2d-android/src/org/cocos2d/nodes/CCSprite.java:959-976 | the source's corner formula with cr, sr, cr2 and sr2 is the matrix applied to the corner |
| TransformEngine.QuadVertices | cocos2d-android/src/org/cocos2d/nodes/CCSprite.java:952-981 | the quad is the matrix applied to corners d, a, c, b of the offset rectangle, each at height z |
| TransformEngine.IdentityQuadIsLocalQuad | cocos2d-android/src/org/cocos2d/nodes/CCSprite.java:952-981 | under the identity matrix at height 0 the atlas quad equals the self-render vertex buffer |
| TransformEngine.QuadIsParallelogram | cocos2d-android/src/org/cocos2d/nodes/CCSprite.java:966-976 | for any matrix the top and bottom edges of the quad are the same vector |
| TransformEngine.CentredSpriteMatrix | cocos2d-android/src/org/cocos2d/nodes/CCSprite.java:911-919 | an unrotated, unscaled sprite at (100, 100) anchored at (16, 16) gets the translation by (84, 84) |
| TransformEngine.CentredSpriteQuad | cocos2d-android/src/org/cocos2d/nodes/CCSprite.java:952-981 | through that translation a 32 by 32 quad runs from (84, 84) to (116, 116) |
| TransformEngine.HonorAllHonorsEverything | cocos2d-android/src/org/cocos2d/nodes/CCSprite.java:67-75 | the ALL mask is the union of the three bits and honors each of them |
| TransformEngine.GetTransformValues | cocos2d-android/src/org/cocos2d/nodes/CCSprite.java:696-705 | the corrected record carries the node's position, scale, rotation and anchor in pixels |
| TransformEngine.IncrementRotations | cocos2d-android/src/org/cocos2d/nodes/CCSprite.java:931-941 | a node contributes its rotation exactly when the mask in force honors rotation, and its increment always ends with the anchor translation |
| TransformEngine.ChainPlanUsesPreviousMask | cocos2d-android/src/org/cocos2d/nodes/CCSprite.java:925-945 | the chain's steps are the nodes' increments in order, the k-th under the mask of node k-1 (everything for the sprite itself) |
| TransformEngine.ChainOfThree | cocos2d-android/src/org/cocos2d/nodes/CCSprite.java:925-945 | a chain of three contributes three increments, each under the mask of the node before it |
| TransformEngine.ParentMaskGovernsGrandparent | cocos2d-android/src/org/cocos2d/nodes/CCSprite.java:925-945 | when the parent's mask drops rotation, the rotations applied are the sprite's and the parent's; the grandparent's is skipped |
| TransformEngine.DirectPlanIsChainOfOne | cocos2d-android/src/org/cocos2d/nodes/CCSprite.java:911-945 | for a sprite directly under the sheet, the direct path and a one-node chain apply the same steps; with `DirectPlanComposesToDirectMatrix`, a one-node chain thus yields the direct path's matrix |
| TransformEngine.PlanTransform | cocos2d-android/src/org/cocos2d/nodes/CCSprite.java:925-945 | the chain loop's accumulated steps are the chain plan |
| TransformEngine.NodeSteps | cocos2d-android/src/org/cocos2d/nodes/CCSprite.java:929-941 | one loop iteration builds the node's increment under the carried mask |
| TransformEngine.GetTransformValuesAlwaysFails | cocos2d-android/src/org/cocos2d/nodes/CCSprite.java:696-700 | as written, getTransformValues fails with a null dereference for every node |
| TransformEngine.ChainPathAlwaysFails | cocos2d-android/src/org/cocos2d/nodes/CCSprite.java:925-929 | as written, the chain path fails on its first node, the sprite itself |
| Sprites.ToInt32 | cocos2d-android/src/org/cocos2d/nodes/CCSprite.java:58 | a 32-bit pattern read as a Java int is in range and congruent to the pattern |
| Sprites.IndexNotInitializedIsMinusOne | cocos2d-android/src/org/cocos2d/nodes/CCSprite.java:58 | the sentinel 0xffffffff is the int -1 |
| Sprites.TextureAtlas.PutVertex | cocos2d-android/src/org/cocos2d/nodes/CCSprite.java:983 | the atlas slot at the index holds the given vertices; other slots are unchanged |
| Sprites.TextureAtlas.UpdateColor | cocos2d-android/src/org/cocos2d/nodes/CCSprite.java:564 | the atlas colour slot at the index holds the given colours; other slots are unchanged |
| Sprites.SpriteSheet.InsertChild | cocos2d-android/src/org/cocos2d/nodes/CCSprite.java:783 | the sheet records the insertion at the index |
| Sprites.SpriteSheet.RemoveSpriteFromAtlas | cocos2d-android/src/org/cocos2d/nodes/CCSprite.java:793 | the sheet records the removal |
| Sprites.Without | cocos2d-android/src/org/cocos2d/nodes/CCSprite.java:795 | the remaining children are exactly the old ones other than the removed sprite, never more of them |
| Sprites.Removals | cocos2d-android/src/org/cocos2d/nodes/CCSprite.java:801-806 | one removal request per child, in the children's order |
| Sprites.Put | cocos2d-android/src/org/cocos2d/nodes/CCSprite.java:549-553 | after the put, the buffer holds exactly the values |
| Sprites.InvertedAssertRejectsEverySetTexture | cocos2d-android/src/org/cocos2d/nodes/CCSprite.java:634-636 | on a self-rendered sprite, the only kind setTexture accepts, the intended test holds and the written one fails |
| Sprites.VisibilityNeverCascadesAsWritten | cocos2d-android/src/org/cocos2d/nodes/CCSprite.java:518-528 | the written cascade test never passes; the corrected one passes exactly on a real change of a batched sprite that is not recursively dirty |
| Sprites.Sprite.GetColor | cocos2d-android/src/org/cocos2d/nodes/CCSprite.java:126-131 | on coherent colour fields getColor reports the colour the user asked for; without premultiplying it reports the stored colour |
| Sprites.Sprite.UpdateColor | cocos2d-android/src/org/cocos2d/nodes/CCSprite.java:546-573 | the colour buffer holds the RGBA four times. In sheet mode with a slot, the atlas slot gets the colour and dirty is kept. Without a slot, only dirty is raised. Self rendering changes no flag. recursiveDirty is never touched |
| Sprites.Sprite.SetColor | cocos2d-android/src/org/cocos2d/nodes/CCSprite.java:133-144 | the colour fields become WithColor of the old ones, getColor reports c, and the colour is pushed |
| Sprites.Sprite.SetOpacity | cocos2d-android/src/org/cocos2d/nodes/CCSprite.java:106-113 | the colour fields become WithOpacity of the old ones, getColor is unchanged, and the colour is pushed |
| Sprites.Sprite.SetOpacityModifyRGB | cocos2d-android/src/org/cocos2d/nodes/CCSprite.java:120-124 | the colour fields become WithOpacityModifyRGB of the old ones, so the reported colour is kept, and the colour is pushed |
| Sprites.Sprite.UpdateBlendFunc | cocos2d-android/src/org/cocos2d/nodes/CCSprite.java:634-648 | the blend function and the premultiplying flag follow the texture, the colour fields change as the corrected mode switch says (so the reported colour is kept), the colour buffer is rebuilt, and dirty is unchanged |
| Sprites.Sprite.SetTexture | cocos2d-android/src/org/cocos2d/nodes/CCSprite.java:597-605 | the texture is bound, with the blend and premultiplying policy it calls for; through the corrected mode switch the reported colour is kept |
| Sprites.Sprite.SetContentSize | cocos2d-android/src/org/cocos2d/nodes/CCSprite.java:657 | the content size is stored and the anchor in pixels follows it |
| Sprites.Sprite.UpdateTextureCoords | cocos2d-android/src/org/cocos2d/nodes/CCSprite.java:859-894 | the texture-coordinate buffer is TexCoordBuffer of the rectangle, texture and flips |
| Sprites.Sprite.UpdateOffsetPosition | cocos2d-android/src/org/cocos2d/nodes/CCSprite.java:659-671 | the offset is RectOffset of the frame offset, flips, content size and rectangle size; the stored frame offset is not changed |
| Sprites.Sprite.PutLocalQuad | cocos2d-android/src/org/cocos2d/nodes/CCSprite.java:677-689 | the vertex buffer is the rectangle at the offset, corners d, a, c, b, at height 0 |
| Sprites.Sprite.ResizeAndMap | cocos2d-android/src/org/cocos2d/nodes/CCSprite.java:655-657 | rectangle and content size stored, anchor in pixels updated, texture coordinates current |
| Sprites.Sprite.PlaceQuad | cocos2d-android/src/org/cocos2d/nodes/CCSprite.java:659-692 | the offset is RectOffset of the stored state. A batched sprite becomes dirty and keeps its vertex buffer. A self-rendered one keeps its dirty flag and gets the local quad at the new offset |
| Sprites.Sprite.SetTextureRectWithSize | cocos2d-android/src/org/cocos2d/nodes/CCSprite.java:654-692 | everything RectApplied says holds. A batched sprite becomes dirty and its vertex buffer is untouched. A self-rendered one keeps its dirty flag and gets the local quad |
| Sprites.Sprite.SetTextureRect | cocos2d-android/src/org/cocos2d/nodes/CCSprite.java:408-410 | the rectangle is applied with its own size as content size |
| Sprites.Sprite.SetFlipX | cocos2d-android/src/org/cocos2d/nodes/CCSprite.java:575-580 | setting the current value changes nothing; a toggle re-applies the current rectangle under the new flip, after which a batched sprite is dirty and keeps its vertex buffer and a self-rendered one keeps its dirty flag |
| Sprites.Sprite.SetFlipY | cocos2d-android/src/org/cocos2d/nodes/CCSprite.java:586-591 | setting the current value changes nothing; a toggle re-applies the current rectangle under the new flip, after which a batched sprite is dirty and keeps its vertex buffer and a self-rendered one keeps its dirty flag |
| Sprites.Sprite.SetDisplayFrame | cocos2d-android/src/org/cocos2d/nodes/CCSprite.java:495-506 | the frame's offset is adopted and its rectangle applied with its original size as content size. When the texture name differs, the frame's texture is bound, blend and premultiplying follow it and the colour buffer is rebuilt; otherwise texture, blend, colour fields and colour buffer are unchanged. Through the corrected mode switch the reported colour is kept. A batched sprite becomes dirty and keeps its vertex buffer; a self-rendered one keeps its dirty flag |
| Sprites.Sprite.UseSelfRender | cocos2d-android/src/org/cocos2d/nodes/CCSprite.java:415-432 | sentinel index, self rendering, no sheet or atlas, both flags clear, and the vertex buffer is the local quad |
| Sprites.Sprite.UseSpriteSheetRender | cocos2d-android/src/org/cocos2d/nodes/CCSprite.java:437-441 | sheet rendering through that sheet and its atlas |
| Sprites.Sprite.InitColor | cocos2d-android/src/org/cocos2d/nodes/CCSprite.java:460-466 | opaque white, premultiplying off (setTexture(null) turns it off again), no texture, straight-alpha blending |
| Sprites.Sprite.InitRenderAndColor | cocos2d-android/src/org/cocos2d/nodes/CCSprite.java:458-466 | self rendering with the sentinel index and clean flags, and the colour defaults |
| Sprites.Sprite.InitFlagsAndBuffer | cocos2d-android/src/org/cocos2d/nodes/CCSprite.java:468-486 | no flips, centred anchor, HonorAll, no children, and the all-ones colour buffer |
| Sprites.Sprite.InitBeforeRect | cocos2d-android/src/org/cocos2d/nodes/CCSprite.java:448-486 | everything init sets up before the texture rectangle |
| Sprites.Sprite.Init | cocos2d-android/src/org/cocos2d/nodes/CCSprite.java:443-492 | the sprite ends in the initial state, with the empty rectangle applied; visibility and the tree are unchanged, and its frame leaves position, rotation, scales, height and the frame offset alone |
| Sprites.Sprite.constructor | cocos2d-android/src/org/cocos2d/nodes/CCSprite.java:350-352 | a new sprite is in the initial state, a one-sprite tree, visible, with fresh buffers |
| Sprites.Sprite.Visited | cocos2d-android/src/org/cocos2d/nodes/CCSprite.java:711-720 | the sprites the recursive walk reaches: below a sprite whose flag is set, each child and the sprites its walk reaches; always within the subtree |
| Sprites.Sprite.VisitedAllWhenFlagsAgree | cocos2d-android/src/org/cocos2d/nodes/CCSprite.java:711-720 | when the flags agree, the walk reaches every sprite of the subtree |
| Sprites.Sprite.StaleFlagHidesChildren | cocos2d-android/src/org/cocos2d/nodes/CCSprite.java:714 | a sprite with children whose flag says it has none: the walk reaches none of them |
| Sprites.Sprite.SetDirtyRecursively | cocos2d-android/src/org/cocos2d/nodes/CCSprite.java:711-720 | this sprite gets the value; every sprite the walk reaches ends dirty and recursively dirty; every other sprite of the subtree keeps both flags; FlagsOrdered is kept |
| Sprites.Sprite.SetChildrenDirty | cocos2d-android/src/org/cocos2d/nodes/CCSprite.java:714-719 | every sprite the walks from the given children reach ends dirty and recursively dirty; every other sprite keeps both flags |
| Sprites.Sprite.MarkDirtyRecursively | cocos2d-android/src/org/cocos2d/nodes/CCSprite.java:626-632 | a batched sprite that was not recursively dirty ends dirty, and so does every sprite the walk reaches (the whole subtree when the flags agree); otherwise no flag of the tree changes; afterwards a batched sprite is recursively dirty, so a repeated call changes nothing; FlagsOrdered is kept |
| Sprites.Sprite.SetPosition | cocos2d-android/src/org/cocos2d/nodes/CCSprite.java:722-725 | position stored, then the tree marked as MarkDirtyRecursively says |
| Sprites.Sprite.SetRotation | cocos2d-android/src/org/cocos2d/nodes/CCSprite.java:727-730 | rotation stored, then the tree marked |
| Sprites.Sprite.SetScaleX | cocos2d-android/src/org/cocos2d/nodes/CCSprite.java:732-735 | horizontal scale stored, then the tree marked |
| Sprites.Sprite.SetScaleY | cocos2d-android/src/org/cocos2d/nodes/CCSprite.java:737-740 | vertical scale stored, then the tree marked |
| Sprites.Sprite.SetScale | cocos2d-android/src/org/cocos2d/nodes/CCSprite.java:742-745 | both scales stored, then the tree marked |
| Sprites.Sprite.SetVertexZ | cocos2d-android/src/org/cocos2d/nodes/CCSprite.java:747-750 | height stored, then the tree marked |
| Sprites.Sprite.SetAnchorPoint | cocos2d-android/src/org/cocos2d/nodes/CCSprite.java:752-755 | anchor stored, anchor in pixels follows the content size, then the tree marked |
| Sprites.Sprite.SetVisible | cocos2d-android/src/org/cocos2d/nodes/CCSprite.java:518-528 | visibility stored. On a cascading change, this sprite is dirty, every child has the new visibility, and every child whose own test passes (a batched child, not recursively dirty, whose visibility changed) ends dirty and recursively dirty. Otherwise no other sprite and no flag changes. Across the tree, visibility only moves to the new value, no dirty flag falls, a batched sprite that was not recursively dirty and changed visibility ends marked, and recursiveDirty rises only on a batched sprite whose visibility changed, together with dirty. FlagsOrdered is kept |
| Sprites.Sprite.SetChildrenVisible | cocos2d-android/src/org/cocos2d/nodes/CCSprite.java:523-525 | every child has the new visibility, and each child whose own test passes on its state before the loop ends dirty and recursively dirty; below them visibility only moves to the new value, dirty flags only rise, and recursiveDirty rises only on a batched sprite whose visibility changed, together with dirty |
| Sprites.Sprite.Adopt | cocos2d-android/src/org/cocos2d/nodes/CCSprite.java:779 | the child is appended, the footprint grows by the child's, and the tree invariant is kept |
| Sprites.Sprite.Detach | cocos2d-android/src/org/cocos2d/nodes/CCSprite.java:795-797 | the sprite leaves the children, hasChildren follows the count, and the tree invariant is kept |
| Sprites.Sprite.AddChild | cocos2d-android/src/org/cocos2d/nodes/CCSprite.java:778-789 | the child is appended and hasChildren is raised, so agreeing flags stay agreeing; in sheet mode the sheet is told to insert it at the index |
| Sprites.Sprite.RemoveChild | cocos2d-android/src/org/cocos2d/nodes/CCSprite.java:791-798 | in sheet mode the sheet is told first; then the sprite leaves the children and hasChildren follows the count, so agreeing flags stay agreeing |
| Sprites.Sprite.RemoveAllChildren | cocos2d-android/src/org/cocos2d/nodes/CCSprite.java:800-810 | in sheet mode each child is removed from the atlas in order; then there are no children, hasChildren is false and the flags agree |
| Sprites.Sprite.ReinsertInSheetAsWritten | cocos2d-android/src/org/cocos2d/nodes/CCSprite.java:769-772 | as written, reorderChild of a batched sprite removes the child through the sprite's removeChild and re-adds it through the node's addChild: the sheet logs only the removal, and hasChildren keeps the value the removal left. For an only child the flag ends false while the child is back, and the dirty walk reaches nothing |
| Sprites.Sprite.ReinsertInSheet | cocos2d-android/src/org/cocos2d/nodes/CCSprite.java:769-772 | corrected: the child goes through the sprite's own addChild, so the sheet logs the removal and the re-insertion and hasChildren ends true |
| Sprites.Sprite.UpdateTransform | cocos2d-android/src/org/cocos2d/nodes/CCSprite.java:898-985 | the atlas slot gets twelve zeros for an invisible sprite or else the transformed quad; no other slot changes; both flags end clear, so FlagsOrdered is kept |

## Left out

- Drawing (`draw`, `CCSprite.java:812-857`). It is GL calls and blend-state saving, which is graphics I/O.
- The factory methods and the constructors that load textures, frames or bitmaps (`CCSprite.java:216-404`). They are lookups in caches and asset loading. Only the plain constructor and `init()` are modelled.
- The animation dictionary (`addAnimation`, `animationByName`, `setDisplayFrame(String, int)`, `initAnimationDictionary`). It is a thin wrapper around a hash map.
- `setRelativeAnchorPoint`, `setBlendFunc`, `isFrameDisplayed`, `displayedFrame` and the plain getters. They lie outside the modelled state machine or only read a field.
- `Sprites.Sprite.ReinsertInSheet`, `Sprites.Sprite.ReinsertInSheetAsWritten`: z-order is not modelled, so the early return of `reorderChild` when the order is unchanged (`CCSprite.java:766-767`) is not either. The self-rendered branch (`CCSprite.java:774`) is `CCNode.reorderChild`, which is not part of this model. They require the child's subtree to be disjoint from its siblings' subtrees, which holds when the child is in the children once, as `CCNode` keeps it.
- Trigonometry. The cosine and sine of the rotation are parameters of `DirectMatrix` and of `Compose`. `UpdateTransform` takes its matrix as a parameter.
- `TransformEngine.PlanTransform`: the chain loop is modelled as the steps it composes. Over several nodes, the product of their matrices with `getTransformConcat` is not modelled, because the factor order of `CGAffineTransform.getTransformConcat` lies in a class that is not part of this model. For one node, `Compose` multiplies the steps out.
- Float rounding. Floats are reals, so the vertex and texture coordinates are exact.
- `TransformEngine.Make`, `TransformEngine.TranslatedApplies`: the `CGAffineTransform` class is not part of this model. `make(a, b, c, d, tx, ty)` is taken as x' = a x + c y + tx, y' = b x + d y + ty, and `getTransformTranslate`, `getTransformRotate` and `getTransformScale` as the standard step applied before the matrix.
- `Sprites.Sprite.SetContentSize`, `Sprites.Sprite.SetAnchorPoint`: `CCNode` is not part of this model. Its `setContentSize` and `setAnchorPoint` are taken to store the value and recompute the anchor in pixels.
- The node setters are taken to store their value. The sprite's fields stand for `CCNode`'s (`position`, `rotation`, `scaleX`, `scaleY`, `vertexZ`, `visible`, `children`).
- `Sprites.Sprite.Detach`: `CCNode.removeChild` is not part of this model. It is taken to remove every occurrence of the sprite. Cleanup, parent pointers, z-order and tags are not modelled.
- `Sprites.Sprite.AddChild`: the atlas index is a parameter. `CCSpriteSheet.atlasIndex(child, z)` is not part of this model. The child's position in the sheet's z-order is not modelled, and neither is the returned node.
- `Sprites.Sprite.SetDirtyRecursively`: children are typed as sprites. The unchecked downcast of each child (`CCSprite.java:716`, and likewise `:803` and `:929`) therefore cannot fail in the model.
- `Sprites.Sprite.SetOpacity`: the opacity is a byte 0..255. The source takes any int and does not check its range.
- `ColorModel.Color3`, `Sprites.Sprite.UpdateTransform`: colour channels are bytes 0..255, while the fields of the source's `ccColor3B` are Java ints with no range check; values outside a byte are not modelled. `UpdateTransform` requires sheet rendering, because a self-rendered sprite has no texture atlas and `CCSprite.java:904` and `:983` would dereference a null atlas.
- `Geometry.Texture`: texture sizes are positive. The source would divide by zero for an empty texture.
- `Sprites.Sprite.SetTexture`: its assertion that the sprite renders itself (`CCSprite.java:598`) is a precondition. `Sprites.Sprite.UpdateBlendFunc` requires the corrected test, which is the negation of the written assertion at `CCSprite.java:635` (see Findings). The path where assertions are disabled and the call goes ahead is not modelled.
- `Sprites.Sprite.SetTexture`, `Sprites.Sprite.UpdateBlendFunc`, `Sprites.Sprite.SetDisplayFrame`: they switch the premultiplying mode through the corrected `SetOpacityModifyRGB`, which is why they keep the reported colour. As written the switch re-stores the already scaled colour: with premultiplying on, setColor(200, 100, 50), setOpacity(128) and then setTexture of a texture with premultiplied alpha make getColor report (100, 50, 25). `ModifyRGBAsWrittenLosesColor` shows this for the switch itself.
- `Sprites.Sprite.SetDisplayFrame`: it requires a bound texture, because the source dereferences it (`CCSprite.java:500`). It also requires self rendering whenever the texture changes, because of the assertion in `setTexture`.
- The texture atlas and the sprite sheet keep only what the sprite writes to them: the quads and colours per index, and a log of insertions and removals. Their internals are not part of this model.
- The direct-path test in `updateTransform` (whether the parent is null or the sheet) is not modelled as a branch on a parent pointer. `DirectPlanIsChainOfOne` and `DirectPlanComposesToDirectMatrix` relate the two paths instead.

## Findings

| source | as written | input that shows it | evidently intended | confidence | as-written member | corrected member |
|---|---|---|---|---|---|---|
| cocos2d-android/src/org/cocos2d/nodes/CCSprite.java:120-124 | `setOpacityModifyRGB` re-stores the raw `color_`, which is already scaled by the opacity when premultiplying is on | premultiplying on; setColor(200, 100, 50); setOpacity(128); setOpacityModifyRGB(true). getColor then reports (100, 50, 25) instead of (200, 100, 50) | read the colour through getColor, so switching the mode keeps the colour the user asked for | not executed | ColorModel.WithOpacityModifyRGBAsWritten, ColorModel.ModifyRGBAsWrittenLosesColor | ColorModel.WithOpacityModifyRGB, Sprites.Sprite.SetOpacityModifyRGB |
| cocos2d-android/src/org/cocos2d/nodes/CCSprite.java:659-669 | `relativeOffset` aliases the stored frame offset, and the flip negates it in place. The stored offset is the frame's own point (`CCSprite.java:496`), so every sprite sharing that frame sees the change; the model keeps one stored offset per sprite | frame offset (3, 0), content size equal to the rectangle size; setFlipX(true) then setFlipX(false). The offset ends at (-3, 0) instead of (3, 0) | negate a copy, so the stored frame offset is kept | not executed | TextureRect.RectOffsetAsWritten, TextureRect.AliasedOffsetDoesNotRoundTrip | TextureRect.RectOffset, Sprites.Sprite.UpdateOffsetPosition |
| cocos2d-android/src/org/cocos2d/nodes/CCSprite.java:696-700 | `tv.scale` is never allocated, so `tv.scale.x = scaleX_` dereferences null | any batched sprite whose parent is another sprite: updateTransform's chain loop calls getTransformValues on the sprite itself | fill a fresh scale point | not executed | TransformEngine.GetTransformValuesAsWritten, TransformEngine.ChainPathAlwaysFails | TransformEngine.GetTransformValues, TransformEngine.PlanTransform |
| cocos2d-android/src/org/cocos2d/nodes/CCSprite.java:635-636 | `updateBlendFunc` asserts `usesSpriteSheet_`, the opposite of its own message | init() on any new sprite: it is self-rendered when it calls setTexture(null), so with assertions on the assertion fails | assert `!usesSpriteSheet_` | not executed | Sprites.BlendUpdateAllowedAsWritten, Sprites.InvertedAssertRejectsEverySetTexture | Sprites.BlendUpdateAllowed, Sprites.Sprite.UpdateBlendFunc |
| cocos2d-android/src/org/cocos2d/nodes/CCSprite.java:518-520 | `setVisible` compares `v` with `visible_` after the node's setter has already stored `v`, so the test never passes | a visible batched sprite, not recursively dirty, with children; setVisible(false). The children stay visible and nothing becomes dirty | compare with the visibility before the node's setter | not executed | Sprites.VisibilityCascadesAsWritten, Sprites.VisibilityNeverCascadesAsWritten | Sprites.VisibilityCascades, Sprites.Sprite.SetVisible |
| cocos2d-android/src/org/cocos2d/nodes/CCSprite.java:769-772 | in sheet mode `reorderChild` re-adds the child with `addChild(child, z)`, which resolves to the node's `addChild(CCNode, int)`: the sprite's `addChild(CCSprite, int, int)` overloads it and does not override it | a batched sprite with one child; reorderChild(child, z) with a new z. The sheet is told to remove the child and never to insert it again, and hasChildren stays false while the child is back, so setDirtyRecursively no longer reaches it | re-add through the sprite's own addChild, so the sheet re-inserts the child and hasChildren is raised | not executed; rests on the node's two-argument addChild reaching only the node's own three-argument one (CCNode.java is not part of this model) | Sprites.Sprite.ReinsertInSheetAsWritten | Sprites.Sprite.ReinsertInSheet |
