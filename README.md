# Face morph and OpenGL wrapper model

A Dafny model of the core of a C++ image-effects library. The library morphs
one face into another. It runs that morph on the CPU with OpenCV and on the GPU
through thin OpenGL wrappers.

The model covers these parts:

- the CPU face morph (`FaceMorph`: landmarks, triangles, frame selection and
  interpolation);
- the GPU face morph (`GLMorph`): face points normalised to texture coordinates,
  triangle vertex gathering, and the clip-space mesh of a render;
- the OpenGL wrappers it stands on:
  - a growable byte buffer (`ArrayBuffer`);
  - quad coordinates (`GLCoord`);
  - shader programs and their fields (`Program`);
  - textures (`Texture`);
  - framebuffers and the per-size framebuffer pool (`FramebufferObject`,
    `FramebufferPool`, `PoolKey`);
  - viewports (`GLViewport`);
- small helpers: the rectangle (`Rect`), point rotation (`MathUtils`), the
  callback registry (`Callbacks`), and the logging macros (`Log`).

Conventions:

- **Errors.** `_FATAL` always throws `std::runtime_error`. `_ERROR` throws too,
  because `STRICT_MODE` is on. The model returns `Log.Outcome.Raised` for both.
- **GL calls.** The calls an operation makes are returned as a sequence of
  `GLCalls.GLCall` events. Ids that GL generates come in as parameters.
- **Outside libraries.** OpenCV's `boundingRect` and the Delaunay triangulation
  are function-valued parameters.
- **Numbers.** Floats are reals. `size_t` arithmetic is written out modulo
  2^64 where it matters.
- **State.** Objects that the source updates in place are classes. Their
  methods are proved against specification functions. Pure helpers are
  functions with lemmas.

## Model

| member | source | states |
|---|---|---|
| Log.LogReturnIf | src/Log.h:113-117 | falls through exactly when the condition is false; throws exactly when it holds at a throwing level; otherwise returns the given code |
| Log.LogIf | src/Log.h:108-111 | never returns; throws exactly when the condition holds at a throwing level |
| Log.ErrorReturnIfNeverReturns | src/Log.h:81-93 | under STRICT_MODE, `_ERROR_RETURN_IF` throws whenever its condition holds and never reaches its `return` |
| Log.WarnReturnIfNeverThrows | src/Log.h:124-128 | `_WARN_RETURN_IF` returns its code exactly when the condition holds and never throws |
| Log.ThrowingLevels | src/Log.h:90-104 | exactly the error and fatal levels throw |
| Log.Find | src/Log.h:39-40 | `find` returns npos when the character is absent; otherwise it returns the first index holding it |
| Log.Substr | src/Log.h:42 | `substr` clamps its count to what remains after the position |
| Log.ToSizeT | src/Log.h:39-40 | a conversion to size_t lands in [0, 2^64) and differs from the value by at most one period: it is x, x + 2^64 or x − 2^64 |
| Log.PrettyMethodNameCases | src/Log.h:38-43 | `__prettyMethodName` always ends in "()" and starts after the first space, or at 0 when there is none. It stops at the first '(' when that lies at or after the start, and otherwise takes the whole rest, because the size_t length wraps |
| Log.PrettyBetweenCases | src/Log.h:38-43 | for any result of the two finds, the substring between them is followed by "()": it runs up to the '(' when that lies at or after the start, and to the end otherwise |
| Log.PrettyBetweenBody | src/Log.h:41-43 | the `substr` call takes exactly the text from the start to the '(', or the whole rest when the size_t length wraps past the end |
| Log.PrettyMethodNameExample | src/Log.h:38-43 | "void A::f(int)" yields "A::f()" |
| ArrayBuffer.DataIndexFatalIffOutside | src/base/Array.h:24-32 | the intended bounds check of `data<T>` lets through exactly the indices of whole elements inside the buffer |
| ArrayBuffer.AsWrittenAgreesWhenNonEmpty | src/base/Array.h:26-29 | when the buffer holds at least one element and nothing wraps, the check as written is the intended one |
| ArrayBuffer.EmptyArrayPassesAsWrittenCheck | src/base/Array.h:26-29 | on an empty buffer, the check as written lets index 0 through, while the intended check rejects it |
| ArrayBuffer.Array.Contents | src/base/Array.h:80-83 | the element count times the unit size is the byte capacity |
| ArrayBuffer.Array.constructor | src/base/Array.h:16 | a new Array is null, with zero capacity and zero put size |
| ArrayBuffer.Array.Obtain | src/base/Array.h:37-41 | a grow-only request reallocates exactly when it exceeds the capacity, and a strict one whenever it differs. The resulting capacity is stated. Without reallocation the contents stay |
| ArrayBuffer.Array.Put | src/base/Array.h:43-49 | after the obtain, the first `size` elements are the source's and the put size is `size` elements; when the buffer is not reallocated, the elements past `size` are kept |
| ArrayBuffer.Array.Data | src/base/Array.h:24-32 | returns the element offset exactly for indices inside the buffer, and is fatal otherwise |
| ArrayBuffer.Array.At | src/base/Array.h:34-35 | returns the stored element exactly for indices inside the buffer, and is fatal otherwise |
| ArrayBuffer.Array.Free | src/base/Array.h:56-60 | drops the buffer to null and capacity 0, and keeps the put size |
| MathUtils.RotationFixesCentre | src/utils/MathUtils.h:22-29 | the centre of rotation does not move |
| MathUtils.ZeroRotationIsIdentity | src/utils/MathUtils.h:22-29 | sine 0 and cosine 1 leave every point in place |
| MathUtils.RotationPreservesDistance | src/utils/MathUtils.h:22-29 | when sin² + cos² = 1, the distance to the centre is kept |
| MathUtils.OppositeRotationUndoes | src/utils/MathUtils.h:22-29 | rotating by the opposite angle undoes a rotation |
| Rect.RectF.Empty | src/base/Rect.h:15 | the default rectangle is all zero |
| Rect.RectF.constructor | src/base/Rect.h:16 | stores the four fields |
| Rect.RectF.Copy | src/base/Rect.h:17 | the copy equals the original |
| Rect.RectF.Set | src/base/Rect.h:31-36 | stores the four fields |
| Rect.RectF.SetFrom | src/base/Rect.h:19-25 | afterwards the rectangle equals the other one, including when the other one is itself |
| Rect.EmptyIffNoInterior | src/base/Rect.h:40 | empty exactly when right ≤ left or bottom ≤ top |
| Rect.AreaOfEmpty | src/base/Rect.h:40-42 | a non-empty rectangle has positive area; an empty one with non-negative sides has none |
| Rect.CenterIsMidpoint | src/base/Rect.h:44-54 | the centre is the midpoint of opposite edges |
| Rect.EqualsIffSameEdges | src/base/Rect.h:27-29 | `operator==` holds exactly when the four edges coincide |
| GLCoord.FlipsAreInvolutions | src/opengl/wrap/GLCoord.h:153-164 | each flip undoes itself, the two flips commute, and repeating the same flips restores the quad |
| GLCoord.SwapHInPlace | src/opengl/wrap/GLCoord.h:153-158 | the four swaps compute the horizontal flip and leave the rest of the array alone |
| GLCoord.SwapVInPlace | src/opengl/wrap/GLCoord.h:159-164 | the four swaps compute the vertical flip and leave the rest of the array alone |
| GLCoord.ApplyFlips | src/opengl/wrap/GLCoord.h:153-164 | the flip blocks compute `Flipped` on the first eight floats |
| GLCoord.ToVertex | src/opengl/wrap/GLCoord.h:111-114 | x goes to 2x - 1 and y goes to 1 - 2y |
| GLCoord.ToVertexRange | src/opengl/wrap/GLCoord.h:109-115 | coordinates in [0, 1] land in clip space [-1, 1] |
| GLCoord.FullRectCoords | src/opengl/wrap/GLCoord.h:128-165 | an unrotated rectangle covering the view yields the default vertex quad; as texture coordinates it yields ROTATED_0 upside down |
| GLCoord.RotatedCornersSum | src/opengl/wrap/GLCoord.h:129-141 | the rotated corners still sum to four times the centre |
| GLCoord.FlippedKeepsAxisSums | src/opengl/wrap/GLCoord.h:153-164 | flips only permute x entries among x entries and y entries among y entries |
| GLCoord.CornersAverageToCentre | src/opengl/wrap/GLCoord.h:128-165 | whatever the angle and flips, the quad's corners average to the rectangle's normalised centre |
| GLCoord.CenterScaleAsWrittenMovesRect | src/opengl/wrap/GLCoord.h:91-101 | as written, scaling by 1 moves a rectangle that is not at the origin |
| GLCoord.CenterScaled | src/opengl/wrap/GLCoord.h:91-101 | the size is scaled and the centre x + w/2, y + h/2 is kept |
| GLCoord.CenterScaledProperties | src/opengl/wrap/GLCoord.h:91-101 | scaling by 1 is the identity; the written and intended x agree exactly when x = 0 |
| GLCoord.GLRect.Zero | src/opengl/wrap/GLCoord.h:16 | all zero, no rotation, no flips |
| GLCoord.GLRect.constructor | src/opengl/wrap/GLCoord.h:17 | stores the rectangle; no rotation and no flips |
| GLCoord.GLRect.Copy | src/opengl/wrap/GLCoord.h:18-19 | all seven fields are copied |
| GLCoord.GLRect.Assign | src/opengl/wrap/GLCoord.h:20-29 | all seven fields are copied |
| GLCoord.GLRect.Reset | src/opengl/wrap/GLCoord.h:33-41 | back to the default state, which is empty |
| GLCoord.GLRect.SetRect | src/opengl/wrap/GLCoord.h:43-49 | sets the rectangle; rotation and flips stay |
| GLCoord.GLRect.SetFlipH | src/opengl/wrap/GLCoord.h:63-66 | sets flipH only |
| GLCoord.GLRect.SetFlipV | src/opengl/wrap/GLCoord.h:68-71 | sets flipV only |
| GLCoord.GLRect.SetFlip | src/opengl/wrap/GLCoord.h:73-77 | sets both flips only |
| GLCoord.GLRect.Translate | src/opengl/wrap/GLCoord.h:79-83 | moves the origin and keeps the size |
| GLCoord.GLRect.Scale | src/opengl/wrap/GLCoord.h:85-89 | scales the size and keeps the origin |
| GLCoord.GLRect.CenterScale | src/opengl/wrap/GLCoord.h:91-101 | scales the size about the rectangle's own centre, which stays put (the corrected definition) |
| GLCoord.GLRect.ToGLCoords | src/opengl/wrap/GLCoord.h:128-165 | the eight floats are the rotated, normalised, then flipped quad; the rest of the array is kept |
| GLCoord.GLRect.ToVertexCoords | src/opengl/wrap/GLCoord.h:109-115 | the quad mapped to clip space |
| GLCoord.GLRect.ToTextureCoords | src/opengl/wrap/GLCoord.h:123-125 | the quad normalised to the texture |
| GLCoord.CRem | src/opengl/wrap/GLCoord.h:229 | C++ `%`: truncating, with the sign of the dividend |
| GLCoord.RotationTable | src/opengl/wrap/GLCoord.h:229-239 | a table exists exactly for 0, 90, 180 and 270 |
| GLCoord.FlipEntriesInPlace | src/opengl/wrap/GLCoord.h:242-253 | `flip` on the x entries and then on the y entries computes `FlipEntries` |
| GLCoord.RotationTablesTurn | src/opengl/wrap/GLCoord.h:331-345 | each rotation table is the previous one turned a quarter, and four turns close the cycle |
| GLCoord.FullCoordFlips | src/opengl/wrap/GLCoord.h:224-256 | flipping both ways is the half turn; the results hold only 0s and 1s |
| GLCoord.FullCoordRotations | src/opengl/wrap/GLCoord.h:229-237 | negative quarter turns are rejected after C++ `%`; 360k + 90 is accepted |
| GLCoord.SetRectIsHalfTurnOfGLRect | src/opengl/wrap/GLCoord.h:278-306 | setRect with some flips equals GLRect's texture coordinates with both flips toggled |
| GLCoord.CenterCropRect | src/opengl/wrap/GLCoord.h:258-272 | both branches of the aspect test give the view's size, centred in the texture |
| GLCoord.DefaultCoords | src/opengl/wrap/GLCoord.h:323-326 | the default quad has eight floats |
| GLCoord.GLCoord.constructor | src/opengl/wrap/GLCoord.h:173-219 | nothing is allocated and `get` reports the default quad |
| GLCoord.GLCoord.Get | src/opengl/wrap/GLCoord.h:192-199 | the reported size is the length of the returned floats |
| GLCoord.GLCoord.ObtainCoords | src/opengl/wrap/GLCoord.h:204-211 | reallocates exactly when nothing is allocated or the capacity is below n; the size is kept |
| GLCoord.GLCoord.Set | src/opengl/wrap/GLCoord.h:182-190 | `get` afterwards returns the n given floats, or the default quad for null |
| GLCoord.GLCoord.SetFullCoord | src/opengl/wrap/GLCoord.h:224-256 | fatal exactly when `rot % 360` has no table; otherwise stores the flipped table |
| GLCoord.GLCoord.SetRect | src/opengl/wrap/GLCoord.h:278-306 | stores the normalised corners, flipped |
| GLCoord.GLCoord.CenterCrop | src/opengl/wrap/GLCoord.h:258-272 | stores setRect of the centred view-sized rectangle |
| GLCoord.GLCoord.SetByGLRect | src/opengl/wrap/GLCoord.h:308-320 | an empty rectangle leaves `get` as it was; otherwise stores the rectangle's texture quad (TextureCoord) or vertex quad (VertexCoord, lines 354-366) |
| Program.DataElements | src/opengl/wrap/Program.h:118-148 | 0 exactly for FLOAT_POINTER; 1 exactly for the scalar and sampler types |
| Program.DataElementsByShape | src/opengl/wrap/Program.h:118-153 | a vector of dimension n holds n values, an n x n matrix n² values, and the byte size is four bytes per value |
| Program.SetOverloadReadsPastArray | src/opengl/wrap/Program.h:168-187 | the 2-, 3- and 4-value `set` overloads ask `put` for more elements than their array holds |
| Program.ReadValues | src/opengl/wrap/Program.h:190-192 | reading the first n values through `ivalue`/`fvalue` succeeds exactly when m_data's capacity holds n 4-byte values |
| Program.UniformValuesRead | src/opengl/wrap/Program.h:218-258 | `Uniform::input` reads n values of an n-vector, and one of a scalar, a sampler or a matrix |
| Program.UniformInputCheck | src/opengl/wrap/Program.h:210-265 | `Uniform::input` goes on exactly when all of these hold: the location was found, the type has a glUniform call, a 2D sampler has a texture unit, and m_data holds every value the call reads |
| Program.AttributeValuesRead | src/opengl/wrap/Program.h:306-331 | `Attribute::input` reads n values of FLOAT or an n-vector. A FLOAT_POINTER reads one value from m_data, and none once coordinates are bound |
| Program.AttributeInputCheck | src/opengl/wrap/Program.h:298-343 | `Attribute::input` goes on exactly when the location was found, the type is FLOAT, FVEC2, FVEC3, FVEC4 or FLOAT_POINTER, and m_data holds every value it reads |
| Program.FieldLocation | src/opengl/wrap/Program.h:301-304 | a field looks its location up only while it has none; a stored location is used as it is |
| Program.VertexArrayCalls | src/opengl/wrap/Program.h:408-418 | per FLOAT_POINTER attribute, one bind of the vertex array followed by two `glBindVertexArray(0)` calls; then the final bind. The array is generated first when there is none |
| Program.UnbindCalls | src/opengl/wrap/Program.h:69-94 | `VAO::unbind()` followed by `VBO::unbind()` is `glBindVertexArray(0)` twice |
| Program.SamplerWithoutUnitIsFatal | src/opengl/wrap/Program.h:252-253 | a sampler without a texture unit is fatal |
| Program.ProgField.constructor | src/opengl/wrap/Program.h:112 | name and type stored, location -1, empty data with no capacity, no coordinates bound |
| Program.ProgField.Put | src/opengl/wrap/Program.h:156-160 | the first `dataElements()` values are stored and counted |
| Program.ProgField.Set | src/opengl/wrap/Program.h:162-187 | the given values are stored and counted (the corrected count) |
| Program.ProgField.PutValues | src/opengl/wrap/Program.h:276-290 | `Attribute::put`: the first `size` values are stored and counted, and the capacity holds them |
| Program.ProgField.BindCoords | src/opengl/wrap/Program.h:292-297 | `Attribute::bind`: coordinates are bound, and the location is kept |
| Program.VBO.constructor | src/opengl/wrap/Program.h:40 | no buffer and size -1 |
| Program.VBO.Bind | src/opengl/wrap/Program.h:49-63 | a new buffer, deleting any old one, exactly when the byte size changed; otherwise an in-place update |
| Program.VAO.constructor | src/opengl/wrap/Program.h:105 | no vertex array |
| Program.VAO.Bind | src/opengl/wrap/Program.h:85-90 | generates the vertex array on first use, then binds it |
| Program.VAO.Release | src/opengl/wrap/Program.h:96-102 | deletes the vertex array once; a second release does nothing |
| Program.Program.constructor | src/opengl/wrap/Program.h:359 | no GL program, not attached, no fields |
| Program.Program.Release | src/opengl/wrap/Program.h:467-487 | deletes the program and the vertex array if present and drops every field; the attached flag and texture counter stay |
| Program.Program.Create | src/opengl/wrap/Program.h:365-384 | with the same sources it does nothing. Otherwise it reloads. A live program is released first: the program and any vertex array are deleted and the fields dropped. On a first load the fields and vertex array are kept. A failed load raises |
| Program.Program.Attach | src/opengl/wrap/Program.h:392-406 | uses the program (the loaded one when there was none) and sets the flag; raises exactly when creation was needed and failed. The fields, the shader sources and the vertex array are kept |
| Program.Program.Input | src/opengl/wrap/Program.h:408-418 | raises exactly when the program is not attached, or some attribute or uniform fails its location, type or value-read check. Otherwise it issues the vertex-array calls of its FLOAT_POINTER attributes (a bind and two unbinds each) and the final bind, generating the array on first use |
| Program.Program.InputAttributes | src/opengl/wrap/Program.h:411-413 | raises exactly when some attribute fails `Attribute::input`'s checks; otherwise a bind and two unbinds per FLOAT_POINTER attribute, generating the vertex array at the first |
| Program.Program.BindBufferAttr | src/opengl/wrap/Program.h:320-338 | one FLOAT_POINTER attribute appends `vao.bind()` and the two unbinds to the calls so far, and the vertex array exists afterwards |
| Program.Program.InputUniforms | src/opengl/wrap/Program.h:414-416 | raises exactly when some uniform fails `Uniform::input`'s checks |
| Program.Program.Detach | src/opengl/wrap/Program.h:420-428 | `VAO::unbind()` and `glUseProgram(0)`, then clears the flag; when already detached it makes no calls |
| Program.Program.DefAttribute | src/opengl/wrap/Program.h:430-438 | returns the registered attribute, or registers a new one under the name |
| Program.Program.Attribute | src/opengl/wrap/Program.h:440-446 | returns the registered attribute, or null exactly when there is none |
| Program.Program.NextTexUnitIndex | src/opengl/wrap/Program.h:490-494 | returns the counter before incrementing it |
| Program.Program.DefUniform | src/opengl/wrap/Program.h:448-457 | returns the registered uniform, or a new one; a new 2D sampler takes the next texture unit |
| Program.Program.Uniform | src/opengl/wrap/Program.h:459-465 | returns the registered uniform, or null exactly when there is none |
| Texture.Texture2D.constructor | src/opengl/wrap/Texture.h:48-50 | no GL id yet, so the texture is not valid |
| Texture.Texture2D.Copy | src/opengl/wrap/Texture.h:51 | same id, size and format |
| Texture.Texture2D.Update | src/opengl/wrap/Texture.h:54-61 | re-uploads into a valid texture; otherwise generates a new one |
| Texture.Texture2D.Release | src/opengl/wrap/Texture.h:67-72 | deletes the GL texture once; afterwards invalid |
| Texture.Texture2D.Create | src/opengl/wrap/Texture.h:75-82 | a new texture, uploaded once; valid exactly for a non-empty size and a real id |
| Texture.Channels | src/opengl/wrap/Texture.h:115-131 | a channel count exists exactly for the five accepted formats |
| Texture.ChannelsByFormat | src/opengl/wrap/Texture.h:116-127 | RGBA and BGRA have 4 channels, RGB and BGR 3, ALPHA 1 |
| Texture.ImageTexture.constructor | src/opengl/wrap/Texture.h:172-180 | no image and no texture |
| Texture.ImageTexture.Set | src/opengl/wrap/Texture.h:114-141 | fatal exactly for an unsupported format, before anything changes; otherwise stores w·h·channels bytes and marks the texture for upload |
| Texture.ImageTexture.GetTexture | src/opengl/wrap/Texture.h:149-170 | null while no image is set; otherwise a texture matching the image. When the image changed, a missing or mismatched texture is regenerated under the fresh id, and a matching valid one gets one sub-image upload under its own id. A non-zero fresh id leaves a valid texture. With no change and a mismatch, the texture is left invalid |
| Texture.ImageTexture.TextureNonnull | src/opengl/wrap/Texture.h:143-147 | fatal exactly when no image is set |
| FramebufferObject.Framebuffer.constructor | opengl/wrap/Framebuffer.h:128-134 | no texture, no framebuffer object, count 0 |
| FramebufferObject.Framebuffer.Ref | opengl/wrap/Framebuffer.h:27 | adds one reference, so the framebuffer is no longer available |
| FramebufferObject.Framebuffer.Unref | opengl/wrap/Framebuffer.h:29-32 | removes one reference, except at 0 |
| FramebufferObject.Framebuffer.TexId | opengl/wrap/Framebuffer.h:40 | INVALID_GL_ID without a texture, else the texture's id |
| FramebufferObject.Framebuffer.TexWidth | opengl/wrap/Framebuffer.h:42 | 0 without a texture, else its width |
| FramebufferObject.Framebuffer.TexHeight | opengl/wrap/Framebuffer.h:44 | 0 without a texture, else its height |
| FramebufferObject.Framebuffer.CreateFbId | opengl/wrap/Framebuffer.h:80-85 | generates the framebuffer object once |
| FramebufferObject.DetachCalls | opengl/wrap/Framebuffer.h:110-126 | no calls without a texture; the detach call exactly on a live framebuffer object; the texture's deletion exactly when it is owned and still has its id |
| FramebufferObject.Framebuffer.DetachColorTexture | opengl/wrap/Framebuffer.h:110-126 | issues `DetachCalls`. An owned texture is released, and one not owned is left as it was |
| FramebufferObject.Framebuffer.AttachColorTexture | opengl/wrap/Framebuffer.h:87-108 | fatal exactly for a null or invalid texture, and then nothing changes and no call is made. Otherwise: the framebuffer object is created if missing, the old texture detached (an owned one released), and the new one attached, so the framebuffer is valid. The calls are given in that order |
| FramebufferObject.Framebuffer.Create | opengl/wrap/Framebuffer.h:16-23 | nothing happens when the size already matches. Otherwise a new owned texture is uploaded, which is fatal exactly for an empty size. On success it is attached with attachColorTexture's calls, and an owned old texture is released |
| FramebufferObject.Framebuffer.Release | opengl/wrap/Framebuffer.h:69-77 | issues `DetachCalls`, then deletes a live framebuffer object, leaving it invalid. An owned texture is released and one not owned is left as it was; the count stays |
| PoolKey.Decimal | opengl/wrap/FramebufferPool.h:86 | `std::to_string` gives digits with no leading zero |
| PoolKey.ParseDecimalOfDecimal | opengl/wrap/FramebufferPool.h:86 | reading the digits back gives the number |
| PoolKey.DecimalInjective | opengl/wrap/FramebufferPool.h:86 | different numbers have different decimal strings |
| PoolKey.Key | opengl/wrap/FramebufferPool.h:86 | the key is the width's digits, an 'x', then the height's digits |
| PoolKey.KeyInjective | opengl/wrap/FramebufferPool.h:86 | two sizes share a key only when they are equal |
| PoolKey.StrLessIrreflexive | opengl/wrap/FramebufferPool.h:151 | std::string order: irreflexive |
| PoolKey.StrLessTransitive | opengl/wrap/FramebufferPool.h:151 | std::string order: transitive |
| PoolKey.StrLessTotal | opengl/wrap/FramebufferPool.h:151 | std::string order: total |
| PoolKey.SortedDistinct | opengl/wrap/FramebufferPool.h:151 | keys kept in strictly increasing order are distinct, as a map's keys are |
| PoolKey.FindKey | opengl/wrap/FramebufferPool.h:89 | `map::find`: the index of the key, or -1 exactly when it is absent |
| PoolKey.LowerBound | opengl/wrap/FramebufferPool.h:94 | a new key goes after every smaller key and before the others |
| PoolKey.InsertSorted | opengl/wrap/FramebufferPool.h:94 | inserting there keeps the keys strictly sorted |
| PoolKey.KeyOrderExample | opengl/wrap/FramebufferPool.h:151 | "100x100" sorts before "20x20" |
| FramebufferPool.CountTrue | opengl/wrap/FramebufferPool.h:37-45 | the count is zero exactly when no framebuffer is available |
| FramebufferPool.FirstTrue | opengl/wrap/FramebufferPool.h:21-26 | the first available index, with none before it, or -1 exactly when none is available |
| FramebufferPool.FirstTrueSet | opengl/wrap/FramebufferPool.h:21-26 | once a framebuffer becomes available, the first available index is at or before it |
| FramebufferPool.RemoveAtIndex | opengl/wrap/FramebufferPool.h:53 | `vector::erase`: elements before the erased one keep their index; later ones move down by one |
| FramebufferPool.KeepUnflaggedLength | opengl/wrap/FramebufferPool.h:47-64 | evicting every available framebuffer keeps exactly the ones in use |
| FramebufferPool.KeepUnflaggedMembers | opengl/wrap/FramebufferPool.h:47-64 | every framebuffer in use survives the full trim, and nothing new appears |
| FramebufferPool.KeepUnflaggedRemoveFlagged | opengl/wrap/FramebufferPool.h:50-53 | erasing an available framebuffer does not change which ones the full trim keeps |
| FramebufferPool.RemoveSetFlag | opengl/wrap/FramebufferPool.h:50-53 | erasing an available framebuffer lowers the available count by exactly one |
| FramebufferPool.MemMbMonotone | opengl/wrap/FramebufferPool.h:66 | fewer framebuffers never take more memory |
| FramebufferPool.MemMbExamples | opengl/wrap/FramebufferPool.h:66 | a 512 x 512 framebuffer takes exactly one megabyte; a 1920 x 1080 one rounds down to 7 |
| FramebufferPool.FbArrayList.constructor | opengl/wrap/FramebufferPool.h:18 | an empty list of the given size |
| FramebufferPool.FbArrayList.AllSize | opengl/wrap/FramebufferPool.h:35 | the number of framebuffers |
| FramebufferPool.FbArrayList.AvSize | opengl/wrap/FramebufferPool.h:37-45 | the loop counts exactly the available framebuffers |
| FramebufferPool.FbArrayList.FirstAvailable | opengl/wrap/FramebufferPool.h:21-26 | the first available index, or -1 |
| FramebufferPool.FbArrayList.Obtain | opengl/wrap/FramebufferPool.h:20-33 | hands out the first available framebuffer, referenced once. When none is free, appends a new one of the list's size, which is fatal exactly for an empty size. Other framebuffers are unchanged |
| FramebufferPool.FbArrayList.Grow | opengl/wrap/FramebufferPool.h:27-32 | a new framebuffer of the list's size, referenced once and appended; fatal exactly for an empty size, and then nothing is appended |
| FramebufferPool.FbArrayList.UnrefAt | opengl/wrap/Framebuffer.h:29-32 | a client's `unref()`: one reference less, none below zero. The framebuffer is available exactly when its count reaches zero, and the next obtain then picks it or an earlier one |
| FramebufferPool.FbArrayList.EvictAt | opengl/wrap/FramebufferPool.h:50-53 | the framebuffer is released and erased; the others keep their order and are unchanged |
| FramebufferPool.FbArrayList.TrimMem | opengl/wrap/FramebufferPool.h:47-64 | `once`: evicts the first available framebuffer and returns true exactly when one existed. Otherwise it evicts every available one and returns false. The number in use never changes |
| FramebufferPool.FbArrayList.TrimFirst | opengl/wrap/FramebufferPool.h:47-64 | `trimMem(true)` evicts exactly the first available framebuffer, or changes nothing when there is none |
| FramebufferPool.FbArrayList.TrimAll | opengl/wrap/FramebufferPool.h:47-64 | `trimMem(false)` keeps exactly the framebuffers in use, in order |
| FramebufferPool.FbArrayList.TrimMemKeeping | opengl/wrap/FramebufferPool.h:47-64 | a trim removes one framebuffer exactly when one was available; a framebuffer in use stays, possibly one place earlier |
| FramebufferPool.FbArrayList.Release | opengl/wrap/FramebufferPool.h:68-74 | every framebuffer is released and the list emptied |
| FramebufferPool.SumAfterTrim | opengl/wrap/FramebufferPool.h:130-136 | one pass of the trim loop lowers the available total, or the total was already zero |
| FramebufferPool.MemsMonotone | opengl/wrap/FramebufferPool.h:117-123 | lists with no more framebuffers take no more memory |
| FramebufferPool.ShrunkAfterTrim | opengl/wrap/FramebufferPool.h:130-136 | a trim pass only removes available framebuffers |
| FramebufferPool.KeysForInsert | opengl/wrap/FramebufferPool.h:93-94 | inserting a new list at its key's lower bound keeps the map ordered |
| FramebufferPool.FramebufferPool.constructor | opengl/wrap/FramebufferPool.h:83 | an empty pool with the given cap |
| FramebufferPool.FramebufferPool.Obtain | opengl/wrap/FramebufferPool.h:85-99 | reuses the size's list, leaving every list in place, or inserts a new one in key order when missing; fatal exactly for an empty size. The framebuffer is valid, in use and of the asked size, and the trim never evicts it. Afterwards the memory fits the cap or nothing is available |
| FramebufferPool.FramebufferPool.ListFor | opengl/wrap/FramebufferPool.h:86-96 | `find`, or insertion at the key's place in map order; the index holds the size's list |
| FramebufferPool.FramebufferPool.AddList | opengl/wrap/FramebufferPool.h:93-94 | a new empty list of the size, inserted at the lower bound of its key |
| FramebufferPool.FramebufferPool.ListObtain | opengl/wrap/FramebufferPool.h:91-95 | the framebuffer obtained from one list is in use there; fatal exactly for an empty size |
| FramebufferPool.FramebufferPool.Unref | opengl/wrap/FramebufferPool.h:20-26 | unref of a framebuffer a list handed out. Only that framebuffer's count and availability change, in that list. At zero the list has one available and its first available index is at or before it |
| FramebufferPool.FramebufferPool.InUseFacts | opengl/wrap/FramebufferPool.h:20-33 | a framebuffer in use is valid, not available, and of its list's size |
| FramebufferPool.FramebufferPool.Release | opengl/wrap/FramebufferPool.h:142-148 | every list's framebuffers are released and the map is emptied |
| FramebufferPool.FramebufferPool.ReleaseList | opengl/wrap/FramebufferPool.h:143-146 | one list's framebuffers are all left invalid; the other lists are untouched |
| FramebufferPool.FramebufferPool.AllSize | opengl/wrap/FramebufferPool.h:101-107 | the sum of the lists' sizes |
| FramebufferPool.FramebufferPool.AvSize | opengl/wrap/FramebufferPool.h:109-115 | the sum of the lists' available counts |
| FramebufferPool.FramebufferPool.MemSizeMb | opengl/wrap/FramebufferPool.h:117-123 | the sum of the lists' memory, each rounded down separately |
| FramebufferPool.FramebufferPool.TrimOnce | opengl/wrap/FramebufferPool.h:131-135 | evicts one framebuffer from the first list that has an available one, and from no other list |
| FramebufferPool.FramebufferPool.TrimListAt | opengl/wrap/FramebufferPool.h:132 | one list's `trimMem()` evicts exactly when it has an available framebuffer; the framebuffer in use is followed |
| FramebufferPool.FramebufferPool.TrimList | opengl/wrap/FramebufferPool.h:132 | one list's `trimMem()` leaves the other lists untouched and keeps the framebuffer in use |
| FramebufferPool.FramebufferPool.TrimPass | opengl/wrap/FramebufferPool.h:131-135 | one pass lowers the available total, or it was already zero |
| FramebufferPool.FramebufferPool.KeepTrimming | opengl/wrap/FramebufferPool.h:136 | the loop goes on exactly while the memory is over the cap and something is available |
| FramebufferPool.FramebufferPool.TrimUntilFits | opengl/wrap/FramebufferPool.h:130-136 | the loop ends with the memory within the cap or nothing available, and only available framebuffers were evicted |
| FramebufferPool.FramebufferPool.TrimMemIfNeed | opengl/wrap/FramebufferPool.h:125-140 | changes nothing within the cap. Afterwards the memory fits or nothing is available, memory never grows, and only available framebuffers are evicted |
| GLViewport.ClearOffDoesNotClear | opengl/wrap/Viewport.h:46-48 | the -1000 marker switches clearing off |
| GLViewport.Place | opengl/wrap/Viewport.h:15-21 | one glScissor call when scissoring, otherwise one glViewport call |
| GLViewport.Viewport.Sized | opengl/wrap/Viewport.h:24-25 | at the origin, clearing off |
| GLViewport.Viewport.constructor | opengl/wrap/Viewport.h:26-27 | stores the rectangle, clearing off |
| GLViewport.Viewport.SetSize | opengl/wrap/Viewport.h:29 | `set(0, 0, w, h, scissor)` |
| GLViewport.Viewport.Set | opengl/wrap/Viewport.h:31-37 | stores the rectangle and the flag |
| GLViewport.Viewport.EnableClearColor | opengl/wrap/Viewport.h:39-44 | stores the colour; clearing is on exactly when red is in [0, 1] |
| GLViewport.Viewport.DisableClearColor | opengl/wrap/Viewport.h:46-48 | only red changes, to the marker |
| GLViewport.Viewport.SetFrom | opengl/wrap/Viewport.h:50-60 | every field is copied, including the clear colour |
| GLViewport.Viewport.Apply | opengl/wrap/Viewport.h:62-74 | scissor or viewport only for a non-empty size; glClearColor and glClear exactly when clearing is on |
| Callbacks.Without | src/utils/CallbackMgr.h:57-62 | the filtered list does not hold the callback and holds nothing new |
| Callbacks.Added | src/utils/CallbackMgr.h:23-45 | the callback is registered under the key; other keys are untouched |
| Callbacks.Removed | src/utils/CallbackMgr.h:47-66 | the callback is gone from the key; other keys are untouched |
| Callbacks.AppendDistinct | src/utils/CallbackMgr.h:38-43 | appending a callback that is not yet registered keeps the list duplicate-free |
| Callbacks.WithoutDistinct | src/utils/CallbackMgr.h:57-62 | filtering keeps the list duplicate-free |
| Callbacks.WithoutAbsent | src/utils/CallbackMgr.h:57-62 | a list without the callback is its own filter |
| Callbacks.AddedWellFormed | src/utils/CallbackMgr.h:23-45 | adding keeps every list non-empty and duplicate-free |
| Callbacks.RemovedWellFormed | src/utils/CallbackMgr.h:47-66 | removing keeps every list non-empty and duplicate-free |
| Callbacks.WithoutErase | src/utils/CallbackMgr.h:57-62 | in a duplicate-free list, erasing the first match is the filter |
| Callbacks.RemoveUndoesAdd | src/utils/CallbackMgr.h:23-66 | removing a callback just added restores the map |
| Callbacks.AddTwiceIsAddOnce | src/utils/CallbackMgr.h:38-42 | adding a registered callback again changes nothing |
| Callbacks.CallbackMgr.constructor | src/utils/CallbackMgr.h:87 | an empty map |
| Callbacks.CallbackMgr.AddCallback | src/utils/CallbackMgr.h:23-45 | null is ignored; otherwise the map becomes `Added` |
| Callbacks.CallbackMgr.RemoveCallback | src/utils/CallbackMgr.h:47-66 | null is ignored; otherwise the map becomes `Removed` |
| Callbacks.CallbackMgr.FindCallback | src/utils/CallbackMgr.h:68-75 | null exactly when the key is absent; otherwise the key's non-empty list |
| Callbacks.CallbackMgr.ClearCallback | src/utils/CallbackMgr.h:77-84 | drops exactly the key |
| FaceMorph.Relative | src/face/morph/FaceMorph.h:90-92 | the point minus the rectangle's origin |
| FaceMorph.CornersAreLastPoints | src/face/morph/FaceMorph.h:33-43 | bordered landmarks end in the corners (0,0), (w-1,0), (0,h-1) and (w-1,h-1) |
| FaceMorph.PointsPairUp | src/face/morph/FaceMorph.h:66-76 | point i is the coordinate pair at 2i and 2i + 1 |
| FaceMorph.Landmarks.constructor | src/face/morph/FaceMorph.h:96 | no points |
| FaceMorph.Landmarks.Push | src/face/morph/FaceMorph.h:14-16 | appends one value |
| FaceMorph.Landmarks.SetupPlain | src/face/morph/FaceMorph.h:18-20 | a plain copy |
| FaceMorph.Landmarks.Setup | src/face/morph/FaceMorph.h:23-56 | empty input leaves no landmarks; otherwise the points followed by the four image corners |
| FaceMorph.Landmarks.PSize | src/face/morph/FaceMorph.h:66-68 | the number of whole points: 2n ≤ vSize < 2n + 2 |
| FaceMorph.Landmarks.GetTriangles | src/face/morph/FaceMorph.h:78-93 | the bounding rectangle of the three points, and exactly three appended crop points, each relative to it |
| FaceMorph.MorphImage.constructor | src/face/morph/FaceMorph.h:199-201 | empty landmarks |
| FaceMorph.MorphImage.Setup | src/face/morph/FaceMorph.h:101-108 | keeps the image; the landmarks get the image corners when asked, or a plain copy |
| FaceMorph.MorphImage.MorphTriangles | src/face/morph/FaceMorph.h:114-132 | one step per whole triangle, in order, built from entries 3i, 3i + 1 and 3i + 2; a trailing partial triangle is ignored |
| FaceMorph.MorphImage.MorphTriangle | src/face/morph/FaceMorph.h:134-150 | the bounding rectangles and crop points of both sides |
| FaceMorph.CropOf | src/face/morph/FaceMorph.h:78-93 | three crop points per side |
| FaceMorph.AlphaInsideForMiddleFrames | src/face/morph/FaceMorph.h:230 | frames strictly between the first and the last have a weight strictly between 0 and 1 |
| FaceMorph.MixEnds | src/face/morph/FaceMorph.h:254 | weight 0 gives the source value and weight 1 the destination value |
| FaceMorph.MixBetween | src/face/morph/FaceMorph.h:254 | with a weight in [0, 1], the mix lies between the two values |
| FaceMorph.Midpoints | src/face/morph/FaceMorph.h:215-218 | as long as the first list |
| FaceMorph.MidpointsAreHalfway | src/face/morph/FaceMorph.h:215-218 | the average is the halfway mix and lies between the two values |
| FaceMorph.FaceMorph.constructor | src/face/morph/FaceMorph.h:298-304 | two fresh images and no triangles |
| FaceMorph.FaceMorph.Setup | src/face/morph/FaceMorph.h:206-227 | raises exactly for different image sizes, before any change. Otherwise both images get bordered landmarks. Equal point counts triangulate the landmarks' average; otherwise there are no triangles |
| FaceMorph.FaceMorph.GetFrameAt | src/face/morph/FaceMorph.h:229-296 | the source image at index ≤ 0 and the destination image at the last index. Otherwise a plain blend when there are no triangles or no face; otherwise both sides are morphed towards the interpolated landmarks, triangle by triangle |
| FaceMorph.Average | src/face/morph/FaceMorph.h:214-218 | the averaging loop computes `Midpoints` |
| FaceMorph.Interpolate | src/face/morph/FaceMorph.h:250-256 | the weight loop builds a fresh landmark list of the mixed values |
| GLMorph.Scaled | src/opengl/GLFaceMorph.h:24-29 | whole points only; a trailing lone coordinate is dropped |
| GLMorph.ScaledRoundTrip | src/opengl/GLFaceMorph.h:24-29 | multiplying back by the image size gives the original coordinates |
| GLMorph.ScaledInUnitSquare | src/opengl/GLFaceMorph.h:24-29 | points inside the image become texture coordinates in [0, 1] |
| GLMorph.Gather | src/opengl/GLFaceMorph.h:79-86 | two coordinates per triangle vertex |
| GLMorph.GatherPoints | src/opengl/GLFaceMorph.h:79-86 | vertex j is the face point the triangulation named |
| GLMorph.Vertices | src/opengl/GLFaceMorph.h:105-111 | one clip coordinate per texture coordinate |
| GLMorph.VerticesInClipSpace | src/opengl/GLFaceMorph.h:105-111 | with a percent in [0, 1], texture coordinates in [0, 1] give clip coordinates in [-1, 1] |
| GLMorph.VerticesEnds | src/opengl/GLFaceMorph.h:109 | at 0 the mesh is the source face, at 1 the destination face |
| GLMorph.ScaleInto | src/opengl/GLFaceMorph.h:24-29 | the loop writes exactly `Scaled(points)` |
| GLMorph.WriteBoard | src/opengl/GLFaceMorph.h:30-35 | the eight board floats follow the points |
| GLMorph.FillFacePoints | src/opengl/GLFaceMorph.h:22-38 | the buffer starts with the scaled points, followed by the board when asked |
| GLMorph.GatherInto | src/opengl/GLFaceMorph.h:79-86 | the copy loop fills both triangle buffers with `Gather` of each face |
| GLMorph.MixInto | src/opengl/GLFaceMorph.h:105-111 | the weight loop writes `Vertices` |
| GLMorph.GLFaceMorph.constructor | src/opengl/GLFaceMorph.h:122-137 | five empty float buffers and zero counts |
| GLMorph.GLFaceMorph.SetSrcFacePoints | src/opengl/GLFaceMorph.h:22-38 | the source face becomes the scaled points plus the optional board; nothing else changes |
| GLMorph.GLFaceMorph.SetDstFacePoints | src/opengl/GLFaceMorph.h:44-60 | the destination face becomes the scaled points plus the optional board; nothing else changes |
| GLMorph.GLFaceMorph.GenerateTriangles | src/opengl/GLFaceMorph.h:62-88 | no triangles when there are fewer than two source floats or the counts differ. Otherwise the averaged faces are triangulated, and each triangle buffer is the gathered face. The faces are unchanged |
| GLMorph.GLFaceMorph.AveragePoints | src/opengl/GLFaceMorph.h:68-71 | the averaging loop computes `Midpoints` of the two faces |
| GLMorph.GLFaceMorph.CopyTrianglePoints | src/opengl/GLFaceMorph.h:76-86 | triangle count 2·\|t\|, both buffers gathered |
| GLMorph.GLFaceMorph.ObtainTriangleRoom | src/opengl/GLFaceMorph.h:76-78 | room for n floats in each triangle buffer; the faces are unchanged |
| GLMorph.GLFaceMorph.Render | src/opengl/GLFaceMorph.h:94-120 | below three triangle floats, a plain image blend. Otherwise the mesh: `Vertices` of the two triangle buffers plus both as texture coordinates. No state the model tracks changes |
| GLMorph.GLFaceMorph.MixWeights | src/opengl/GLFaceMorph.h:105-111 | the percent buffer holds `Vertices` |
| GLMorph.GLFaceMorph.ObtainTexCoords | src/opengl/GLFaceMorph.h:112-113 | the re-obtain reallocates nothing, so both buffers still hold the triangles |

## Left out

- Floating point: every `float` and `double` is a real. Rounding, NaN and infinity are not modelled.
- Trigonometry: `sin` and `cos` of a GLRect's rotation, and the angle overload of `rotatePoint`, are not modelled. Callers pass the sine and cosine.
- `GLRect::setRotation` and `GLRect::rotate` are not modelled. They use `fmod` on floats; the rotation is a plain field.
- Mutexes: `std::mutex` and `std::lock_guard` in GLCoord, ProgField, ImageTexture and CallbackMgr are not modelled. Operations run one at a time.
- The actual OpenGL and OpenCV work is not modelled. GL calls are recorded as events with fresh ids supplied by the caller. Pixel work is left out: `warpAffine`, `fillConvexPoly`, `blendLinear`, `addWeighted` and image cropping in `morphTriangle` and `getFrameAt`.
- `cv::boundingRect` (and its rounding to integer rectangles) is a parameter. Delaunay triangulation is a parameter whose indices name existing points. Its failures on degenerate input are not modelled.
- Logging output, `printf` timings, `imshow`/`waitKey` debugging, and the `setLogFile` file handle are not modelled. Only the control flow of the log macros is.
- `GLFaceMorph::setSrcImg`, `setDstImg` and `setViewport` forward to ImageTexture and the morph filter. The GLFaceMorph model does not hold the two ImageTextures, so the `textureNonnull()` calls at the start of `render` are not modelled; ImageTexture itself is. The filter (FaceMorphFilter) is not part of this model. `render` is described by the inputs it hands the filter.
- `Framebuffer::bind`, `unbind` and `readPixels`, and `VBO::bind()` without data, only issue GL calls. They are not modelled. The static `VAO::unbind` and `VBO::unbind` are, as the calls of `input()` and `detach()`.
- The `glBindFramebuffer` and `glBindTexture` calls around attaching and detaching a colour texture are not recorded. Only the attach, detach, create and delete calls are.
- `Attribute::put` and `Attribute::bind` are modelled only for what `input()` depends on: the values stored and whether coordinates are bound. The vector size, the normalised flag and the bound GLCoord itself are not modelled. Nor are the per-type GL upload calls of `Uniform::input` and `Attribute::input` (glUniform*, glVertexAttrib*, the VBO upload). Their checks are modelled, as `UniformInputCheck` and `AttributeInputCheck`, and so are the vertex-array binds.
- Program.ReadValues: uses Array's intended bounds check, like the rest of the model. As written, a read from a field whose m_data was never allocated passes the check (see the Findings row for src/base/Array.h:26-29) and dereferences a null pointer. The model reports it as the fatal error the check intends.
- Program.Program.Input: the GL location lookups are parameters, and the found location is not stored back into the field. Iteration order over the name maps is not modelled: whether input raises does not depend on it, but which field's error is reported does, and so does how far the loop got before raising.
- Deleting objects: `delete` is not modelled. In particular `ImageTexture::texture` deletes a replaced Texture2D without releasing its GL texture; the model records the replacement.
- Program.ProgField.Set: models the intended element count. The overloads as written are covered under Findings.
- ArrayBuffer.Array.Data: models the intended bounds check. The check as written is covered under Findings.
- GLCoord.GLRect.CenterScale: models the intended centre. The code as written is covered under Findings.
- GLMorph.FillFacePoints: requires a non-zero width and height when there is a point. In the source a zero divisor yields infinity or NaN, which reals cannot express. The same holds for GLMorph.GLFaceMorph.SetSrcFacePoints and GLMorph.GLFaceMorph.SetDstFacePoints.
- GLCoord.GLRect.ToGLCoords: requires a non-zero output size for the same reason. The same holds for GLCoord.GLRect.ToVertexCoords, GLCoord.GLRect.ToTextureCoords, GLCoord.GLCoord.SetRect, GLCoord.GLCoord.CenterCrop and GLCoord.GLCoord.SetByGLRect.
- FramebufferPool.MemMb: does not model the 32-bit `int` overflow of `width * height * 4 * size`. Memory is computed on unbounded integers.
- FramebufferPool.FramebufferPool.Obtain: sizes are natural numbers. Negative `int` sizes, and their "-" keys, are not modelled.
- FramebufferPool.FbArrayList.TrimAll: it does not promise that the kept framebuffers are left untouched. The pool only calls the `once` form.
- FramebufferPool.FramebufferPool.TrimMemIfNeed: the `_INFO` report of memory before and after is not modelled.
- GLViewport.Viewport.SetFrom: requires distinct colour arrays unless it copies from itself. In the source each Viewport owns its array member, so this always holds.
- Texture.ImageTexture.Set: requires the data to hold `w * h * channels` bytes, which the source's `memcpy` reads. Negative sizes are not modelled.
- Log.PrettyMethodName: is stated for strings shorter than `npos`.
- The two Texture.h files define the same Texture2D. One class models both, and its rows cite src/opengl/wrap/Texture.h. In opengl/wrap/Texture.h the same members sit at lines 47-77; that file has no ImageTexture and no `params()`.

## Findings

| source | as written | input that shows it | evidently intended | confidence | as-written member | corrected member |
|---|---|---|---|---|---|---|
| src/base/Array.h:26-29 | `bi < 0 \|\| bi > m_capacity - unitSize` in `size_t`: `bi < 0` never holds, and `m_capacity - unitSize` wraps when the capacity is below one element | `data<float>(0)` on a fresh Array (capacity 0) passes the check and returns a null pointer | fatal unless the whole element lies inside the capacity | not executed | ArrayBuffer.EmptyArrayPassesAsWrittenCheck | ArrayBuffer.Array.At |
| src/opengl/wrap/Program.h:168-187 | the 2-, 3- and 4-value `set` overloads pass `sizeof(a)`, a byte count, to `put`, which takes an element count | `set(1.0f, 2.0f)` asks `put` to copy 8 floats from a 2-float array | pass the number of values | not executed | Program.SetOverloadReadsPastArray | Program.ProgField.Set |
| src/opengl/wrap/GLCoord.h:91-101 | `centerScale` computes the centre as `(x + width) / 2` | `GLRect(10, 0, 10, 10).centerScale(1, 1)` moves the rectangle to x = 5 | scale about `x + width / 2`, so a scale of 1 changes nothing | not executed | GLCoord.CenterScaleAsWrittenMovesRect | GLCoord.CenterScaled |
