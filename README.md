# ShowMySky GLWidget, modelled in Dafny

This project models the discrete logic of `GLWidget`, the Qt OpenGL widget
of ShowMySky that loads the atmosphere renderer and shows what it draws.
The widget's own code is small. It loads the renderer library and checks
its ABI version. It makes the dither pattern texture and the two glare
render targets, builds a full-screen quad, and composes each frame: the
renderer draws luminance, three glare passes ping-pong between two
framebuffers, and a tone-map pass draws to the screen. It re-queries the
spectrum under a remembered pixel, and on Ctrl+S it saves the luminance
as a raw float32 file.

Modules:

- `Wrappers`: `Option`, the fixed-width integer types and powers of two.
- `Gl`: the part of an OpenGL context the widget uses, as a class.
  - Object names come from one counter and live in sets.
  - Texture storage, sampling parameters, framebuffer attachments, buffer
    contents and vertex-array sources are maps that the calls update.
  - Bindings are fields.
  - Every draw call is appended to a log of `Draw` records (program,
    sampled texture, its filters, target framebuffer, vertex array).
- `Dither`: `rgbMaxValue`, the 8x8 Bayer table and the image each
  dithering method uploads.
  - The table is kept as the source writes it, as integer numerators
    over 64.
  - It is proved equal, entry by entry, to an independent closed
    definition of the ordered-dither matrix (a three-digit base-4 formula
    over the bits of the cell's coordinates), and to be a permutation of
    0..63.
- `Plugin`: the fail-fast library load and ABI negotiation, over a loader
  given as a value.
- `Glare`: the draw sequence of one frame as a function of the names
  involved, with the ping-pong lemmas.
- `Screenshot`: the screenshot file as bytes. It has an encoder, a reader,
  a round-trip proof and the save outcome (as written and corrected).
- `Widget`: the `GLWidget` class with its handle arrays, its fields and
  its methods, each proved against the functions above.
  - `Valid()` is kept by every method: handles are 0 or live, and the pair
    members differ.
  - `GlareTargetsReady()` is kept by every frame and restored by every
    resize made while a renderer exists.

Floats are opaque 32-bit words. The renderer and the tools panel are
oracles, values the widget queries. File-system answers, the dialog's
answer, the texture read-back and the host byte order are parameters.

## Model

| member | source | states |
|---|---|---|
| Dither.RgbMaxValue | ShowMySky/GLWidget.cpp:121-135 | every channel maximum is positive, for every mode including unrecognised ones |
| Dither.RgbMaxValueIsFullScale | ShowMySky/GLWidget.cpp:121-135 | each channel maximum is 2^bits - 1 for that channel's depth: 6/6/6, 5/6/5, 8/8/8, 10/10/10 |
| Dither.UnrecognizedModeIs666 | ShowMySky/GLWidget.cpp:123-127 | any mode the switch does not name falls through to the 6/6/6 triple (63, 63, 63) |
| Dither.BayerLevelsTable | ShowMySky/GLWidget.cpp:79-86 | the table is 8 rows of 8, and entry (x, y) equals the ordered-dither level given by the closed three-digit formula of cell (x, y) |
| Dither.CellOfLevel | ShowMySky/GLWidget.cpp:79-86 | the reference level function is injective: the cell can be read back from its level |
| Dither.LevelOfCell | ShowMySky/GLWidget.cpp:79-86 | the reference level function is onto 0..63: every level is the level of the cell BayerCell names |
| Dither.BayerPattern | ShowMySky/GLWidget.cpp:76-87 | the uploaded array holds width * height = 64 numerators |
| Dither.BayerPatternIsPermutation | ShowMySky/GLWidget.cpp:76-87 | every numerator is below 64, no two are equal, and level v sits at index 8 * row + column of its cell, so all of 0..63 occur |
| Dither.DitherImage | ShowMySky/GLWidget.cpp:61-93 | there is an image exactly when the method is a known one; its texel count is width * height and it is stored as R16F |
| Dither.NoDitheringImage | ShowMySky/GLWidget.cpp:63-68 | without dithering the texture is 1x1 and holds 0 |
| Dither.BayerImage | ShowMySky/GLWidget.cpp:73-89 | the Bayer texture is 8x8, texels are k/64 with k < 64, pairwise distinct, and k/64 sits at the cell of level k |
| Dither.BayerTexelValues | ShowMySky/GLWidget.cpp:76-88 | every Bayer texel value lies in [0, 1) and no two are equal |
| Dither.BlueNoiseImage | ShowMySky/GLWidget.cpp:69-72 | the blue-noise texture has the table's outer extent as width and inner extent as height, one noise word per texel |
| Dither.BlueNoiseCell | ShowMySky/GLWidget.cpp:70-71 | table cell [i][j] is texel i * (row length) + j of the upload |
| Plugin.Resolve | ShowMySky/GLWidget.cpp:153-160 | a symbol the library does not export resolves to null |
| Plugin.Negotiate | ShowMySky/GLWidget.cpp:148-163 | success exactly when the library loads, exports the ABI symbol holding the compiled version, and exports the factory; the result is the non-null factory address |
| Plugin.NegotiateFailsAtFirstFailingStep | ShowMySky/GLWidget.cpp:151-162 | the error raised is that of the first failing step in the order load, ABI symbol, ABI value, factory symbol |
| Plugin.NegotiateErrorExplained | ShowMySky/GLWidget.cpp:151-162 | each error implies its step failed and every earlier step succeeded; a mismatch carries both versions, which differ |
| Plugin.VersionMustMatchExactly | ShowMySky/GLWidget.cpp:156-158 | success requires the library's version word to equal the compiled one |
| Glare.PassSource | ShowMySky/GLWidget.cpp:395-424 | a pass samples the luminance texture or a glare texture: pass 0 the luminance, a later pass the texture other than n % 2, the one pass n renders into, so it never samples its own target when the two textures differ |
| Glare.ToneMapSource | ShowMySky/GLWidget.cpp:395-429 | with glare the tone map samples glare texture 0, the one the third pass wrote; without glare it samples the luminance texture |
| Glare.ToneMapDraw | ShowMySky/GLWidget.cpp:427-439 | the tone map runs the luminance-to-screen program on the quad, unfiltered, into the given framebuffer, from ToneMapSource |
| Glare.FrameSamplingEffect | ShowMySky/GLWidget.cpp:396-430 | a frame's texture setup changes only the luminance texture and the two glare textures, keeps every border clamp, and leaves the tone-map source with nearest filtering; without glare the luminance texture ends nearest with its wrap kept; with glare (three distinct textures) the luminance texture ends clamped to its border and linear, glare texture 1 linear, and glare texture 0 nearest, each keeping its other settings |
| Glare.GlarePasses | ShowMySky/GLWidget.cpp:413-425 | the loop issues exactly `count` draws |
| Glare.GlarePassAt | ShowMySky/GLWidget.cpp:413-425 | draw n of the loop is pass n: program GlarePass(n), linear filtering, target framebuffer n % 2 |
| Glare.FrameDraws | ShowMySky/GLWidget.cpp:393-439 | a frame is 4 draws with glare and 1 without |
| Glare.PingPongDiscipline | ShowMySky/GLWidget.cpp:413-425 | no pass samples the texture its framebuffer renders into, pass 0 reads the luminance texture, and each later pass reads what the previous pass wrote |
| Glare.FrameShape | ShowMySky/GLWidget.cpp:393-440 | the tone map is last, unfiltered, and draws into the framebuffer bound at entry; with glare the passes write framebuffers 0, 1, 0 with linear filtering and the tone map reads texture 0, which the last pass wrote; without glare it reads the luminance texture |
| Screenshot.ToUint16 | ShowMySky/GLWidget.cpp:591 | the uint16_t conversion keeps values below 2^16 and is congruent modulo 2^16 otherwise |
| Screenshot.U16Bytes | ShowMySky/GLWidget.cpp:592-593 | a 16-bit header field is two bytes, the low byte first in little-endian order and last in big-endian order |
| Screenshot.U32Bytes | ShowMySky/GLWidget.cpp:594 | a sample word is four bytes, the lowest first in little-endian order and last in big-endian order, the highest at the other end |
| Screenshot.U16RoundTrip | ShowMySky/GLWidget.cpp:591-593 | a 16-bit header field reads back as written, in either byte order |
| Screenshot.U32RoundTrip | ShowMySky/GLWidget.cpp:594 | a sample word reads back as written, in either byte order |
| Screenshot.WordsBytes | ShowMySky/GLWidget.cpp:594 | the samples take 4 bytes each |
| Screenshot.BytesWords | ShowMySky/GLWidget.cpp:594 | a reader gets one word per 4 bytes |
| Screenshot.WordsRoundTrip | ShowMySky/GLWidget.cpp:594 | reading the sample bytes gives back every sample in order |
| Screenshot.EncodeScreenshot | ShowMySky/GLWidget.cpp:591-594 | the file is 4 header bytes plus 4 bytes per sample |
| Screenshot.DecodeScreenshot | ShowMySky/GLWidget.cpp:591-594 | a file is accepted only if its length is 4 + 16 * width * height for the header it carries, and then it yields 4 * width * height samples |
| Screenshot.SampleBuffer | ShowMySky/GLWidget.cpp:583-584 | the vector has width * height * 4 entries: the texture image first, zeros after it |
| Screenshot.ScreenshotLength | ShowMySky/GLWidget.cpp:583-594 | the file holds 4 + 16 * width * height bytes |
| Screenshot.ScreenshotRoundTrip | ShowMySky/GLWidget.cpp:583-594 | when width and height fit in 16 bits, a reader gets back the width, the height and every sample |
| Screenshot.TruncatedWidthUnreadable | ShowMySky/GLWidget.cpp:591 | a widget 65536 pixels wide writes a file no reader accepts, because the width truncates to 0 |
| Screenshot.SaveAsWritten | ShowMySky/GLWidget.cpp:575-600 | as written, a chosen path with no renderer dereferences the null renderer, and only that case does |
| Screenshot.SaveWithoutRendererDereferencesNull | ShowMySky/GLWidget.cpp:577-582 | concrete input: path chosen, no renderer, so the null dereference is reached |
| Screenshot.SaveScreenshotOutcome | ShowMySky/GLWidget.cpp:575-600 | corrected: never dereferences null, returns NoRenderer exactly when there is no renderer, and otherwise behaves as written |
| Screenshot.SavedFileReadsBack | ShowMySky/GLWidget.cpp:583-599 | bytes are produced exactly when a path is chosen, a renderer exists and the file opens; Saved exactly when the flush also succeeds; the bytes read back as the widget's size and the sample buffer |
| Widget.QuadCoversClipSpace | ShowMySky/GLWidget.cpp:610-616 | the strip's four corners are the four distinct corners of clip space, diagonally opposite pairs symmetric about the origin |
| Widget.ReadinessKeptWhileClamped | ShowMySky/GLWidget.cpp:393-430 | changing filters, or clamping more textures, keeps ready glare targets ready |
| Widget.GLWidget.constructor | ShowMySky/GLWidget.cpp:16-25 | the widget starts without a renderer, with all handles 0 and valid, size 0 x 0, hidden, and a dither texture with default sampling and no image |
| Widget.GLWidget.MakeDitherPatternTexture | ShowMySky/GLWidget.cpp:55-94 | nearest filtering and repeat wrap are always set; the image is DitherImage of the method; an unknown method aborts with the image untouched |
| Widget.GLWidget.MakeGlareRenderTarget | ShowMySky/GLWidget.cpp:96-119 | names are generated only when zero and reused otherwise; both textures get width x height RGBA32F with linear filtering and clamp-to-border; framebuffer n is attached to texture n; framebuffer 0 is bound at the end; generated names are the next fresh ones (textures first, then framebuffers), so no live object had them, and they are added to the live sets; texture 1 stays bound, as the loop leaves it |
| Widget.GLWidget.AllocateGlareTextures | ShowMySky/GLWidget.cpp:98-110 | the texture loop allocates and configures both textures, generating names only when the first is zero, then two fresh names added to the live textures; texture 1 stays bound |
| Widget.GLWidget.GenerateGlareTextures | ShowMySky/GLWidget.cpp:98-99 | texture names are generated only when the first is zero, as the next two fresh names, added to the live textures; otherwise nothing changes |
| Widget.GLWidget.AllocateGlareTexture | ShowMySky/GLWidget.cpp:102-109 | one iteration: texture t gets the widget's size and the glare sampling, and stays bound |
| Widget.GLWidget.AttachGlareFramebuffers | ShowMySky/GLWidget.cpp:111-118 | the framebuffer loop attaches framebuffer n to texture n and leaves framebuffer 0 bound; names are generated only when the first is zero, as two fresh names added to the live framebuffers |
| Widget.GLWidget.GenerateGlareFramebuffers | ShowMySky/GLWidget.cpp:111-112 | framebuffer names are generated only when the first is zero, as the next two fresh names, added to the live framebuffers; otherwise nothing changes |
| Widget.GLWidget.SetupBuffers | ShowMySky/GLWidget.cpp:602-623 | the vertex array and buffer are generated only when zero, each as the next fresh name added to its live set; the buffer holds the quad; the vertex array reads from it; vertex array 0 is bound at the end |
| Widget.GLWidget.GenerateQuadBuffers | ShowMySky/GLWidget.cpp:604-608 | each of the vertex array and buffer is generated only when zero, the vertex array first, each as the next fresh name added to its live set; the last name issued advances by the number generated |
| Widget.GLWidget.Destroy | ShowMySky/GLWidget.cpp:27-53 | each non-zero handle is deleted, with the state the context kept for it; every handle is 0 afterwards; nothing else is deleted; a binding that named a deleted object becomes 0 |
| Widget.GLWidget.DeleteQuadBuffers | ShowMySky/GLWidget.cpp:33-42 | the buffer, then the vertex array, deleted when non-zero and zeroed |
| Widget.GLWidget.DeleteGlareTargets | ShowMySky/GLWidget.cpp:43-52 | the glare textures, then the framebuffers, deleted when non-zero and zeroed |
| Widget.GLWidget.DeleteGlareTextures | ShowMySky/GLWidget.cpp:43-47 | both glare textures are deleted with their storage and sampling when the first is non-zero, then zeroed |
| Widget.GLWidget.DeleteGlareFramebuffers | ShowMySky/GLWidget.cpp:48-52 | both framebuffers are deleted with their attachments when the first is non-zero, then zeroed |
| Widget.GLWidget.ResizeGL | ShowMySky/GLWidget.cpp:450-455 | without a renderer the context is untouched; otherwise the renderer is told the size and the glare targets are ready at it: names are reused or generated fresh as in MakeGlareRenderTarget, both textures are reallocated at w x h with the glare sampling, the attachments are set, and no other storage, sampling or attachment changes; texture 1 stays bound |
| Widget.GLWidget.UpdateSpectralRadiance | ShowMySky/GLWidget.cpp:457-466 | without a renderer nothing happens; otherwise the spectrum is asked for, a non-empty one is forwarded, and the position is remembered only if the panel accepts it |
| Widget.GLWidget.PaintGL | ShowMySky/GLWidget.cpp:384-448 | draws exactly when there is a renderer, the widget is visible and the renderer is ready; the draws are FrameDraws into the framebuffer bound at entry, whose binding is restored; texture sampling becomes FrameSampling of the sampling at entry; the re-query happens exactly when both capture coordinates are non-negative; ready targets stay ready |
| Widget.GLWidget.PaintFrame | ShowMySky/GLWidget.cpp:390-444 | the renderer draws, then the frame's draws are issued and the frame is counted; texture sampling becomes FrameSampling of the sampling at entry |
| Widget.GLWidget.ComposeFrame | ShowMySky/GLWidget.cpp:393-440 | the draws are FrameDraws; the entry framebuffer is bound again; the tone-map source stays bound; texture sampling becomes FrameSampling of the sampling at entry; ready targets stay ready |
| Widget.GLWidget.DrawFrame | ShowMySky/GLWidget.cpp:393-440 | as ComposeFrame, including the FrameSampling result, and no texture that clamps to its border stops doing so |
| Widget.GLWidget.DrawGlarePasses | ShowMySky/GLWidget.cpp:396-428 | the loop issues GlarePasses(3); texture sampling becomes PassesSampling(3) applied after the luminance texture is set to clamp to its border; the last pass's texture stays bound; the entry framebuffer is bound again |
| Widget.GLWidget.DrawGlarePass | ShowMySky/GLWidget.cpp:413-425 | pass n draws from its source into framebuffer n % 2 and then binds texture n % 2; its source, and no other texture, gets linear filtering |
| Widget.GLWidget.InitializeGL | ShowMySky/GLWidget.cpp:137-373 | missing GL functions end initialisation with nothing else done; a load failure is shown and leaves the factory uncalled and no renderer; otherwise the factory (cached or freshly resolved) is called once and the renderer's resources are made; on either failure no GL object, handle or dither texture is touched; on success the context is exactly as DrawingTargetsMade says |
| Widget.GLWidget.StartRenderer | ShowMySky/GLWidget.cpp:146-194 | the try block: a load failure is shown, leaves no renderer and touches no GL object, handle or dither texture; otherwise the factory is called once and the resources are made; on success the context is exactly as DrawingTargetsMade says |
| Widget.GLWidget.MakeDrawingTargets | ShowMySky/GLWidget.cpp:193-194 | afterwards the glare targets are ready and the vertex array and buffer exist; the whole context is as DrawingTargetsMade says: names reused or the next fresh ones (glare textures, glare framebuffers, vertex array, buffer), each generated name added to its live set, exact storage, sampling, attachment, buffer contents and attribute source, the final bindings, and nothing else changed |
| Widget.GLWidget.LoadRenderer | ShowMySky/GLWidget.cpp:146-179 | negotiation runs only while the factory pointer is null; its error is shown and the factory is not called; on success the pointer is cached and called once |
| Widget.GLWidget.MakeRendererResources | ShowMySky/GLWidget.cpp:192-194 | an unknown dither method aborts; otherwise the dither texture, ready glare targets and the quad exist; on success the context is exactly as DrawingTargetsMade says |
| Widget.GLWidget.SaveScreenshot | ShowMySky/GLWidget.cpp:575-600 | the outcome is SaveScreenshotOutcome; an open or flush failure shows its error box; the luminance texture is bound once a path is chosen and a renderer exists, and the previous binding is kept otherwise |
| Widget.GLWidget.ReadyTargetsArePingPong | ShowMySky/GLWidget.cpp:96-119 | ready targets form a ping-pong pair for any other luminance texture, so every frame obeys Glare.PingPongDiscipline and Glare.FrameShape |
| Gl.GlContext.GenTextures | ShowMySky/GLWidget.cpp:99 | the n names that follow the last one issued, added to the live textures, every live name still in 1 .. last issued |
| Gl.GlContext.GenFramebuffers | ShowMySky/GLWidget.cpp:112 | n fresh framebuffer names |
| Gl.GlContext.GenVertexArray | ShowMySky/GLWidget.cpp:605 | one fresh vertex array name |
| Gl.GlContext.GenBuffer | ShowMySky/GLWidget.cpp:608 | one fresh buffer name |
| Gl.GlContext.DeleteTextures | ShowMySky/GLWidget.cpp:45 | the names stop being live, with their storage and sampling; a texture binding that named one becomes 0 |
| Gl.GlContext.DeleteFramebuffers | ShowMySky/GLWidget.cpp:50 | the names stop being live, with their attachments; a framebuffer binding that named one becomes 0 |
| Gl.GlContext.DeleteVertexArray | ShowMySky/GLWidget.cpp:40 | the name stops being live, with its attribute source; a vertex array binding that named it becomes 0 |
| Gl.GlContext.DeleteBuffer | ShowMySky/GLWidget.cpp:35 | the name stops being live, with its contents; an array buffer binding that named it becomes 0 |
| Gl.GlContext.BindTexture | ShowMySky/GLWidget.cpp:102 | the texture binding becomes t and nothing else changes |
| Gl.GlContext.BindFramebuffer | ShowMySky/GLWidget.cpp:115-117 | the framebuffer binding becomes f and nothing else changes |
| Gl.GlContext.BindVertexArray | ShowMySky/GLWidget.cpp:606 | the vertex array binding becomes v and nothing else changes |
| Gl.GlContext.BindArrayBuffer | ShowMySky/GLWidget.cpp:609 | the array buffer binding becomes b and nothing else changes |
| Gl.GlContext.TexImage | ShowMySky/GLWidget.cpp:103 | the bound texture, and only it, gets storage of the given size and format |
| Gl.GlContext.AttachTexture | ShowMySky/GLWidget.cpp:116 | colour attachment 0 of the bound framebuffer, and only it, becomes t |
| Gl.GlContext.BufferData | ShowMySky/GLWidget.cpp:617 | the bound array buffer, and only it, holds the data |
| Gl.GlContext.AttribFromArrayBuffer | ShowMySky/GLWidget.cpp:619-621 | attribute 0 of the bound vertex array, and only it, reads from the bound array buffer |
| Gl.GlContext.SetFilters | ShowMySky/GLWidget.cpp:105-106 | the sampling becomes WithFilters of the bound texture: it gets the filter and no other texture changes; a texture that clamps to its border still does |
| Gl.GlContext.SetWrap | ShowMySky/GLWidget.cpp:108-109 | the sampling becomes WithWrap of the bound texture: it gets the wrap mode and no other texture changes |
| Gl.WithFilters | ShowMySky/GLWidget.cpp:105-106 | setting a texture's filters changes both filters of that texture only, keeping its wrap modes, and no other texture's sampling |
| Gl.WithWrap | ShowMySky/GLWidget.cpp:108-109 | setting a texture's wrap mode changes both wrap modes of that texture only, keeping its filters, and no other texture's sampling |
| Gl.GlContext.DrawQuad | ShowMySky/GLWidget.cpp:422 | one draw is logged with the bound texture, its filters, the bound framebuffer and the bound vertex array |

## Left out

- Shader code and its numerics (GLWidget.cpp:197-361): colour conversion, exposure, soft clipping, the glare weights, the view-direction trigonometry. Draws record which program runs, not what it computes. The uniforms set in `paintGL` (lines 411-412, 419-420, 431-438) are not modelled, so `rgbMaxValue` is proved on its own and not tied into the frame.
- `setFlatSolarSpectrum`, `resetSolarSpectrum`, `setBlackBodySolarSpectrum` and the black-body formula (lines 468-497): floating-point spectra passed straight to the renderer.
- Mouse, wheel and key events, drag modes and `eventFilter` (lines 499-573, 633-642): floating-point UI arithmetic and Qt event routing. Ctrl+S is modelled as a direct call of `SaveScreenshot`.
- `onLoadProgress` and `reloadShaders` (lines 376-382, 625-631): they only forward to the tools panel or the renderer.
- Signal connections, `makeCurrent`, `glFinish`, the frame timer and the `frameFinished` signal (lines 181-190, 442-444). A finished frame is a counter.
- The renderer: its draw call, its GL state changes (assumed to leave the widget's bindings as they were), `loadData`, the exceptions it may throw, and `canGrabRadiance`/`canSetSolarSpectrum` (lines 363-368). It is an oracle for readiness, its luminance texture and the spectrum under a pixel.
- The blue-noise table's contents and the ABI version constant are not part of this model. Both are parameters; only the table's rectangular shape is assumed.
- Widget.GLWidget.constructor: the initial capture position is declared in the header, which is not part of this model, so it is a parameter.
- Texture units other than 0 (the dither texture on unit 1) and `glActiveTexture` are not modelled.
- Screenshot.EncodeScreenshot: the file is written in host byte order, which is a parameter of the model. On a little-endian host the header fields and the samples are written low byte first; the code itself does not fix the order.
- Widget.GLWidget.SaveScreenshot: requires the texture image to be no larger than width * height * 4 words. The code reads the whole luminance texture into a vector of that size, so a texture larger than the widget would overflow it; the model assumes the renderer keeps the texture at the widget's size.
- Screenshot.SampleBuffer, Screenshot.ScreenshotLength and Screenshot.SaveAsWritten: the sample count `width()*height()*4` (line 583) is computed in C++ `int`, which overflows once width * height reaches 2^29; the model uses unbounded naturals and so describes only widgets below that size.
- The `drawSurface` callback handed to the renderer (lines 165-178): it sets the zoom and camera uniforms, binds the widget's vertex array, draws the quad and unbinds it. The renderer's own drawing is an oracle here, so the callback is not modelled; its binding effect is the one `Gl.GlContext.BindVertexArray` and `Gl.GlContext.DrawQuad` describe.
- Widget.GLWidget.InitializeGL: the failure of `initializeOpenGLFunctions` is modelled as an outcome rather than as an exception leaving the call.

## Findings

| source | as written | input that shows it | evidently intended | confidence | as-written member | corrected member |
|---|---|---|---|---|---|---|
| ShowMySky/GLWidget.cpp:575-582 | `saveScreenshot` checks only the dialog's answer and then reads the luminance texture through `renderer`, which is null when loading the library failed | a library that fails to load, then Ctrl+S and a path chosen in the dialog | return before touching the renderer when there is none, as `resizeGL`, `updateSpectralRadiance` and `reloadShaders` do | not executed | Screenshot.SaveWithoutRendererDereferencesNull | Screenshot.SaveScreenshotOutcome |
