/**
 * GLWidget: the Qt widget that loads the ShowMySky renderer, owns the glare
 * render targets and the full-screen quad, and composes each frame.
 *
 * The OpenGL context is a GlContext shared with the renderer. The renderer
 * and the tools panel are oracles: values that answer the widget's queries.
 * The global factory pointer ShowMySky_AtmosphereRenderer_create is a
 * FactorySlot object, shared by every widget of the process.
 */
module Widget {
  import opened Wrappers
  import opened Gl
  import opened Dither
  import opened Plugin
  import opened Glare
  import opened Screenshot

  datatype Point = Point(x: int, y: int)

  /** What the widget asks of a renderer: readiness, its luminance texture, the spectrum under a pixel. */
  datatype Renderer = Renderer(readyToRender: bool, luminanceTexture: Name, spectrumAt: Point -> seq<uint32>)

  /** Settings of the tools panel, and whether it accepts a captured spectrum. */
  datatype Tools = Tools(ditheringMethod: DitheringMethod, ditheringMode: DitheringMode, glareEnabled: bool,
                         acceptsSpectrum: seq<uint32> -> bool)

  /** Calls made on the renderer, in order. */
  datatype RendererCall = RenderFrame | Resize(width: nat, height: nat) | PixelSpectrum(pos: Point)

  /** Error boxes shown to the user. */
  datatype Message = LoadFailure(error: LoadError) | ScreenshotOpenFailure | ScreenshotWriteFailure

  /** How initializeGL ends. */
  datatype InitOutcome =
    | FunctionsUnavailable   // InitializationError propagates to the caller
    | LoadFailed(error: LoadError)
    | Aborted                // the dither method is unknown: the process aborts
    | Initialized

  /** Sampling of the glare textures, set when they are (re)allocated. */
  const GlareSampling := Sampling(Linear, Linear, ClampToBorder, ClampToBorder)

  /** Sampling of the dither pattern texture. */
  const DitherSampling := Sampling(Nearest, Nearest, Repeat, Repeat)

  /** The full-screen quad as a triangle strip: four (x, y) corners of clip space. */
  const QuadVertices: seq<int> := [-1, -1, 1, -1, -1, 1, 1, 1]

  /** Vertex k of the quad. */
  function QuadCorner(k: nat): (corner: (int, int))
    requires k < 4
  {
    (QuadVertices[2 * k], QuadVertices[2 * k + 1])
  }

  /** The quad's vertices are the four corners of clip space, each once, and the strip's two triangles share the diagonal 1-2. */
  lemma QuadCoversClipSpace()
    ensures |QuadVertices| == 8
    ensures {QuadCorner(0), QuadCorner(1), QuadCorner(2), QuadCorner(3)} == {(-1, -1), (1, -1), (-1, 1), (1, 1)}
    ensures forall j, k :: 0 <= j < k < 4 ==> QuadCorner(j) != QuadCorner(k)
    ensures QuadCorner(0).0 + QuadCorner(3).0 == 0 && QuadCorner(0).1 + QuadCorner(3).1 == 0
    ensures QuadCorner(1).0 + QuadCorner(2).0 == 0 && QuadCorner(1).1 + QuadCorner(2).1 == 0
  {
  }

  /** The names among `handles` that denote an object: 0 is "none" and is never deleted. */
  function NonZero(handles: set<Name>): (live: set<Name>)
    ensures 0 !in live && forall h :: h in handles && h != 0 ==> h in live
    ensures live <= handles
  {
    handles - {0}
  }

  /** Textures 0 and 1 are allocated width x height RGBA32F and clamp to their border; framebuffer n renders into texture n. */
  predicate TargetsReady(storage: map<Name, Storage>, sampling: map<Name, Sampling>, attachment: map<Name, Name>,
                         textures: seq<Name>, fbos: seq<Name>, width: nat, height: nat)
  {
    |textures| == 2 && |fbos| == 2 && textures[0] != 0 && fbos[0] != 0 &&
    forall n :: 0 <= n < 2 ==>
      textures[n] in storage && storage[textures[n]] == Storage(width, height, RGBA32F) &&
      ClampsToBorder(sampling, textures[n]) && fbos[n] in attachment && attachment[fbos[n]] == textures[n]
  }

  /** Changing filters, or clamping more textures, keeps ready targets ready. */
  lemma ReadinessKeptWhileClamped(storage: map<Name, Storage>, before: map<Name, Sampling>, after: map<Name, Sampling>,
                                  attachment: map<Name, Name>, textures: seq<Name>, fbos: seq<Name>, width: nat, height: nat)
    requires TargetsReady(storage, before, attachment, textures, fbos, width, height)
    requires forall t :: ClampsToBorder(before, t) ==> ClampsToBorder(after, t)
    ensures TargetsReady(storage, after, attachment, textures, fbos, width, height)
  {
  }

  /**
   * The context after the widget's own objects are made from state s0 (the
   * glare targets, then the quad). A name is reused when non-zero; otherwise
   * it is the next fresh one, in the order glare textures, glare framebuffers,
   * vertex array, buffer, and it joins its live set. Both glare textures are
   * allocated width x height RGBA32F with the glare sampling, framebuffer n
   * renders into texture n, the buffer holds the quad and the vertex array
   * reads it. Texture t[1] and the buffer stay bound; nothing else changes.
   */
  predicate DrawingTargetsMade(s0: ContextState, s: ContextState, t0: seq<Name>, f0: seq<Name>, t: seq<Name>, f: seq<Name>,
                               vao0: Name, vbo0: Name, vao: Name, vbo: Name, width: nat, height: nat)
  {
    |t0| == 2 && |f0| == 2 && |t| == 2 && |f| == 2 &&
    var afterTextures := s0.lastName + (if t0[0] == 0 then 2 else 0);
    var afterFramebuffers := afterTextures + (if f0[0] == 0 then 2 else 0);
    var afterVertexArray := afterFramebuffers + (if vao0 == 0 then 1 else 0);
    (if t0[0] == 0 then t == FreshNames(s0.lastName, 2) && s.textures == s0.textures + {t[0], t[1]}
     else t == t0 && s.textures == s0.textures) &&
    (if f0[0] == 0 then f == FreshNames(afterTextures, 2) && s.framebuffers == s0.framebuffers + {f[0], f[1]}
     else f == f0 && s.framebuffers == s0.framebuffers) &&
    (if vao0 == 0 then vao == afterFramebuffers + 1 && s.vertexArrays == s0.vertexArrays + {vao}
     else vao == vao0 && s.vertexArrays == s0.vertexArrays) &&
    (if vbo0 == 0 then vbo == afterVertexArray + 1 && s.buffers == s0.buffers + {vbo}
     else vbo == vbo0 && s.buffers == s0.buffers) &&
    s.lastName == afterVertexArray + (if vbo0 == 0 then 1 else 0) &&
    s.storage == s0.storage[t[0] := Storage(width, height, RGBA32F)][t[1] := Storage(width, height, RGBA32F)] &&
    s.sampling == s0.sampling[t[0] := GlareSampling][t[1] := GlareSampling] &&
    s.attachment == s0.attachment[f[0] := t[0]][f[1] := t[1]] &&
    s.bufferData == s0.bufferData[vbo := QuadVertices] &&
    s.attribSource == s0.attribSource[vao := vbo] &&
    s.boundTexture == t[1] && s.boundFramebuffer == 0 && s.boundVertexArray == 0 && s.boundArrayBuffer == vbo &&
    s.draws == s0.draws
  }

  /** The global ShowMySky_AtmosphereRenderer_create: the cached factory address (0 = null) and how often it was called. */
  class FactorySlot {
    var create: nat
    var calls: nat

    constructor ()
      ensures create == 0 && calls == 0
    {
      create := 0;
      calls := 0;
    }
  }

  class GLWidget {
    const gl: GlContext
    const slot: FactorySlot
    /** The blue-noise table compiled into the program; its contents are not modelled. */
    const blueNoise: seq<seq<uint32>>

    const glareTextures: array<Name>
    const glareFBOs: array<Name>
    var vao: Name
    var vbo: Name

    var width: nat
    var height: nat
    var visible: bool
    var tools: Tools

    var renderer: Option<Renderer>
    var ditherTexture: DitherTexture
    var lastRadianceCapturePosition: Point

    var rendererCalls: seq<RendererCall>
    var forwardedSpectra: seq<seq<uint32>>
    var messages: seq<Message>
    var framesFinished: nat

    /**
     * Handles are 0 or live: the two glare textures are generated together,
     * as are the two framebuffers, and the vertex array and buffer each name
     * a live object when non-zero.
     */
    ghost predicate Valid()
      reads this`vao, this`vbo, gl`lastName, gl`textures, gl`framebuffers, gl`vertexArrays, gl`buffers,
            glareTextures, glareFBOs
    {
      gl.Valid() && WellFormedNoise(blueNoise) &&
      glareTextures.Length == 2 && glareFBOs.Length == 2 && glareTextures != glareFBOs &&
      (glareTextures[0] == 0 <==> glareTextures[1] == 0) &&
      (glareTextures[0] != 0 ==>
         glareTextures[0] != glareTextures[1] && glareTextures[0] in gl.textures && glareTextures[1] in gl.textures) &&
      (glareFBOs[0] == 0 <==> glareFBOs[1] == 0) &&
      (glareFBOs[0] != 0 ==>
         glareFBOs[0] != glareFBOs[1] && glareFBOs[0] in gl.framebuffers && glareFBOs[1] in gl.framebuffers) &&
      (vao != 0 ==> vao in gl.vertexArrays) && (vbo != 0 ==> vbo in gl.buffers)
    }

    /**
     * The glare targets exist at the widget's size: texture n is allocated
     * width x height RGBA32F, clamps to its border, and framebuffer n renders
     * into it.
     */
    ghost predicate GlareTargetsReady()
      reads this`width, this`height, gl`storage, gl`sampling, gl`attachment, glareTextures, glareFBOs
    {
      TargetsReady(gl.storage, gl.sampling, gl.attachment, glareTextures[..], glareFBOs[..], width, height)
    }

    constructor (gl: GlContext, slot: FactorySlot, blueNoise: seq<seq<uint32>>, tools: Tools, initialCapture: Point)
      requires gl.Valid() && WellFormedNoise(blueNoise)
      ensures Valid()
      ensures this.gl == gl && this.slot == slot && this.blueNoise == blueNoise && this.tools == tools
      ensures fresh(glareTextures) && fresh(glareFBOs)
      ensures glareTextures[..] == [0, 0] && glareFBOs[..] == [0, 0] && vao == 0 && vbo == 0
      ensures renderer == None && lastRadianceCapturePosition == initialCapture
      ensures width == 0 && height == 0 && !visible && ditherTexture == DitherTexture(DefaultSampling, None)
      ensures rendererCalls == [] && forwardedSpectra == [] && messages == [] && framesFinished == 0
    {
      this.gl := gl;
      this.slot := slot;
      this.blueNoise := blueNoise;
      this.tools := tools;
      glareTextures := new Name[2](_ => 0);
      glareFBOs := new Name[2](_ => 0);
      vao, vbo := 0, 0;
      width, height, visible := 0, 0, false;
      renderer := None;
      ditherTexture := DitherTexture(DefaultSampling, None);
      lastRadianceCapturePosition := initialCapture;
      rendererCalls, forwardedSpectra, messages, framesFinished := [], [], [], 0;
    }

    /** The dither pattern chosen in the tools panel, sampled without filtering and tiled; an unknown method aborts. */
    method MakeDitherPatternTexture() returns (aborted: bool)
      requires Valid()
      modifies this`ditherTexture
      ensures aborted <==> tools.ditheringMethod.Unrecognized?
      ensures ditherTexture.sampling == DitherSampling
      ensures !aborted ==> ditherTexture.image == DitherImage(tools.ditheringMethod, blueNoise) &&
                           ditherTexture.image.Some?
      ensures aborted ==> ditherTexture.image == old(ditherTexture.image)
    {
      ditherTexture := ditherTexture.(sampling := DitherSampling);
      match tools.ditheringMethod
      case Unrecognized(_) =>
        aborted := true;
      case _ =>
        ditherTexture := ditherTexture.(image := DitherImage(tools.ditheringMethod, blueNoise));
        aborted := false;
    }

    /**
     * Creates the glare textures and framebuffers on first use and
     * (re)allocates the textures at the widget's size on every call.
     */
    method MakeGlareRenderTarget()
      requires Valid()
      modifies gl`lastName, gl`textures, gl`framebuffers, gl`storage, gl`sampling, gl`attachment,
               gl`boundTexture, gl`boundFramebuffer, glareTextures, glareFBOs
      ensures Valid() && GlareTargetsReady()
      ensures old(glareTextures[0]) != 0 ==> glareTextures[..] == old(glareTextures[..]) && gl.textures == old(gl.textures)
      ensures old(glareTextures[0]) == 0 ==>
        glareTextures[..] == FreshNames(old(gl.lastName), 2) &&
        gl.textures == old(gl.textures) + {glareTextures[0], glareTextures[1]}
      ensures old(glareFBOs[0]) != 0 ==> glareFBOs[..] == old(glareFBOs[..]) && gl.framebuffers == old(gl.framebuffers)
      ensures old(glareFBOs[0]) == 0 ==>
        glareFBOs[..] == FreshNames(old(gl.lastName) + (if old(glareTextures[0]) == 0 then 2 else 0), 2) &&
        gl.framebuffers == old(gl.framebuffers) + {glareFBOs[0], glareFBOs[1]}
      ensures gl.lastName == old(gl.lastName) + (if old(glareTextures[0]) == 0 then 2 else 0)
                                              + (if old(glareFBOs[0]) == 0 then 2 else 0)
      ensures gl.storage == old(gl.storage)[glareTextures[0] := Storage(width, height, RGBA32F)]
                                           [glareTextures[1] := Storage(width, height, RGBA32F)]
      ensures gl.sampling == old(gl.sampling)[glareTextures[0] := GlareSampling][glareTextures[1] := GlareSampling]
      ensures gl.attachment == old(gl.attachment)[glareFBOs[0] := glareTextures[0]][glareFBOs[1] := glareTextures[1]]
      ensures gl.boundTexture == glareTextures[1] && gl.boundFramebuffer == 0
    {
      AllocateGlareTextures();
      AttachGlareFramebuffers();
    }

    /** First half of makeGlareRenderTarget: the textures. */
    method AllocateGlareTextures()
      requires Valid()
      modifies gl`lastName, gl`textures, gl`storage, gl`sampling, gl`boundTexture, glareTextures
      ensures Valid() && glareTextures[0] != 0
      ensures old(glareTextures[0]) != 0 ==>
        glareTextures[..] == old(glareTextures[..]) && gl.textures == old(gl.textures) && gl.lastName == old(gl.lastName)
      ensures old(glareTextures[0]) == 0 ==>
        glareTextures[..] == FreshNames(old(gl.lastName), 2) && gl.lastName == old(gl.lastName) + 2 &&
        gl.textures == old(gl.textures) + {glareTextures[0], glareTextures[1]}
      ensures gl.storage == old(gl.storage)[glareTextures[0] := Storage(width, height, RGBA32F)]
                                           [glareTextures[1] := Storage(width, height, RGBA32F)]
      ensures gl.sampling == old(gl.sampling)[glareTextures[0] := GlareSampling][glareTextures[1] := GlareSampling]
      ensures gl.boundTexture == glareTextures[1]
    {
      GenerateGlareTextures();
      ghost var textures0, live0, last0 := glareTextures[..], gl.textures, gl.lastName;
      for n := 0 to 2
        invariant glareTextures[..] == textures0 && gl.textures == live0 && gl.lastName == last0
        invariant gl.storage == if n == 0 then old(gl.storage)
                                else old(gl.storage)[glareTextures[0] := Storage(width, height, RGBA32F)]
                                                    [glareTextures[n - 1] := Storage(width, height, RGBA32F)]
        invariant gl.sampling == if n == 0 then old(gl.sampling)
                                 else old(gl.sampling)[glareTextures[0] := GlareSampling][glareTextures[n - 1] := GlareSampling]
        invariant n > 0 ==> gl.boundTexture == glareTextures[n - 1]
      {
        AllocateGlareTexture(glareTextures[n]);
      }
    }

    /** The texture names are generated once, the first time the targets are made. */
    method GenerateGlareTextures()
      requires Valid()
      modifies gl`lastName, gl`textures, glareTextures
      ensures Valid() && glareTextures[0] != 0
      ensures old(glareTextures[0]) != 0 ==>
        glareTextures[..] == old(glareTextures[..]) && gl.textures == old(gl.textures) && gl.lastName == old(gl.lastName)
      ensures old(glareTextures[0]) == 0 ==>
        glareTextures[..] == FreshNames(old(gl.lastName), 2) && gl.lastName == old(gl.lastName) + 2 &&
        gl.textures == old(gl.textures) + {glareTextures[0], glareTextures[1]}
    {
      if glareTextures[0] == 0 {
        var names := gl.GenTextures(2);
        glareTextures[0], glareTextures[1] := names[0], names[1];
      }
    }

    /** One iteration of the texture loop: texture t at the widget's size, filtered linearly, clamped to its border. */
    method AllocateGlareTexture(t: Name)
      modifies gl`storage, gl`sampling, gl`boundTexture
      ensures gl.boundTexture == t
      ensures gl.storage == old(gl.storage)[t := Storage(width, height, RGBA32F)]
      ensures gl.sampling == old(gl.sampling)[t := GlareSampling]
    {
      gl.BindTexture(t);
      gl.TexImage(width, height, RGBA32F);
      gl.SetFilters(Linear);
      gl.SetWrap(ClampToBorder);
    }

    /** Second half of makeGlareRenderTarget: framebuffer n renders into texture n. */
    method AttachGlareFramebuffers()
      requires Valid() && glareTextures[0] != 0
      modifies gl`lastName, gl`framebuffers, gl`attachment, gl`boundFramebuffer, glareFBOs
      ensures Valid() && glareFBOs[0] != 0
      ensures old(glareFBOs[0]) != 0 ==>
        glareFBOs[..] == old(glareFBOs[..]) && gl.framebuffers == old(gl.framebuffers) && gl.lastName == old(gl.lastName)
      ensures old(glareFBOs[0]) == 0 ==>
        glareFBOs[..] == FreshNames(old(gl.lastName), 2) && gl.lastName == old(gl.lastName) + 2 &&
        gl.framebuffers == old(gl.framebuffers) + {glareFBOs[0], glareFBOs[1]}
      ensures gl.attachment == old(gl.attachment)[glareFBOs[0] := glareTextures[0]][glareFBOs[1] := glareTextures[1]]
      ensures gl.boundFramebuffer == 0
    {
      GenerateGlareFramebuffers();
      ghost var fbos0, live0, last0 := glareFBOs[..], gl.framebuffers, gl.lastName;
      for n := 0 to 2
        invariant glareFBOs[..] == fbos0 && gl.framebuffers == live0 && gl.lastName == last0
        invariant gl.attachment == if n == 0 then old(gl.attachment)
                                   else old(gl.attachment)[glareFBOs[0] := glareTextures[0]][glareFBOs[n - 1] := glareTextures[n - 1]]
        invariant n > 0 ==> gl.boundFramebuffer == 0
      {
        gl.BindFramebuffer(glareFBOs[n]);
        gl.AttachTexture(glareTextures[n]);
        gl.BindFramebuffer(0);
      }
    }

    /** The framebuffer names are generated once, the first time the targets are made. */
    method GenerateGlareFramebuffers()
      requires Valid() && glareTextures[0] != 0
      modifies gl`lastName, gl`framebuffers, glareFBOs
      ensures Valid() && glareFBOs[0] != 0
      ensures old(glareFBOs[0]) != 0 ==>
        glareFBOs[..] == old(glareFBOs[..]) && gl.framebuffers == old(gl.framebuffers) && gl.lastName == old(gl.lastName)
      ensures old(glareFBOs[0]) == 0 ==>
        glareFBOs[..] == FreshNames(old(gl.lastName), 2) && gl.lastName == old(gl.lastName) + 2 &&
        gl.framebuffers == old(gl.framebuffers) + {glareFBOs[0], glareFBOs[1]}
    {
      if glareFBOs[0] == 0 {
        var names := gl.GenFramebuffers(2);
        glareFBOs[0], glareFBOs[1] := names[0], names[1];
      }
    }

    /** Creates the vertex array and buffer on first use and (re)loads the full-screen quad into them. */
    method SetupBuffers()
      requires Valid()
      modifies this`vao, this`vbo, gl`lastName, gl`vertexArrays, gl`buffers, gl`bufferData, gl`attribSource,
               gl`boundVertexArray, gl`boundArrayBuffer
      ensures Valid() && vao != 0 && vbo != 0
      ensures old(vao) != 0 ==> vao == old(vao) && gl.vertexArrays == old(gl.vertexArrays)
      ensures old(vbo) != 0 ==> vbo == old(vbo) && gl.buffers == old(gl.buffers)
      ensures old(vao) == 0 ==> vao == old(gl.lastName) + 1 && gl.vertexArrays == old(gl.vertexArrays) + {vao}
      ensures old(vbo) == 0 ==>
        vbo == old(gl.lastName) + (if old(vao) == 0 then 2 else 1) && gl.buffers == old(gl.buffers) + {vbo}
      ensures gl.lastName == old(gl.lastName) + (if old(vao) == 0 then 1 else 0) + (if old(vbo) == 0 then 1 else 0)
      ensures gl.bufferData == old(gl.bufferData)[vbo := QuadVertices]
      ensures gl.attribSource == old(gl.attribSource)[vao := vbo]
      ensures gl.boundVertexArray == 0 && gl.boundArrayBuffer == vbo
    {
      GenerateQuadBuffers();
      gl.BindVertexArray(vao);
      gl.BindArrayBuffer(vbo);
      gl.BufferData(QuadVertices);
      gl.AttribFromArrayBuffer();
      gl.BindVertexArray(0);
    }

    /** The vertex array and buffer names are generated once, the first time the quad is set up. */
    method GenerateQuadBuffers()
      requires Valid()
      modifies this`vao, this`vbo, gl`lastName, gl`vertexArrays, gl`buffers
      ensures Valid() && vao != 0 && vbo != 0
      ensures old(vao) != 0 ==> vao == old(vao) && gl.vertexArrays == old(gl.vertexArrays)
      ensures old(vbo) != 0 ==> vbo == old(vbo) && gl.buffers == old(gl.buffers)
      ensures old(vao) == 0 ==> vao == old(gl.lastName) + 1 && gl.vertexArrays == old(gl.vertexArrays) + {vao}
      ensures old(vbo) == 0 ==>
        vbo == old(gl.lastName) + (if old(vao) == 0 then 2 else 1) && gl.buffers == old(gl.buffers) + {vbo}
      ensures gl.lastName == old(gl.lastName) + (if old(vao) == 0 then 1 else 0) + (if old(vbo) == 0 then 1 else 0)
    {
      if vao == 0 {
        vao := gl.GenVertexArray();
      }
      if vbo == 0 {
        vbo := gl.GenBuffer();
      }
    }

    /**
     * The destructor's own cleanup: every non-zero handle is deleted, with
     * what the context kept for it, and then zeroed.
     */
    method Destroy()
      requires Valid()
      modifies this`vao, this`vbo, gl`buffers, gl`bufferData, gl`vertexArrays, gl`attribSource,
               gl`textures, gl`storage, gl`sampling, gl`framebuffers, gl`attachment, glareTextures, glareFBOs,
               gl`boundTexture, gl`boundFramebuffer, gl`boundVertexArray, gl`boundArrayBuffer
      ensures Valid()
      ensures vao == 0 && vbo == 0 && glareTextures[..] == [0, 0] && glareFBOs[..] == [0, 0]
      ensures var b := NonZero({old(vbo)});
        gl.buffers == old(gl.buffers) - b && gl.bufferData == old(gl.bufferData) - b &&
        gl.boundArrayBuffer == if old(gl.boundArrayBuffer) in b then 0 else old(gl.boundArrayBuffer)
      ensures var v := NonZero({old(vao)});
        gl.vertexArrays == old(gl.vertexArrays) - v && gl.attribSource == old(gl.attribSource) - v &&
        gl.boundVertexArray == if old(gl.boundVertexArray) in v then 0 else old(gl.boundVertexArray)
      ensures var t := NonZero({old(glareTextures[0]), old(glareTextures[1])});
        gl.textures == old(gl.textures) - t && gl.storage == old(gl.storage) - t && gl.sampling == old(gl.sampling) - t &&
        gl.boundTexture == if old(gl.boundTexture) in t then 0 else old(gl.boundTexture)
      ensures var f := NonZero({old(glareFBOs[0]), old(glareFBOs[1])});
        gl.framebuffers == old(gl.framebuffers) - f && gl.attachment == old(gl.attachment) - f &&
        gl.boundFramebuffer == if old(gl.boundFramebuffer) in f then 0 else old(gl.boundFramebuffer)
    {
      DeleteQuadBuffers();
      DeleteGlareTargets();
    }

    /** First half of the destructor's cleanup: the buffer, then the vertex array. */
    method DeleteQuadBuffers()
      requires Valid()
      modifies this`vao, this`vbo, gl`buffers, gl`bufferData, gl`vertexArrays, gl`attribSource,
               gl`boundVertexArray, gl`boundArrayBuffer
      ensures Valid() && vao == 0 && vbo == 0
      ensures var b := NonZero({old(vbo)});
        gl.buffers == old(gl.buffers) - b && gl.bufferData == old(gl.bufferData) - b &&
        gl.boundArrayBuffer == if old(gl.boundArrayBuffer) in b then 0 else old(gl.boundArrayBuffer)
      ensures var v := NonZero({old(vao)});
        gl.vertexArrays == old(gl.vertexArrays) - v && gl.attribSource == old(gl.attribSource) - v &&
        gl.boundVertexArray == if old(gl.boundVertexArray) in v then 0 else old(gl.boundVertexArray)
    {
      if vbo != 0 {
        gl.DeleteBuffer(vbo);
        vbo := 0;
      }
      if vao != 0 {
        gl.DeleteVertexArray(vao);
        vao := 0;
      }
    }

    /** Second half of the destructor's cleanup: the glare textures, then their framebuffers. */
    method DeleteGlareTargets()
      requires Valid()
      modifies gl`textures, gl`storage, gl`sampling, gl`framebuffers, gl`attachment, glareTextures, glareFBOs,
               gl`boundTexture, gl`boundFramebuffer
      ensures Valid() && glareTextures[..] == [0, 0] && glareFBOs[..] == [0, 0]
      ensures var t := NonZero({old(glareTextures[0]), old(glareTextures[1])});
        gl.textures == old(gl.textures) - t && gl.storage == old(gl.storage) - t && gl.sampling == old(gl.sampling) - t &&
        gl.boundTexture == if old(gl.boundTexture) in t then 0 else old(gl.boundTexture)
      ensures var f := NonZero({old(glareFBOs[0]), old(glareFBOs[1])});
        gl.framebuffers == old(gl.framebuffers) - f && gl.attachment == old(gl.attachment) - f &&
        gl.boundFramebuffer == if old(gl.boundFramebuffer) in f then 0 else old(gl.boundFramebuffer)
    {
      DeleteGlareTextures();
      DeleteGlareFramebuffers();
    }

    /** The glare textures, if they were made, with their storage and sampling state. */
    method DeleteGlareTextures()
      requires Valid()
      modifies gl`textures, gl`storage, gl`sampling, gl`boundTexture, glareTextures
      ensures Valid() && glareTextures[..] == [0, 0]
      ensures var t := NonZero({old(glareTextures[0]), old(glareTextures[1])});
        gl.textures == old(gl.textures) - t && gl.storage == old(gl.storage) - t && gl.sampling == old(gl.sampling) - t &&
        gl.boundTexture == if old(gl.boundTexture) in t then 0 else old(gl.boundTexture)
    {
      if glareTextures[0] != 0 {
        gl.DeleteTextures({glareTextures[0], glareTextures[1]});
        glareTextures[0], glareTextures[1] := 0, 0;
      }
    }

    /** The glare framebuffers, if they were made, with their attachments. */
    method DeleteGlareFramebuffers()
      requires Valid()
      modifies gl`framebuffers, gl`attachment, gl`boundFramebuffer, glareFBOs
      ensures Valid() && glareFBOs[..] == [0, 0]
      ensures var f := NonZero({old(glareFBOs[0]), old(glareFBOs[1])});
        gl.framebuffers == old(gl.framebuffers) - f && gl.attachment == old(gl.attachment) - f &&
        gl.boundFramebuffer == if old(gl.boundFramebuffer) in f then 0 else old(gl.boundFramebuffer)
    {
      if glareFBOs[0] != 0 {
        gl.DeleteFramebuffers({glareFBOs[0], glareFBOs[1]});
        glareFBOs[0], glareFBOs[1] := 0, 0;
      }
    }

    /**
     * Qt has already given the widget its new size (w, h). Without a renderer
     * nothing else happens; otherwise the renderer is told and the glare
     * targets are reallocated at that size, reusing their names.
     */
    method ResizeGL(w: nat, h: nat)
      requires Valid()
      modifies this`width, this`height, this`rendererCalls,
               gl`lastName, gl`textures, gl`framebuffers, gl`storage, gl`sampling, gl`attachment,
               gl`boundTexture, gl`boundFramebuffer, glareTextures, glareFBOs
      ensures Valid() && width == w && height == h
      ensures renderer.None? ==>
        rendererCalls == old(rendererCalls) && unchanged(gl) && unchanged(glareTextures, glareFBOs)
      ensures renderer.Some? ==> rendererCalls == old(rendererCalls) + [Resize(w, h)] && GlareTargetsReady()
      ensures renderer.Some? && old(glareTextures[0]) != 0 ==>
        glareTextures[..] == old(glareTextures[..]) && gl.textures == old(gl.textures)
      ensures renderer.Some? && old(glareTextures[0]) == 0 ==>
        glareTextures[..] == FreshNames(old(gl.lastName), 2) &&
        gl.textures == old(gl.textures) + {glareTextures[0], glareTextures[1]}
      ensures renderer.Some? && old(glareFBOs[0]) != 0 ==>
        glareFBOs[..] == old(glareFBOs[..]) && gl.framebuffers == old(gl.framebuffers)
      ensures renderer.Some? && old(glareFBOs[0]) == 0 ==>
        glareFBOs[..] == FreshNames(old(gl.lastName) + (if old(glareTextures[0]) == 0 then 2 else 0), 2) &&
        gl.framebuffers == old(gl.framebuffers) + {glareFBOs[0], glareFBOs[1]}
      ensures renderer.Some? ==>
        gl.lastName == old(gl.lastName) + (if old(glareTextures[0]) == 0 then 2 else 0)
                                        + (if old(glareFBOs[0]) == 0 then 2 else 0)
      ensures renderer.Some? ==>
        gl.storage == old(gl.storage)[glareTextures[0] := Storage(w, h, RGBA32F)]
                                     [glareTextures[1] := Storage(w, h, RGBA32F)] &&
        gl.sampling == old(gl.sampling)[glareTextures[0] := GlareSampling][glareTextures[1] := GlareSampling] &&
        gl.attachment == old(gl.attachment)[glareFBOs[0] := glareTextures[0]][glareFBOs[1] := glareTextures[1]] &&
        gl.boundTexture == glareTextures[1] && gl.boundFramebuffer == 0
    {
      width, height := w, h;
      if renderer.None? {
        return;
      }
      rendererCalls := rendererCalls + [Resize(w, h)];
      MakeGlareRenderTarget();
    }

    /**
     * Asks the renderer for the spectrum under a pixel; a non-empty one goes
     * to the tools panel, and the position is remembered only if the panel
     * accepts it.
     */
    method UpdateSpectralRadiance(pos: Point)
      modifies this`rendererCalls, this`forwardedSpectra, this`lastRadianceCapturePosition
      ensures Valid() == old(Valid()) && GlareTargetsReady() == old(GlareTargetsReady())
      ensures renderer.None? ==>
        rendererCalls == old(rendererCalls) && forwardedSpectra == old(forwardedSpectra) &&
        lastRadianceCapturePosition == old(lastRadianceCapturePosition)
      ensures renderer.Some? ==>
        var s := renderer.value.spectrumAt(pos);
        rendererCalls == old(rendererCalls) + [PixelSpectrum(pos)] &&
        forwardedSpectra == old(forwardedSpectra) + (if s != [] then [s] else []) &&
        lastRadianceCapturePosition == (if s != [] && tools.acceptsSpectrum(s) then pos else old(lastRadianceCapturePosition))
    {
      if renderer.None? {
        return;
      }
      rendererCalls := rendererCalls + [PixelSpectrum(pos)];
      var spectrum := renderer.value.spectrumAt(pos);
      if spectrum != [] {
        forwardedSpectra := forwardedSpectra + [spectrum];
        if tools.acceptsSpectrum(spectrum) {
          lastRadianceCapturePosition := pos;
        }
      }
    }

    /**
     * One frame. Nothing happens without a renderer, while the widget is
     * hidden or while the renderer is not ready. Otherwise the renderer draws
     * the luminance, the glare passes run when enabled, the tone map draws
     * into the framebuffer that was bound on entry, and a remembered capture
     * position with both coordinates non-negative is queried again.
     */
    method PaintGL() returns (drawn: bool)
      requires Valid()
      modifies gl`draws, gl`boundTexture, gl`boundFramebuffer, gl`boundVertexArray, gl`sampling,
               this`rendererCalls, this`framesFinished, this`forwardedSpectra, this`lastRadianceCapturePosition
      ensures Valid()
      ensures drawn <==> renderer.Some? && visible && renderer.value.readyToRender
      ensures !drawn ==>
        unchanged(gl) && rendererCalls == old(rendererCalls) && framesFinished == old(framesFinished) &&
        forwardedSpectra == old(forwardedSpectra)
      ensures drawn ==>
        var lum, glare := renderer.value.luminanceTexture, tools.glareEnabled;
        gl.draws == old(gl.draws) + FrameDraws(glare, lum, glareTextures[..], glareFBOs[..], vao, old(gl.boundFramebuffer)) &&
        gl.boundFramebuffer == old(gl.boundFramebuffer) && gl.boundVertexArray == 0 &&
        gl.boundTexture == ToneMapSource(glare, lum, glareTextures[..]) &&
        gl.sampling == FrameSampling(glare, old(gl.sampling), lum, glareTextures[..]) &&
        framesFinished == old(framesFinished) + 1
      ensures drawn ==>
        var p := lastRadianceCapturePosition;
        var requery := p.x >= 0 && p.y >= 0;
        var s := renderer.value.spectrumAt(p);
        rendererCalls == old(rendererCalls) + [RenderFrame] + (if requery then [PixelSpectrum(p)] else []) &&
        forwardedSpectra == old(forwardedSpectra) + (if requery && s != [] then [s] else [])
      ensures lastRadianceCapturePosition == old(lastRadianceCapturePosition)
      ensures old(GlareTargetsReady()) ==> GlareTargetsReady()
    {
      if renderer.None? || !visible || !renderer.value.readyToRender {
        return false;
      }
      PaintFrame();
      var p := lastRadianceCapturePosition;
      if p.x >= 0 && p.y >= 0 {
        UpdateSpectralRadiance(p);
      }
      return true;
    }

    /** The drawing part of paintGL past its guards. */
    method PaintFrame()
      requires Valid() && renderer.Some?
      modifies gl`draws, gl`boundTexture, gl`boundFramebuffer, gl`boundVertexArray, gl`sampling,
               this`rendererCalls, this`framesFinished
      ensures Valid()
      ensures var lum, glare := renderer.value.luminanceTexture, tools.glareEnabled;
        gl.draws == old(gl.draws) + FrameDraws(glare, lum, glareTextures[..], glareFBOs[..], vao, old(gl.boundFramebuffer)) &&
        gl.boundFramebuffer == old(gl.boundFramebuffer) && gl.boundVertexArray == 0 &&
        gl.boundTexture == ToneMapSource(glare, lum, glareTextures[..]) &&
        framesFinished == old(framesFinished) + 1
      ensures gl.sampling == FrameSampling(tools.glareEnabled, old(gl.sampling), renderer.value.luminanceTexture, glareTextures[..])
      ensures rendererCalls == old(rendererCalls) + [RenderFrame]
      ensures old(GlareTargetsReady()) ==> GlareTargetsReady()
    {
      rendererCalls := rendererCalls + [RenderFrame];
      ComposeFrame(renderer.value.luminanceTexture);
      framesFinished := framesFinished + 1;
    }

    /** The widget's own draws of a frame, from the luminance texture to the framebuffer bound on entry. */
    method ComposeFrame(lum: Name)
      requires glareTextures.Length == 2 && glareFBOs.Length == 2
      modifies gl`draws, gl`boundTexture, gl`boundFramebuffer, gl`boundVertexArray, gl`sampling
      ensures gl.draws == old(gl.draws) + FrameDraws(tools.glareEnabled, lum, glareTextures[..], glareFBOs[..], vao, old(gl.boundFramebuffer))
      ensures gl.boundFramebuffer == old(gl.boundFramebuffer) && gl.boundVertexArray == 0
      ensures gl.boundTexture == ToneMapSource(tools.glareEnabled, lum, glareTextures[..])
      ensures gl.sampling == FrameSampling(tools.glareEnabled, old(gl.sampling), lum, glareTextures[..])
      ensures old(GlareTargetsReady()) ==> GlareTargetsReady()
    {
      ghost var sampling0 := gl.sampling;
      DrawFrame(lum);
      if TargetsReady(gl.storage, sampling0, gl.attachment, glareTextures[..], glareFBOs[..], width, height) {
        ReadinessKeptWhileClamped(gl.storage, sampling0, gl.sampling, gl.attachment, glareTextures[..], glareFBOs[..], width, height);
      }
    }

    /** The draws of ComposeFrame; filters and wrap modes change, but no clamped texture stops clamping. */
    method DrawFrame(lum: Name)
      requires glareTextures.Length == 2 && glareFBOs.Length == 2
      modifies gl`draws, gl`boundTexture, gl`boundFramebuffer, gl`boundVertexArray, gl`sampling
      ensures gl.draws == old(gl.draws) + FrameDraws(tools.glareEnabled, lum, glareTextures[..], glareFBOs[..], vao, old(gl.boundFramebuffer))
      ensures gl.boundFramebuffer == old(gl.boundFramebuffer) && gl.boundVertexArray == 0
      ensures gl.boundTexture == ToneMapSource(tools.glareEnabled, lum, glareTextures[..])
      ensures gl.sampling == FrameSampling(tools.glareEnabled, old(gl.sampling), lum, glareTextures[..])
      ensures forall t :: ClampsToBorder(old(gl.sampling), t) ==> ClampsToBorder(gl.sampling, t)
    {
      gl.BindVertexArray(vao);
      gl.BindTexture(lum);
      if tools.glareEnabled {
        DrawGlarePasses(lum);
      }
      gl.SetFilters(Nearest);
      gl.DrawQuad(LuminanceToScreen);
      gl.BindVertexArray(0);
    }

    /**
     * The glare block of a frame, entered with the luminance texture bound:
     * pass n renders into framebuffer n % 2 and then binds texture n % 2 as
     * the next source; the framebuffer bound on entry is bound again at the end.
     */
    method DrawGlarePasses(lum: Name)
      requires glareTextures.Length == 2 && glareFBOs.Length == 2 && gl.boundTexture == lum
      modifies gl`draws, gl`boundTexture, gl`boundFramebuffer, gl`sampling
      ensures gl.draws == old(gl.draws) + GlarePasses(NumAngleSteps, lum, glareTextures[..], glareFBOs[..], gl.boundVertexArray)
      ensures gl.boundTexture == PassSource(NumAngleSteps, lum, glareTextures[..])
      ensures gl.boundFramebuffer == old(gl.boundFramebuffer)
      ensures gl.sampling == PassesSampling(NumAngleSteps, WithWrap(old(gl.sampling), lum, ClampToBorder), lum, glareTextures[..])
      ensures ClampsToBorder(gl.sampling, lum)
      ensures forall t :: ClampsToBorder(old(gl.sampling), t) ==> ClampsToBorder(gl.sampling, t)
    {
      gl.SetWrap(ClampToBorder);
      var targetFBO := gl.boundFramebuffer;
      ghost var sampling0 := gl.sampling;
      for n := 0 to NumAngleSteps
        invariant gl.draws == old(gl.draws) + GlarePasses(n, lum, glareTextures[..], glareFBOs[..], gl.boundVertexArray)
        invariant gl.boundTexture == PassSource(n, lum, glareTextures[..])
        invariant gl.sampling == PassesSampling(n, sampling0, lum, glareTextures[..])
        invariant forall t :: ClampsToBorder(sampling0, t) ==> ClampsToBorder(gl.sampling, t)
      {
        DrawGlarePass(n, lum);
      }
      gl.BindFramebuffer(targetFBO);
      assert ClampsToBorder(sampling0, lum);
    }

    /** One iteration of the glare loop. */
    method DrawGlarePass(n: nat, lum: Name)
      requires glareTextures.Length == 2 && glareFBOs.Length == 2 && gl.boundTexture == PassSource(n, lum, glareTextures[..])
      modifies gl`draws, gl`boundTexture, gl`boundFramebuffer, gl`sampling
      ensures gl.draws == old(gl.draws) + [PassDraw(n, lum, glareTextures[..], glareFBOs[..], gl.boundVertexArray)]
      ensures gl.boundTexture == glareTextures[n % 2] && gl.boundFramebuffer == glareFBOs[n % 2]
      ensures gl.sampling == WithFilters(old(gl.sampling), PassSource(n, lum, glareTextures[..]), Linear)
      ensures forall t :: ClampsToBorder(old(gl.sampling), t) ==> ClampsToBorder(gl.sampling, t)
    {
      gl.SetFilters(Linear);
      gl.BindFramebuffer(glareFBOs[n % 2]);
      gl.DrawQuad(GlarePass(n));
      gl.BindTexture(glareTextures[n % 2]);
    }

    /**
     * Loads the renderer library unless the factory is already cached, then
     * creates the renderer and the widget's own GL objects. A load failure
     * is shown to the user and leaves the renderer absent and the factory
     * uncalled; an unknown dither method aborts.
     */
    method InitializeGL(functionsOk: bool, lib: Library, compiledAbi: uint32, created: Renderer) returns (outcome: InitOutcome)
      requires Valid()
      modifies slot`create, slot`calls, this`renderer, this`messages, this`ditherTexture, this`vao, this`vbo,
               gl`lastName, gl`textures, gl`framebuffers, gl`storage, gl`sampling, gl`attachment,
               gl`boundTexture, gl`boundFramebuffer, gl`vertexArrays, gl`buffers, gl`bufferData, gl`attribSource,
               gl`boundVertexArray, gl`boundArrayBuffer, glareTextures, glareFBOs
      ensures Valid()
      ensures !functionsOk ==>
        outcome == FunctionsUnavailable && unchanged(slot) && renderer == old(renderer) && messages == old(messages)
      ensures functionsOk && old(slot.create) == 0 && Negotiate(lib, compiledAbi).Err? ==>
        outcome == LoadFailed(Negotiate(lib, compiledAbi).error) &&
        messages == old(messages) + [LoadFailure(Negotiate(lib, compiledAbi).error)] &&
        slot.create == 0 && slot.calls == old(slot.calls) && renderer == old(renderer)
      ensures functionsOk && (old(slot.create) != 0 || Negotiate(lib, compiledAbi).Ok?) ==>
        slot.create == (if old(slot.create) != 0 then old(slot.create) else Negotiate(lib, compiledAbi).value) &&
        slot.calls == old(slot.calls) + 1 && renderer == Some(created) && messages == old(messages) &&
        outcome == (if tools.ditheringMethod.Unrecognized? then Aborted else Initialized)
      ensures outcome == Initialized ==>
        GlareTargetsReady() && vao != 0 && vbo != 0 &&
        ditherTexture == DitherTexture(DitherSampling, DitherImage(tools.ditheringMethod, blueNoise))
      ensures outcome == Initialized ==>
        DrawingTargetsMade(old(gl.State()), gl.State(), old(glareTextures[..]), old(glareFBOs[..]),
                           glareTextures[..], glareFBOs[..], old(vao), old(vbo), vao, vbo, width, height)
      ensures outcome.FunctionsUnavailable? || outcome.LoadFailed? ==>
        unchanged(gl) && unchanged(glareTextures, glareFBOs) &&
        vao == old(vao) && vbo == old(vbo) && ditherTexture == old(ditherTexture)
    {
      if !functionsOk {
        return FunctionsUnavailable;
      }
      outcome := StartRenderer(lib, compiledAbi, created);
    }

    /** initializeGL once the GL functions are available: the try block, then the widget's resources. */
    method StartRenderer(lib: Library, compiledAbi: uint32, created: Renderer) returns (outcome: InitOutcome)
      requires Valid()
      modifies slot`create, slot`calls, this`renderer, this`messages, this`ditherTexture, this`vao, this`vbo,
               gl`lastName, gl`textures, gl`framebuffers, gl`storage, gl`sampling, gl`attachment,
               gl`boundTexture, gl`boundFramebuffer, gl`vertexArrays, gl`buffers, gl`bufferData, gl`attribSource,
               gl`boundVertexArray, gl`boundArrayBuffer, glareTextures, glareFBOs
      ensures Valid() && !outcome.FunctionsUnavailable?
      ensures old(slot.create) == 0 && Negotiate(lib, compiledAbi).Err? ==>
        outcome == LoadFailed(Negotiate(lib, compiledAbi).error) &&
        messages == old(messages) + [LoadFailure(Negotiate(lib, compiledAbi).error)] &&
        slot.create == 0 && slot.calls == old(slot.calls) && renderer == old(renderer)
      ensures old(slot.create) != 0 || Negotiate(lib, compiledAbi).Ok? ==>
        slot.create == (if old(slot.create) != 0 then old(slot.create) else Negotiate(lib, compiledAbi).value) &&
        slot.calls == old(slot.calls) + 1 && renderer == Some(created) && messages == old(messages) &&
        outcome == (if tools.ditheringMethod.Unrecognized? then Aborted else Initialized)
      ensures outcome == Initialized ==>
        GlareTargetsReady() && vao != 0 && vbo != 0 &&
        ditherTexture == DitherTexture(DitherSampling, DitherImage(tools.ditheringMethod, blueNoise))
      ensures outcome == Initialized ==>
        DrawingTargetsMade(old(gl.State()), gl.State(), old(glareTextures[..]), old(glareFBOs[..]),
                           glareTextures[..], glareFBOs[..], old(vao), old(vbo), vao, vbo, width, height)
      ensures outcome.LoadFailed? ==>
        unchanged(gl) && unchanged(glareTextures, glareFBOs) &&
        vao == old(vao) && vbo == old(vbo) && ditherTexture == old(ditherTexture)
    {
      var failure := LoadRenderer(lib, compiledAbi, created);
      assert gl.State() == old(gl.State()) && glareTextures[..] == old(glareTextures[..]) && glareFBOs[..] == old(glareFBOs[..]);
      if failure.Some? {
        return LoadFailed(failure.value);
      }
      outcome := MakeRendererResources();
    }

    /**
     * The try block of initializeGL up to the renderer's creation: negotiate
     * with the library unless the factory is cached, then call the factory.
     * A failure is caught and shown; the factory is not called.
     */
    method LoadRenderer(lib: Library, compiledAbi: uint32, created: Renderer) returns (failure: Option<LoadError>)
      modifies slot`create, slot`calls, this`renderer, this`messages
      ensures old(slot.create) == 0 && Negotiate(lib, compiledAbi).Err? ==>
        failure == Some(Negotiate(lib, compiledAbi).error) &&
        messages == old(messages) + [LoadFailure(failure.value)] &&
        slot.create == 0 && slot.calls == old(slot.calls) && renderer == old(renderer)
      ensures old(slot.create) != 0 || Negotiate(lib, compiledAbi).Ok? ==>
        failure == None &&
        slot.create == (if old(slot.create) != 0 then old(slot.create) else Negotiate(lib, compiledAbi).value) &&
        slot.calls == old(slot.calls) + 1 && renderer == Some(created) && messages == old(messages)
    {
      if slot.create == 0 {
        var loaded := Negotiate(lib, compiledAbi);
        if loaded.Err? {
          messages := messages + [LoadFailure(loaded.error)];
          return Some(loaded.error);
        }
        slot.create := loaded.value;
      }
      slot.calls := slot.calls + 1;
      renderer := Some(created);
      return None;
    }

    /** The part of initializeGL after the renderer exists: the dither texture, the glare targets, the quad. */
    method MakeRendererResources() returns (outcome: InitOutcome)
      requires Valid()
      modifies this`ditherTexture, this`vao, this`vbo,
               gl`lastName, gl`textures, gl`framebuffers, gl`storage, gl`sampling, gl`attachment,
               gl`boundTexture, gl`boundFramebuffer, gl`vertexArrays, gl`buffers, gl`bufferData, gl`attribSource,
               gl`boundVertexArray, gl`boundArrayBuffer, glareTextures, glareFBOs
      ensures Valid()
      ensures outcome == (if tools.ditheringMethod.Unrecognized? then Aborted else Initialized)
      ensures outcome == Initialized ==>
        GlareTargetsReady() && vao != 0 && vbo != 0 &&
        ditherTexture == DitherTexture(DitherSampling, DitherImage(tools.ditheringMethod, blueNoise))
      ensures outcome == Initialized ==>
        DrawingTargetsMade(old(gl.State()), gl.State(), old(glareTextures[..]), old(glareFBOs[..]),
                           glareTextures[..], glareFBOs[..], old(vao), old(vbo), vao, vbo, width, height)
    {
      var aborted := MakeDitherPatternTexture();
      if aborted {
        return Aborted;
      }
      MakeDrawingTargets();
      return Initialized;
    }

    /** The glare targets, then the quad: both calls of initializeGL that create GL objects. */
    method MakeDrawingTargets()
      requires Valid()
      modifies this`vao, this`vbo,
               gl`lastName, gl`textures, gl`framebuffers, gl`storage, gl`sampling, gl`attachment,
               gl`boundTexture, gl`boundFramebuffer, gl`vertexArrays, gl`buffers, gl`bufferData, gl`attribSource,
               gl`boundVertexArray, gl`boundArrayBuffer, glareTextures, glareFBOs
      ensures Valid() && GlareTargetsReady() && vao != 0 && vbo != 0
      ensures DrawingTargetsMade(old(gl.State()), gl.State(), old(glareTextures[..]), old(glareFBOs[..]),
                           glareTextures[..], glareFBOs[..], old(vao), old(vbo), vao, vbo, width, height)
    {
      MakeGlareRenderTarget();
      SetupBuffers();
    }

    /**
     * Ctrl+S: asks for a path, reads the luminance texture back into a
     * width * height * 4 vector and writes the screenshot file. The texture's
     * image and the file system's answers are parameters. The guard against
     * a missing renderer is the corrected behaviour (see SaveAsWritten).
     */
    method SaveScreenshot(path: Option<string>, texImage: seq<uint32>, opens: bool, flushes: bool, order: ByteOrder)
      returns (outcome: SaveOutcome)
      requires |texImage| <= 4 * (width * height)
      modifies gl`boundTexture, this`messages
      ensures outcome == SaveScreenshotOutcome(path.Some?, renderer.Some?, opens, flushes, width, height, texImage, order)
      ensures messages == old(messages) + (if outcome.OpenFailed? then [ScreenshotOpenFailure]
                                           else if outcome.FlushFailed? then [ScreenshotWriteFailure] else [])
      ensures gl.boundTexture == (if outcome.NoRenderer? || outcome.Cancelled? then old(gl.boundTexture)
                                  else renderer.value.luminanceTexture)
    {
      if renderer.None? {
        return NoRenderer;
      }
      if path.None? {
        return Cancelled;
      }
      gl.BindTexture(renderer.value.luminanceTexture);
      var data := SampleBuffer(width, height, texImage);
      if !opens {
        messages := messages + [ScreenshotOpenFailure];
        return OpenFailed;
      }
      var file := EncodeScreenshot(width, height, data, order);
      if !flushes {
        messages := messages + [ScreenshotWriteFailure];
        return FlushFailed(file);
      }
      return Saved(file);
    }

    /**
     * Ready glare targets form a ping-pong pair for any luminance texture
     * other than the two glare textures, so every frame drawn from this
     * state obeys Glare.PingPongDiscipline and Glare.FrameShape.
     */
    lemma ReadyTargetsArePingPong(lum: Name)
      requires Valid() && GlareTargetsReady()
      requires lum != glareTextures[0] && lum != glareTextures[1]
      ensures PingPongPair(gl.attachment, lum, glareTextures[..], glareFBOs[..])
    {
    }
  }
}
