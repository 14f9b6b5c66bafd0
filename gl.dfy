/**
 * The part of the OpenGL context that the widget's discrete logic touches,
 * with objects reduced to integer names and bindings reduced to fields.
 * Name 0 stands for "no object", as in OpenGL. Every call the widget makes
 * is a method whose frame names the fields it changes.
 */
module Gl {

  /** An OpenGL object name; 0 means none. */
  type Name = nat

  datatype Filter = Nearest | Linear | NearestMipmapLinear
  datatype Wrap = Repeat | ClampToBorder

  /** Filtering and addressing parameters of one texture object. */
  datatype Sampling = Sampling(minFilter: Filter, magFilter: Filter, wrapS: Wrap, wrapT: Wrap)

  /** Parameters of a texture that nobody has configured yet (the OpenGL defaults). */
  const DefaultSampling := Sampling(NearestMipmapLinear, Linear, Repeat, Repeat)

  /** Texture t samples zeros outside its edges in both directions. */
  predicate ClampsToBorder(sampling: map<Name, Sampling>, t: Name)
  {
    t in sampling && sampling[t].wrapS == ClampToBorder && sampling[t].wrapT == ClampToBorder
  }

  /** Parameters of texture t: the defaults until something sets them. */
  function SamplingOf(sampling: map<Name, Sampling>, t: Name): Sampling
  {
    if t in sampling then sampling[t] else DefaultSampling
  }

  /** The parameters after both filters of texture t are set to f. */
  function WithFilters(sampling: map<Name, Sampling>, t: Name, f: Filter): (r: map<Name, Sampling>)
    ensures t in r && r[t].minFilter == f && r[t].magFilter == f
    ensures r[t].wrapS == SamplingOf(sampling, t).wrapS && r[t].wrapT == SamplingOf(sampling, t).wrapT
    ensures forall u :: u != t ==> (u in r <==> u in sampling) && (u in sampling ==> r[u] == sampling[u])
  {
    sampling[t := SamplingOf(sampling, t).(minFilter := f, magFilter := f)]
  }

  /** The parameters after both wrap modes of texture t are set to w. */
  function WithWrap(sampling: map<Name, Sampling>, t: Name, w: Wrap): (r: map<Name, Sampling>)
    ensures t in r && r[t].wrapS == w && r[t].wrapT == w
    ensures r[t].minFilter == SamplingOf(sampling, t).minFilter && r[t].magFilter == SamplingOf(sampling, t).magFilter
    ensures forall u :: u != t ==> (u in r <==> u in sampling) && (u in sampling ==> r[u] == sampling[u])
  {
    sampling[t := SamplingOf(sampling, t).(wrapS := w, wrapT := w)]
  }

  datatype Format = RGBA32F | R16F

  /** Storage allocated to a texture by glTexImage2D; the contents are not modelled here. */
  datatype Storage = Storage(width: int, height: int, format: Format)

  /** Shader programs of the widget: one glare pass (by its step number) or the final tone map. */
  datatype Program = GlarePass(step: nat) | LuminanceToScreen

  /**
   * One full-screen draw: the program, the texture bound to unit 0 and the
   * filters it is sampled with, the draw framebuffer, the vertex array.
   */
  datatype Draw = Draw(program: Program, source: Name, minFilter: Filter, magFilter: Filter, target: Name, vertexArray: Name)

  /** Fresh names handed out after `last`: last + 1 .. last + n. */
  function FreshNames(last: nat, n: nat): (names: seq<Name>)
    ensures |names| == n
    ensures forall i :: 0 <= i < n ==> names[i] == last + 1 + i
  {
    seq(n, i requires 0 <= i < n => last + 1 + i)
  }

  /** Everything a context holds, as a value. */
  datatype ContextState = ContextState(
    lastName: nat, textures: set<Name>, framebuffers: set<Name>, vertexArrays: set<Name>, buffers: set<Name>,
    storage: map<Name, Storage>, sampling: map<Name, Sampling>, attachment: map<Name, Name>,
    bufferData: map<Name, seq<int>>, attribSource: map<Name, Name>,
    boundTexture: Name, boundFramebuffer: Name, boundVertexArray: Name, boundArrayBuffer: Name,
    draws: seq<Draw>)

  class GlContext {
    /** Every name generated so far lies in 1 .. lastName. */
    var lastName: nat
    var textures: set<Name>
    var framebuffers: set<Name>
    var vertexArrays: set<Name>
    var buffers: set<Name>

    var storage: map<Name, Storage>
    var sampling: map<Name, Sampling>
    /** Texture attached at colour attachment 0 of each framebuffer. */
    var attachment: map<Name, Name>
    /** Contents of each buffer object, as numbers. */
    var bufferData: map<Name, seq<int>>
    /** Buffer that feeds vertex attribute 0 of each vertex array. */
    var attribSource: map<Name, Name>

    /** Texture bound to GL_TEXTURE_2D of unit 0. */
    var boundTexture: Name
    var boundFramebuffer: Name
    var boundVertexArray: Name
    var boundArrayBuffer: Name

    /** Every draw issued, in order. */
    var draws: seq<Draw>

    /** The context's current state. */
    function State(): ContextState
      reads this
    {
      ContextState(lastName, textures, framebuffers, vertexArrays, buffers, storage, sampling, attachment,
                   bufferData, attribSource, boundTexture, boundFramebuffer, boundVertexArray, boundArrayBuffer, draws)
    }

    ghost predicate Valid()
      reads this`lastName, this`textures, this`framebuffers, this`vertexArrays, this`buffers
    {
      (forall t :: t in textures ==> 0 < t <= lastName) &&
      (forall f :: f in framebuffers ==> 0 < f <= lastName) &&
      (forall v :: v in vertexArrays ==> 0 < v <= lastName) &&
      (forall b :: b in buffers ==> 0 < b <= lastName)
    }

    constructor ()
      ensures Valid()
      ensures lastName == 0 && textures == {} && framebuffers == {} && vertexArrays == {} && buffers == {}
      ensures storage == map[] && sampling == map[] && attachment == map[] && bufferData == map[] && attribSource == map[]
      ensures boundTexture == 0 && boundFramebuffer == 0 && boundVertexArray == 0 && boundArrayBuffer == 0
      ensures draws == []
    {
      lastName := 0;
      textures, framebuffers, vertexArrays, buffers := {}, {}, {}, {};
      storage, sampling, attachment, bufferData, attribSource := map[], map[], map[], map[], map[];
      boundTexture, boundFramebuffer, boundVertexArray, boundArrayBuffer := 0, 0, 0, 0;
      draws := [];
    }

    /** glGenTextures: n names that no live object uses. */
    method GenTextures(n: nat) returns (names: seq<Name>)
      requires Valid()
      modifies this`lastName, this`textures
      ensures Valid()
      ensures names == FreshNames(old(lastName), n) && lastName == old(lastName) + n
      ensures textures == old(textures) + set i | 0 <= i < n :: names[i]
    {
      names := FreshNames(lastName, n);
      textures := textures + set i | 0 <= i < n :: names[i];
      lastName := lastName + n;
    }

    /** glGenFramebuffers. */
    method GenFramebuffers(n: nat) returns (names: seq<Name>)
      requires Valid()
      modifies this`lastName, this`framebuffers
      ensures Valid()
      ensures names == FreshNames(old(lastName), n) && lastName == old(lastName) + n
      ensures framebuffers == old(framebuffers) + set i | 0 <= i < n :: names[i]
    {
      names := FreshNames(lastName, n);
      framebuffers := framebuffers + set i | 0 <= i < n :: names[i];
      lastName := lastName + n;
    }

    /** glGenVertexArrays(1, ...). */
    method GenVertexArray() returns (name: Name)
      requires Valid()
      modifies this`lastName, this`vertexArrays
      ensures Valid()
      ensures name == old(lastName) + 1 && lastName == name && vertexArrays == old(vertexArrays) + {name}
    {
      lastName := lastName + 1;
      name := lastName;
      vertexArrays := vertexArrays + {name};
    }

    /** glGenBuffers(1, ...). */
    method GenBuffer() returns (name: Name)
      requires Valid()
      modifies this`lastName, this`buffers
      ensures Valid()
      ensures name == old(lastName) + 1 && lastName == name && buffers == old(buffers) + {name}
    {
      lastName := lastName + 1;
      name := lastName;
      buffers := buffers + {name};
    }

    /** glDeleteTextures: the objects and their storage and parameters go away. */
    method DeleteTextures(names: set<Name>)
      requires Valid()
      modifies this`textures, this`storage, this`sampling, this`boundTexture
      ensures Valid()
      ensures textures == old(textures) - names
      ensures storage == old(storage) - names && sampling == old(sampling) - names
      ensures boundTexture == if old(boundTexture) in names then 0 else old(boundTexture)
    {
      textures := textures - names;
      storage := storage - names;
      sampling := sampling - names;
      if boundTexture in names {
        boundTexture := 0;
      }
    }

    /** glDeleteFramebuffers. */
    method DeleteFramebuffers(names: set<Name>)
      requires Valid()
      modifies this`framebuffers, this`attachment, this`boundFramebuffer
      ensures Valid()
      ensures framebuffers == old(framebuffers) - names && attachment == old(attachment) - names
      ensures boundFramebuffer == if old(boundFramebuffer) in names then 0 else old(boundFramebuffer)
    {
      framebuffers := framebuffers - names;
      attachment := attachment - names;
      if boundFramebuffer in names {
        boundFramebuffer := 0;
      }
    }

    /** glDeleteVertexArrays(1, ...). */
    method DeleteVertexArray(name: Name)
      requires Valid()
      modifies this`vertexArrays, this`attribSource, this`boundVertexArray
      ensures Valid()
      ensures vertexArrays == old(vertexArrays) - {name} && attribSource == old(attribSource) - {name}
      ensures boundVertexArray == if old(boundVertexArray) == name then 0 else old(boundVertexArray)
    {
      vertexArrays := vertexArrays - {name};
      attribSource := attribSource - {name};
      if boundVertexArray == name {
        boundVertexArray := 0;
      }
    }

    /** glDeleteBuffers(1, ...). */
    method DeleteBuffer(name: Name)
      requires Valid()
      modifies this`buffers, this`bufferData, this`boundArrayBuffer
      ensures Valid()
      ensures buffers == old(buffers) - {name} && bufferData == old(bufferData) - {name}
      ensures boundArrayBuffer == if old(boundArrayBuffer) == name then 0 else old(boundArrayBuffer)
    {
      buffers := buffers - {name};
      bufferData := bufferData - {name};
      if boundArrayBuffer == name {
        boundArrayBuffer := 0;
      }
    }

    method BindTexture(t: Name)
      modifies this`boundTexture
      ensures boundTexture == t
    {
      boundTexture := t;
    }

    method BindFramebuffer(f: Name)
      modifies this`boundFramebuffer
      ensures boundFramebuffer == f
    {
      boundFramebuffer := f;
    }

    method BindVertexArray(v: Name)
      modifies this`boundVertexArray
      ensures boundVertexArray == v
    {
      boundVertexArray := v;
    }

    method BindArrayBuffer(b: Name)
      modifies this`boundArrayBuffer
      ensures boundArrayBuffer == b
    {
      boundArrayBuffer := b;
    }

    /** glTexImage2D with no data: (re)allocates the bound texture at the given size. */
    method TexImage(width: int, height: int, format: Format)
      modifies this`storage
      ensures storage == old(storage)[boundTexture := Storage(width, height, format)]
    {
      storage := storage[boundTexture := Storage(width, height, format)];
    }

    /** Parameters of the bound texture, the defaults until something sets them. */
    function BoundSampling(): (s: Sampling)
      reads this
      ensures boundTexture !in sampling ==> s == DefaultSampling
    {
      if boundTexture in sampling then sampling[boundTexture] else DefaultSampling
    }

    /** glTexParameteri for GL_TEXTURE_MIN_FILTER and GL_TEXTURE_MAG_FILTER, set to the same filter. */
    method SetFilters(f: Filter)
      modifies this`sampling
      ensures sampling == old(sampling)[boundTexture := old(BoundSampling()).(minFilter := f, magFilter := f)]
      ensures sampling == WithFilters(old(sampling), boundTexture, f)
      ensures forall t :: ClampsToBorder(old(sampling), t) ==> ClampsToBorder(sampling, t)
    {
      sampling := sampling[boundTexture := BoundSampling().(minFilter := f, magFilter := f)];
    }

    /** glTexParameteri for GL_TEXTURE_WRAP_S and GL_TEXTURE_WRAP_T, set to the same mode. */
    method SetWrap(w: Wrap)
      modifies this`sampling
      ensures sampling == old(sampling)[boundTexture := old(BoundSampling()).(wrapS := w, wrapT := w)]
      ensures sampling == WithWrap(old(sampling), boundTexture, w)
    {
      sampling := sampling[boundTexture := BoundSampling().(wrapS := w, wrapT := w)];
    }

    /** glFramebufferTexture on colour attachment 0 of the bound framebuffer. */
    method AttachTexture(t: Name)
      modifies this`attachment
      ensures attachment == old(attachment)[boundFramebuffer := t]
    {
      attachment := attachment[boundFramebuffer := t];
    }

    /** glBufferData on the bound array buffer. */
    method BufferData(data: seq<int>)
      modifies this`bufferData
      ensures bufferData == old(bufferData)[boundArrayBuffer := data]
    {
      bufferData := bufferData[boundArrayBuffer := data];
    }

    /** glVertexAttribPointer and glEnableVertexAttribArray for attribute 0: it reads the bound array buffer. */
    method AttribFromArrayBuffer()
      modifies this`attribSource
      ensures attribSource == old(attribSource)[boundVertexArray := boundArrayBuffer]
    {
      attribSource := attribSource[boundVertexArray := boundArrayBuffer];
    }

    /** glDrawArrays of the full-screen quad: records what the draw reads and writes. */
    method DrawQuad(program: Program)
      modifies this`draws
      ensures draws == old(draws) + [Draw(program, boundTexture, BoundSampling().minFilter, BoundSampling().magFilter,
                                          boundFramebuffer, boundVertexArray)]
    {
      var s := BoundSampling();
      draws := draws + [Draw(program, boundTexture, s.minFilter, s.magFilter, boundFramebuffer, boundVertexArray)];
    }
  }
}
