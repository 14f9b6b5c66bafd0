/**
 * The draw sequence of one frame of GLWidget::paintGL, as a function of the
 * names involved: the glare passes ping-pong between two textures, each
 * attached to its own framebuffer, and the final tone-map pass draws into
 * the framebuffer that was bound when the frame started.
 */
module Glare {
  import opened Gl

  /** Number of line directions of the glare filter, one pass each. */
  const NumAngleSteps: nat := 3

  /**
   * Texture sampled by glare pass n: the luminance first, then the texture pass
   * n - 1 rendered into. Pass n renders into texture n % 2, so a later pass
   * always samples the other texture of the pair.
   */
  function PassSource(n: nat, luminance: Name, textures: seq<Name>): (t: Name)
    requires |textures| == 2
    ensures t == luminance || t in textures
    ensures n == 0 ==> t == luminance
    ensures n > 0 ==> t == textures[1 - n % 2]
    ensures n > 0 && textures[0] != textures[1] ==> t != textures[n % 2]
  {
    if n == 0 then luminance else textures[(n - 1) % 2]
  }

  /** The draw of glare pass n: it samples its source with linear filtering and writes framebuffer n % 2. */
  function PassDraw(n: nat, luminance: Name, textures: seq<Name>, fbos: seq<Name>, vao: Name): (d: Draw)
    requires |textures| == 2 && |fbos| == 2
  {
    Draw(GlarePass(n), PassSource(n, luminance, textures), Linear, Linear, fbos[n % 2], vao)
  }

  /** The draws of the first `count` glare passes, in order. */
  function GlarePasses(count: nat, luminance: Name, textures: seq<Name>, fbos: seq<Name>, vao: Name): (draws: seq<Draw>)
    requires |textures| == 2 && |fbos| == 2
    ensures |draws| == count
  {
    if count == 0 then []
    else GlarePasses(count - 1, luminance, textures, fbos, vao) + [PassDraw(count - 1, luminance, textures, fbos, vao)]
  }

  /** Texture the tone-map pass samples: the luminance without glare, else the texture of the last glare pass. */
  function ToneMapSource(glare: bool, luminance: Name, textures: seq<Name>): (t: Name)
    requires |textures| == 2
    ensures glare ==> t == textures[0]
    ensures !glare ==> t == luminance
  {
    if glare then PassSource(NumAngleSteps, luminance, textures) else luminance
  }

  /** The final pass: the tone map samples its source unfiltered and writes `screen`. */
  function ToneMapDraw(glare: bool, luminance: Name, textures: seq<Name>, vao: Name, screen: Name): (d: Draw)
    requires |textures| == 2
    ensures d.program == LuminanceToScreen && d.target == screen && d.vertexArray == vao
    ensures d.minFilter == Nearest && d.magFilter == Nearest
    ensures d.source == (if glare then textures[0] else luminance)
  {
    Draw(LuminanceToScreen, ToneMapSource(glare, luminance, textures), Nearest, Nearest, screen, vao)
  }

  /** All draws of one frame: the glare passes when glare is on, then the tone map into `screen`. */
  function FrameDraws(glare: bool, luminance: Name, textures: seq<Name>, fbos: seq<Name>, vao: Name, screen: Name): (draws: seq<Draw>)
    requires |textures| == 2 && |fbos| == 2
    ensures |draws| == (if glare then NumAngleSteps + 1 else 1)
  {
    (if glare then GlarePasses(NumAngleSteps, luminance, textures, fbos, vao) else [])
      + [ToneMapDraw(glare, luminance, textures, vao, screen)]
  }

  /** Texture parameters after the first `count` glare passes: each sets linear filtering on the texture it samples. */
  function PassesSampling(count: nat, sampling: map<Name, Sampling>, luminance: Name, textures: seq<Name>): map<Name, Sampling>
    requires |textures| == 2
  {
    if count == 0 then sampling
    else WithFilters(PassesSampling(count - 1, sampling, luminance, textures), PassSource(count - 1, luminance, textures), Linear)
  }

  /**
   * Texture parameters after a frame: with glare, the luminance texture is
   * first clamped to its border and the passes run; then the tone-map source
   * is set to unfiltered sampling.
   */
  function FrameSampling(glare: bool, sampling: map<Name, Sampling>, luminance: Name, textures: seq<Name>): map<Name, Sampling>
    requires |textures| == 2
  {
    var afterPasses :=
      if glare then PassesSampling(NumAngleSteps, WithWrap(sampling, luminance, ClampToBorder), luminance, textures)
      else sampling;
    WithFilters(afterPasses, ToneMapSource(glare, luminance, textures), Nearest)
  }

  /**
   * What a frame does to texture parameters. Only the luminance texture and
   * the two glare textures change; the tone-map source ends unfiltered; no
   * texture stops clamping to its border. With glare and three distinct
   * textures, the luminance texture ends clamped and linearly filtered,
   * glare texture 1 linearly filtered and glare texture 0 (the tone-map
   * source) unfiltered, each keeping its other parameters. Without glare
   * only the luminance texture changes.
   */
  lemma {:induction false} FrameSamplingEffect(glare: bool, sampling: map<Name, Sampling>, luminance: Name, textures: seq<Name>)
    requires |textures| == 2
    ensures var r := FrameSampling(glare, sampling, luminance, textures);
      forall t :: t != luminance && t != textures[0] && t != textures[1] ==>
        (t in r <==> t in sampling) && (t in sampling ==> r[t] == sampling[t])
    ensures var r := FrameSampling(glare, sampling, luminance, textures);
      var source := ToneMapSource(glare, luminance, textures);
      source in r && r[source].minFilter == Nearest && r[source].magFilter == Nearest
    ensures forall t :: ClampsToBorder(sampling, t) ==> ClampsToBorder(FrameSampling(glare, sampling, luminance, textures), t)
    ensures !glare ==>
      var r := FrameSampling(glare, sampling, luminance, textures);
      luminance in r && r[luminance] == SamplingOf(sampling, luminance).(minFilter := Nearest, magFilter := Nearest) &&
      forall t :: t != luminance ==> (t in r <==> t in sampling) && (t in sampling ==> r[t] == sampling[t])
    ensures glare && luminance != textures[0] && luminance != textures[1] && textures[0] != textures[1] ==>
      var r := FrameSampling(glare, sampling, luminance, textures);
      luminance in r && textures[0] in r && textures[1] in r &&
      r[luminance] == SamplingOf(sampling, luminance).(wrapS := ClampToBorder, wrapT := ClampToBorder,
                                                       minFilter := Linear, magFilter := Linear) &&
      r[textures[1]] == SamplingOf(sampling, textures[1]).(minFilter := Linear, magFilter := Linear) &&
      r[textures[0]] == SamplingOf(sampling, textures[0]).(minFilter := Nearest, magFilter := Nearest)
  {
    if glare {
      var s0 := WithWrap(sampling, luminance, ClampToBorder);
      var s1 := WithFilters(s0, luminance, Linear);
      var s2 := WithFilters(s1, textures[0], Linear);
      var s3 := WithFilters(s2, textures[1], Linear);
      assert PassesSampling(1, s0, luminance, textures) == s1;
      assert PassesSampling(2, s0, luminance, textures) == s2;
      assert PassesSampling(3, s0, luminance, textures) == s3;
      assert FrameSampling(glare, sampling, luminance, textures) == WithFilters(s3, textures[0], Nearest);
    }
  }

  /** Pass n of the sequence is PassDraw(n). */
  lemma {:induction false} GlarePassAt(count: nat, n: nat, luminance: Name, textures: seq<Name>, fbos: seq<Name>, vao: Name)
    requires |textures| == 2 && |fbos| == 2 && n < count
    ensures GlarePasses(count, luminance, textures, fbos, vao)[n] == PassDraw(n, luminance, textures, fbos, vao)
  {
    if n < count - 1 {
      GlarePassAt(count - 1, n, luminance, textures, fbos, vao);
    }
  }

  /** Framebuffer i renders into texture i, the two textures differ and neither is the luminance texture. */
  predicate PingPongPair(attachment: map<Name, Name>, luminance: Name, textures: seq<Name>, fbos: seq<Name>)
  {
    |textures| == 2 && |fbos| == 2 &&
    fbos[0] in attachment && attachment[fbos[0]] == textures[0] &&
    fbos[1] in attachment && attachment[fbos[1]] == textures[1] &&
    textures[0] != textures[1] && luminance != textures[0] && luminance != textures[1]
  }

  /**
   * No glare pass samples the texture it renders into, and every pass after
   * the first samples exactly the texture the previous pass rendered into.
   */
  lemma PingPongDiscipline(count: nat, attachment: map<Name, Name>, luminance: Name, textures: seq<Name>, fbos: seq<Name>, vao: Name)
    requires PingPongPair(attachment, luminance, textures, fbos)
    ensures var passes := GlarePasses(count, luminance, textures, fbos, vao);
      (forall n :: 0 <= n < count ==> passes[n].target in attachment && attachment[passes[n].target] != passes[n].source) &&
      (count > 0 ==> passes[0].source == luminance) &&
      (forall n :: 0 < n < count ==> passes[n].source == attachment[passes[n - 1].target])
  {
    var passes := GlarePasses(count, luminance, textures, fbos, vao);
    forall n | 0 <= n < count
      ensures passes[n].target in attachment && attachment[passes[n].target] != passes[n].source
    {
      GlarePassAt(count, n, luminance, textures, fbos, vao);
    }
    if count > 0 {
      GlarePassAt(count, 0, luminance, textures, fbos, vao);
    }
    forall n | 0 < n < count ensures passes[n].source == attachment[passes[n - 1].target] {
      GlarePassAt(count, n, luminance, textures, fbos, vao);
      GlarePassAt(count, n - 1, luminance, textures, fbos, vao);
    }
  }

  /**
   * With glare on, the frame is three passes writing framebuffers 0, 1, 0, and
   * the tone map samples what the last pass wrote, texture 0. With glare off,
   * the tone map is the only draw and samples the luminance texture itself.
   * Either way the tone map renders into the framebuffer bound at the start;
   * glare passes sample with linear filtering and the tone map without.
   */
  lemma FrameShape(glare: bool, attachment: map<Name, Name>, luminance: Name, textures: seq<Name>, fbos: seq<Name>, vao: Name, screen: Name)
    requires PingPongPair(attachment, luminance, textures, fbos)
    ensures var draws := FrameDraws(glare, luminance, textures, fbos, vao, screen);
      var last := draws[|draws| - 1];
      last.program == LuminanceToScreen && last.target == screen &&
      last.minFilter == Nearest && last.magFilter == Nearest &&
      (forall i :: 0 <= i < |draws| - 1 ==> draws[i].minFilter == Linear && draws[i].magFilter == Linear) &&
      (glare ==> |draws| == 4 && draws[0].target == fbos[0] && draws[1].target == fbos[1] && draws[2].target == fbos[0] &&
                 last.source == textures[0] && last.source == attachment[draws[2].target]) &&
      (!glare ==> |draws| == 1 && last.source == luminance)
  {
    if glare {
      GlarePassAt(3, 0, luminance, textures, fbos, vao);
      GlarePassAt(3, 1, luminance, textures, fbos, vao);
      GlarePassAt(3, 2, luminance, textures, fbos, vao);
    }
  }
}
