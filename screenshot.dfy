/**
 * The screenshot file written by GLWidget::saveScreenshot: the widget's width
 * and height, each converted to uint16_t and written in host byte order,
 * followed by width * height * 4 float32 samples (RGBA) read back from the
 * luminance texture. Floats are opaque 32-bit words here.
 */
module Screenshot {
  import opened Wrappers

  datatype ByteOrder = LittleEndian | BigEndian

  /** The conversion of an int to uint16_t: reduction modulo 2^16. */
  function ToUint16(x: int): (v: uint16)
    ensures 0 <= x < 0x1_0000 ==> v as int == x
    ensures (v as int - x) % 0x1_0000 == 0
  {
    (x % 0x1_0000) as uint16
  }

  /** The bytes of a 16-bit value in the given order. */
  function U16Bytes(v: uint16, order: ByteOrder): (b: seq<byte>)
    ensures |b| == 2
    ensures var low := if order.LittleEndian? then 0 else 1;
      b[low] as int == v as int % 0x100 && b[1 - low] as int == v as int / 0x100
  {
    var lo, hi := (v % 0x100) as byte, (v / 0x100) as byte;
    if order.LittleEndian? then [lo, hi] else [hi, lo]
  }

  function U16Value(b: seq<byte>, order: ByteOrder): (v: uint16)
    requires |b| == 2
  {
    var l := if order.LittleEndian? then b else [b[1], b[0]];
    (l[1] as int * 0x100 + l[0] as int) as uint16
  }

  lemma U16RoundTrip(v: uint16, order: ByteOrder)
    ensures U16Value(U16Bytes(v, order), order) == v
  {
  }

  /** The bytes of a 32-bit word in the given order. */
  function U32Bytes(w: uint32, order: ByteOrder): (b: seq<byte>)
    ensures |b| == 4
    ensures var low := if order.LittleEndian? then 0 else 3;
      b[low] as int == w as int % 0x100 && b[3 - low] as int == w as int / 0x100_0000
  {
    var b0, b1 := (w % 0x100) as byte, (w / 0x100 % 0x100) as byte;
    var b2, b3 := (w / 0x1_0000 % 0x100) as byte, (w / 0x100_0000) as byte;
    if order.LittleEndian? then [b0, b1, b2, b3] else [b3, b2, b1, b0]
  }

  function U32Value(b: seq<byte>, order: ByteOrder): (w: uint32)
    requires |b| == 4
  {
    var l := if order.LittleEndian? then b else [b[3], b[2], b[1], b[0]];
    (l[0] as int + 0x100 * l[1] as int + 0x1_0000 * l[2] as int + 0x100_0000 * l[3] as int) as uint32
  }

  /** A 32-bit word is the sum of its four bytes, least significant first. */
  lemma U32Digits(w: uint32)
    ensures w as int == (w % 0x100) as int + 0x100 * (w / 0x100 % 0x100) as int +
                        0x1_0000 * (w / 0x1_0000 % 0x100) as int + 0x100_0000 * (w / 0x100_0000) as int
  {
    var x := w as int;
    assert x == x % 0x100 + 0x100 * (x / 0x100);
    assert x / 0x100 == x / 0x100 % 0x100 + 0x100 * (x / 0x1_0000);
    assert x / 0x1_0000 == x / 0x1_0000 % 0x100 + 0x100 * (x / 0x100_0000);
  }

  lemma U32RoundTrip(w: uint32, order: ByteOrder)
    ensures U32Value(U32Bytes(w, order), order) == w
  {
    U32Digits(w);
  }

  /** The samples as they sit in memory, four bytes each. */
  function WordsBytes(words: seq<uint32>, order: ByteOrder): (b: seq<byte>)
    ensures |b| == 4 * |words|
  {
    if words == [] then [] else U32Bytes(words[0], order) + WordsBytes(words[1..], order)
  }

  /** Reads back 4-byte words. */
  function BytesWords(b: seq<byte>, order: ByteOrder): (words: seq<uint32>)
    requires |b| % 4 == 0
    ensures 4 * |words| == |b|
  {
    if b == [] then [] else [U32Value(b[..4], order)] + BytesWords(b[4..], order)
  }

  lemma {:induction false} WordsRoundTrip(words: seq<uint32>, order: ByteOrder)
    ensures BytesWords(WordsBytes(words, order), order) == words
  {
    if words != [] {
      var b := WordsBytes(words, order);
      assert b[..4] == U32Bytes(words[0], order);
      assert b[4..] == WordsBytes(words[1..], order);
      U32RoundTrip(words[0], order);
      WordsRoundTrip(words[1..], order);
    }
  }

  /** The contents of a screenshot file. */
  function EncodeScreenshot(width: int, height: int, samples: seq<uint32>, order: ByteOrder): (file: seq<byte>)
    ensures |file| == 4 + 4 * |samples|
  {
    U16Bytes(ToUint16(width), order) + U16Bytes(ToUint16(height), order) + WordsBytes(samples, order)
  }

  /** What a reader of the format gets back from a file. */
  datatype Picture = Picture(width: uint16, height: uint16, samples: seq<uint32>)

  /** Reads a screenshot file: a header of two uint16 values, then exactly width * height * 4 samples. */
  function DecodeScreenshot(file: seq<byte>, order: ByteOrder): (p: Option<Picture>)
    ensures p.Some? ==> |file| == 4 + 16 * (p.value.width as nat * p.value.height as nat) &&
                        |p.value.samples| == 4 * (p.value.width as nat * p.value.height as nat)
  {
    if |file| < 4 then None
    else
      var w, h := U16Value(file[0..2], order), U16Value(file[2..4], order);
      var n := w as nat * h as nat;
      if |file| != 4 + 16 * n then None
      else
        assert |file[4..]| == 4 * (4 * n);
        var samples := BytesWords(file[4..], order);
        assert 4 * |samples| == 4 * (4 * n);
        Some(Picture(w, h, samples))
  }

  /** The vector the samples are read into: width * height * 4 zeros, overwritten by the texture image. */
  function SampleBuffer(width: nat, height: nat, texImage: seq<uint32>): (buffer: seq<uint32>)
    requires |texImage| <= 4 * (width * height)
    ensures |buffer| == 4 * (width * height)
    ensures buffer[..|texImage|] == texImage
    ensures forall i :: |texImage| <= i < |buffer| ==> buffer[i] == 0
  {
    texImage + seq(4 * (width * height) - |texImage|, _ => 0)
  }

  /** The file holds 4 + 16 * width * height bytes. */
  lemma ScreenshotLength(width: nat, height: nat, texImage: seq<uint32>, order: ByteOrder)
    requires |texImage| <= 4 * (width * height)
    ensures |EncodeScreenshot(width, height, SampleBuffer(width, height, texImage), order)| == 4 + 16 * (width * height)
  {
    var buffer := SampleBuffer(width, height, texImage);
    var n := width * height;
    assert |buffer| == 4 * n;
    assert |EncodeScreenshot(width, height, buffer, order)| == 4 + 4 * |buffer| == 4 + 16 * n;
  }

  /**
   * A reader gets back the width, the height and every sample bit for bit,
   * provided the widget's extents fit in 16 bits.
   */
  lemma ScreenshotRoundTrip(width: nat, height: nat, samples: seq<uint32>, order: ByteOrder)
    requires width < 0x1_0000 && height < 0x1_0000 && |samples| == 4 * (width * height)
    ensures DecodeScreenshot(EncodeScreenshot(width, height, samples, order), order) ==
            Some(Picture(width as uint16, height as uint16, samples))
  {
    var file := EncodeScreenshot(width, height, samples, order);
    var n := width * height;
    assert |file| == 4 + 16 * n;
    assert (width as uint16) as nat * (height as uint16) as nat == n;
    assert file[0..2] == U16Bytes(width as uint16, order);
    assert file[2..4] == U16Bytes(height as uint16, order);
    assert file[4..] == WordsBytes(samples, order);
    U16RoundTrip(width as uint16, order);
    U16RoundTrip(height as uint16, order);
    WordsRoundTrip(samples, order);
  }

  /**
   * A widget 65536 pixels wide writes a header that reads as width 0 while
   * the samples of every column follow, so no reader can accept the file.
   */
  lemma TruncatedWidthUnreadable(samples: seq<uint32>, order: ByteOrder)
    requires |samples| == 4 * 0x1_0000
    ensures DecodeScreenshot(EncodeScreenshot(0x1_0000, 1, samples, order), order).None?
  {
    var file := EncodeScreenshot(0x1_0000, 1, samples, order);
    assert file[0..2] == U16Bytes(0, order);
    U16RoundTrip(0, order);
  }

  /** How a request to save a screenshot ends. */
  datatype SaveOutcome =
    | Cancelled
      /** Corrected behaviour only: there is no renderer, so nothing is read back. */
    | NoRenderer
      /** Behaviour as written only: the luminance texture is fetched through an empty renderer pointer. */
    | NullRendererDereference
      /** The destination could not be opened: an error is shown and nothing is written. */
    | OpenFailed
      /** The bytes were handed to the file but flushing failed: an error is shown. */
    | FlushFailed(written: seq<byte>)
    | Saved(written: seq<byte>)

  /**
   * GLWidget::saveScreenshot as written: the dialog's answer, then the
   * read-back through the renderer pointer with no check that a renderer
   * exists, then open, write and flush.
   */
  function SaveAsWritten(pathChosen: bool, hasRenderer: bool, opens: bool, flushes: bool,
                         width: nat, height: nat, texImage: seq<uint32>, order: ByteOrder): (r: SaveOutcome)
    requires |texImage| <= 4 * (width * height)
    ensures r.NullRendererDereference? <==> pathChosen && !hasRenderer
  {
    if !pathChosen then Cancelled
    else if !hasRenderer then NullRendererDereference
    else if !opens then OpenFailed
    else
      var file := EncodeScreenshot(width, height, SampleBuffer(width, height, texImage), order);
      if flushes then Saved(file) else FlushFailed(file)
  }

  /** A user who presses Ctrl+S on a widget whose renderer failed to load and picks a path reaches the null dereference. */
  lemma SaveWithoutRendererDereferencesNull(width: nat, height: nat, order: ByteOrder)
    ensures SaveAsWritten(true, false, true, true, width, height, [], order) == NullRendererDereference
  {
  }

  /**
   * GLWidget::saveScreenshot with the guard every other renderer-dependent
   * entry point of the widget has (resizeGL, updateSpectralRadiance,
   * reloadShaders): without a renderer it returns before doing anything.
   */
  function SaveScreenshotOutcome(pathChosen: bool, hasRenderer: bool, opens: bool, flushes: bool,
                                 width: nat, height: nat, texImage: seq<uint32>, order: ByteOrder): (r: SaveOutcome)
    requires |texImage| <= 4 * (width * height)
    ensures !r.NullRendererDereference?
    ensures hasRenderer ==> r == SaveAsWritten(pathChosen, hasRenderer, opens, flushes, width, height, texImage, order)
    ensures !hasRenderer <==> r.NoRenderer?
  {
    if !hasRenderer then NoRenderer
    else SaveAsWritten(pathChosen, hasRenderer, opens, flushes, width, height, texImage, order)
  }

  /**
   * What a save produces: bytes only once the file is open, and then the
   * whole layout, which reads back as the widget's size and the texture
   * image followed by zeros when the size fits in 16 bits.
   */
  lemma SavedFileReadsBack(pathChosen: bool, hasRenderer: bool, opens: bool, flushes: bool,
                           width: nat, height: nat, texImage: seq<uint32>, order: ByteOrder)
    requires |texImage| <= 4 * (width * height)
    ensures var r := SaveScreenshotOutcome(pathChosen, hasRenderer, opens, flushes, width, height, texImage, order);
      ((r.Saved? || r.FlushFailed?) <==> pathChosen && hasRenderer && opens) &&
      (r.Saved? <==> pathChosen && hasRenderer && opens && flushes) &&
      ((r.Saved? || r.FlushFailed?) && width < 0x1_0000 && height < 0x1_0000 ==>
         DecodeScreenshot(r.written, order) == Some(Picture(width as uint16, height as uint16, SampleBuffer(width, height, texImage))))
  {
    if pathChosen && hasRenderer && opens && width < 0x1_0000 && height < 0x1_0000 {
      ScreenshotRoundTrip(width, height, SampleBuffer(width, height, texImage), order);
    }
  }
}
