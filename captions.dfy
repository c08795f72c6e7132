/**
 * Captions in `edit.py`: a spoken line's text is cut into groups of
 * WORDS_PER_LINE words, each group is rendered as a tight caption image
 * whose font shrinks until it fits 80% of the frame width, and each group
 * is shown for an equal share of the line's duration.
 */
module Captions {
  import opened Text

  const WORDS_PER_LINE: nat := 4
  const BASE_FONT_SIZE: int := 20
  const MIN_FONT_SIZE: int := 12
  const PADDING_HORIZONTAL: int := 15
  const PADDING_VERTICAL: int := 8
  const STROKE_WIDTH: int := 2

  /** Width and height of a text's bounding box at some font size (PIL's `textbbox`). */
  datatype TextBox = TextBox(width: int, height: int)

  /** Text measurement is outside the model: any function of text and font size. */
  type Measure = (string, int) -> TextBox

  /** The caption image: its size, the font size used, and where the text is drawn. */
  datatype LineImage = LineImage(fontSize: int, text: TextBox, width: int, height: int, x: int, y: int)

  /** `int(video_width * 0.8)`. */
  function MaxTextWidth(videoWidth: nat): int
  {
    ((videoWidth as real) * 0.8).Floor
  }

  /** The font size the shrink loop stops at: one point smaller while the text is
      wider than `maxWidth` and the size is above MIN_FONT_SIZE. */
  function FittedFontSize(text: string, maxWidth: int, size: int, measure: Measure): int
    decreases size
  {
    if measure(text, size).width > maxWidth && size > MIN_FONT_SIZE
    then FittedFontSize(text, maxWidth, size - 1, measure)
    else size
  }

  /** The shrink loop picks the largest size not above the start that fits, and
      gives up at MIN_FONT_SIZE: every larger size it passed was too wide. */
  lemma {:induction false} FittedFontSizeIsLargestFit(text: string, maxWidth: int, size: int, measure: Measure)
    ensures var f := FittedFontSize(text, maxWidth, size, measure);
      && f <= size
      && (size > MIN_FONT_SIZE ==> f >= MIN_FONT_SIZE)
      && (measure(text, f).width <= maxWidth || f <= MIN_FONT_SIZE)
      && (forall s :: f < s <= size ==> measure(text, s).width > maxWidth)
    decreases size
  {
    if measure(text, size).width > maxWidth && size > MIN_FONT_SIZE {
      FittedFontSizeIsLargestFit(text, maxWidth, size - 1, measure);
    }
  }

  /** The caption image for `text` starting from `fontSize`: text box plus padding and stroke on each side. */
  function LineImageOf(text: string, videoWidth: nat, fontSize: int, measure: Measure): LineImage
  {
    var size := FittedFontSize(text, MaxTextWidth(videoWidth), fontSize, measure);
    var box := measure(text, size);
    LineImage(size, box,
      box.width + PADDING_HORIZONTAL * 2 + STROKE_WIDTH * 2,
      box.height + PADDING_VERTICAL * 2 + STROKE_WIDTH * 2,
      PADDING_HORIZONTAL + STROKE_WIDTH,
      PADDING_VERTICAL + STROKE_WIDTH)
  }

  /** The text sits centred in its image: equal margins left and right, top and bottom,
      each the padding plus the stroke width. */
  lemma LineImageCentred(text: string, videoWidth: nat, fontSize: int, measure: Measure)
    ensures var img := LineImageOf(text, videoWidth, fontSize, measure);
      && img.x == img.width - (img.x + img.text.width)
      && img.y == img.height - (img.y + img.text.height)
      && img.x == PADDING_HORIZONTAL + STROKE_WIDTH
      && img.y == PADDING_VERTICAL + STROKE_WIDTH
  {
  }

  /** `create_line_image`: measure, shrink the font while too wide, then size the image. */
  method CreateLineImage(text: string, videoWidth: nat, fontSize: int, measure: Measure) returns (img: LineImage)
    ensures img == LineImageOf(text, videoWidth, fontSize, measure)
    ensures img.fontSize <= fontSize
    ensures img.text == measure(text, img.fontSize)
    ensures img.text.width <= MaxTextWidth(videoWidth) || img.fontSize <= MIN_FONT_SIZE
    ensures forall s :: img.fontSize < s <= fontSize ==> measure(text, s).width > MaxTextWidth(videoWidth)
  {
    var size := fontSize;
    var box := measure(text, size);
    var maxWidth := MaxTextWidth(videoWidth);
    if box.width > maxWidth {
      while box.width > maxWidth && size > MIN_FONT_SIZE
        invariant size <= fontSize
        invariant box == measure(text, size)
        invariant FittedFontSize(text, maxWidth, size, measure) == FittedFontSize(text, maxWidth, fontSize, measure)
        invariant forall s :: size < s <= fontSize ==> measure(text, s).width > maxWidth
        decreases size
      {
        size := size - 1;
        box := measure(text, size);
      }
    }
    img := LineImage(size, box,
      box.width + PADDING_HORIZONTAL * 2 + STROKE_WIDTH * 2,
      box.height + PADDING_VERTICAL * 2 + STROKE_WIDTH * 2,
      PADDING_HORIZONTAL + STROKE_WIDTH,
      PADDING_VERTICAL + STROKE_WIDTH);
  }

  function Min(a: int, b: int): int
  {
    if a <= b then a else b
  }

  /** `[words[i:i + 4] for i in range(0, len(words), 4)]`. */
  function Chunks(ws: seq<string>): (cs: seq<seq<string>>)
    ensures |cs| == (|ws| + WORDS_PER_LINE - 1) / WORDS_PER_LINE
  {
    seq((|ws| + WORDS_PER_LINE - 1) / WORDS_PER_LINE,
        k requires 0 <= k < (|ws| + WORDS_PER_LINE - 1) / WORDS_PER_LINE =>
          ws[WORDS_PER_LINE * k .. Min(WORDS_PER_LINE * k + WORDS_PER_LINE, |ws|)])
  }

  function Flatten(cs: seq<seq<string>>): seq<string>
  {
    if cs == [] then [] else cs[0] + Flatten(cs[1..])
  }

  lemma ChunksUnfold(ws: seq<string>)
    requires |ws| > WORDS_PER_LINE
    ensures Chunks(ws) == [ws[..WORDS_PER_LINE]] + Chunks(ws[WORDS_PER_LINE..])
  {
    var a := Chunks(ws);
    var b := [ws[..WORDS_PER_LINE]] + Chunks(ws[WORDS_PER_LINE..]);
    assert |a| == |b|;
    forall k | 0 <= k < |a|
      ensures a[k] == b[k]
    {
      if k > 0 {
        var rest, j := ws[WORDS_PER_LINE..], k - 1;
        var lo, hi := WORDS_PER_LINE * j, Min(WORDS_PER_LINE * j + WORDS_PER_LINE, |rest|);
        assert WORDS_PER_LINE + lo == WORDS_PER_LINE * k;
        assert WORDS_PER_LINE + hi == Min(WORDS_PER_LINE * k + WORDS_PER_LINE, |ws|);
        assert b[k] == Chunks(rest)[j] == rest[lo..hi];
        assert rest[lo..hi] == ws[WORDS_PER_LINE + lo .. WORDS_PER_LINE + hi];
      }
    }
  }

  /** The chunks partition the words: in order, with no gap and no overlap. */
  lemma {:induction false} ChunksPartition(ws: seq<string>)
    ensures Flatten(Chunks(ws)) == ws
    decreases |ws|
  {
    if |ws| > WORDS_PER_LINE {
      ChunksUnfold(ws);
      ChunksPartition(ws[WORDS_PER_LINE..]);
      assert ws == ws[..WORDS_PER_LINE] + ws[WORDS_PER_LINE..];
    } else if ws != [] {
      assert ws[0..|ws|] == ws;
      assert Chunks(ws) == [ws];
      assert Flatten(Chunks(ws)) == ws + [];
    } else {
      assert Chunks(ws) == [];
    }
  }

  /** Every chunk holds between one and WORDS_PER_LINE words; only the last may be short. */
  lemma ChunkSizes(ws: seq<string>)
    ensures forall k :: 0 <= k < |Chunks(ws)| ==> 1 <= |Chunks(ws)[k]| <= WORDS_PER_LINE
    ensures forall k :: 0 <= k < |Chunks(ws)| - 1 ==> |Chunks(ws)[k]| == WORDS_PER_LINE
  {
  }

  /** One caption clip: the chunk's text, its image, and how long it stays on screen. */
  datatype CaptionClip = CaptionClip(text: string, image: LineImage, duration: real)

  function SumDurations(clips: seq<CaptionClip>): real
  {
    if clips == [] then 0.0 else clips[0].duration + SumDurations(clips[1..])
  }

  lemma {:induction false} SumEqualDurations(clips: seq<CaptionClip>, d: real)
    requires forall k :: 0 <= k < |clips| ==> clips[k].duration == d
    ensures SumDurations(clips) == |clips| as real * d
  {
    if clips != [] {
      SumEqualDurations(clips[1..], d);
    }
  }

  /** n equal shares of `d` add back up to `d`. */
  lemma SharesFill(n: nat, d: real)
    requires n > 0
    ensures (n as real) * (d / n as real) == d
  {
  }

  /** Clips that each last `per` add up to `total` when `total` is that many shares. */
  lemma SumOfShares(clips: seq<CaptionClip>, per: real, total: real)
    requires forall k :: 0 <= k < |clips| ==> clips[k].duration == per
    requires |clips| as real * per == total
    ensures SumDurations(clips) == total
  {
    SumEqualDurations(clips, per);
  }

  /** The caption clips of a line: what `create_animated_subtitle_clips` returns. */
  predicate IsSubtitleClips(clips: seq<CaptionClip>, text: string, duration: real, videoWidth: nat, measure: Measure)
  {
    var cs := Chunks(Split(text));
    && |clips| == |cs|
    && forall k :: 0 <= k < |clips| ==>
         && clips[k].text == Join(cs[k], " ")
         && clips[k].duration == duration / |clips| as real
         && clips[k].image == LineImageOf(clips[k].text, videoWidth, BASE_FONT_SIZE, measure)
  }

  /** The chunk-building loop: `" ".join(words[i:i + 4])` for i = 0, 4, 8, ... */
  method ChunkTexts(words: seq<string>) returns (chunks: seq<string>)
    ensures |chunks| == |Chunks(words)|
    ensures forall k :: 0 <= k < |chunks| ==> chunks[k] == Join(Chunks(words)[k], " ")
  {
    var n := |words|;
    chunks := [];
    var i := 0;
    while i < n
      invariant i == WORDS_PER_LINE * |chunks|
      invariant |chunks| <= (n + WORDS_PER_LINE - 1) / WORDS_PER_LINE
      invariant forall k :: 0 <= k < |chunks| ==> chunks[k] == Join(Chunks(words)[k], " ")
    {
      assert Chunks(words)[|chunks|] == words[i .. Min(i + WORDS_PER_LINE, n)];
      chunks := chunks + [Join(words[i .. Min(i + WORDS_PER_LINE, n)], " ")];
      i := i + WORDS_PER_LINE;
    }
  }

  /** The clip-building loop: one image per chunk, each shown for `timePerChunk`. */
  method ClipsOf(chunks: seq<string>, timePerChunk: real, videoWidth: nat, measure: Measure)
    returns (clips: seq<CaptionClip>)
    ensures |clips| == |chunks|
    ensures forall k :: 0 <= k < |chunks| ==>
      clips[k] == CaptionClip(chunks[k], LineImageOf(chunks[k], videoWidth, BASE_FONT_SIZE, measure), timePerChunk)
  {
    clips := [];
    var j := 0;
    while j < |chunks|
      invariant j <= |chunks|
      invariant |clips| == j
      invariant forall k :: 0 <= k < j ==>
        clips[k] == CaptionClip(chunks[k], LineImageOf(chunks[k], videoWidth, BASE_FONT_SIZE, measure), timePerChunk)
    {
      var img := CreateLineImage(chunks[j], videoWidth, BASE_FONT_SIZE, measure);
      clips := clips + [CaptionClip(chunks[j], img, timePerChunk)];
      j := j + 1;
    }
  }

  /** `create_animated_subtitle_clips`: split on whitespace, group by four, give each
      group `duration / len(chunks)` seconds. A line without words gets no clips, and
      otherwise the clips' durations add up to exactly the line's duration. */
  method AnimatedSubtitleClips(text: string, duration: real, videoWidth: nat, measure: Measure)
    returns (clips: seq<CaptionClip>)
    ensures IsSubtitleClips(clips, text, duration, videoWidth, measure)
    ensures clips == [] <==> Split(text) == []
    ensures |clips| == (|Split(text)| + WORDS_PER_LINE - 1) / WORDS_PER_LINE
    ensures clips != [] ==> SumDurations(clips) == duration
  {
    var words := Split(text);
    if |words| == 0 {
      return [];
    }
    var chunks := ChunkTexts(words);
    var timePerChunk := duration / |chunks| as real;
    clips := ClipsOf(chunks, timePerChunk, videoWidth, measure);
    SharesFill(|chunks|, duration);
    SumOfShares(clips, timePerChunk, duration);
  }

  /** Each caption's text splits back into exactly its chunk's words, so the captions of a
      line, read in order, show the line's words and nothing else. */
  lemma CaptionWordsRoundTrip(text: string)
    ensures forall k :: 0 <= k < |Chunks(Split(text))| ==>
      Split(Join(Chunks(Split(text))[k], " ")) == Chunks(Split(text))[k]
    ensures Flatten(Chunks(Split(text))) == Split(text)
  {
    var ws := Split(text);
    forall k | 0 <= k < |Chunks(ws)|
      ensures Split(Join(Chunks(ws)[k], " ")) == Chunks(ws)[k]
    {
      SplitJoin(Chunks(ws)[k]);
    }
    ChunksPartition(ws);
  }
}
