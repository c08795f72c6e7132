/**
 * The timing engine of `edit.py`: it walks the audio manifest with a running
 * cursor, emits positioned and time-bounded layers (background, captions,
 * character overlays, dialogue audio, background music) and fixes the final
 * duration to the total dialogue duration. Media durations are inputs.
 */
module Timeline {
  import opened Text
  import opened Captions
  import opened JsonValue

  const VIDEO_SPEED: real := 2.0
  const BACKGROUND_MUSIC_VOLUME: real := 0.5
  const CHARACTER_MARGIN: int := 50
  const PERSON_1 := "Person 1"
  const PERSON_2 := "Person 2"
  const OUTPUT_ROOT := "final_videos"
  const OUTPUT_FILENAME := "final_video.mp4"

  /** The `USE_CHARACTER_IMAGES` setting: on when unset, and otherwise exactly when it
      reads "yes" in any mix of cases. */
  function UseCharacterImages(setting: Option<string>): (on: bool)
    ensures setting.None? ==> on
    ensures setting.Some? ==>
      (on <==> |setting.value| == 3 && forall i :: 0 <= i < 3 ==> LowerChar(setting.value[i]) == "yes"[i])
  {
    var v := if setting.Some? then setting.value else "yes";
    Lower(v) == "yes"
  }

  lemma UseCharacterImagesExamples()
    ensures UseCharacterImages(None) && UseCharacterImages(Some("YES")) && UseCharacterImages(Some("Yes"))
    ensures !UseCharacterImages(Some("no")) && !UseCharacterImages(Some("yes ")) && !UseCharacterImages(Some(""))
  {
    assert Lower("YES") == "yes";
    assert Lower("Yes") == "yes";
    assert Lower("no")[0] == 'n';
  }

  /** A media duration in seconds. */
  type Seconds = r: real | 0.0 <= r witness 0.0

  /** The sum of durations, added up in list order as the cursor does. */
  function SumOf(ds: seq<Seconds>): (s: Seconds)
  {
    if ds == [] then 0.0 else SumOf(ds[..|ds| - 1]) + ds[|ds| - 1]
  }

  lemma {:induction false} SumOfAppend(a: seq<Seconds>, b: seq<Seconds>)
    ensures SumOf(a + b) == SumOf(a) + SumOf(b)
    decreases |b|
  {
    if b != [] {
      assert (a + b)[..|a + b| - 1] == a + b[..|b| - 1];
      SumOfAppend(a, b[..|b| - 1]);
    } else {
      assert a + b == a;
    }
  }

  /** A prefix never sums to more than the whole. */
  lemma SumOfPrefix(ds: seq<Seconds>, k: nat)
    requires k <= |ds|
    ensures SumOf(ds[..k]) <= SumOf(ds)
  {
    assert ds == ds[..k] + ds[k..];
    SumOfAppend(ds[..k], ds[k..]);
  }

  /** One row of `audio_metadata.json` together with the duration of its audio file. */
  datatype Entry = Entry(sceneId: int, speaker: string, text: string, audioFile: string, duration: Seconds)

  function Durations(m: seq<Entry>): (ds: seq<Seconds>)
    ensures |ds| == |m| && forall i :: 0 <= i < |m| ==> ds[i] == m[i].duration
  {
    seq(|m|, i requires 0 <= i < |m| => m[i].duration)
  }

  /** `total_audio_duration`. */
  function Total(m: seq<Entry>): Seconds
  {
    SumOf(Durations(m))
  }

  lemma DurationsPrefix(m: seq<Entry>, i: nat)
    requires i < |m|
    ensures Durations(m[..i + 1]) == Durations(m[..i]) + [m[i].duration]
    ensures Total(m[..i + 1]) == Total(m[..i]) + m[i].duration
  {
    assert Durations(m[..i + 1])[..i] == Durations(m[..i]);
  }

  lemma TotalAppend(a: seq<Entry>, b: seq<Entry>)
    ensures Total(a + b) == Total(a) + Total(b)
  {
    assert Durations(a + b) == Durations(a) + Durations(b);
    SumOfAppend(Durations(a), Durations(b));
  }

  // ---------------------------------------------------------------------------
  // Background segment selection

  /** The background slice: a whole-second start, the raw length cut from the source,
      and whether the "audio exceeds background" warning was printed. */
  datatype Segment = Segment(start: int, needed: real, warning: bool)

  /** `video_needed_duration = total_audio_duration / VIDEO_SPEED`. */
  function NeededDuration(total: Seconds): real
  {
    total / VIDEO_SPEED
  }

  /** The starts the code may draw: `randint(0, int(bg - needed))` when `bg - needed > 0`, else 0. */
  predicate AdmissibleStart(bgDuration: real, total: Seconds, start: int)
  {
    var maxStart := bgDuration - NeededDuration(total);
    if maxStart > 0.0 then 0 <= start <= maxStart.Floor else start == 0
  }

  /** Picks the background slice. The random draw is a nondeterministic choice. */
  method SelectSegment(bgDuration: real, total: Seconds) returns (seg: Segment)
    ensures seg.needed == NeededDuration(total)
    ensures AdmissibleStart(bgDuration, total, seg.start)
    ensures seg.warning <==> !(bgDuration - seg.needed > 0.0)
    ensures !seg.warning ==> 0 <= seg.start && seg.start as real + seg.needed <= bgDuration
    ensures seg.warning ==> seg.start == 0
  {
    var needed := total / VIDEO_SPEED;
    var maxStart := bgDuration - needed;
    var start: int;
    var warning: bool;
    if maxStart > 0.0 {
      start :| 0 <= start <= maxStart.Floor;
      warning := false;
    } else {
      start := 0;
      warning := true;
    }
    seg := Segment(start, needed, warning);
  }

  /** Whenever the warning is not printed, the slice the code cuts lies inside the source. */
  lemma AdmissibleSliceFits(bgDuration: real, total: Seconds, start: int)
    requires AdmissibleStart(bgDuration, total, start)
    requires bgDuration - NeededDuration(total) > 0.0
    ensures 0 <= start && start as real + NeededDuration(total) <= bgDuration
  {
  }

  /** After the speed-up the slice lasts `needed / VIDEO_SPEED`, a quarter of the dialogue,
      yet its duration is then forced to the dialogue's: it is played over
      `[start, start + total * VIDEO_SPEED]` of the source, which the guard does not check. */
  lemma SegmentGuardAdmitsOverrun()
    ensures AdmissibleStart(100.0, 60.0, 70)
    ensures NeededDuration(60.0) / VIDEO_SPEED == 15.0
    ensures 70.0 + 60.0 * VIDEO_SPEED > 100.0
  {
  }

  /** The length evidently intended: the raw slice that lasts `total` once sped up. */
  function IntendedNeededDuration(total: Seconds): real
  {
    total * VIDEO_SPEED
  }

  predicate IntendedAdmissibleStart(bgDuration: real, total: Seconds, start: int)
  {
    var maxStart := bgDuration - IntendedNeededDuration(total);
    if maxStart > 0.0 then 0 <= start <= maxStart.Floor else start == 0
  }

  /** Segment selection with the intended length. */
  method SelectSegmentIntended(bgDuration: real, total: Seconds) returns (seg: Segment)
    ensures seg.needed == IntendedNeededDuration(total)
    ensures IntendedAdmissibleStart(bgDuration, total, seg.start)
    ensures seg.warning <==> !(bgDuration - seg.needed > 0.0)
    ensures !seg.warning ==> 0 <= seg.start && seg.start as real + seg.needed <= bgDuration
    ensures seg.warning ==> seg.start == 0
  {
    var needed := total * VIDEO_SPEED;
    var maxStart := bgDuration - needed;
    var start: int;
    var warning: bool;
    if maxStart > 0.0 {
      start :| 0 <= start <= maxStart.Floor;
      warning := false;
    } else {
      start := 0;
      warning := true;
    }
    seg := Segment(start, needed, warning);
  }

  /** With the intended length the sped-up slice lasts exactly the dialogue, and without
      the warning the whole played range lies inside the source. */
  lemma IntendedSegmentCoversDialogue(bgDuration: real, total: Seconds, start: int)
    requires IntendedAdmissibleStart(bgDuration, total, start)
    requires bgDuration - IntendedNeededDuration(total) > 0.0
    ensures IntendedNeededDuration(total) / VIDEO_SPEED == total
    ensures 0 <= start && start as real + total * VIDEO_SPEED <= bgDuration
  {
  }

  // ---------------------------------------------------------------------------
  // Character overlays

  datatype Size = Size(width: nat, height: nat)

  /** Pixel dimensions of a character image. */
  datatype Dims = Dims(width: nat, height: nat)

  /** `int(video_height * 0.25)`. */
  function CharacterHeight(video: Size): nat
  {
    var h := ((video.height as real) * 0.25).Floor;
    assert h >= 0;
    h
  }

  /** `resize_image_pil`: the target height, and the width that keeps the aspect ratio. */
  function Resized(img: Dims, targetHeight: nat): (r: Dims)
    requires img.height > 0
    ensures r.height == targetHeight
    ensures r.width * img.height <= targetHeight * img.width < (r.width + 1) * img.height
  {
    var x := (targetHeight as real) * ((img.width as real) / (img.height as real));
    var w := x.Floor;
    assert x >= 0.0;
    TruncatedRatio(targetHeight, img.width, img.height, x, w);
    Dims(w, targetHeight)
  }

  /** `int(t * (a / b))` for non-negative values is the largest `w` with `w * b <= t * a`. */
  lemma TruncatedRatio(t: nat, a: nat, b: nat, x: real, w: int)
    requires b > 0 && x == (t as real) * ((a as real) / (b as real)) && w == x.Floor
    ensures w * b <= t * a < (w + 1) * b
  {
    var br := b as real;
    RatioTimesDivisor(t as real, a as real, br);
    assert x * br == (t * a) as real;
    MulMonotone(w as real, x, br);
    StrictMulMonotone(x, (w + 1) as real, br);
    assert ((w * b) as real) == (w as real) * br;
    assert (((w + 1) * b) as real) == ((w + 1) as real) * br;
  }

  lemma RatioTimesDivisor(t: real, a: real, b: real)
    requires b > 0.0
    ensures t * (a / b) * b == t * a
  {
    assert (a / b) * b == a;
  }

  lemma StrictMulMonotone(a: real, b: real, c: real)
    requires a < b && 0.0 < c
    ensures a * c < b * c
  {
    assert b * c - a * c == (b - a) * c;
  }

  predicate ValidImage(img: Option<Dims>)
  {
    img.Some? ==> img.value.height > 0
  }

  /** `character_images`: each person whose picture exists, resized to a quarter of the frame height. */
  function CharacterImages(enabled: bool, person1: Option<Dims>, person2: Option<Dims>, video: Size): (m: map<string, Dims>)
    requires ValidImage(person1) && ValidImage(person2)
    ensures m.Keys <= {PERSON_1, PERSON_2}
    ensures PERSON_1 in m <==> enabled && person1.Some?
    ensures PERSON_2 in m <==> enabled && person2.Some?
    ensures forall k :: k in m ==> m[k].height == CharacterHeight(video)
  {
    if !enabled then map[]
    else
      var m1 := if person1.Some? then map[PERSON_1 := Resized(person1.value, CharacterHeight(video))] else map[];
      if person2.Some? then m1[PERSON_2 := Resized(person2.value, CharacterHeight(video))] else m1
  }

  /** Lower-left corner for Person 1, lower-right for anyone else present (only Person 2 can be). */
  function CharacterPosition(speaker: string, img: Dims, video: Size): (int, int)
  {
    if speaker == PERSON_1 then
      (CHARACTER_MARGIN, video.height - img.height - CHARACTER_MARGIN)
    else
      (video.width - img.width - CHARACTER_MARGIN, video.height - img.height - CHARACTER_MARGIN)
  }

  /** Both overlays keep a 50 px margin to the bottom edge; Person 1 keeps it to the left
      edge and Person 2 to the right edge, so the two corners mirror each other. */
  lemma CharacterCorners(img: Dims, video: Size)
    ensures var (x1, y1) := CharacterPosition(PERSON_1, img, video);
      x1 == CHARACTER_MARGIN && y1 + img.height + CHARACTER_MARGIN == video.height
    ensures var (x2, y2) := CharacterPosition(PERSON_2, img, video);
      x2 + img.width + CHARACTER_MARGIN == video.width && y2 + img.height + CHARACTER_MARGIN == video.height
    ensures CharacterPosition(PERSON_1, img, video).1 == CharacterPosition(PERSON_2, img, video).1
  {
  }

  // ---------------------------------------------------------------------------
  // Layers

  datatype LayerKind = Background | Caption | Character | DialogueAudio | MusicAudio
  datatype Position = TopLeft | Centre | At(x: int, y: int)
  /** A clip with its absolute start time, duration, position and what it shows or plays. */
  datatype Layer = Layer(kind: LayerKind, start: real, duration: real, position: Position, content: string)

  function End(l: Layer): real
  {
    l.start + l.duration
  }

  /** How overlays are drawn for this render. */
  datatype Overlay = Overlay(enabled: bool, images: map<string, Dims>, video: Size)

  function CaptionTexts(text: string): (ts: seq<string>)
    ensures |ts| == |Chunks(Split(text))|
  {
    var cs := Chunks(Split(text));
    seq(|cs|, k requires 0 <= k < |cs| => Join(cs[k], " "))
  }

  /** Caption k of a line starting at `t` starts after k equal shares of the line. */
  function CaptionLayers(e: Entry, t: real): (ls: seq<Layer>)
    ensures |ls| == |CaptionTexts(e.text)|
  {
    SharedLayers(CaptionTexts(e.text), e.duration, t)
  }

  /** One caption per text, each lasting an equal share of `d`, the k-th starting k shares after `t`. */
  function SharedLayers(texts: seq<string>, d: real, t: real): (ls: seq<Layer>)
    ensures |ls| == |texts|
  {
    seq(|texts|, k requires 0 <= k < |texts| =>
      Layer(Caption, t + (k as real) * (d / |texts| as real), d / |texts| as real, Centre, texts[k]))
  }

  function CharacterLayers(e: Entry, t: real, o: Overlay): seq<Layer>
  {
    if o.enabled && e.speaker in o.images then
      var (x, y) := CharacterPosition(e.speaker, o.images[e.speaker], o.video);
      [Layer(Character, t, e.duration, At(x, y), e.speaker)]
    else []
  }

  function LineLayers(e: Entry, t: real, o: Overlay): seq<Layer>
  {
    CaptionLayers(e, t) + CharacterLayers(e, t, o)
  }

  /** Lines laid out one after another from `t`: the first is drawn by `line` at `t`, and
      the rest from where it ends. */
  function Layout(m: seq<Entry>, t: real, line: (Entry, real) -> seq<Layer>): seq<Layer>
  {
    if m == [] then [] else line(m[0], t) + Layout(m[1..], t + m[0].duration, line)
  }

  function LineOf(o: Overlay): (Entry, real) -> seq<Layer>
  {
    (e, t) => LineLayers(e, t, o)
  }

  /** The visual layers after the background, line by line. */
  function TimelineLayers(m: seq<Entry>, t0: real, o: Overlay): seq<Layer>
  {
    Layout(m, t0, LineOf(o))
  }

  /** Captions of a line follow one another without gap, the first at the line's start and
      the last ending with the line's audio. */
  lemma CaptionTiming(e: Entry, t: real)
    ensures var ls := CaptionLayers(e, t);
      && (forall k :: 0 <= k < |ls| ==> ls[k].kind == Caption && ls[k].duration == e.duration / |ls| as real)
      && (|ls| > 0 ==> ls[0].start == t && End(ls[|ls| - 1]) == t + e.duration)
      && (forall k :: 0 <= k < |ls| - 1 ==> ls[k + 1].start == End(ls[k]))
  {
    SharedTiming(CaptionTexts(e.text), e.duration, t);
  }

  lemma SharedTiming(texts: seq<string>, d: real, t: real)
    ensures var ls := SharedLayers(texts, d, t);
      && (forall k :: 0 <= k < |ls| ==> ls[k].kind == Caption && ls[k].duration == d / |ls| as real)
      && (|ls| > 0 ==> ls[0].start == t && End(ls[|ls| - 1]) == t + d)
      && (forall k :: 0 <= k < |ls| - 1 ==> ls[k + 1].start == End(ls[k]))
  {
    var ls := SharedLayers(texts, d, t);
    if |ls| > 0 {
      EqualSharesChain(ls, t, d / |ls| as real);
      SharesFill(|ls|, d);
    }
  }

  /** Layers of equal length `per`, layer k starting k shares after `t`, follow one another. */
  lemma EqualSharesChain(ls: seq<Layer>, t: real, per: real)
    requires forall k :: 0 <= k < |ls| ==> ls[k].start == t + (k as real) * per && ls[k].duration == per
    ensures forall k :: 0 <= k < |ls| - 1 ==> ls[k + 1].start == End(ls[k])
    ensures |ls| > 0 ==> End(ls[|ls| - 1]) == t + (|ls| as real) * per
  {
    forall k | 0 <= k < |ls|
      ensures End(ls[k]) == t + ((k + 1) as real) * per
    {
      NextShare(k, per);
    }
  }

  lemma NextShare(k: nat, per: real)
    ensures (k as real) * per + per == ((k + 1) as real) * per
  {
  }


  /** Share k of n equal shares of `d` lies within `[0, d]`. */
  lemma ShareWithin(k: nat, n: nat, d: real)
    requires k < n && 0.0 <= d
    ensures 0.0 <= (k as real) * (d / n as real)
    ensures (k as real) * (d / n as real) + d / n as real <= d
  {
    var per := d / n as real;
    MulMonotone(0.0, k as real, per);
    MulMonotone((k + 1) as real, n as real, per);
    assert (k as real) * per + per == ((k + 1) as real) * per;
    assert (n as real) * per == d;
  }

  /** Every layer of a line lies within the line's audio span `[t, t + duration]`. */
  lemma LineWithinSpan(e: Entry, t: real, o: Overlay)
    ensures forall l :: l in LineLayers(e, t, o) ==> t <= l.start && End(l) <= t + e.duration
  {
    var cs, ps := CaptionLayers(e, t), CharacterLayers(e, t, o);
    SharesWithin(CaptionTexts(e.text), e.duration, t);
    assert LineLayers(e, t, o) == cs + ps;
    forall l: Layer | l in cs + ps
      ensures t <= l.start && End(l) <= t + e.duration
    {
      if l !in cs {
        assert l in ps;
      }
    }
  }

  /** Every equal share of `d` from `t` lies within `[t, t + d]`. */
  lemma SharesWithin(texts: seq<string>, d: Seconds, t: real)
    ensures forall l :: l in SharedLayers(texts, d, t) ==> t <= l.start && End(l) <= t + d
  {
    var ls := SharedLayers(texts, d, t);
    forall k | 0 <= k < |ls|
      ensures t <= ls[k].start && End(ls[k]) <= t + d
    {
      ShareWithin(k, |ls|, d);
    }
  }

  lemma MulMonotone(a: real, b: real, c: real)
    requires a <= b && 0.0 <= c
    ensures a * c <= b * c
  {
    assert b * c - a * c == (b - a) * c;
  }

  lemma TimelineSplit(a: seq<Entry>, b: seq<Entry>, t0: real, o: Overlay)
    ensures TimelineLayers(a + b, t0, o) == TimelineLayers(a, t0, o) + TimelineLayers(b, t0 + Total(a), o)
  {
    LayoutSplit(a, b, t0, LineOf(o));
  }

  /** Laying out `a + b` lays out `a`, then `b` from where `a` ends. */
  lemma {:induction false} LayoutSplit(a: seq<Entry>, b: seq<Entry>, t: real, line: (Entry, real) -> seq<Layer>)
    ensures Layout(a + b, t, line) == Layout(a, t, line) + Layout(b, t + Total(a), line)
    decreases |a|
  {
    if a == [] {
      assert a + b == b;
    } else {
      assert (a + b)[0] == a[0] && (a + b)[1..] == a[1..] + b;
      assert Layout(a + b, t, line) == line(a[0], t) + Layout(a[1..] + b, t + a[0].duration, line);
      LayoutSplit(a[1..], b, t + a[0].duration, line);
      TotalFront(a);
      assert Layout(a, t, line) == line(a[0], t) + Layout(a[1..], t + a[0].duration, line);
    }
  }

  lemma TotalFront(m: seq<Entry>)
    requires m != []
    ensures Total(m) == m[0].duration + Total(m[1..])
  {
    assert m == [m[0]] + m[1..];
    TotalAppend([m[0]], m[1..]);
    var d := Durations([m[0]]);
    assert d == [m[0].duration] && d[..|d| - 1] == [];
    assert Total([m[0]]) == SumOf(d) == m[0].duration;
  }

  /** A single line's layout is that line's layers. */
  lemma TimelineSingle(e: Entry, t: real, o: Overlay)
    ensures TimelineLayers([e], t, o) == LineLayers(e, t, o)
  {
    assert [e][1..] == [];
    assert Layout([e], t, LineOf(o)) == LineOf(o)(e, t) + Layout([], t + e.duration, LineOf(o));
    assert LineOf(o)(e, t) == LineLayers(e, t, o);
  }

  /** Line i's captions and overlay sit in the flat layer list right after those of the
      earlier lines, and start at the sum of the earlier lines' durations. */
  lemma LinePlacement(m: seq<Entry>, i: nat, o: Overlay)
    requires i < |m|
    ensures TimelineLayers(m, 0.0, o) ==
      TimelineLayers(m[..i], 0.0, o) + LineLayers(m[i], Total(m[..i]), o) + TimelineLayers(m[i + 1..], Total(m[..i + 1]), o)
  {
    assert m == m[..i + 1] + m[i + 1..];
    assert m[..i + 1] == m[..i] + [m[i]];
    TimelineSplit(m[..i + 1], m[i + 1..], 0.0, o);
    TimelineSplit(m[..i], [m[i]], 0.0, o);
    TimelineSingle(m[i], Total(m[..i]), o);
  }

  /** Every caption and overlay lies within the final video `[0, total]`. */
  lemma TimelineWithinVideo(m: seq<Entry>, o: Overlay)
    ensures forall l :: l in TimelineLayers(m, 0.0, o) ==> 0.0 <= l.start && End(l) <= Total(m)
  {
    LayoutWithin(m, 0.0, o);
  }

  /** Lines laid out from `t` stay within `[t, t + total]`. */
  lemma {:induction false} LayoutWithin(m: seq<Entry>, t: real, o: Overlay)
    ensures forall l :: l in Layout(m, t, LineOf(o)) ==> t <= l.start && End(l) <= t + Total(m)
    decreases |m|
  {
    if m != [] {
      var first, rest := LineLayers(m[0], t, o), Layout(m[1..], t + m[0].duration, LineOf(o));
      assert LineOf(o)(m[0], t) == first;
      assert Layout(m, t, LineOf(o)) == first + rest;
      LineWithinSpan(m[0], t, o);
      LayoutWithin(m[1..], t + m[0].duration, o);
      TotalFront(m);
      forall l: Layer | l in first + rest
        ensures t <= l.start && End(l) <= t + Total(m)
      {
        if l !in first {
          assert l in rest;
        }
      }
    }
  }

  // ---------------------------------------------------------------------------
  // Audio

  /** An opened audio file and its duration. */
  datatype AudioClip = AudioClip(file: string, duration: Seconds)

  function ClipDurations(cs: seq<AudioClip>): (ds: seq<Seconds>)
    ensures |ds| == |cs| && forall i :: 0 <= i < |cs| ==> ds[i] == cs[i].duration
  {
    seq(|cs|, i requires 0 <= i < |cs| => cs[i].duration)
  }

  /** `concatenate_audioclips`: None for no clips; otherwise clip k starts when clips
      0..k-1 have played. */
  method ConcatenateAudioClips(clips: seq<AudioClip>) returns (r: Option<seq<Layer>>)
    ensures r.None? <==> clips == []
    ensures r.Some? ==> |r.value| == |clips|
    ensures r.Some? ==> forall k :: 0 <= k < |clips| ==>
      r.value[k] == Layer(DialogueAudio, SumOf(ClipDurations(clips)[..k]), clips[k].duration, TopLeft, clips[k].file)
  {
    if clips == [] {
      return None;
    }
    ghost var ds := ClipDurations(clips);
    var currentTime: real := 0.0;
    var timed: seq<Layer> := [];
    var i := 0;
    while i < |clips|
      invariant 0 <= i <= |clips| && |timed| == i
      invariant currentTime == SumOf(ds[..i])
      invariant forall k :: 0 <= k < i ==>
        timed[k] == Layer(DialogueAudio, SumOf(ds[..k]), clips[k].duration, TopLeft, clips[k].file)
    {
      timed := timed + [Layer(DialogueAudio, currentTime, clips[i].duration, TopLeft, clips[i].file)];
      SumOfStep(ds, i);
      currentTime := currentTime + clips[i].duration;
      i := i + 1;
    }
    r := Some(timed);
  }

  lemma SumOfStep(ds: seq<Seconds>, i: nat)
    requires i < |ds|
    ensures SumOf(ds[..i + 1]) == SumOf(ds[..i]) + ds[i]
  {
    assert ds[..i + 1][..i] == ds[..i];
  }

  /** The concatenated dialogue has no gaps and ends when the last clip ends, at the sum of
      all durations. */
  lemma DialogueGapless(clips: seq<AudioClip>, timed: seq<Layer>)
    requires |timed| == |clips|
    requires forall k :: 0 <= k < |clips| ==>
      timed[k] == Layer(DialogueAudio, SumOf(ClipDurations(clips)[..k]), clips[k].duration, TopLeft, clips[k].file)
    ensures |timed| > 0 ==> timed[0].start == 0.0
    ensures forall k :: 0 <= k < |timed| - 1 ==> timed[k + 1].start == End(timed[k])
    ensures |timed| > 0 ==> End(timed[|timed| - 1]) == SumOf(ClipDurations(clips))
  {
    var ds := ClipDurations(clips);
    forall k | 0 <= k < |timed| - 1
      ensures timed[k + 1].start == End(timed[k])
    {
      assert ds[..k + 1][..k] == ds[..k];
    }
    if |timed| > 0 {
      assert ds[..0] == [];
      var n := |timed|;
      assert ds[..n] == ds;
      assert ds[..n][..n - 1] == ds[..n - 1];
    }
  }

  /** The music plan: how many copies are joined, the looped length, and the part kept. */
  datatype MusicTrack = MusicTrack(copies: nat, loopedLength: real, duration: real, volume: real)

  /** Loop the music only when it is shorter than the dialogue, with
      `int(total / music) + 1` copies, then keep `[0, total]` at half volume. */
  function MusicPlan(music: real, total: Seconds): MusicTrack
    requires music > 0.0
  {
    var copies := MusicCopies(music, total);
    MusicTrack(copies, copies as real * music, total, BACKGROUND_MUSIC_VOLUME)
  }

  function MusicCopies(music: real, total: Seconds): nat
    requires music > 0.0
  {
    if music < total then
      var f := (total / music).Floor;
      assert f >= 0;
      f + 1
    else 1
  }

  /** The looped music is always longer than needed when looping happened, one copy fewer
      would not have been, and the kept part is exactly the dialogue's length. */
  lemma MusicCovers(music: real, total: Seconds)
    requires music > 0.0
    ensures var t := MusicPlan(music, total);
      && t.duration == total
      && t.loopedLength >= total
      && (music < total ==> t.loopedLength > total && (t.copies - 1) as real * music <= total)
      && (music >= total ==> t.copies == 1)
  {
    if music < total {
      var f := (total / music).Floor;
      assert MusicCopies(music, total) == f + 1;
      assert (f + 1) as real == f as real + 1.0;
      ScaledBounds(total / music, music, total);
    }
  }

  /** With `q * music == total`, whole copies of `music` bracket `total`. */
  lemma ScaledBounds(q: real, music: real, total: real)
    requires music > 0.0 && q * music == total
    ensures (q.Floor as real) * music <= total < (q.Floor as real + 1.0) * music
  {
    ScaledBelow(q, music, total);
    ScaledAbove(q, music, total);
  }

  lemma ScaledAbove(q: real, music: real, total: real)
    requires music > 0.0 && q * music == total
    ensures total < (q.Floor as real + 1.0) * music
  {
    var d := q.Floor as real + 1.0 - q;
    assert d > 0.0;
    assert (q.Floor as real + 1.0) * music == q * music + d * music;
    assert d * music > 0.0;
  }

  lemma ScaledBelow(q: real, music: real, total: real)
    requires music > 0.0 && q * music == total
    ensures (q.Floor as real) * music <= total
  {
    MulMonotone(q.Floor as real, q, music);
  }

  /** Music of 20 s under 50 s of dialogue: three copies, 60 s, cut to 50 s. */
  lemma MusicExample()
    ensures MusicPlan(20.0, 50.0) == MusicTrack(3, 60.0, 50.0, BACKGROUND_MUSIC_VOLUME)
  {
    assert (50.0 / 20.0).Floor == 2;
  }

  // ---------------------------------------------------------------------------
  // The compositor

  /** What `create_video_with_audio` assembles before encoding. */
  datatype Video = Video(
    segment: Segment,
    visual: seq<Layer>,
    dialogue: seq<Layer>,
    music: MusicTrack,
    duration: real,
    outputPath: string)

  datatype Render = Rendered(video: Video) | NoDialogue

  function BackgroundLayer(total: Seconds): Layer
  {
    Layer(Background, 0.0, total, TopLeft, "background")
  }

  function AudioClipsOf(audioFolder: string, m: seq<Entry>): (cs: seq<AudioClip>)
    ensures |cs| == |m|
    ensures ClipDurations(cs) == Durations(m)
  {
    seq(|m|, i requires 0 <= i < |m| => AudioClip(PathJoin(audioFolder, m[i].audioFile), m[i].duration))
  }

  /** The dialogue as the compositor lays it: line k's audio starts when lines 0..k-1 have played. */
  function DialogueTrack(audioFolder: string, m: seq<Entry>): (ls: seq<Layer>)
    ensures |ls| == |m|
  {
    seq(|m|, k requires 0 <= k < |m| =>
      Layer(DialogueAudio, Total(m[..k]), m[k].duration, TopLeft, PathJoin(audioFolder, m[k].audioFile)))
  }

  /** Concatenating the manifest's clips gives exactly that track. */
  lemma ConcatenatedDialogue(audioFolder: string, m: seq<Entry>, timed: seq<Layer>)
    requires var clips := AudioClipsOf(audioFolder, m);
      |timed| == |clips| && forall k :: 0 <= k < |clips| ==>
        timed[k] == Layer(DialogueAudio, SumOf(ClipDurations(clips)[..k]), clips[k].duration, TopLeft, clips[k].file)
    ensures timed == DialogueTrack(audioFolder, m)
  {
    forall k | 0 <= k < |m|
      ensures timed[k] == DialogueTrack(audioFolder, m)[k]
    {
      assert Durations(m)[..k] == Durations(m[..k]);
    }
  }

  /** The first pass over the manifest: open every clip and add up the durations. */
  method LoadDialogue(audioFolder: string, manifest: seq<Entry>) returns (audioClips: seq<AudioClip>, total: Seconds)
    ensures audioClips == AudioClipsOf(audioFolder, manifest)
    ensures total == Total(manifest)
  {
    audioClips := [];
    total := 0.0;
    var i := 0;
    while i < |manifest|
      invariant 0 <= i <= |manifest|
      invariant audioClips == AudioClipsOf(audioFolder, manifest[..i])
      invariant total == Total(manifest[..i])
    {
      audioClips := audioClips + [AudioClip(PathJoin(audioFolder, manifest[i].audioFile), manifest[i].duration)];
      DurationsPrefix(manifest, i);
      total := total + manifest[i].duration;
      i := i + 1;
    }
    assert manifest[..i] == manifest;
  }

  /** The caption loop of one line: each caption starts where the previous one ended. */
  method PlaceCaptions(e: Entry, currentTime: real, videoWidth: nat, measure: Measure) returns (layers: seq<Layer>)
    ensures layers == CaptionLayers(e, currentTime)
  {
    var subtitleClips := AnimatedSubtitleClips(e.text, e.duration, videoWidth, measure);
    var texts := CaptionTexts(e.text);
    ghost var want := CaptionLayers(e, currentTime);
    assert |want| == |subtitleClips|;
    CaptionTiming(e, currentTime);
    var subtitleCurrentTime := currentTime;
    layers := [];
    var j := 0;
    while j < |subtitleClips|
      invariant 0 <= j <= |subtitleClips| && |layers| == j
      invariant j < |want| ==> subtitleCurrentTime == want[j].start
      invariant forall k :: 0 <= k < j ==> layers[k] == want[k]
    {
      var clip := subtitleClips[j];
      assert clip.duration == want[j].duration && clip.text == texts[j];
      assert want[j] == Layer(Caption, subtitleCurrentTime, clip.duration, Centre, clip.text);
      layers := layers + [Layer(Caption, subtitleCurrentTime, clip.duration, Centre, clip.text)];
      subtitleCurrentTime := subtitleCurrentTime + clip.duration;
      j := j + 1;
    }
  }

  /** The second pass: the cursor walks the manifest, and each line's captions and overlay
      start at it. */
  method PlaceLines(manifest: seq<Entry>, o: Overlay, measure: Measure) returns (clips: seq<Layer>, currentTime: real)
    ensures clips == TimelineLayers(manifest, 0.0, o)
    ensures currentTime == Total(manifest)
  {
    clips := [];
    currentTime := 0.0;
    var i := 0;
    while i < |manifest|
      invariant 0 <= i <= |manifest|
      invariant clips == TimelineLayers(manifest[..i], 0.0, o)
      invariant currentTime == Total(manifest[..i])
    {
      var e := manifest[i];
      var captions := PlaceCaptions(e, currentTime, o.video.width, measure);
      var portrait := PlaceCharacter(e, currentTime, o);
      TimelineStep(manifest, i, o);
      clips := clips + captions + portrait;
      currentTime := currentTime + e.duration;
      i := i + 1;
    }
    assert manifest[..i] == manifest;
  }

  /** The speaker's portrait for one line, when overlays are on and it was loaded. */
  method PlaceCharacter(e: Entry, t: real, o: Overlay) returns (layers: seq<Layer>)
    ensures layers == CharacterLayers(e, t, o)
  {
    layers := [];
    if o.enabled && e.speaker in o.images {
      var (x, y) := CharacterPosition(e.speaker, o.images[e.speaker], o.video);
      layers := [Layer(Character, t, e.duration, At(x, y), e.speaker)];
    }
  }

  /** One more line extends the timeline by that line's layers, placed at the running total. */
  lemma TimelineStep(m: seq<Entry>, i: nat, o: Overlay)
    requires i < |m|
    ensures TimelineLayers(m[..i + 1], 0.0, o) == TimelineLayers(m[..i], 0.0, o) + LineLayers(m[i], Total(m[..i]), o)
    ensures Total(m[..i + 1]) == Total(m[..i]) + m[i].duration
  {
    DurationsPrefix(m, i);
    assert m[..i + 1] == m[..i] + [m[i]];
    TimelineSplit(m[..i], [m[i]], 0.0, o);
    TimelineSingle(m[i], Total(m[..i]), o);
  }

  /** `create_video_with_audio`, up to the encoder: background slice, captions, overlays,
      sequential dialogue, looped music, and a final duration equal to the dialogue's.
      The slice is cut at the length the speed-up needs (`SelectSegmentIntended`);
      `SelectSegment` keeps the length as the code computes it. */
  method CreateVideoWithAudio(
    audioFolder: string, manifest: seq<Entry>, bgDuration: real, videoSize: Size,
    useCharacterImages: bool, person1: Option<Dims>, person2: Option<Dims>,
    musicDuration: real, measure: Measure)
    returns (r: Render)
    requires ValidImage(person1) && ValidImage(person2)
    requires musicDuration > 0.0
    ensures r.NoDialogue? <==> manifest == []
    ensures r.Rendered? ==>
      var v := r.video;
      var o := Overlay(useCharacterImages, CharacterImages(useCharacterImages, person1, person2, videoSize), videoSize);
      && v.segment.needed == IntendedNeededDuration(Total(manifest))
      && IntendedAdmissibleStart(bgDuration, Total(manifest), v.segment.start)
      && v.visual == [BackgroundLayer(Total(manifest))] + TimelineLayers(manifest, 0.0, o)
      && v.dialogue == DialogueTrack(audioFolder, manifest)
      && v.music == MusicPlan(musicDuration, Total(manifest))
      && v.duration == Total(manifest)
      && v.outputPath == PathJoin(PathJoin(OUTPUT_ROOT, Basename(audioFolder)), OUTPUT_FILENAME)
  {
    var audioClips, total := LoadDialogue(audioFolder, manifest);
    var segment := SelectSegmentIntended(bgDuration, total);
    var characterImages := CharacterImages(useCharacterImages, person1, person2, videoSize);
    var o := Overlay(useCharacterImages, characterImages, videoSize);
    var lineClips, currentTime := PlaceLines(manifest, o, measure);
    var allClips := [BackgroundLayer(total)] + lineClips;
    var concatenated := ConcatenateAudioClips(audioClips);
    var music := MusicPlan(musicDuration, total);
    if concatenated.None? {
      // CompositeAudioClip([None, music]) fails: there is no dialogue to mix.
      return NoDialogue;
    }
    ConcatenatedDialogue(audioFolder, manifest, concatenated.value);
    var outputFolder := PathJoin(OUTPUT_ROOT, Basename(audioFolder));
    r := Rendered(Video(segment, allClips, concatenated.value, music, total, PathJoin(outputFolder, OUTPUT_FILENAME)));
  }

  /** Three lines of 2.0, 3.0 and 1.5 seconds start at 0.0, 2.0 and 5.0; the video lasts 6.5. */
  lemma ThreeLineExample(a: Entry, b: Entry, c: Entry)
    requires a.duration == 2.0 && b.duration == 3.0 && c.duration == 1.5
    ensures Total([a, b, c][..0]) == 0.0 && Total([a, b, c][..1]) == 2.0 && Total([a, b, c][..2]) == 5.0
    ensures Total([a, b, c]) == 6.5
  {
    var m := [a, b, c];
    assert Durations(m[..1]) == [2.0];
    assert Durations(m[..2]) == [2.0, 3.0];
    assert Durations(m) == [2.0, 3.0, 1.5];
    assert [2.0, 3.0][..1] == [2.0];
    assert [2.0, 3.0, 1.5][..2] == [2.0, 3.0];
  }
}
