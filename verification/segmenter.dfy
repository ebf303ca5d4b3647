/**
  The streaming utterance segmenter (forum_agent/segmenter.py).

  Time is counted in samples. A frame is its audio with the speech verdict of whatever detector
  is plugged in. `Greedy` says what the segmentation of a whole recording is, without a
  stream: from each resting point the first speech frame opens a segment, a little earlier
  audio is taken in front of it, and the first frame that fills the silence gap or the maximum
  length ends it. The streaming object is proved to produce exactly that, frame by frame.
 */
module Segmentation {
  import opened Common

  type Sample = int

  datatype Frame = Frame(audio: seq<Sample>, speech: bool)

  datatype Segment = Segment(tStart: nat, audio: seq<Sample>)

  const SAMPLE_RATE := 16000
  const MAX_SEGMENT := 12 * SAMPLE_RATE
  const PRE_ROLL := SAMPLE_RATE / 2

  /** How many silent frames are held back, by the length of the newest one. */
  function Keep(length: nat): nat {
    if length == 0 then 1 else Max(PRE_ROLL / length, 1)
  }

  function Audio(fs: seq<Frame>): seq<Sample> {
    if fs == [] then [] else Audio(fs[..|fs| - 1]) + fs[|fs| - 1].audio
  }

  // ----- Greedy segmentation of a recording -----

  /** Frames held back just before `at`, when nothing was spoken since `pos`. */
  function Kept(fs: seq<Frame>, pos: nat, at: nat): (n: nat)
    requires pos <= at <= |fs|
    ensures n <= at - pos
  {
    if at == pos then 0 else Min(Kept(fs, pos, at - 1) + 1, Keep(|fs[at - 1].audio|))
  }

  /** Samples of unbroken silence at the end of `fs[..end]`, looking no further back than the onset. */
  function Quiet(fs: seq<Frame>, onset: nat, end: nat): nat
    requires onset < end <= |fs|
  {
    if end == onset + 1 || fs[end - 1].speech then 0
    else Quiet(fs, onset, end - 1) + |fs[end - 1].audio|
  }

  /** Frames `start..end` would make a finished segment; the onset frame alone never does. */
  predicate Closes(fs: seq<Frame>, silence: nat, start: nat, onset: nat, end: nat)
    requires start <= onset < |fs|
  {
    && onset + 2 <= end <= |fs|
    && (Quiet(fs, onset, end) >= silence || |Audio(fs[start..end])| >= MAX_SEGMENT)
  }

  /** From the resting point `pos`, speech first comes at `onset`, and the segment starts at `start`. */
  ghost predicate Opens(fs: seq<Frame>, pos: nat, start: nat, onset: nat) {
    && pos <= onset < |fs| && fs[onset].speech
    && (forall i :: pos <= i < onset ==> !fs[i].speech)
    && start == onset - Kept(fs, pos, onset)
  }

  datatype Span = Span(start: nat, onset: nat, end: nat)

  ghost predicate IsNext(fs: seq<Frame>, silence: nat, pos: nat, s: Span) {
    && Opens(fs, pos, s.start, s.onset)
    && Closes(fs, silence, s.start, s.onset, s.end)
    && (forall j :: s.onset < j < s.end ==> !Closes(fs, silence, s.start, s.onset, j))
  }

  /** Where segment `k` may begin: the end of the one before it. */
  function RestAt(spans: seq<Span>, k: nat): nat
    requires k <= |spans|
  {
    if k == 0 then 0 else spans[k - 1].end
  }

  datatype Open = Silent | Speaking(start: nat, onset: nat)

  /** What is left after the finished segments: silence, or one segment that nothing has ended. */
  ghost predicate IsTail(fs: seq<Frame>, silence: nat, pos: nat, open: Open) {
    match open
    case Silent => pos <= |fs| && forall i :: pos <= i < |fs| ==> !fs[i].speech
    case Speaking(start, onset) =>
      && Opens(fs, pos, start, onset)
      && forall j :: onset < j <= |fs| ==> !Closes(fs, silence, start, onset, j)
  }

  ghost predicate SpanFits(fs: seq<Frame>, silence: nat, spans: seq<Span>, k: nat)
    requires k < |spans|
  {
    IsNext(fs, silence, RestAt(spans, k), spans[k])
  }

  ghost predicate Greedy(fs: seq<Frame>, silence: nat, spans: seq<Span>, open: Open) {
    && (forall k :: 0 <= k < |spans| ==> SpanFits(fs, silence, spans, k))
    && IsTail(fs, silence, RestAt(spans, |spans|), open)
  }

  function Render(fs: seq<Frame>, start: nat, end: nat): Segment
    requires start <= end <= |fs|
  {
    Segment(|Audio(fs[..start])|, Audio(fs[start..end]))
  }

  // ----- Greedy segmentation is one thing -----

  lemma OpensOnce(fs: seq<Frame>, pos: nat, start1: nat, onset1: nat, start2: nat, onset2: nat)
    requires Opens(fs, pos, start1, onset1) && Opens(fs, pos, start2, onset2)
    ensures start1 == start2 && onset1 == onset2
  {
  }

  lemma NextIsUnique(fs: seq<Frame>, silence: nat, pos: nat, s: Span, t: Span)
    requires IsNext(fs, silence, pos, s) && IsNext(fs, silence, pos, t)
    ensures s == t
  {
    OpensOnce(fs, pos, s.start, s.onset, t.start, t.onset);
  }

  lemma NextOrTail(fs: seq<Frame>, silence: nat, pos: nat, s: Span, open: Open)
    requires IsNext(fs, silence, pos, s)
    ensures !IsTail(fs, silence, pos, open)
  {
    if open.Speaking? && IsTail(fs, silence, pos, open) {
      OpensOnce(fs, pos, s.start, s.onset, open.start, open.onset);
    }
  }

  lemma {:induction false} GreedyAgrees(fs: seq<Frame>, silence: nat, a: seq<Span>, oa: Open, b: seq<Span>, ob: Open, k: nat)
    requires Greedy(fs, silence, a, oa) && Greedy(fs, silence, b, ob)
    requires k <= |a|
    ensures k <= |b| && a[..k] == b[..k]
  {
    if k > 0 {
      GreedyAgrees(fs, silence, a, oa, b, ob, k - 1);
      assert SpanFits(fs, silence, a, k - 1);
      assert RestAt(b, k - 1) == RestAt(a, k - 1);
      if k - 1 == |b| {
        NextOrTail(fs, silence, RestAt(a, k - 1), a[k - 1], ob);
      } else {
        assert SpanFits(fs, silence, b, k - 1);
        NextIsUnique(fs, silence, RestAt(a, k - 1), a[k - 1], b[k - 1]);
      }
    }
  }

  /** A recording has only one greedy segmentation. */
  lemma GreedyIsUnique(fs: seq<Frame>, silence: nat, a: seq<Span>, oa: Open, b: seq<Span>, ob: Open)
    requires Greedy(fs, silence, a, oa) && Greedy(fs, silence, b, ob)
    ensures a == b && oa == ob
  {
    GreedyAgrees(fs, silence, a, oa, b, ob, |a|);
    GreedyAgrees(fs, silence, b, ob, a, oa, |b|);
    assert a[..|a|] == a && b[..|b|] == b;
    if oa.Speaking? && ob.Speaking? {
      OpensOnce(fs, RestAt(a, |a|), oa.start, oa.onset, ob.start, ob.onset);
    }
  }

  // ----- What a greedy segmentation covers -----

  predicate Covers(s: Span, i: nat) { s.start <= i < s.end }

  predicate TailCovers(open: Open, i: nat) { open.Speaking? && open.start <= i }

  lemma {:induction false} SpansAreOrdered(fs: seq<Frame>, silence: nat, spans: seq<Span>, open: Open, j: nat, k: nat)
    requires Greedy(fs, silence, spans, open) && j < k <= |spans|
    ensures spans[j].end <= RestAt(spans, k)
    ensures k < |spans| ==> spans[j].end <= spans[k].start
    decreases k
  {
    if j + 1 < k {
      SpansAreOrdered(fs, silence, spans, open, j, k - 1);
      assert SpanFits(fs, silence, spans, k - 1);
    }
    if k < |spans| {
      assert SpanFits(fs, silence, spans, k);
    }
  }

  /** Segments do not overlap, and follow the order of the recording. */
  lemma SegmentsAreDisjoint(fs: seq<Frame>, silence: nat, spans: seq<Span>, open: Open, i: nat, j: nat, k: nat)
    requires Greedy(fs, silence, spans, open) && j < |spans| && Covers(spans[j], i)
    ensures k < |spans| && Covers(spans[k], i) ==> k == j
    ensures !TailCovers(open, i)
  {
    if k < j {
      SpansAreOrdered(fs, silence, spans, open, k, j);
    } else if j < k < |spans| {
      SpansAreOrdered(fs, silence, spans, open, j, k);
    }
    SpansAreOrdered(fs, silence, spans, open, j, |spans|);
  }

  lemma {:induction false} SpeechBeforeRestIsCovered(fs: seq<Frame>, silence: nat, spans: seq<Span>, open: Open, i: nat, k: nat)
    requires Greedy(fs, silence, spans, open) && k <= |spans|
    requires i < RestAt(spans, k) && i < |fs| && fs[i].speech
    ensures exists j :: 0 <= j < k && Covers(spans[j], i)
  {
    if k > 0 {
      assert SpanFits(fs, silence, spans, k - 1);
      if i < RestAt(spans, k - 1) {
        SpeechBeforeRestIsCovered(fs, silence, spans, open, i, k - 1);
      } else {
        assert Covers(spans[k - 1], i);
      }
    }
  }

  /** Every speech frame is in a segment, finished or still open; what no segment covers is silent. */
  lemma SpeechIsCovered(fs: seq<Frame>, silence: nat, spans: seq<Span>, open: Open, i: nat)
    requires Greedy(fs, silence, spans, open) && i < |fs| && fs[i].speech
    ensures TailCovers(open, i) || exists j :: 0 <= j < |spans| && Covers(spans[j], i)
  {
    if i < RestAt(spans, |spans|) {
      SpeechBeforeRestIsCovered(fs, silence, spans, open, i, |spans|);
    }
  }

  // ----- How long a segment gets -----

  /** Frames of one length, the last possibly shorter. */
  ghost predicate FixedLength(fs: seq<Frame>, length: nat) {
    forall i :: 0 <= i < |fs| ==> |fs[i].audio| <= length && (i + 1 < |fs| ==> |fs[i].audio| == length)
  }

  lemma {:induction false} KeptFixed(fs: seq<Frame>, length: nat, pos: nat, at: nat)
    requires FixedLength(fs, length) && pos <= at < |fs|
    ensures Kept(fs, pos, at) == Min(at - pos, Keep(length))
  {
    if pos < at {
      KeptFixed(fs, length, pos, at - 1);
    }
  }

  lemma {:induction false} AudioBound(fs: seq<Frame>, length: nat)
    requires forall i :: 0 <= i < |fs| ==> |fs[i].audio| <= length
    ensures |Audio(fs)| <= |fs| * length
  {
    if fs != [] {
      AudioBound(fs[..|fs| - 1], length);
      assert |fs| * length == (|fs| - 1) * length + length;
    }
  }

  /** As many frames are held back as fit into half a second, and always one. */
  lemma KeepBound(length: nat)
    requires length > 0
    ensures Keep(length) >= 1
    ensures Keep(length) * length <= Max(8_000, length)
    ensures (Keep(length) + 1) * length > 8_000
    ensures Keep(0) == 1
  {
    var n, m := 8_000 / length, 8_000 % length;
    assert 8_000 == n * length + m;
    assert (n + 1) * length == n * length + length;
    if n < 1 {
      assert (1 + 1) * length == length + length;
    }
  }

  lemma ProductsGrow(n: nat, k: nat, length: nat)
    requires n <= k
    ensures n * length <= k * length
  {
  }

  lemma FramesBound(n: nat, length: nat)
    requires length > 0 && n <= Keep(length)
    ensures (n + 1) * length <= Max(8_000, length) + length
  {
    KeepBound(length);
    ProductsGrow(n, Keep(length), length);
    assert (n + 1) * length == n * length + length;
  }

  lemma OpeningBound(fs: seq<Frame>, length: nat, pos: nat, start: nat, onset: nat)
    requires FixedLength(fs, length) && 0 < length && Opens(fs, pos, start, onset)
    ensures |Audio(fs[start..onset + 1])| <= Max(8_000, length) + length
  {
    var front := fs[start..onset + 1];
    KeptFixed(fs, length, pos, onset);
    AudioBound(front, length);
    FramesBound(|front| - 1, length);
  }

  /**
    How much audio from before the speech a segment takes: one frame at least, and as many as fit into half a second,
    unless that reaches back to where it may begin.
   */
  lemma PreRollIs(fs: seq<Frame>, length: nat, pos: nat, start: nat, onset: nat)
    requires FixedLength(fs, length) && 0 < length && Opens(fs, pos, start, onset)
    ensures (onset - start) * length <= Max(8_000, length)
    ensures start == pos || (start < onset && (onset - start + 1) * length > 8_000)
  {
    KeptFixed(fs, length, pos, onset);
    KeepBound(length);
    ProductsGrow(onset - start, Keep(length), length);
  }

  /** A finished segment stays under the maximum plus one frame. */
  lemma SegmentLengthBound(fs: seq<Frame>, silence: nat, length: nat, pos: nat, s: Span)
    requires FixedLength(fs, length) && 0 < length && Max(8_000, length) + length < 192_000
    requires IsNext(fs, silence, pos, s)
    ensures |Audio(fs[s.start..s.end])| < 192_000 + length
  {
    assert fs[s.start..s.end][..s.end - 1 - s.start] == fs[s.start..s.end - 1];
    if s.end - 1 >= s.onset + 2 {
      assert !Closes(fs, silence, s.start, s.onset, s.end - 1);
    } else {
      OpeningBound(fs, length, pos, s.start, s.onset);
    }
  }

  /** The silence counter is the length of the unbroken silence since the last speech frame. */
  lemma {:induction false} QuietIsASilentRun(fs: seq<Frame>, onset: nat, end: nat) returns (last: nat)
    requires onset < end <= |fs| && fs[onset].speech
    ensures onset <= last < end && fs[last].speech && (forall i :: last < i < end ==> !fs[i].speech)
    ensures Quiet(fs, onset, end) == |Audio(fs[last + 1..end])|
    decreases end
  {
    if end == onset + 1 || fs[end - 1].speech {
      last := end - 1;
    } else {
      last := QuietIsASilentRun(fs, onset, end - 1);
      assert fs[last + 1..end][..end - 1 - (last + 1)] == fs[last + 1..end - 1];
    }
  }

  /** A finished segment ends at the maximum, or where its silence first reaches the gap. */
  lemma SegmentEnd(fs: seq<Frame>, silence: nat, pos: nat, s: Span)
    requires IsNext(fs, silence, pos, s)
    ensures Quiet(fs, s.onset, s.end) >= silence || |Audio(fs[s.start..s.end])| >= 192_000
    ensures forall j :: s.onset + 2 <= j < s.end ==>
              Quiet(fs, s.onset, j) < silence && |Audio(fs[s.start..j])| < 192_000
  {
    forall j | s.onset + 2 <= j < s.end
      ensures Quiet(fs, s.onset, j) < silence && |Audio(fs[s.start..j])| < 192_000
    {
      assert !Closes(fs, silence, s.start, s.onset, j);
    }
  }

  // ----- One more frame -----

  lemma {:induction false} AudioAppend(a: seq<Frame>, b: seq<Frame>)
    ensures Audio(a + b) == Audio(a) + Audio(b)
  {
    if b == [] {
      assert a + b == a;
    } else {
      assert (a + b)[..|a + b| - 1] == a + b[..|b| - 1];
      AudioAppend(a, b[..|b| - 1]);
    }
  }

  lemma {:induction false} KeptPrefix(fs: seq<Frame>, f: Frame, pos: nat, at: nat)
    requires pos <= at <= |fs|
    ensures Kept(fs + [f], pos, at) == Kept(fs, pos, at)
  {
    if pos < at {
      KeptPrefix(fs, f, pos, at - 1);
    }
  }

  lemma {:induction false} QuietPrefix(fs: seq<Frame>, f: Frame, onset: nat, end: nat)
    requires onset < end <= |fs|
    ensures Quiet(fs + [f], onset, end) == Quiet(fs, onset, end)
  {
    if onset + 1 < end {
      QuietPrefix(fs, f, onset, end - 1);
    }
  }

  lemma OpensPrefix(fs: seq<Frame>, f: Frame, pos: nat, start: nat, onset: nat)
    requires Opens(fs, pos, start, onset)
    ensures Opens(fs + [f], pos, start, onset)
  {
    KeptPrefix(fs, f, pos, onset);
  }

  lemma ClosesPrefix(fs: seq<Frame>, f: Frame, silence: nat, start: nat, onset: nat, end: nat)
    requires start <= onset < |fs| && end <= |fs|
    ensures Closes(fs + [f], silence, start, onset, end) == Closes(fs, silence, start, onset, end)
  {
    if onset + 2 <= end {
      QuietPrefix(fs, f, onset, end);
      assert (fs + [f])[start..end] == fs[start..end];
    }
  }

  lemma NextPrefix(fs: seq<Frame>, f: Frame, silence: nat, pos: nat, s: Span)
    requires IsNext(fs, silence, pos, s)
    ensures IsNext(fs + [f], silence, pos, s)
  {
    OpensPrefix(fs, f, pos, s.start, s.onset);
    forall j | s.onset < j <= s.end
      ensures Closes(fs + [f], silence, s.start, s.onset, j) == Closes(fs, silence, s.start, s.onset, j)
    {
      ClosesPrefix(fs, f, silence, s.start, s.onset, j);
    }
  }

  /** How the greedy segmentation grows by one frame. */
  ghost predicate Grows(fs: seq<Frame>, f: Frame, silence: nat, spans: seq<Span>, open: Open, spans': seq<Span>, open': Open) {
    var n := |fs|;
    var pos := RestAt(spans, |spans|);
    if open.Silent? then
      && spans' == spans
      && pos <= n
      && open' == if f.speech then Speaking(n - Kept(fs, pos, n), n) else Silent
    else
      && open.start <= open.onset < n
      && if Closes(fs + [f], silence, open.start, open.onset, n + 1)
         then spans' == spans + [Span(open.start, open.onset, n + 1)] && open' == Silent
         else spans' == spans && open' == open
  }

  lemma GreedyGrows(fs: seq<Frame>, f: Frame, silence: nat, spans: seq<Span>, open: Open, spans': seq<Span>, open': Open)
    requires Greedy(fs, silence, spans, open)
    requires Grows(fs, f, silence, spans, open, spans', open')
    ensures Greedy(fs + [f], silence, spans', open')
  {
    var gs := fs + [f];
    var pos := RestAt(spans, |spans|);
    forall k | 0 <= k < |spans|
      ensures SpanFits(gs, silence, spans', k)
    {
      assert SpanFits(fs, silence, spans, k);
      NextPrefix(fs, f, silence, RestAt(spans, k), spans[k]);
    }
    if open.Silent? {
      KeptPrefix(fs, f, pos, |fs|);
    } else {
      OpensPrefix(fs, f, pos, open.start, open.onset);
      forall j | open.onset < j <= |fs|
        ensures !Closes(gs, silence, open.start, open.onset, j)
      {
        ClosesPrefix(fs, f, silence, open.start, open.onset, j);
      }
    }
  }

  // ----- The streaming object -----

  function Concat(parts: seq<seq<Sample>>): seq<Sample> {
    if parts == [] then [] else Concat(parts[..|parts| - 1]) + parts[|parts| - 1]
  }

  /** The parts are the audio of the last frames of `fs`. */
  ghost predicate AreLast(parts: seq<seq<Sample>>, fs: seq<Frame>) {
    |parts| <= |fs| && forall i :: 0 <= i < |parts| ==> parts[i] == fs[|fs| - |parts| + i].audio
  }

  lemma {:induction false} ConcatIsAudio(parts: seq<seq<Sample>>, fs: seq<Frame>)
    requires AreLast(parts, fs)
    ensures Concat(parts) == Audio(fs[|fs| - |parts|..])
  {
    if parts == [] {
      assert fs[|fs|..] == [];
    } else {
      var tail := fs[|fs| - |parts|..];
      ConcatIsAudio(parts[..|parts| - 1], fs[..|fs| - 1]);
      assert tail[..|tail| - 1] == fs[..|fs| - 1][|fs| - |parts|..];
    }
  }

  lemma AudioPush(fs: seq<Frame>, f: Frame)
    ensures Audio(fs + [f]) == Audio(fs) + f.audio
  {
    assert (fs + [f])[..|fs|] == fs;
  }

  /** Joining the held-back frames and the onset frame, and placing them in time. */
  lemma OpeningAudio(parts: seq<seq<Sample>>, fs: seq<Frame>, f: Frame)
    requires AreLast(parts, fs)
    ensures |Concat(parts)| <= |Audio(fs)|
    ensures |Audio((fs + [f])[..|fs| - |parts|])| == |Audio(fs)| - |Concat(parts)|
    ensures Audio((fs + [f])[|fs| - |parts|..|fs| + 1]) == Concat(parts + [f.audio])
  {
    var start := |fs| - |parts|;
    ConcatIsAudio(parts, fs);
    AudioAppend(fs[..start], fs[start..]);
    assert fs[..start] + fs[start..] == fs;
    assert (parts + [f.audio])[..|parts|] == parts;
    assert (fs + [f])[..start] == fs[..start];
    assert (fs + [f])[start..|fs| + 1] == fs[start..] + [f];
    AudioPush(fs[start..], f);
  }

  lemma ContinuedAudio(fs: seq<Frame>, f: Frame, start: nat)
    requires start <= |fs|
    ensures (fs + [f])[..start] == fs[..start]
    ensures Audio((fs + [f])[start..|fs| + 1]) == Audio(fs[start..|fs|]) + f.audio
  {
    assert (fs + [f])[start..|fs| + 1] == fs[start..|fs|] + [f];
    AudioPush(fs[start..|fs|], f);
  }

  lemma QuietPush(fs: seq<Frame>, f: Frame, onset: nat)
    requires onset < |fs|
    ensures Quiet(fs + [f], onset, |fs| + 1) == if f.speech then 0 else Quiet(fs, onset, |fs|) + |f.audio|
  {
    QuietPrefix(fs, f, onset, |fs|);
  }

  lemma KeptPush(fs: seq<Frame>, f: Frame, pos: nat)
    requires pos <= |fs|
    ensures Kept(fs + [f], pos, |fs| + 1) == Min(Kept(fs, pos, |fs|) + 1, Keep(|f.audio|))
  {
    KeptPrefix(fs, f, pos, |fs|);
  }

  // ----- What the streaming state means -----

  /** Nothing is open: the held-back frames are the last silent ones. */
  ghost predicate Resting(fs: seq<Frame>, spans: seq<Span>, preroll: seq<seq<Sample>>) {
    && RestAt(spans, |spans|) <= |fs|
    && |preroll| == Kept(fs, RestAt(spans, |spans|), |fs|)
    && AreLast(preroll, fs)
  }

  /** A segment is open: its audio so far, and the silence at its end. */
  ghost predicate Talking(fs: seq<Frame>, start: nat, onset: nat, current: Segment, quiet: nat) {
    && start <= onset < |fs|
    && current == Render(fs, start, |fs|)
    && quiet == Quiet(fs, onset, |fs|)
  }

  lemma HoldMore(fs: seq<Frame>, f: Frame, spans: seq<Span>, preroll: seq<seq<Sample>>)
    requires Resting(fs, spans, preroll)
    ensures Resting(fs + [f], spans, Trim(preroll + [f.audio], Keep(|f.audio|)))
  {
    KeptPush(fs, f, RestAt(spans, |spans|));
    var held := preroll + [f.audio];
    assert AreLast(held, fs + [f]);
  }

  /** The newest `keep` parts. */
  function Trim(parts: seq<seq<Sample>>, keep: nat): seq<seq<Sample>> {
    if |parts| > keep then parts[|parts| - keep..] else parts
  }

  lemma HoldFrame(fs: seq<Frame>, f: Frame, silence: nat, spans: seq<Span>, preroll: seq<seq<Sample>>)
    requires Greedy(fs, silence, spans, Silent) && Resting(fs, spans, preroll) && !f.speech
    ensures Greedy(fs + [f], silence, spans, Silent)
    ensures Resting(fs + [f], spans, Trim(preroll + [f.audio], Keep(|f.audio|)))
  {
    GreedyGrows(fs, f, silence, spans, Silent, spans, Silent);
    HoldMore(fs, f, spans, preroll);
  }

  lemma OpenFrame(fs: seq<Frame>, f: Frame, silence: nat, spans: seq<Span>, preroll: seq<seq<Sample>>)
    requires Greedy(fs, silence, spans, Silent) && Resting(fs, spans, preroll) && f.speech
    ensures |Concat(preroll)| <= |Audio(fs)|
    ensures Greedy(fs + [f], silence, spans, Speaking(|fs| - |preroll|, |fs|))
    ensures var first := Segment(Max(|Audio(fs)| - |Concat(preroll)|, 0), Concat(preroll + [f.audio]));
            Talking(fs + [f], |fs| - |preroll|, |fs|, first, 0)
  {
    GreedyGrows(fs, f, silence, spans, Silent, spans, Speaking(|fs| - |preroll|, |fs|));
    OpeningAudio(preroll, fs, f);
  }

  lemma ContinueFrame(fs: seq<Frame>, f: Frame, start: nat, onset: nat, current: Segment, quiet: nat)
    requires Talking(fs, start, onset, current, quiet)
    ensures Talking(fs + [f], start, onset, current.(audio := current.audio + f.audio),
                    if f.speech then 0 else quiet + |f.audio|)
  {
    ContinuedAudio(fs, f, start);
    QuietPush(fs, f, onset);
  }

  /** The streaming test for the end of a segment is the greedy one. */
  lemma CloseFrame(fs: seq<Frame>, f: Frame, silence: nat, spans: seq<Span>, start: nat, onset: nat, current: Segment, quiet: nat)
    requires Greedy(fs, silence, spans, Speaking(start, onset)) && onset < |fs|
    requires Talking(fs + [f], start, onset, current, quiet)
    ensures quiet >= silence || |current.audio| >= MAX_SEGMENT ==>
              var spans' := spans + [Span(start, onset, |fs| + 1)];
              Greedy(fs + [f], silence, spans', Silent) && Resting(fs + [f], spans', [])
    ensures !(quiet >= silence || |current.audio| >= MAX_SEGMENT) ==>
              Greedy(fs + [f], silence, spans, Speaking(start, onset))
  {
    if quiet >= silence || |current.audio| >= MAX_SEGMENT {
      GreedyGrows(fs, f, silence, spans, Speaking(start, onset), spans + [Span(start, onset, |fs| + 1)], Silent);
    } else {
      GreedyGrows(fs, f, silence, spans, Speaking(start, onset), spans, Speaking(start, onset));
    }
  }

  class Segmenter {
    const silence: nat
    var current: Option<Segment>
    var quiet: nat
    var clock: nat
    var preroll: seq<seq<Sample>>
    ghost var history: seq<Frame>
    ghost var spans: seq<Span>
    ghost var open: Open

    /** The object's state is the greedy segmentation of everything it was fed. */
    ghost predicate Valid()
      reads this
    {
      && Greedy(history, silence, spans, open)
      && clock == |Audio(history)|
      && match open
         case Silent => current.None? && Resting(history, spans, preroll)
         case Speaking(start, onset) =>
           current.Some? && preroll == [] && Talking(history, start, onset, current.value, quiet)
    }

    constructor (silence: nat)
      ensures Valid() && this.silence == silence && history == [] && spans == []
    {
      this.silence := silence;
      current, quiet, clock, preroll := None, 0, 0, [];
      history, spans, open := [], [], Silent;
    }

    /** A frame while no segment is open. */
    method FeedSilent(frame: Frame)
      requires Valid() && current.None?
      modifies this
      ensures Valid() && history == old(history) + [frame] && spans == old(spans)
    {
      ghost var before := history;
      history := history + [frame];
      AudioPush(before, frame);
      if frame.speech {
        OpenFrame(before, frame, silence, spans, preroll);
        open := Speaking(|before| - |preroll|, |before|);
        current := Some(Segment(Max(clock - |Concat(preroll)|, 0), Concat(preroll + [frame.audio])));
        quiet := 0;
        preroll := [];
      } else {
        HoldFrame(before, frame, silence, spans, preroll);
        preroll := Trim(preroll + [frame.audio], Keep(|frame.audio|));
      }
      clock := clock + |frame.audio|;
    }

    /** Feeds one frame; returns the segment this frame finished, if any. */
    method Feed(frame: Frame) returns (closed: seq<Segment>)
      requires Valid()
      modifies this
      ensures Valid() && history == old(history) + [frame]
      ensures closed == [] ==> spans == old(spans)
      ensures closed != [] ==>
                && open.Silent? && old(open).Speaking? && old(open).start <= |history|
                && spans == old(spans) + [Span(old(open).start, old(open).onset, |history|)]
                && closed == [Render(history, old(open).start, |history|)]
      ensures closed == [] && old(open).Speaking? ==> open == old(open)
    {
      closed := [];
      if current.None? {
        FeedSilent(frame);
        return;
      }
      ghost var before := history;
      history := history + [frame];
      AudioPush(before, frame);
      clock := clock + |frame.audio|;
      ContinueFrame(before, frame, open.start, open.onset, current.value, quiet);
      current := Some(current.value.(audio := current.value.audio + frame.audio));
      quiet := if frame.speech then 0 else quiet + |frame.audio|;
      CloseFrame(before, frame, silence, spans, open.start, open.onset, current.value, quiet);
      if quiet >= silence || |current.value.audio| >= MAX_SEGMENT {
        closed := [current.value];
        current := None;
        spans, open := spans + [Span(open.start, open.onset, |history|)], Silent;
      }
    }
  }
}
