/**
  Feeding a recording through the segmenter into the pipeline (forum_agent/replay.py,
  feed_frame and the replay loop). Clock values are samples fed so far.
 */
module Replay {
  import opened Common
  import opened Segmentation

  const PARTIAL_INTERVAL := 2 * SAMPLE_RATE

  /** A snapshot of the open segment, submitted when the stream stood at `at`, after so many finals. */
  datatype Partial = Partial(segment: Segment, at: nat, finalsBefore: nat)

  /** Same beginning, and no audio the other does not have. */
  predicate IsPrefix(p: Segment, s: Segment) {
    p.tStart == s.tStart && p.audio <= s.audio
  }

  /** What was submitted, oldest first. */
  class Pipeline {
    var finals: seq<Segment>
    var partials: seq<Partial>
    ghost var finalsAt: seq<nat>       // where the stream stood at each final

    constructor ()
      ensures finals == [] && partials == [] && finalsAt == []
    {
      finals, partials, finalsAt := [], [], [];
    }

    method SubmitFinal(s: Segment, ghost at: nat)
      modifies this`finals, this`finalsAt
      ensures finals == old(finals) + [s] && finalsAt == old(finalsAt) + [at]
    {
      finals, finalsAt := finals + [s], finalsAt + [at];
    }

    method SubmitPartial(p: Partial)
      modifies this`partials
      ensures partials == old(partials) + [p]
    {
      partials := partials + [p];
    }
  }

  /** The deadline for the next partial is an interval behind the start, a partial or a final. */
  ghost predicate IsDeadline(partials: seq<Partial>, finalsAt: seq<nat>, next: nat) {
    || next == 32_000
    || (exists i :: 0 <= i < |partials| && next == partials[i].at + 32_000)
    || (exists k :: 0 <= k < |finalsAt| && next == finalsAt[k] + 32_000)
  }

  /** Less than two seconds have passed since the start, a partial or a final. */
  ghost predicate Recent(partials: seq<Partial>, finalsAt: seq<nat>, clock: nat) {
    || clock < 32_000
    || (exists i :: 0 <= i < |partials| && partials[i].at <= clock < partials[i].at + 32_000)
    || (exists k :: 0 <= k < |finalsAt| && finalsAt[k] <= clock < finalsAt[k] + 32_000)
  }

  /** After these frames a segment is open. */
  ghost predicate SpeakingAfter(fs: seq<Frame>, silence: nat) {
    exists spans, start, onset :: Greedy(fs, silence, spans, Speaking(start, onset))
  }

  /** Whenever a segment is open behind a frame, it was submitted less than two seconds ago, or could not be. */
  ghost predicate Prompt(fs: seq<Frame>, silence: nat, partials: seq<Partial>, finalsAt: seq<nat>) {
    forall i :: 0 < i <= |fs| && SpeakingAfter(fs[..i], silence) ==> Recent(partials, finalsAt, |Audio(fs[..i])|)
  }

  lemma RecentLater(partials: seq<Partial>, finalsAt: seq<nat>, partials': seq<Partial>, finalsAt': seq<nat>, clock: nat)
    requires partials <= partials' && finalsAt <= finalsAt' && Recent(partials, finalsAt, clock)
    ensures Recent(partials', finalsAt', clock)
  {
    if i :| 0 <= i < |partials| && partials[i].at <= clock < partials[i].at + 32_000 {
      assert partials'[i] == partials[i];
    } else if k :| 0 <= k < |finalsAt| && finalsAt[k] <= clock < finalsAt[k] + 32_000 {
      assert finalsAt'[k] == finalsAt[k];
    }
  }

  lemma DeadlineIsRecent(partials: seq<Partial>, finalsAt: seq<nat>, next: nat, clock: nat)
    requires IsDeadline(partials, finalsAt, next) && NotAhead(partials, finalsAt, clock) && clock < next
    ensures Recent(partials, finalsAt, clock)
  {
  }

  lemma PromptAfterFeed(fs: seq<Frame>, f: Frame, silence: nat, spans: seq<Span>, open: Open,
                        partials: seq<Partial>, finalsAt: seq<nat>, partials': seq<Partial>, finalsAt': seq<nat>)
    requires Prompt(fs, silence, partials, finalsAt) && partials <= partials' && finalsAt <= finalsAt'
    requires Greedy(fs + [f], silence, spans, open)
    requires open.Speaking? ==> Recent(partials', finalsAt', |Audio(fs + [f])|)
    ensures Prompt(fs + [f], silence, partials', finalsAt')
  {
    var gs := fs + [f];
    forall i | 0 < i <= |gs| && SpeakingAfter(gs[..i], silence)
      ensures Recent(partials', finalsAt', |Audio(gs[..i])|)
    {
      if i <= |fs| {
        assert gs[..i] == fs[..i];
        RecentLater(partials, finalsAt, partials', finalsAt', |Audio(fs[..i])|);
      } else {
        assert gs[..i] == gs;
        var other, start, onset :| Greedy(gs, silence, other, Speaking(start, onset));
        GreedyIsUnique(gs, silence, spans, open, other, Speaking(start, onset));
      }
    }
  }

  /** Exactly the finished segments, in order. */
  ghost predicate FinalsAre(finals: seq<Segment>, fs: seq<Frame>, spans: seq<Span>) {
    && |finals| == |spans|
    && forall k :: 0 <= k < |spans| ==>
         spans[k].start <= spans[k].end <= |fs| && finals[k] == Render(fs, spans[k].start, spans[k].end)
  }

  /** Partials keep their distance from each other and from every earlier final, and the next one will too. */
  ghost predicate Spaced(partials: seq<Partial>, finalsAt: seq<nat>, next: nat) {
    && PARTIAL_INTERVAL <= next
    && (forall i :: 0 <= i < |partials| ==> PARTIAL_INTERVAL <= partials[i].at && partials[i].at + PARTIAL_INTERVAL <= next)
    && (forall k :: 0 <= k < |finalsAt| ==> finalsAt[k] + PARTIAL_INTERVAL <= next)
    && (forall i, j :: 0 <= i < j < |partials| ==> partials[i].at + PARTIAL_INTERVAL <= partials[j].at)
    && (forall i :: 0 <= i < |partials| ==> partials[i].finalsBefore <= |finalsAt|)
    && (forall i, k :: 0 <= i < |partials| && 0 <= k < partials[i].finalsBefore ==>
          finalsAt[k] + PARTIAL_INTERVAL <= partials[i].at)
  }

  ghost predicate PartialsMatch(partials: seq<Partial>, finals: seq<Segment>, current: Option<Segment>) {
    forall i :: 0 <= i < |partials| ==> Matches(partials[i].segment, finals, current)
  }

  lemma FinalsGrow(finals: seq<Segment>, fs: seq<Frame>, spans: seq<Span>, f: Frame)
    requires FinalsAre(finals, fs, spans)
    ensures FinalsAre(finals, fs + [f], spans)
  {
    forall k | 0 <= k < |spans|
      ensures Render(fs + [f], spans[k].start, spans[k].end) == Render(fs, spans[k].start, spans[k].end)
    {
      assert (fs + [f])[..spans[k].start] == fs[..spans[k].start];
      assert (fs + [f])[spans[k].start..spans[k].end] == fs[spans[k].start..spans[k].end];
    }
  }

  /** A segment only grows while it is open, and is submitted as it stands when it ends. */
  ghost predicate Follows(before: Option<Segment>, current: Option<Segment>, closed: seq<Segment>) {
    before.Some? ==>
      if closed == [] then current.Some? && IsPrefix(before.value, current.value)
      else IsPrefix(before.value, closed[0])
  }

  lemma PrefixChain(a: Segment, b: Segment, c: Segment)
    requires IsPrefix(a, b) && IsPrefix(b, c)
    ensures IsPrefix(a, c)
  {
    assert c.audio[..|a.audio|] == b.audio[..|a.audio|];
  }

  /** The partial is the beginning of a final, or of the segment that is open now. */
  ghost predicate Matches(p: Segment, finals: seq<Segment>, current: Option<Segment>) {
    || (current.Some? && IsPrefix(p, current.value))
    || (exists k :: 0 <= k < |finals| && IsPrefix(p, finals[k]))
  }

  lemma MatchesAfterFeed(p: Segment, finals: seq<Segment>, before: Option<Segment>, current: Option<Segment>, closed: seq<Segment>)
    requires Matches(p, finals, before) && Follows(before, current, closed)
    ensures Matches(p, finals + closed, current)
  {
    var longer := finals + closed;
    if before.Some? && IsPrefix(p, before.value) {
      if closed != [] {
        PrefixChain(p, before.value, closed[0]);
        assert IsPrefix(p, longer[|finals|]);
      } else {
        PrefixChain(p, before.value, current.value);
      }
    } else {
      var k :| 0 <= k < |finals| && IsPrefix(p, finals[k]);
      assert IsPrefix(p, longer[k]);
    }
  }

  lemma MatchAfterFeed(partials: seq<Partial>, finals: seq<Segment>, before: Option<Segment>, current: Option<Segment>, closed: seq<Segment>)
    requires PartialsMatch(partials, finals, before) && Follows(before, current, closed)
    ensures PartialsMatch(partials, finals + closed, current)
  {
    forall i | 0 <= i < |partials|
      ensures Matches(partials[i].segment, finals + closed, current)
    {
      MatchesAfterFeed(partials[i].segment, finals, before, current, closed);
    }
  }

  /** What `Valid` says of the open segment and the clock. */
  lemma StreamState(seg: Segmenter)
    requires seg.Valid()
    ensures seg.clock == |Audio(seg.history)|
    ensures seg.current.Some? <==> seg.open.Speaking?
    ensures seg.open.Speaking? ==>
              seg.open.start <= |seg.history| && seg.current == Some(Render(seg.history, seg.open.start, |seg.history|))
  {
  }

  lemma OpenSegmentGrows(fs: seq<Frame>, f: Frame, start: nat)
    requires start <= |fs|
    ensures IsPrefix(Render(fs, start, |fs|), Render(fs + [f], start, |fs| + 1))
  {
    ContinuedAudio(fs, f, start);
  }

  lemma FinalsAfterFeed(finals: seq<Segment>, fs: seq<Frame>, spans: seq<Span>, f: Frame, s: Span)
    requires FinalsAre(finals, fs, spans) && s.start <= s.end == |fs| + 1
    ensures FinalsAre(finals + [Render(fs + [f], s.start, s.end)], fs + [f], spans + [s])
  {
    FinalsGrow(finals, fs, spans, f);
  }

  /** One frame through the segmenter, with what it did to the segment that was open. */
  method FeedSegmenter(seg: Segmenter, frame: Frame, ghost finals: seq<Segment>) returns (closed: seq<Segment>)
    requires seg.Valid() && FinalsAre(finals, seg.history, seg.spans)
    modifies seg
    ensures seg.Valid() && seg.history == old(seg.history) + [frame] && |closed| <= 1
    ensures FinalsAre(finals + closed, seg.history, seg.spans)
    ensures Follows(old(seg.current), seg.current, closed)
    ensures seg.clock == old(seg.clock) + |frame.audio|
  {
    StreamState(seg);
    ghost var fs, spans, open := seg.history, seg.spans, seg.open;
    closed := seg.Feed(frame);
    StreamState(seg);
    AudioPush(fs, frame);
    if open.Speaking? {
      OpenSegmentGrows(fs, frame, open.start);
    }
    FinalsAfterFrame(finals, fs, spans, frame, open, closed, seg.spans);
  }

  lemma FinalsAfterFrame(finals: seq<Segment>, fs: seq<Frame>, spans: seq<Span>, frame: Frame, open: Open, closed: seq<Segment>, spans': seq<Span>)
    requires FinalsAre(finals, fs, spans)
    requires closed == [] ==> spans' == spans
    requires closed != [] ==>
               && open.Speaking? && open.start <= |fs| + 1 && spans' == spans + [Span(open.start, open.onset, |fs| + 1)]
               && closed == [Render(fs + [frame], open.start, |fs| + 1)]
    ensures FinalsAre(finals + closed, fs + [frame], spans')
  {
    if closed == [] {
      FinalsGrow(finals, fs, spans, frame);
      assert finals + closed == finals;
    } else {
      FinalsAfterFeed(finals, fs, spans, frame, Span(open.start, open.onset, |fs| + 1));
    }
  }

  lemma SpacedAfterFinal(partials: seq<Partial>, finalsAt: seq<nat>, next: nat, at: nat)
    requires Spaced(partials, finalsAt, next)
    requires forall i :: 0 <= i < |partials| ==> partials[i].at <= at
    requires forall k :: 0 <= k < |finalsAt| ==> finalsAt[k] <= at
    ensures Spaced(partials, finalsAt + [at], at + PARTIAL_INTERVAL)
  {
  }

  lemma SpacedAfterPartial(partials: seq<Partial>, finalsAt: seq<nat>, next: nat, p: Partial)
    requires Spaced(partials, finalsAt, next) && next <= p.at && p.finalsBefore == |finalsAt|
    ensures Spaced(partials + [p], finalsAt, p.at + PARTIAL_INTERVAL)
  {
  }

  /** Nothing was submitted later than the stream stands. */
  ghost predicate NotAhead(partials: seq<Partial>, finalsAt: seq<nat>, clock: nat) {
    && (forall i :: 0 <= i < |partials| ==> partials[i].at <= clock)
    && (forall k :: 0 <= k < |finalsAt| ==> finalsAt[k] <= clock)
  }

  ghost predicate Consistent(pipe: Pipeline, seg: Segmenter, next: nat)
    reads pipe, seg
  {
    && seg.Valid()
    && FinalsAre(pipe.finals, seg.history, seg.spans)
    && |pipe.finalsAt| == |pipe.finals|
    && Spaced(pipe.partials, pipe.finalsAt, next)
    && IsDeadline(pipe.partials, pipe.finalsAt, next)
    && NotAhead(pipe.partials, pipe.finalsAt, seg.clock)
    && PartialsMatch(pipe.partials, pipe.finals, seg.current)
  }

  /** A finished segment goes to the pipeline, and the next partial waits. */
  method SubmitClosed(pipe: Pipeline, seg: Segmenter, closed: Segment, next: nat) returns (next': nat)
    requires seg.Valid() && FinalsAre(pipe.finals + [closed], seg.history, seg.spans)
    requires |pipe.finalsAt| == |pipe.finals| && Spaced(pipe.partials, pipe.finalsAt, next)
    requires NotAhead(pipe.partials, pipe.finalsAt, seg.clock)
    requires PartialsMatch(pipe.partials, pipe.finals + [closed], seg.current)
    modifies pipe
    ensures Consistent(pipe, seg, next') && pipe.finals == old(pipe.finals) + [closed] && pipe.partials == old(pipe.partials)
    ensures pipe.finalsAt == old(pipe.finalsAt) + [seg.clock] && next' == seg.clock + 32_000
  {
    SpacedAfterFinal(pipe.partials, pipe.finalsAt, next, seg.clock);
    pipe.SubmitFinal(closed, seg.clock);
    assert pipe.finalsAt[|pipe.finalsAt| - 1] == seg.clock;
    next' := seg.clock + PARTIAL_INTERVAL;
  }

  /** A snapshot of the open segment goes to the pipeline, and the next one waits. */
  method SubmitOpen(pipe: Pipeline, seg: Segmenter, next: nat) returns (next': nat)
    requires Consistent(pipe, seg, next) && seg.current.Some? && seg.clock >= next
    modifies pipe
    ensures Consistent(pipe, seg, next') && pipe.finals == old(pipe.finals)
    ensures pipe.partials == old(pipe.partials) + [Partial(seg.current.value, seg.clock, |pipe.finals|)]
    ensures pipe.finalsAt == old(pipe.finalsAt) && next' == seg.clock + 32_000
  {
    var p := Partial(seg.current.value, seg.clock, |pipe.finals|);
    SpacedAfterPartial(pipe.partials, pipe.finalsAt, next, p);
    pipe.SubmitPartial(p);
    assert pipe.partials[|pipe.partials| - 1] == p;
    next' := seg.clock + PARTIAL_INTERVAL;
  }

  /**
    One frame. A segment it ends is submitted, and a segment that is open then is submitted as it stands exactly when the
    clock has reached the deadline; either puts the deadline two seconds behind the clock.
   */
  method FeedFrame(pipe: Pipeline, seg: Segmenter, frame: Frame, next: nat) returns (next': nat)
    requires Consistent(pipe, seg, next)
    modifies pipe, seg
    ensures Consistent(pipe, seg, next') && seg.history == old(seg.history) + [frame]
    ensures seg.clock == old(seg.clock) + |frame.audio|
    ensures
      var ended := |pipe.finals| > |old(pipe.finals)|;
      var due := seg.current.Some? && seg.clock >= if ended then seg.clock + 32_000 else next;
      && pipe.finals == (if ended then old(pipe.finals) + [pipe.finals[|old(pipe.finals)|]] else old(pipe.finals))
      && pipe.finalsAt == (if ended then old(pipe.finalsAt) + [seg.clock] else old(pipe.finalsAt))
      && pipe.partials
         == (if due then old(pipe.partials) + [Partial(seg.current.value, seg.clock, |pipe.finals|)] else old(pipe.partials))
      && next' == if ended || due then seg.clock + 32_000 else next
  {
    ghost var before := seg.current;
    next' := next;
    var closed := FeedSegmenter(seg, frame, pipe.finals);
    MatchAfterFeed(pipe.partials, pipe.finals, before, seg.current, closed);
    if closed != [] {
      assert closed == [closed[0]];
      next' := SubmitClosed(pipe, seg, closed[0], next);
    } else {
      assert pipe.finals + closed == pipe.finals;
    }
    if seg.current.Some? && seg.clock >= next' {
      next' := SubmitOpen(pipe, seg, next');
    }
  }

  lemma PromptAfterFrame(pipe: Pipeline, seg: Segmenter, fs: seq<Frame>, frame: Frame, next: nat, partials: seq<Partial>, finalsAt: seq<nat>)
    requires Consistent(pipe, seg, next) && seg.history == fs + [frame]
    requires Prompt(fs, seg.silence, partials, finalsAt) && partials <= pipe.partials && finalsAt <= pipe.finalsAt
    requires seg.current.Some? ==> seg.clock < next
    ensures Prompt(seg.history, seg.silence, pipe.partials, pipe.finalsAt)
  {
    StreamState(seg);
    if seg.open.Speaking? {
      DeadlineIsRecent(pipe.partials, pipe.finalsAt, next, seg.clock);
    }
    PromptAfterFeed(fs, frame, seg.silence, seg.spans, seg.open, partials, finalsAt, pipe.partials, pipe.finalsAt);
  }

  method FeedPromptly(pipe: Pipeline, seg: Segmenter, frame: Frame, next: nat) returns (next': nat)
    requires Consistent(pipe, seg, next) && Prompt(seg.history, seg.silence, pipe.partials, pipe.finalsAt)
    modifies pipe, seg
    ensures Consistent(pipe, seg, next') && seg.history == old(seg.history) + [frame]
    ensures Prompt(seg.history, seg.silence, pipe.partials, pipe.finalsAt)
  {
    ghost var fs, partials, finalsAt := seg.history, pipe.partials, pipe.finalsAt;
    next' := FeedFrame(pipe, seg, frame, next);
    PromptAfterFrame(pipe, seg, fs, frame, next', partials, finalsAt);
  }

  /** What a whole replay has submitted, told without the stream: one final for each greedy segment. */
  ghost predicate Replayed(fs: seq<Frame>, silence: nat, spans: seq<Span>, open: Open, finals: seq<Segment>, partials: seq<Partial>) {
    && Greedy(fs, silence, spans, open)
    && |spans| <= |finals|
    && FinalsAre(finals[..|spans|], fs, spans)
    && (open.Silent? ==> |finals| == |spans|)
    && (open.Speaking? ==>
          open.start <= |fs| && |finals| == |spans| + 1 && finals[|spans|] == Render(fs, open.start, |fs|))
    && PartialsMatch(partials, finals, None)
  }

  /** At the end of the recording the segment that is still open is submitted as it stands. */
  method Finish(pipe: Pipeline, seg: Segmenter, next: nat)
    requires Consistent(pipe, seg, next)
    modifies pipe
    ensures Prompt(seg.history, seg.silence, old(pipe.partials), old(pipe.finalsAt)) ==>
              Prompt(seg.history, seg.silence, pipe.partials, pipe.finalsAt)
    ensures Replayed(seg.history, seg.silence, seg.spans, seg.open, pipe.finals, pipe.partials)
    ensures |seg.spans| <= |pipe.finalsAt| && Spaced(pipe.partials, pipe.finalsAt[..|seg.spans|], next)
  {
    StreamState(seg);
    ghost var finals, finalsAt := pipe.finals, pipe.finalsAt;
    if seg.current.Some? {
      MatchAfterFeed(pipe.partials, finals, seg.current, None, [seg.current.value]);
      pipe.SubmitFinal(seg.current.value, seg.clock);
    }
    assert pipe.finals[..|finals|] == finals && pipe.finalsAt[..|finals|] == finalsAt;
    PromptLater(seg.history, seg.silence, pipe.partials, finalsAt, pipe.finalsAt);
  }

  lemma PromptLater(fs: seq<Frame>, silence: nat, partials: seq<Partial>, finalsAt: seq<nat>, finalsAt': seq<nat>)
    requires finalsAt <= finalsAt'
    ensures Prompt(fs, silence, partials, finalsAt) ==> Prompt(fs, silence, partials, finalsAt')
  {
    if Prompt(fs, silence, partials, finalsAt) {
      forall i | 0 < i <= |fs| && SpeakingAfter(fs[..i], silence)
        ensures Recent(partials, finalsAt', |Audio(fs[..i])|)
      {
        RecentLater(partials, finalsAt, partials, finalsAt', |Audio(fs[..i])|);
      }
    }
  }

  method FeedAll(pipe: Pipeline, seg: Segmenter, frames: seq<Frame>, stopAt: nat) returns (deadline: nat)
    requires Consistent(pipe, seg, PARTIAL_INTERVAL) && seg.history == []
    modifies pipe, seg
    ensures Consistent(pipe, seg, deadline) && seg.history == frames[..Min(stopAt, |frames|)]
    ensures Prompt(seg.history, seg.silence, pipe.partials, pipe.finalsAt)
  {
    deadline := PARTIAL_INTERVAL;
    var i := 0;
    while i < |frames| && i < stopAt
      invariant 0 <= i <= |frames| && i <= stopAt
      invariant Consistent(pipe, seg, deadline) && seg.history == frames[..i]
      invariant Prompt(seg.history, seg.silence, pipe.partials, pipe.finalsAt)
    {
      assert frames[..i] + [frames[i]] == frames[..i + 1];
      deadline := FeedPromptly(pipe, seg, frames[i], deadline);
      i := i + 1;
    }
    assert i == Min(stopAt, |frames|);
  }

  /**
    The replay loop. `stopAt` is where the stop event ends it. The finals are the greedy
    segments of what was fed, with the last one cut where the feed ended; each partial is the
    beginning of one of them, and keeps its distance from earlier partials and finals.
   */
  method RunReplay(frames: seq<Frame>, silence: nat, stopAt: nat)
    returns (pipe: Pipeline, ghost spans: seq<Span>, ghost open: Open, ghost next: nat)
    ensures Replayed(frames[..Min(stopAt, |frames|)], silence, spans, open, pipe.finals, pipe.partials)
    ensures |spans| <= |pipe.finalsAt| && Spaced(pipe.partials, pipe.finalsAt[..|spans|], next)
    ensures Prompt(frames[..Min(stopAt, |frames|)], silence, pipe.partials, pipe.finalsAt)
  {
    pipe := new Pipeline();
    var seg := new Segmenter(silence);
    var deadline := FeedAll(pipe, seg, frames, stopAt);
    spans, open, next := seg.spans, seg.open, deadline;
    Finish(pipe, seg, deadline);
  }

  /** Frames of final `k`: a finished segment, or the open one to the end of the feed. */
  predicate InFinal(fs: seq<Frame>, spans: seq<Span>, open: Open, k: nat, i: nat) {
    if k < |spans| then Covers(spans[k], i) else k == |spans| && i < |fs| && TailCovers(open, i)
  }

  /** Every speech frame that was fed is in exactly one final. */
  lemma SpeechIsInOneFinal(fs: seq<Frame>, silence: nat, spans: seq<Span>, open: Open, finals: seq<Segment>, partials: seq<Partial>, i: nat)
    requires Replayed(fs, silence, spans, open, finals, partials)
    requires i < |fs| && fs[i].speech
    ensures exists k :: 0 <= k < |finals| && InFinal(fs, spans, open, k, i)
    ensures forall j, k :: 0 <= j < k < |finals| ==> !(InFinal(fs, spans, open, j, i) && InFinal(fs, spans, open, k, i))
  {
    SpeechIsCovered(fs, silence, spans, open, i);
    if TailCovers(open, i) {
      assert InFinal(fs, spans, open, |spans|, i);
    } else {
      var j :| 0 <= j < |spans| && Covers(spans[j], i);
      assert InFinal(fs, spans, open, j, i);
    }
    forall j, k | 0 <= j < k < |finals| && InFinal(fs, spans, open, j, i)
      ensures !InFinal(fs, spans, open, k, i)
    {
      SegmentsAreDisjoint(fs, silence, spans, open, i, j, k);
    }
  }
}
