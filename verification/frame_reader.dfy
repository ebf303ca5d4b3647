/**
  Newline-framed requests read from a pipe with a size bound
  (services/asr-worker/asr_worker.py, FrameReader.read and the serving loop).

  The operating system decides how many bytes each read returns; `Source.Read` leaves that
  open. `NextFrame` says what a read must deliver from the bytes alone, so the reader that is
  proved to deliver it cannot depend on how the bytes arrived.
 */
module FrameReading {
  import opened Common

  type Byte = b: int | 0 <= b < 0x100

  const NEWLINE: Byte := 10
  const MAX_FRAME_BYTES := 16 * 1024 * 1024
  const CHUNK := 65536

  datatype Outcome =
    | Frame(bytes: seq<Byte>)
    | EndOfInput
    | TooLarge
    | Truncated
    | Timeout

  // ----- What the bytes say -----

  /** The first newline, or the length when there is none. */
  function FirstNewline(data: seq<Byte>): (n: nat)
    ensures n <= |data|
    ensures forall i :: 0 <= i < n ==> data[i] != NEWLINE
    ensures n < |data| ==> data[n] == NEWLINE
  {
    if data == [] || data[0] == NEWLINE then 0 else 1 + FirstNewline(data[1..])
  }

  lemma FirstNewlineIs(data: seq<Byte>, n: nat)
    requires n <= |data| && (n < |data| ==> data[n] == NEWLINE)
    requires forall i :: 0 <= i < n ==> data[i] != NEWLINE
    ensures FirstNewline(data) == n
  {
  }

  /** What reading one frame off the whole remaining stream must deliver. */
  function NextFrame(data: seq<Byte>): Outcome {
    var n := FirstNewline(data);
    if n < |data| && n <= MAX_FRAME_BYTES then Frame(data[..n])
    else if |data| > MAX_FRAME_BYTES then TooLarge
    else if data == [] then EndOfInput
    else Truncated
  }

  /** A line of at most 16 MiB with its newline, and which of the other outcomes it is where there is none. */
  lemma OutcomeIff(data: seq<Byte>, line: seq<Byte>)
    ensures NextFrame(data) == Frame(line) <==> |line| <= 16_777_216 && 10 !in line && line + [10] <= data
    ensures NextFrame(data) == TooLarge <==> |data| > 16_777_216 && 10 !in data[..16_777_217]
    ensures NextFrame(data) == EndOfInput <==> data == []
    ensures NextFrame(data) == Truncated <==> 0 < |data| <= 16_777_216 && 10 !in data
    ensures NextFrame(data) != Timeout
  {
    var n := FirstNewline(data);
    if n < |data| {
      assert data[..n] + [10] == data[..n + 1];
    }
    if 10 !in line && line + [10] <= data {
      assert data[|line|] == (line + [10])[|line|] && data[..|line|] == (line + [10])[..|line|];
      assert forall i :: 0 <= i < |line| ==> data[i] == line[i];
      FirstNewlineIs(data, |line|);
    }
    if |data| > 16_777_216 {
      var head := data[..16_777_217];
      assert forall i :: 0 <= i < |head| ==> head[i] == data[i];
      assert n <= 16_777_216 && n < |data| ==> head[n] == 10;
    }
    assert n < |data| ==> data[n] in data;
  }

  function Rest(data: seq<Byte>): seq<Byte>
    requires NextFrame(data).Frame?
  {
    data[|NextFrame(data).bytes| + 1..]
  }

  /** A look at the first bytes decides when a newline is among them, or too many are there without one. */
  lemma PrefixDecides(head: seq<Byte>, tail: seq<Byte>)
    ensures FirstNewline(head) < |head| ==> FirstNewline(head + tail) == FirstNewline(head)
    ensures FirstNewline(head) == |head| > MAX_FRAME_BYTES ==> NextFrame(head + tail) == TooLarge
  {
    var n := FirstNewline(head);
    assert forall i :: 0 <= i < |head| ==> (head + tail)[i] == head[i];
    if n < |head| {
      FirstNewlineIs(head + tail, n);
    } else if |head| > MAX_FRAME_BYTES {
      var m := FirstNewline(head + tail);
      assert m >= |head|;
    }
  }

  // ----- The whole conversation -----

  /** The frames delivered before the first outcome that is no frame. */
  function Frames(data: seq<Byte>): seq<seq<Byte>>
    decreases |data|
  {
    var o := NextFrame(data);
    if o.Frame? then [o.bytes] + Frames(Rest(data)) else []
  }

  /** What is left undelivered then. */
  function Leftover(data: seq<Byte>): seq<Byte>
    decreases |data|
  {
    if NextFrame(data).Frame? then Leftover(Rest(data)) else data
  }

  function Join(frames: seq<seq<Byte>>): seq<Byte> {
    if frames == [] then [] else frames[0] + [NEWLINE] + Join(frames[1..])
  }

  predicate IsLine(frame: seq<Byte>) {
    |frame| <= MAX_FRAME_BYTES && NEWLINE !in frame
  }

  lemma FrameIsInFront(data: seq<Byte>)
    requires NextFrame(data).Frame?
    ensures IsLine(NextFrame(data).bytes) && data == NextFrame(data).bytes + [NEWLINE] + Rest(data)
  {
  }

  lemma JoinInFront(frame: seq<Byte>, frames: seq<seq<Byte>>, rest: seq<Byte>)
    ensures Join([frame] + frames) + rest == frame + [NEWLINE] + (Join(frames) + rest)
  {
    assert ([frame] + frames)[1..] == frames;
  }

  /** Delivered frames with their newlines, and the undelivered rest, are the stream: nothing is lost or added. */
  lemma {:induction false} NothingIsLost(data: seq<Byte>)
    ensures Join(Frames(data)) + Leftover(data) == data
    ensures forall i :: 0 <= i < |Frames(data)| ==> IsLine(Frames(data)[i])
    ensures !NextFrame(Leftover(data)).Frame?
    decreases |data|
  {
    var o := NextFrame(data);
    if o.Frame? {
      var rest := Rest(data);
      FrameIsInFront(data);
      NothingIsLost(rest);
      JoinInFront(o.bytes, Frames(rest), Leftover(rest));
    }
  }

  /** A line within the bound at the head of the stream is the next frame. */
  lemma LineIsDelivered(line: seq<Byte>, rest: seq<Byte>)
    requires IsLine(line)
    ensures NextFrame(line + [NEWLINE] + rest) == Frame(line)
    ensures Rest(line + [NEWLINE] + rest) == rest
  {
    var data := line + [NEWLINE] + rest;
    FirstNewlineIs(data, |line|);
    assert data[..|line|] == line;
  }

  /** Any sequence of lines within the bound comes back as sent, whatever cannot be a frame follows. */
  lemma {:induction false} LinesRoundTrip(lines: seq<seq<Byte>>, rest: seq<Byte>)
    requires forall i :: 0 <= i < |lines| ==> IsLine(lines[i])
    requires !NextFrame(rest).Frame?
    ensures Frames(Join(lines) + rest) == lines && Leftover(Join(lines) + rest) == rest
  {
    if lines == [] {
      assert Join(lines) + rest == rest;
    } else {
      var line, later := lines[0], lines[1..];
      var data, after := Join(lines) + rest, Join(later) + rest;
      LinesRoundTrip(later, rest);
      assert lines == [line] + later;
      JoinInFront(line, later, rest);
      LineIsDelivered(line, after);
      assert NextFrame(data) == Frame(line) && Rest(data) == after;
      assert Frames(data) == [line] + Frames(after);
    }
  }

  /** A line over the bound, ended or not, is refused, and is all the reader ever reports from there. */
  lemma OversizedIsRefused(line: seq<Byte>, rest: seq<Byte>)
    requires |line| > MAX_FRAME_BYTES && NEWLINE !in line
    ensures NextFrame(line + rest) == TooLarge
    ensures Frames(line + rest) == [] && Leftover(line + rest) == line + rest
  {
    PrefixDecides(line, rest);
  }

  lemma {:induction false} JoinAppend(frames: seq<seq<Byte>>, frame: seq<Byte>)
    ensures Join(frames + [frame]) == Join(frames) + (frame + [NEWLINE])
  {
    if frames != [] {
      assert (frames + [frame])[1..] == frames[1..] + [frame];
      JoinAppend(frames[1..], frame);
    }
  }

  /** Moving one frame from the stream to the delivered ones. */
  lemma TakeFrame(frames: seq<seq<Byte>>, data: seq<Byte>)
    requires NextFrame(data).Frame?
    ensures var f := NextFrame(data).bytes;
            && Join(frames + [f]) + Rest(data) == Join(frames) + data
            && frames + [f] + Frames(Rest(data)) == frames + Frames(data)
            && Leftover(Rest(data)) == Leftover(data)
  {
    var f := NextFrame(data).bytes;
    JoinAppend(frames, f);
    Regroup(Join(frames), f + [NEWLINE], Rest(data));
    assert data == (f + [NEWLINE]) + Rest(data);
    Regroup(frames, [f], Frames(Rest(data)));
  }

  lemma Regroup<T>(a: seq<T>, b: seq<T>, c: seq<T>)
    ensures a + b + c == a + (b + c)
  {
  }

  // ----- The stream and the reader -----

  ghost predicate AreLines(frames: seq<seq<Byte>>) {
    forall i :: 0 <= i < |frames| ==> IsLine(frames[i])
  }

  /** These frames have been delivered of the stream, and `at` is left. */
  ghost predicate Served(frames: seq<seq<Byte>>, at: seq<Byte>, data: seq<Byte>) {
    && AreLines(frames) && Join(frames) + at == data
    && frames + Frames(at) == Frames(data) && Leftover(at) == Leftover(data)
  }

  lemma NothingServed(data: seq<Byte>)
    ensures Served([], data, data)
  {
  }

  lemma OneMoreServed(frames: seq<seq<Byte>>, at: seq<Byte>, data: seq<Byte>)
    requires Served(frames, at, data) && NextFrame(at).Frame?
    ensures Served(frames + [NextFrame(at).bytes], Rest(at), data)
  {
    TakeFrame(frames, at);
    FrameIsLine(frames, at);
  }

  lemma AllServed(frames: seq<seq<Byte>>, at: seq<Byte>, data: seq<Byte>)
    requires Served(frames, at, data) && !NextFrame(at).Frame?
    ensures frames == Frames(data) && at == Leftover(data)
  {
  }

  lemma FrameIsLine(frames: seq<seq<Byte>>, data: seq<Byte>)
    requires AreLines(frames) && NextFrame(data).Frame?
    ensures AreLines(frames + [NextFrame(data).bytes])
  {
    FrameIsInFront(data);
  }

  /** None of these waits is late. */
  ghost predicate OnTime(late: nat -> bool, first: nat, next: nat) {
    forall n: nat :: first <= n < next ==> !late(n)
  }

  /** The read end of the pipe. */
  class Source {
    var unread: seq<Byte>

    constructor (data: seq<Byte>)
      ensures unread == data
    {
      unread := data;
    }

    /** One read call: at most `limit` bytes, which is never more than 64 KiB, as many as the system likes, and none only at the end of the input. */
    method Read(limit: nat) returns (chunk: seq<Byte>)
      requires 0 < limit <= 65536
      modifies this`unread
      ensures |chunk| <= limit && old(unread) == chunk + unread
      ensures chunk == [] <==> old(unread) == []
    {
      if unread == [] {
        return [];
      }
      var n: nat :| 0 < n <= limit && n <= |unread|;
      chunk := unread[..n];
      unread := unread[n..];
    }
  }

  class FrameReader {
    const source: Source
    var pending: seq<Byte>

    /** Everything not delivered yet, buffered or not. */
    function Remaining(): seq<Byte>
      reads this, source
    {
      pending + source.unread
    }

    ghost predicate Valid()
      reads this
    {
      |pending| <= 16_777_217
    }

    constructor (source: Source)
      ensures Valid() && this.source == source && pending == [] && Remaining() == source.unread
    {
      this.source := source;
      pending := [];
    }

    /**
      Delivers exactly the next frame of the remaining bytes, or the error they call for. With part of a frame at hand a
      wait may be found late; `late` says of every wait, counted from `first`, whether it is, and that alone gives up,
      with everything kept.
     */
    method Read(late: nat -> bool, first: nat) returns (o: Outcome, next: nat)
      requires Valid()
      modifies this`pending, source`unread
      ensures Valid()
      ensures o != Timeout ==> o == NextFrame(old(Remaining()))
      ensures Remaining() == if o.Frame? then Rest(old(Remaining())) else old(Remaining())
      ensures first <= next
      ensures if o == Timeout then first < next && late(next - 1) && OnTime(late, first, next - 1) else OnTime(late, first, next)
      ensures o == Timeout ==> pending != [] && |pending| <= 16_777_216 && forall i :: 0 <= i < |pending| ==> pending[i] != 10
    {
      ghost var data := Remaining();
      next := first;
      while true
        invariant Valid() && Remaining() == data && first <= next
        invariant OnTime(late, first, next)
        decreases |source.unread|
      {
        var newline := FirstNewline(pending);
        PrefixDecides(pending, source.unread);
        if newline < |pending| {
          assert newline <= MAX_FRAME_BYTES;
          o := Frame(pending[..newline]);
          assert o == NextFrame(data);
          pending := pending[newline + 1..];
          assert Remaining() == Rest(data);
          return;
        }
        if |pending| > MAX_FRAME_BYTES {
          return TooLarge, next;
        }
        if pending != [] {
          next := next + 1;
          if late(next - 1) {
            return Timeout, next;
          }
        }
        var chunk := source.Read(Min(CHUNK, MAX_FRAME_BYTES + 1 - |pending|));
        if chunk == [] {
          assert data == pending;
          return if pending != [] then Truncated else EndOfInput, next;
        }
        pending := pending + chunk;
      }
    }

    /** The serving loop: frames until the input ends, an error, or a wait that is found late. */
    method Serve(late: nat -> bool) returns (frames: seq<seq<Byte>>, last: Outcome, waits: nat)
      requires Valid()
      modifies this`pending, source`unread
      ensures Valid() && !last.Frame?
      ensures last != Timeout ==>
                && frames == Frames(old(Remaining()))
                && last == NextFrame(Leftover(old(Remaining())))
                && Remaining() == Leftover(old(Remaining()))
      ensures AreLines(frames) && Join(frames) + Remaining() == old(Remaining())
      ensures if last == Timeout then waits > 0 && late(waits - 1) && OnTime(late, 0, waits - 1) else OnTime(late, 0, waits)
    {
      ghost var data, at := Remaining(), Remaining();
      frames := [];
      NothingServed(data);
      last, waits := Read(late, 0);
      while last.Frame?
        invariant Valid() && Served(frames, at, data)
        invariant last != Timeout ==> last == NextFrame(at)
        invariant Remaining() == if last.Frame? then Rest(at) else at
        invariant if last == Timeout then waits > 0 && late(waits - 1) && OnTime(late, 0, waits - 1) else OnTime(late, 0, waits)
        decreases |Remaining()|, last.Frame?
      {
        OneMoreServed(frames, at, data);
        frames := frames + [last.bytes];
        at := Remaining();
        last, waits := Read(late, waits);
      }
      if last != Timeout {
        AllServed(frames, at, data);
      }
    }
  }
}
