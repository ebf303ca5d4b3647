/**
  The one-slot status mailbox and the lifecycle callback (desktop/forum-shell/src/runtime.rs,
  publish_event and emit_runtime_event).

  One thread publishes. Between any two of its channel operations another thread may drain the
  slot or install a callback; `Others` stands for that thread, and callers know of it only what
  its contract says.
 */
module EventMailbox {
  import opened Common

  datatype Event =
    | Started(session: nat)
    | Draining(text: nat)
    | Degraded(text: nat)
    | Stopped(stopped: nat, incomplete: bool, pending: nat)
    | ShutdownFailed(text: nat)
    | Error(text: nat)

  predicate IsLifecycle(e: Event) {
    e.Started? || e.Stopped?
  }

  function Lifecycle(events: seq<Event>): seq<Event> {
    if events == [] then []
    else
      var e := events[|events| - 1];
      Lifecycle(events[..|events| - 1]) + if IsLifecycle(e) then [e] else []
  }

  /** `s` is what remains of `t` after leaving some elements out. */
  predicate Subsequence<T(==)>(s: seq<T>, t: seq<T>) {
    s == []
    || (t != [] && if s[|s| - 1] == t[|t| - 1] then Subsequence(s[..|s| - 1], t[..|t| - 1])
                   else Subsequence(s, t[..|t| - 1]))
  }

  /** These places of `t`, in order, hold the elements of `s`. */
  ghost predicate Places<T(!new)>(s: seq<T>, t: seq<T>, at: seq<nat>) {
    && |at| == |s|
    && (forall i, j :: 0 <= i < j < |at| ==> at[i] < at[j])
    && (forall i :: 0 <= i < |at| ==> at[i] < |t| && t[at[i]] == s[i])
  }

  /** A subsequence has a place in the other for each of its elements. */
  lemma {:induction false} SubsequenceHasPlaces<T(!new)>(s: seq<T>, t: seq<T>) returns (at: seq<nat>)
    requires Subsequence(s, t)
    ensures Places(s, t, at)
    decreases |t|
  {
    if s == [] {
      at := [];
    } else {
      var n, last := |s| - 1, |t| - 1;
      if s[n] == t[last] {
        var front := SubsequenceHasPlaces(s[..n], t[..last]);
        at := front + [last];
      } else {
        at := SubsequenceHasPlaces(s, t[..last]);
      }
    }
  }

  lemma {:induction false} PlacesMakeSubsequence<T(!new)>(s: seq<T>, t: seq<T>, at: seq<nat>)
    requires Places(s, t, at)
    ensures Subsequence(s, t)
    decreases |t|
  {
    if s != [] {
      var n, last := |s| - 1, |t| - 1;
      assert at[n] <= last;
      if s[n] == t[last] {
        assert Places(s[..n], t[..last], at[..n]);
        PlacesMakeSubsequence(s[..n], t[..last], at[..n]);
      } else {
        assert Places(s, t[..last], at);
        PlacesMakeSubsequence(s, t[..last], at);
      }
    }
  }

  /** What leaving out means: the elements that remain stand in the other sequence in the same order. */
  lemma SubsequenceIff<T(!new)>(s: seq<T>, t: seq<T>)
    ensures Subsequence(s, t) <==> exists at :: Places(s, t, at)
  {
    if Subsequence(s, t) {
      var at := SubsequenceHasPlaces(s, t);
    }
    if at :| Places(s, t, at) {
      PlacesMakeSubsequence(s, t, at);
    }
  }

  lemma {:induction false} SubsequenceDropLast<T>(s: seq<T>, t: seq<T>)
    requires s != [] && Subsequence(s, t)
    ensures Subsequence(s[..|s| - 1], t)
    decreases |t|, 0
  {
    var s', t' := s[..|s| - 1], t[..|t| - 1];
    if s[|s| - 1] != t[|t| - 1] {
      SubsequenceDropLast(s, t');
    }
    SubsequenceLonger(s', t', t[|t| - 1]);
    assert t' + [t[|t| - 1]] == t;
  }

  lemma {:induction false} SubsequenceLonger<T>(s: seq<T>, t: seq<T>, e: T)
    requires Subsequence(s, t)
    ensures Subsequence(s, t + [e])
    decreases |t|, 1
  {
    assert (t + [e])[..|t|] == t;
    if s != [] && s[|s| - 1] == e {
      SubsequenceDropLast(s, t);
    }
  }

  lemma SubsequenceBoth<T>(s: seq<T>, t: seq<T>, e: T)
    requires Subsequence(s, t)
    ensures Subsequence(s + [e], t + [e])
  {
    assert (s + [e])[..|s|] == s && (t + [e])[..|t|] == t;
  }

  lemma LifecycleAppend(events: seq<Event>, e: Event)
    ensures Lifecycle(events + [e]) == Lifecycle(events) + if e.Started? || e.Stopped? then [e] else []
  {
    assert (events + [e])[..|events|] == events;
  }

  class Bus {
    var slot: Option<Event>
    var handler: Option<nat>
    ghost var consumed: seq<Event>     // what the draining thread has taken
    ghost var published: seq<Event>    // publishes that have completed
    ghost var emitted: seq<Event>      // events that reached the callback stage
    ghost var missed: nat              // events emitted before a callback was first installed
    ghost var seen: seq<Event>         // events handed to the installed callback

    /** Everything the reader has or can still get, in order. */
    ghost function Visible(): seq<Event>
      reads this
    {
      if slot.Some? then consumed + [slot.value] else consumed
    }

    ghost predicate InOrder()
      reads this
    {
      Subsequence(Visible(), published)
    }

    ghost predicate Latest()
      reads this
    {
      published != [] ==> Visible() != [] && Visible()[|Visible()| - 1] == published[|published| - 1]
    }

    ghost predicate CallbackExact()
      reads this
    {
      && missed <= |emitted|
      && seen == if handler.Some? then Lifecycle(emitted[missed..]) else []
    }

    ghost predicate Valid()
      reads this
    {
      InOrder() && Latest() && CallbackExact()
    }

    constructor ()
      ensures Valid() && published == emitted == consumed == seen == []
    {
      slot, handler := None, None;
      consumed, published, emitted, seen := [], [], [], [];
      missed := 0;
    }

    /** The draining thread takes what is there. */
    method PollEvents() returns (events: seq<Event>)
      modifies this`slot, this`consumed
      ensures slot == None && consumed == old(Visible()) && old(consumed) + events == consumed
    {
      events := if slot.Some? then [slot.value] else [];
      consumed := consumed + events;
      slot := None;
    }

    method SetLifecycleHandler(h: nat)
      requires CallbackExact()
      modifies this`handler, this`missed
      ensures handler == Some(h) && CallbackExact()
      ensures missed == if old(handler).None? then |emitted| else old(missed)
    {
      if handler.None? {
        missed := |emitted|;
      }
      handler := Some(h);
    }

    /** Whatever the other thread did since the last step: drained the slot, installed a callback, or nothing. */
    method Others()
      requires CallbackExact()
      modifies this`slot, this`consumed, this`handler, this`missed
      ensures CallbackExact() && Visible() == old(Visible()) && (slot == old(slot) || slot == None)
      ensures old(consumed) <= consumed
      ensures old(handler).Some? ==> handler.Some? && missed == old(missed)
      ensures old(handler).None? && handler.None? ==> missed == old(missed)
    {
    }

    /** One try_send; a full slot is reported back. */
    method TrySend(e: Event) returns (sent: bool)
      requires InOrder()
      modifies this`slot, this`published
      ensures sent == old(slot).None?
      ensures sent ==> slot == Some(e) && published == old(published) + [e] && InOrder() && Latest()
      ensures !sent ==> slot == old(slot) && published == old(published)
    {
      sent := slot.None?;
      if sent {
        SubsequenceBoth(consumed, published, e);
        slot := Some(e);
        published := published + [e];
      }
    }

    /** The publisher makes room by taking the oldest event itself; it may find the slot already empty. */
    method DropOldest()
      requires InOrder()
      modifies this`slot
      ensures slot == None && InOrder() && consumed == old(consumed)
    {
      if slot.Some? {
        SubsequenceDropLast(Visible(), published);
        assert Visible()[..|Visible()| - 1] == consumed;
      }
      slot := None;
    }

    /**
      The publishing loop ends, whatever the reader does, and the newest event is what the reader gets last. At most one
      event is lost by it: the one in the slot, if the reader does not get it in time.
     */
    method PublishEvent(e: Event)
      requires Valid()
      modifies this`slot, this`consumed, this`published, this`handler, this`missed
      ensures Valid() && slot == Some(e) && published == old(published) + [e]
      ensures Visible() == old(Visible()) + [e] || (old(slot).Some? && Visible() == old(consumed) + [e])
      ensures old(consumed) <= consumed
      ensures old(handler).Some? ==> handler.Some? && missed == old(missed)
    {
      ghost var visible, taken, full := Visible(), consumed, slot.Some?;
      while true
        invariant InOrder() && CallbackExact()
        invariant published == old(published) && old(consumed) <= consumed
        invariant Visible() == visible || (full && slot.None? && consumed == taken)
        invariant old(handler).Some? ==> handler.Some? && missed == old(missed)
        decreases if slot.Some? then 1 else 0
      {
        Others();
        var sent := TrySend(e);
        if sent {
          return;
        }
        Others();
        DropOldest();
      }
    }

    /** The callback stage: the installed callback, if any, gets the lifecycle events. */
    method Notify(e: Event)
      requires CallbackExact()
      modifies this`seen, this`emitted, this`missed
      ensures CallbackExact() && emitted == old(emitted) + [e]
      ensures handler.Some? ==> missed == old(missed) && seen == old(seen) + if e.Started? || e.Stopped? then [e] else []
    {
      if handler.Some? {
        assert (emitted + [e])[missed..] == emitted[missed..] + [e];
        LifecycleAppend(emitted[missed..], e);
        if IsLifecycle(e) {
          seen := seen + [e];
        }
      } else {
        missed := |emitted| + 1;
      }
      emitted := emitted + [e];
    }

    /** Lifecycle events go to the callback first and never through the lossy slot alone. */
    method Emit(e: Event)
      requires Valid()
      modifies this
      ensures Valid() && slot == Some(e)
      ensures published == old(published) + [e] && emitted == old(emitted) + [e]
      ensures Visible() == old(Visible()) + [e] || (old(slot).Some? && Visible() == old(consumed) + [e])
      ensures old(consumed) <= consumed
      ensures old(handler).Some? ==> handler.Some? && missed == old(missed)
      ensures old(handler).Some? ==> seen == old(seen) + if e.Started? || e.Stopped? then [e] else []
    {
      Others();
      Notify(e);
      PublishEvent(e);
    }
  }
}
