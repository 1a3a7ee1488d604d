/** The one-slot queue between a job's events and one listening stream: a new
    event replaces an unread one, but never an unread terminal one. */
module Subscriber {

  datatype Event = Event(id: nat, terminal: bool)

  /** `queue` is the slot; the rest is history: everything published, what was
      published since the last read, and what was read. */
  datatype State = State(queue: seq<Event>, published: seq<Event>, unread: seq<Event>, read: seq<Event>)

  datatype Step = Publish(event: Event) | Read

  /** What `publish` leaves in the slot. */
  function Published(queue: seq<Event>, event: Event): seq<Event> {
    if !event.terminal && queue != [] && queue[0].terminal then queue else [event]
  }

  function Init(): State {
    State([], [], [], [])
  }

  predicate Enabled(s: State, step: Step) {
    step.Read? ==> s.queue != []
  }

  function Next(s: State, step: Step): State
    requires Enabled(s, step)
  {
    match step
    case Publish(e) => State(Published(s.queue, e), s.published + [e], s.unread + [e], s.read)
    case Read => State(s.queue[1..], s.published, [], s.read + [s.queue[0]])
  }

  predicate Run(steps: seq<Step>)
    decreases |steps|, 0
  {
    steps == [] || (Run(steps[..|steps| - 1]) && Enabled(After(steps[..|steps| - 1]), steps[|steps| - 1]))
  }

  function After(steps: seq<Step>): State
    requires Run(steps)
    decreases |steps|, 1
  {
    if steps == [] then Init() else Next(After(steps[..|steps| - 1]), steps[|steps| - 1])
  }

  // ----- what the slot holds -----

  /** The last terminal event published since the last read or, when there was
      none, the last event. */
  predicate Newest(unread: seq<Event>, i: nat)
    requires i < |unread|
  {
    if unread[i].terminal then forall j | i < j < |unread| :: !unread[j].terminal
    else i == |unread| - 1 && forall j | 0 <= j < |unread| :: !unread[j].terminal
  }

  ghost predicate SlotOk(s: State) {
    if s.unread == [] then s.queue == []
    else |s.queue| == 1 && exists i | 0 <= i < |s.unread| :: Newest(s.unread, i) && s.queue[0] == s.unread[i]
  }

  lemma PublishKeepsSlot(s: State, e: Event)
    requires SlotOk(s)
    ensures SlotOk(Next(s, Publish(e)))
  {
    var t := Next(s, Publish(e));
    if t.queue == [e] && (e.terminal || s.unread == [] || !s.queue[0].terminal) {
      if s.unread != [] && !e.terminal {
        var i :| 0 <= i < |s.unread| && Newest(s.unread, i) && s.queue[0] == s.unread[i];
      }
      assert Newest(t.unread, |t.unread| - 1);
    } else {
      var i :| 0 <= i < |s.unread| && Newest(s.unread, i) && s.queue[0] == s.unread[i];
      assert Newest(t.unread, i);
    }
  }

  lemma {:induction false} RunKeepsSlot(steps: seq<Step>)
    requires Run(steps)
    ensures SlotOk(After(steps))
  {
    if steps != [] {
      RunKeepsSlot(steps[..|steps| - 1]);
      match steps[|steps| - 1]
      case Publish(e) => PublishKeepsSlot(After(steps[..|steps| - 1]), e);
      case Read =>
    }
  }

  /** Once a terminal event is published, whatever progress follows, the next
      read finds an event and a terminal one, and always the newest such. */
  lemma TerminalIsReadNext(steps: seq<Step>)
    requires Run(steps) && exists e | e in After(steps).unread :: e.terminal
    ensures Enabled(After(steps), Read) && After(steps).queue[0].terminal
    ensures exists i | 0 <= i < |After(steps).unread| ::
      Newest(After(steps).unread, i) && After(steps).queue[0] == After(steps).unread[i]
  {
    RunKeepsSlot(steps);
  }

  // ----- reads are a subsequence of publishes -----

  predicate Subsequence(a: seq<Event>, b: seq<Event>)
    decreases |b|
  {
    if a == [] then true
    else if b == [] then false
    else if a[|a| - 1] == b[|b| - 1] then Subsequence(a[..|a| - 1], b[..|b| - 1])
    else Subsequence(a, b[..|b| - 1])
  }

  lemma {:induction false} ShorterIsSubsequence(a: seq<Event>, b: seq<Event>)
    requires Subsequence(a, b) && a != []
    ensures Subsequence(a[..|a| - 1], b)
    decreases |b|
  {
    var c := a[..|a| - 1];
    if c != [] {
      if a[|a| - 1] == b[|b| - 1] {
        if c[|c| - 1] == b[|b| - 1] {
          ShorterIsSubsequence(c, b[..|b| - 1]);
        }
      } else {
        ShorterIsSubsequence(a, b[..|b| - 1]);
        if c[|c| - 1] == b[|b| - 1] {
          ShorterIsSubsequence(c, b[..|b| - 1]);
        }
      }
    }
  }

  lemma LongerIsSupersequence(a: seq<Event>, b: seq<Event>, e: Event)
    requires Subsequence(a, b)
    ensures Subsequence(a, b + [e])
  {
    assert (b + [e])[..|b|] == b;
    if a != [] && a[|a| - 1] == e {
      ShorterIsSubsequence(a, b);
    }
  }

  lemma BothLonger(a: seq<Event>, b: seq<Event>, e: Event)
    requires Subsequence(a, b)
    ensures Subsequence(a + [e], b + [e])
  {
    assert (a + [e])[..|a|] == a && (b + [e])[..|b|] == b;
  }

  /** What a stream has read, followed by what waits for it, is a subsequence of
      what was published: nothing invented, repeated or reordered. */
  lemma {:induction false} ReadsFollowPublishes(steps: seq<Step>)
    requires Run(steps)
    ensures Subsequence(After(steps).read + After(steps).queue, After(steps).published)
    ensures Subsequence(After(steps).read, After(steps).published)
  {
    if steps != [] {
      ReadsFollowPublishes(steps[..|steps| - 1]);
      RunKeepsSlot(steps[..|steps| - 1]);
      StepFollows(After(steps[..|steps| - 1]), steps[|steps| - 1]);
    }
  }

  lemma StepFollows(s: State, step: Step)
    requires SlotOk(s) && Enabled(s, step)
    requires Subsequence(s.read + s.queue, s.published) && Subsequence(s.read, s.published)
    ensures Subsequence(Next(s, step).read + Next(s, step).queue, Next(s, step).published)
    ensures Subsequence(Next(s, step).read, Next(s, step).published)
  {
    var t := Next(s, step);
    match step
    case Publish(e) =>
      LongerIsSupersequence(s.read, s.published, e);
      if t.queue == s.queue {
        LongerIsSupersequence(s.read + s.queue, s.published, e);
      } else {
        BothLonger(s.read, s.published, e);
      }
    case Read =>
      assert t.read + t.queue == s.read + s.queue == t.read;
  }

  // ----- the queue, updated in place -----

  class Slot {
    var items: seq<Event>

    constructor ()
      ensures items == []
    {
      items := [];
    }

    /** One listener's share of `publish`: drain for a terminal event, or retry
        until there is room or an unread terminal event is found. */
    method Deliver(event: Event)
      requires |items| <= 1
      modifies this
      ensures items == Published(old(items), event)
    {
      if event.terminal {
        while items != []
          decreases |items|
        {
          items := items[1..];
        }
        items := [event];
        return;
      }
      while items != []
        invariant items == old(items) || items == []
        invariant items == [] && old(items) != [] ==> !old(items)[0].terminal
        invariant |items| <= 1
        decreases |items|
      {
        var queued := items[0];
        items := items[1..];
        if queued.terminal {
          items := [queued];
          return;
        }
      }
      items := [event];
    }
  }
}
