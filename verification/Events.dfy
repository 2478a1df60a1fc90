/** The live event bus and its resumable streams: what a stream delivers, however publishing interleaves with it. */
module Events {
  datatype Maybe<+T> = Nothing | Just(value: T)

  datatype Event = Event(id: nat, kind: string, org: Maybe<string>, charger: Maybe<string>, data: string)

  /** What a listener wants to see (Nothing: everything). */
  datatype Filter = Filter(org: Maybe<string>, charger: Maybe<string>)

  predicate Matches(e: Event, f: Filter) {
    (f.org.Nothing? || e.org == f.org) && (f.charger.Nothing? || e.charger == f.charger)
  }

  /** The events after `after` that a filter lets through, in order. */
  function Matching(all: seq<Event>, f: Filter, after: nat): seq<Event> {
    if all == [] then []
    else
      var e := all[|all| - 1];
      Matching(all[..|all| - 1], f, after) + if e.id > after && Matches(e, f) then [e] else []
  }

  /** The newest `keep` of them: a bounded deque that drops its oldest entries. */
  function Newest(all: seq<Event>, keep: nat): seq<Event> {
    if |all| <= keep then all else all[|all| - keep..]
  }

  // ------------------------------------------------------------------
  // A listener
  // ------------------------------------------------------------------

  /** A listener's queue holds events, and the end marker (Nothing) of a bus that was shut down. */
  datatype Listening = Listening(filter: Filter, queue: seq<Maybe<Event>>, overflowed: bool, closed: bool)

  predicate IsFull(queue: seq<Maybe<Event>>, size: int) {
    0 < size <= |queue|
  }

  /** An event is offered: it joins the queue, or the listener has fallen too far behind and is cut off. */
  function Offered(l: Listening, e: Event, size: int): Listening {
    if !Matches(e, l.filter) || l.overflowed then l
    else if IsFull(l.queue, size) then l.(overflowed := true)
    else l.(queue := l.queue + [Just(e)])
  }

  /** The bus is shut down. */
  function ShutDown(l: Listening, size: int): Listening {
    if IsFull(l.queue, size) then l.(closed := true) else l.(closed := true, queue := l.queue + [Nothing])
  }

  predicate Finished(l: Listening) {
    l.overflowed || l.closed
  }

  /** What a listener has not seen, and whether some of it is gone. */
  datatype Replayed = Replayed(events: seq<Event>, missed: bool)

  function Replay(history: seq<Event>, lastId: nat, f: Filter, after: nat): Replayed {
    var oldest := if history == [] then lastId + 1 else history[0].id;
    Replayed(Matching(history, f, after), after + 1 < oldest || after > lastId)
  }

  // ------------------------------------------------------------------
  // The bus in place
  // ------------------------------------------------------------------

  class Listener {
    const filter: Filter
    var queue: seq<Maybe<Event>>
    var overflowed: bool
    var closed: bool

    constructor (filter: Filter)
      ensures View() == Listening(filter, [], false, false)
    {
      this.filter, queue, overflowed, closed := filter, [], false, false;
    }

    function View(): Listening
      reads this
    {
      Listening(filter, queue, overflowed, closed)
    }

    /** The next queued event or end marker, if there is one (if not, the wait timed out). */
    method Next() returns (item: Maybe<Event>)
      modifies this`queue
      ensures item == (if old(queue) == [] then Nothing else old(queue)[0])
      ensures queue == (if old(queue) == [] then [] else old(queue)[1..])
    {
      if queue == [] {
        return Nothing;
      }
      item := queue[0];
      queue := queue[1..];
    }
  }

  datatype Subscription = Subscribed(listener: Listener) | TooManyListeners | BusClosed

  class EventBus {
    const keep: nat
    const queueSize: int
    const maxListeners: int
    var history: seq<Event>
    var listeners: set<Listener>
    var lastId: nat
    var closed: bool

    constructor (keep: nat, queueSize: int, maxListeners: int)
      ensures history == [] && listeners == {} && lastId == 0 && !closed
      ensures this.keep == keep && this.queueSize == queueSize && this.maxListeners == maxListeners
    {
      this.keep, this.queueSize, this.maxListeners := keep, queueSize, maxListeners;
      history, listeners, lastId, closed := [], {}, 0, false;
    }

    /** A new event: numbered, remembered, and queued for the listeners whose filter it passes. */
    method Publish(kind: string, org: Maybe<string>, charger: Maybe<string>, data: string) returns (event: Event)
      modifies this`lastId, this`history, listeners
      ensures event == Event(old(lastId) + 1, kind, org, charger, data) && lastId == old(lastId) + 1
      ensures history == Newest(old(history) + [event], keep)
      ensures forall l :: l in listeners ==> l.View() == Offered(old(l.View()), event, queueSize)
    {
      lastId := lastId + 1;
      event := Event(lastId, kind, org, charger, data);
      history := history + [event];
      if |history| > keep {
        history := history[|history| - keep..];
      }
      ghost var kept := history;
      var todo := listeners;
      while todo != {}
        invariant todo <= listeners && history == kept && lastId == old(lastId) + 1
        invariant forall l :: l in todo ==> l.View() == old(l.View())
        invariant forall l :: l in listeners && l !in todo ==> l.View() == Offered(old(l.View()), event, queueSize)
        decreases |todo|
      {
        var l :| l in todo;
        todo := todo - {l};
        if Matches(event, l.filter) && !l.overflowed {
          if IsFull(l.queue, queueSize) {
            l.overflowed := true;
          } else {
            l.queue := l.queue + [Just(event)];
          }
        }
      }
    }

    method Subscribe(filter: Filter) returns (s: Subscription)
      modifies this`listeners
      ensures s == BusClosed <==> closed
      ensures s == TooManyListeners <==> !closed && |old(listeners)| >= maxListeners
      ensures s.Subscribed? ==> fresh(s.listener) && s.listener.View() == Listening(filter, [], false, false) && listeners == old(listeners) + {s.listener}
      ensures !s.Subscribed? ==> listeners == old(listeners)
    {
      if closed {
        return BusClosed;
      }
      if |listeners| >= maxListeners {
        return TooManyListeners;
      }
      var l := new Listener(filter);
      listeners := listeners + {l};
      s := Subscribed(l);
    }

    method Unsubscribe(l: Listener)
      modifies this`listeners
      ensures listeners == old(listeners) - {l}
    {
      listeners := listeners - {l};
    }

    /** Shut down: listeners keep what they have queued, and get nothing after it. */
    method Close()
      modifies this`closed, listeners
      ensures closed
      ensures forall l :: l in listeners ==> l.View() == ShutDown(old(l.View()), queueSize)
    {
      closed := true;
      var todo := listeners;
      while todo != {}
        invariant todo <= listeners && closed
        invariant forall l :: l in todo ==> l.View() == old(l.View())
        invariant forall l :: l in listeners && l !in todo ==> l.View() == ShutDown(old(l.View()), queueSize)
        decreases |todo|
      {
        var l :| l in todo;
        todo := todo - {l};
        l.closed := true;
        if !IsFull(l.queue, queueSize) {
          l.queue := l.queue + [Nothing];
        }
      }
    }

    /** Everything after `after` that is still remembered, and whether something has been forgotten. */
    method ReplayAfter(after: nat, filter: Filter) returns (r: Replayed)
      ensures r == Replay(history, lastId, filter, after)
    {
      var events: seq<Event> := [];
      for i := 0 to |history|
        invariant events == Matching(history[..i], filter, after)
      {
        assert history[..i + 1][..i] == history[..i];
        if history[i].id > after && Matches(history[i], filter) {
          events := events + [history[i]];
        }
      }
      assert history[..|history|] == history;
      var oldest := if history == [] then lastId + 1 else history[0].id;
      r := Replayed(events, after < oldest - 1 || after > lastId);
    }
  }

  // ------------------------------------------------------------------
  // One stream among everything else that happens
  // ------------------------------------------------------------------

  /** A stream: events of the history still to be sent, and the last id sent. */
  datatype Stream = Live(past: seq<Event>, sent: nat) | Ended

  /** All events ever published, the remembered ones, the stream's listener, the stream, and what it has delivered. */
  datatype World = World(all: seq<Event>, history: seq<Event>, keep: nat, size: int, listening: Listening, stream: Stream, missed: bool, out: seq<Event>)

  datatype Action =
    | Publishes(kind: string, org: Maybe<string>, charger: Maybe<string>, data: string)
    | Closes
    | Resumes   // the stream delivers its next event, or finds nothing (a keepalive) or the end

  /** A stream that resumes after `after`: it subscribes and reads the history in one go. */
  function Opened(all: seq<Event>, keep: nat, size: int, f: Filter, after: nat): World {
    var r := Replay(Newest(all, keep), |all|, f, after);
    World(all, Newest(all, keep), keep, size, Listening(f, [], false, false), Live(r.events, 0), r.missed, [])
  }

  function Act(w: World, a: Action): World {
    match a
    case Publishes(kind, org, charger, data) =>
      var e := Event(|w.all| + 1, kind, org, charger, data);
      w.(all := w.all + [e], history := Newest(w.history + [e], w.keep), listening := Offered(w.listening, e, w.size))
    case Closes => w.(listening := ShutDown(w.listening, w.size))
    case Resumes => Resume(w)
  }

  function Resume(w: World): World {
    if w.stream.Ended? then w
    else if w.stream.past != [] then
      var e := w.stream.past[0];
      w.(out := w.out + [e], stream := Live(w.stream.past[1..], if e.id > w.stream.sent then e.id else w.stream.sent))
    else if w.listening.queue == [] then (if Finished(w.listening) then w.(stream := Ended) else w)
    else
      var item := w.listening.queue[0];
      var w1 := w.(listening := w.listening.(queue := w.listening.queue[1..]));
      if item.Nothing? then (if Finished(w.listening) then w1.(stream := Ended) else w1)
      else if item.value.id > w.stream.sent then w1.(out := w.out + [item.value], stream := Live([], item.value.id))
      else w1
  }

  function Run(w: World, actions: seq<Action>): World {
    if actions == [] then w else Act(Run(w, actions[..|actions| - 1]), actions[|actions| - 1])
  }

  /** The stream's own steps, in place. */
  class EventStream {
    const listener: Listener
    var past: seq<Event>
    var sent: nat
    var ended: bool

    constructor (listener: Listener, past: seq<Event>)
      ensures this.listener == listener && View() == Live(past, 0)
    {
      this.listener, this.past, sent, ended := listener, past, 0, false;
    }

    function View(): Stream
      reads this
    {
      if ended then Ended else Live(past, sent)
    }

    /** What is sent next: an event, or Nothing (a keepalive, a skipped duplicate, or the end). */
    method Step() returns (delivered: Maybe<Event>)
      requires !ended
      modifies this, listener`queue
      ensures forall w: World :: w.stream == old(View()) && w.listening == old(listener.View()) ==>
        Resume(w) == w.(stream := View(), listening := listener.View(), out := w.out + if delivered.Just? then [delivered.value] else [])
    {
      delivered := Nothing;
      if past != [] {
        delivered := Just(past[0]);
        sent := if past[0].id > sent then past[0].id else sent;
        past := past[1..];
        return;
      }
      var finished := listener.overflowed || listener.closed;
      var queued := listener.Next();
      if queued.Nothing? {
        if finished {
          ended := true;
        }
      } else if queued.value.id > sent {
        sent := queued.value.id;
        delivered := queued;
      }
    }
  }

  // ------------------------------------------------------------------
  // What is missed
  // ------------------------------------------------------------------

  /** Events are numbered 1, 2, 3 ... */
  predicate Numbered(all: seq<Event>) {
    forall i :: 0 <= i < |all| ==> all[i].id == i + 1
  }

  /** `missed` is reported exactly when an event after the client's last id is no longer remembered, or
      there has been no event with that id yet. */
  lemma MissedExactly(all: seq<Event>, keep: nat, f: Filter, after: nat)
    requires Numbered(all)
    ensures Replay(Newest(all, keep), |all|, f, after).missed <==>
            after > |all| || exists i :: 0 <= i < |all| && all[i].id > after && all[i] !in Newest(all, keep)
  {
    var gone := |all| - |Newest(all, keep)|;
    assert forall i :: 0 <= i < |Newest(all, keep)| ==> Newest(all, keep)[i] == all[gone + i];
    forall i | gone <= i < |all| ensures all[i] in Newest(all, keep) {
      assert Newest(all, keep)[i - gone] == all[i];
    }
    forall i | 0 <= i < gone ensures all[i] !in Newest(all, keep) {
      assert all[i].id == i + 1;
    }
    if after + 1 <= gone {
      assert all[gone - 1].id == gone;
    }
  }

  // ------------------------------------------------------------------
  // What is delivered
  // ------------------------------------------------------------------

  lemma {:induction false} MatchingConcat(a: seq<Event>, b: seq<Event>, f: Filter, after: nat)
    ensures Matching(a + b, f, after) == Matching(a, f, after) + Matching(b, f, after)
  {
    if b == [] {
      assert a + b == a;
    } else {
      assert (a + b)[..|a + b| - 1] == a + b[..|b| - 1];
      MatchingConcat(a, b[..|b| - 1], f, after);
    }
  }

  /** What was forgotten does not matter to a client that has it. */
  lemma {:induction false} OldOnesDoNotMatch(all: seq<Event>, f: Filter, after: nat)
    requires forall i :: 0 <= i < |all| ==> all[i].id <= after
    ensures Matching(all, f, after) == []
  {
    if all != [] {
      OldOnesDoNotMatch(all[..|all| - 1], f, after);
    }
  }

  lemma NewestMatch(all: seq<Event>, keep: nat, f: Filter, after: nat)
    requires Numbered(all) && !Replay(Newest(all, keep), |all|, f, after).missed
    ensures Matching(Newest(all, keep), f, after) == Matching(all, f, after)
  {
    var gone := |all| - |Newest(all, keep)|;
    assert all == all[..gone] + Newest(all, keep);
    OldOnesDoNotMatch(all[..gone], f, after);
    MatchingConcat(all[..gone], Newest(all, keep), f, after);
  }

  predicate Increasing(events: seq<Event>) {
    forall i, j :: 0 <= i < j < |events| ==> events[i].id < events[j].id
  }

  lemma {:induction false} MatchingIncreases(all: seq<Event>, f: Filter, after: nat)
    requires Increasing(all)
    ensures Increasing(Matching(all, f, after))
    ensures forall i :: 0 <= i < |Matching(all, f, after)| ==> Matching(all, f, after)[i] in all && Matching(all, f, after)[i].id > after
  {
    if all != [] {
      var before := all[..|all| - 1];
      MatchingIncreases(before, f, after);
      assert forall e :: e in before ==> e.id < all[|all| - 1].id;
    }
  }

  /** The events of a queue up to the end marker. */
  function QueuedEvents(queue: seq<Maybe<Event>>): seq<Event> {
    if queue == [] || queue[0].Nothing? then [] else [queue[0].value] + QueuedEvents(queue[1..])
  }

  lemma {:induction false} QueuedMore(queue: seq<Maybe<Event>>, item: Maybe<Event>)
    ensures QueuedEvents(queue + [item]) == QueuedEvents(queue) + if Nothing !in queue && item.Just? then [item.value] else []
  {
    if queue == [] {
      assert queue + [item] == [item] && [item][1..] == [];
    } else {
      assert (queue + [item])[1..] == queue[1..] + [item];
      QueuedMore(queue[1..], item);
    }
  }

  /** What the stream has and will deliver without further publishing. */
  function Pending(w: World): seq<Event> {
    if w.stream.Ended? then [] else w.stream.past + QueuedEvents(w.listening.queue)
  }

  function LastId(events: seq<Event>, after: nat): nat {
    if events == [] then after else events[|events| - 1].id
  }

  /** The stream is complete up to the first `n` events ever published: what it delivered and still holds are exactly those
      of them that match. Only a stream that was cut off or shut down is behind. */
  ghost predicate CompleteTo(w: World, after: nat, n: nat) {
    && n <= |w.all| && Numbered(w.all)
    && w.out + Pending(w) == Matching(w.all[..n], w.listening.filter, after)
    && (w.stream.Live? && !w.listening.overflowed && Nothing !in w.listening.queue ==> n == |w.all|)
    && (Nothing in w.listening.queue || w.stream.Ended? ==> Finished(w.listening))
    && (w.stream.Live? ==> w.stream.sent == LastId(w.out, 0))
  }

  lemma OpenedComplete(all: seq<Event>, keep: nat, size: int, f: Filter, after: nat)
    requires Numbered(all) && !Opened(all, keep, size, f, after).missed
    ensures CompleteTo(Opened(all, keep, size, f, after), after, |all|)
  {
    NewestMatch(all, keep, f, after);
    assert all[..|all|] == all;
    var w := Opened(all, keep, size, f, after);
    assert w.out + (w.stream.past + []) == w.stream.past;
  }

  lemma PublishComplete(w: World, a: Action, after: nat, n: nat) returns (m: nat)
    requires CompleteTo(w, after, n) && a.Publishes? && after <= |w.all|
    ensures CompleteTo(Act(w, a), after, m)
  {
    var w' := Act(w, a);
    if w.stream.Live? && !w'.listening.overflowed && Nothing !in w.listening.queue {
      JoinsComplete(w, a, after, n);
      m := |w'.all|;
    } else {
      LateComplete(w, a, after, n);
      m := n;
    }
  }

  /** A listener that keeps up gets the event if it matches. */
  lemma JoinsComplete(w: World, a: Action, after: nat, n: nat)
    requires CompleteTo(w, after, n) && a.Publishes? && after <= |w.all|
    requires w.stream.Live? && !Act(w, a).listening.overflowed && Nothing !in w.listening.queue
    ensures CompleteTo(Act(w, a), after, |Act(w, a).all|)
  {
    hide Matching, QueuedEvents, Newest, IsFull, Matches;
    var e := Event(|w.all| + 1, a.kind, a.org, a.charger, a.data);
    var w' := Act(w, a);
    assert w.all[..n] == w.all && w'.all[..|w'.all|] == w.all + [e];
    OneMatch(w.all, e, w.listening.filter, after);
    QueuedMore(w.listening.queue, Just(e));
    assert w.out + (w.stream.past + (QueuedEvents(w.listening.queue) + [e])) == (w.out + (w.stream.past + QueuedEvents(w.listening.queue))) + [e];
  }

  lemma OneMatch(all: seq<Event>, e: Event, f: Filter, after: nat)
    ensures Matching(all + [e], f, after) == Matching(all, f, after) + if e.id > after && Matches(e, f) then [e] else []
  {
    assert (all + [e])[..|all|] == all;
  }

  /** A listener that was cut off or shut down is complete up to where it was. */
  lemma LateComplete(w: World, a: Action, after: nat, n: nat)
    requires CompleteTo(w, after, n) && a.Publishes?
    requires !(w.stream.Live? && !Act(w, a).listening.overflowed && Nothing !in w.listening.queue)
    ensures CompleteTo(Act(w, a), after, n)
  {
    var e := Event(|w.all| + 1, a.kind, a.org, a.charger, a.data);
    hide Matching, QueuedEvents, Newest, IsFull, Matches;
    assert Act(w, a).all[..n] == w.all[..n];
    QueuedMore(w.listening.queue, Just(e));
  }

  lemma CloseComplete(w: World, after: nat, n: nat)
    requires CompleteTo(w, after, n)
    ensures CompleteTo(Act(w, Closes), after, n)
  {
    QueuedMore(w.listening.queue, Nothing);
  }

  lemma ResumeComplete(w: World, after: nat, n: nat)
    requires CompleteTo(w, after, n)
    ensures CompleteTo(Resume(w), after, n)
  {
    hide Matching;
    if w.stream.Live? && w.stream.past != [] {
      var e := w.stream.past[0];
      assert w.out + (w.stream.past + QueuedEvents(w.listening.queue)) == (w.out + [e]) + (w.stream.past[1..] + QueuedEvents(w.listening.queue));
      NextIsLater(w, after, n, e);
    } else if w.stream.Live? && w.listening.queue != [] && w.listening.queue[0].Just? {
      var e := w.listening.queue[0].value;
      assert w.out + ([] + ([e] + QueuedEvents(w.listening.queue[1..]))) == (w.out + [e]) + ([] + QueuedEvents(w.listening.queue[1..]));
      NextIsLater(w, after, n, e);
    }
  }

  /** The next event has a larger id than the last one sent. */
  lemma NextIsLater(w: World, after: nat, n: nat, e: Event)
    requires CompleteTo(w, after, n) && w.stream.Live? && Pending(w) != [] && e == Pending(w)[0]
    ensures e.id > w.stream.sent
  {
    MatchingIncreases(w.all[..n], w.listening.filter, after);
    var m := Matching(w.all[..n], w.listening.filter, after);
    assert m[|w.out|] == e;
    if w.out != [] {
      assert m[|w.out| - 1] == w.out[|w.out| - 1];
    }
  }

  lemma OpenedWith(all: seq<Event>, keep: nat, size: int, f: Filter, after: nat)
    requires Numbered(all) && !Opened(all, keep, size, f, after).missed
    ensures var w := Opened(all, keep, size, f, after); w.listening.filter == f && w.all == all && after <= |all|
  {
  }

  lemma {:induction false} RunComplete(w: World, actions: seq<Action>, after: nat, n: nat) returns (m: nat)
    requires CompleteTo(w, after, n) && after <= |w.all|
    ensures CompleteTo(Run(w, actions), after, m) && |w.all| <= |Run(w, actions).all| && Run(w, actions).listening.filter == w.listening.filter
  {
    hide CompleteTo, Act, Resume;
    m := n;
    if actions != [] {
      var a := actions[|actions| - 1];
      var w1 := Run(w, actions[..|actions| - 1]);
      var k := RunComplete(w, actions[..|actions| - 1], after, n);
      ActGrows(w1, a);
      match a
      case Publishes(_, _, _, _) => m := PublishComplete(w1, a, after, k);
      case Closes =>
        CloseComplete(w1, after, k);
        m := k;
      case Resumes =>
        ResumeComplete(w1, after, k);
        ResumesIs(w1);
        m := k;
    }
  }

  lemma ActGrows(w: World, a: Action)
    ensures |w.all| <= |Act(w, a).all| && Act(w, a).listening.filter == w.listening.filter
  {
  }

  lemma ResumesIs(w: World)
    ensures Act(w, Resumes) == Resume(w)
  {
  }

  /** MAIN RESULT. A resumed stream that missed nothing delivers, however publishing and shutting down interleave with it, a
      gap-free prefix of all events after the client's last id that match, in order and without repetition; and unless it was
      cut off or shut down, once it has sent what it holds it has delivered all of them. */
  lemma ResumeIsExact(all: seq<Event>, keep: nat, size: int, f: Filter, after: nat, actions: seq<Action>)
    requires Numbered(all) && !Opened(all, keep, size, f, after).missed
    ensures var w := Run(Opened(all, keep, size, f, after), actions);
      && w.out <= Matching(w.all, f, after) && Increasing(w.out) && Numbered(w.all)
      && (!Finished(w.listening) && Pending(w) == [] ==> w.out == Matching(w.all, f, after))
  {
    hide Opened, Run, Matching, QueuedEvents;
    OpenedComplete(all, keep, size, f, after);
    OpenedWith(all, keep, size, f, after);
    var n := RunComplete(Opened(all, keep, size, f, after), actions, after, |all|);
    var w := Run(Opened(all, keep, size, f, after), actions);
    assert w.all == w.all[..n] + w.all[n..];
    MatchingConcat(w.all[..n], w.all[n..], f, after);
    assert w.out <= w.out + Pending(w) <= Matching(w.all, f, after);
    MatchingIncreases(w.all, f, after);
    if n == |w.all| {
      assert w.all[..n] == w.all;
    }
  }

  // ------------------------------------------------------------------
  // Streams chained by the last id
  // ------------------------------------------------------------------

  /** Resuming after the last delivered event continues exactly where a gap-free prefix stopped. */
  lemma {:induction false} ContinuesAfter(all: seq<Event>, f: Filter, after: nat, out: seq<Event>)
    requires Numbered(all) && out <= Matching(all, f, after)
    ensures Matching(all, f, after) == out + Matching(all, f, LastId(out, after))
  {
    if out == [] {
    } else if all != [] {
      var n := |all| - 1;
      var m := Matching(all[..n], f, after);
      MatchingIncreases(all, f, after);
      if |out| <= |m| {
        assert out <= m by {
          assert Matching(all, f, after)[..|m|] == m;
        }
        ContinuesAfter(all[..n], f, after, out);
        assert out[|out| - 1] in all[..n] by {
          MatchingIncreases(all[..n], f, after);
          assert out[|out| - 1] == m[|out| - 1];
        }
      } else {
        assert out == Matching(all, f, after);
        OldOnesDoNotMatch(all, f, LastId(out, after));
      }
    }
  }

  /** One stream of a client: what is published before it connects, and what happens while it is connected. */
  datatype Stint = Stint(away: seq<News>, actions: seq<Action>)

  datatype News = News(kind: string, org: Maybe<string>, charger: Maybe<string>, data: string)

  /** The bus numbers them on. */
  function Published(all: seq<Event>, news: seq<News>): seq<Event> {
    if news == [] then all
    else
      var n := news[|news| - 1];
      var before := Published(all, news[..|news| - 1]);
      before + [Event(|before| + 1, n.kind, n.org, n.charger, n.data)]
  }

  lemma {:induction false} PublishedNumbered(all: seq<Event>, news: seq<News>)
    requires Numbered(all)
    ensures Numbered(Published(all, news)) && all <= Published(all, news)
  {
    if news != [] {
      PublishedNumbered(all, news[..|news| - 1]);
    }
  }

  /** The bus and a client of it: all events published, what the client was sent so far, whether it was told that it missed
      something, and whether the bus was shut down. */
  datatype Client = Client(all: seq<Event>, got: seq<Event>, missed: bool, shut: bool)

  /** The client connects with the last id it was sent; a bus that was shut down refuses it. */
  function Visit(c: Client, keep: nat, size: int, f: Filter, after: nat, s: Stint): Client {
    var all := Published(c.all, s.away);
    if c.shut then c.(all := all)
    else
      var w0 := Opened(all, keep, size, f, LastId(c.got, after));
      var w := Run(w0, s.actions);
      Client(w.all, c.got + w.out, c.missed || w0.missed, w.listening.closed)
  }

  /** All streams of a client that has everything up to the id `after` of the events `all`. */
  function Visits(all: seq<Event>, keep: nat, size: int, f: Filter, after: nat, stints: seq<Stint>): Client {
    if stints == [] then Client(all, [], false, false)
    else Visit(Visits(all, keep, size, f, after, stints[..|stints| - 1]), keep, size, f, after, stints[|stints| - 1])
  }

  lemma {:induction false} RunGrows(w: World, actions: seq<Action>)
    ensures w.all <= Run(w, actions).all
  {
    if actions != [] {
      RunGrows(w, actions[..|actions| - 1]);
    }
  }

  /** A gap-free prefix stays one, however many events follow. */
  lemma StaysPrefix(all: seq<Event>, more: seq<Event>, f: Filter, after: nat, out: seq<Event>)
    requires all <= more && out <= Matching(all, f, after)
    ensures out <= Matching(more, f, after)
  {
    assert more == all + more[|all|..];
    MatchingConcat(all, more[|all|..], f, after);
  }

  /** One more stream goes on where the ones before stopped. */
  lemma VisitGoesOn(c: Client, keep: nat, size: int, f: Filter, after: nat, s: Stint)
    requires Numbered(c.all) && c.got <= Matching(c.all, f, after) && !Visit(c, keep, size, f, after, s).missed
    ensures var c' := Visit(c, keep, size, f, after, s); Numbered(c'.all) && c'.got <= Matching(c'.all, f, after)
  {
    hide Run, Opened, Matching, Numbered, Increasing, Published;
    var all := Published(c.all, s.away);
    PublishedNumbered(c.all, s.away);
    if c.shut {
      StaysPrefix(c.all, all, f, after, c.got);
    } else {
      var last := LastId(c.got, after);
      var w := Run(Opened(all, keep, size, f, last), s.actions);
      ResumeIsExact(all, keep, size, f, last, s.actions);
      OpenedWith(all, keep, size, f, last);
      RunGrows(Opened(all, keep, size, f, last), s.actions);
      StaysPrefix(c.all, w.all, f, after, c.got);
      ContinuesAfter(w.all, f, after, c.got);
      Appended(c.got, w.out, Matching(w.all, f, last));
    }
  }

  lemma Appended(a: seq<Event>, b: seq<Event>, whole: seq<Event>)
    requires b <= whole
    ensures a + b <= a + whole
  {
  }

  lemma {:induction false} VisitsGoOn(all: seq<Event>, keep: nat, size: int, f: Filter, after: nat, stints: seq<Stint>)
    requires Numbered(all) && !Visits(all, keep, size, f, after, stints).missed
    ensures var c := Visits(all, keep, size, f, after, stints); Numbered(c.all) && c.got <= Matching(c.all, f, after)
  {
    hide Visit, Numbered, Matching;
    if stints != [] {
      var before := stints[..|stints| - 1];
      NotMissedBefore(Visits(all, keep, size, f, after, before), keep, size, f, after, stints[|stints| - 1]);
      VisitsGoOn(all, keep, size, f, after, before);
      VisitGoesOn(Visits(all, keep, size, f, after, before), keep, size, f, after, stints[|stints| - 1]);
    }
  }

  lemma NotMissedBefore(c: Client, keep: nat, size: int, f: Filter, after: nat, s: Stint)
    ensures c.missed ==> Visit(c, keep, size, f, after, s).missed
  {
  }

  /** MAIN RESULT. A client that reconnects any number of times, each time with the last id it was sent, and is never told that
      it missed something, was sent a gap-free prefix of all events that match, in order and without repetition, whatever is
      published while it is connected and while it is not; and what remains is exactly what a stream resumed after its last id
      has still to deliver. */
  lemma ChainsConcatenate(all: seq<Event>, keep: nat, size: int, f: Filter, after: nat, stints: seq<Stint>)
    requires Numbered(all) && !Visits(all, keep, size, f, after, stints).missed
    ensures var c := Visits(all, keep, size, f, after, stints);
      c.got <= Matching(c.all, f, after) && Increasing(c.got) && Matching(c.all, f, after) == c.got + Matching(c.all, f, LastId(c.got, after))
  {
    hide Visits, Matching;
    var c := Visits(all, keep, size, f, after, stints);
    VisitsGoOn(all, keep, size, f, after, stints);
    ContinuesAfter(c.all, f, after, c.got);
    MatchingIncreases(c.all, f, after);
  }

  // ------------------------------------------------------------------
  // Which events match, are remembered, or cut a listener off
  // ------------------------------------------------------------------

  /** What the client asked for, in plain words: the organization and the charger, where they are given. */
  predicate IsAskedFor(e: Event, f: Filter) {
    (f.org.Just? ==> e.org.Just? && e.org.value == f.org.value) && (f.charger.Just? ==> e.charger.Just? && e.charger.value == f.charger.value)
  }

  lemma {:induction false} MatchingAre(all: seq<Event>, f: Filter, after: nat, e: Event)
    ensures e in Matching(all, f, after) <==> e in all && e.id > after && IsAskedFor(e, f)
  {
    if all != [] {
      assert forall x :: x in all <==> x in all[..|all| - 1] || x == all[|all| - 1];
      MatchingAre(all[..|all| - 1], f, after, e);
    }
  }

  /** The history is the newest `keep` of all events, or all if there are fewer. */
  ghost predicate Remembers(w: World) {
    |w.history| == (if |w.all| < w.keep then |w.all| else w.keep) && w.history == w.all[|w.all| - |w.history|..]
  }

  lemma PublishRemembers(w: World, a: Action)
    requires Remembers(w) && a.Publishes?
    ensures Remembers(Act(w, a)) && Act(w, a).keep == w.keep
  {
    hide Offered;
    var more := w.history + [Event(|w.all| + 1, a.kind, a.org, a.charger, a.data)];
    assert Act(w, a).history == Newest(more, w.keep);
    assert more == Act(w, a).all[|w.all| - |w.history|..];
  }

  /** MAIN RESULT. Over any run, the bus remembers the newest `keep` events, or all if there were fewer. */
  lemma {:induction false} RemembersTheNewest(w: World, actions: seq<Action>)
    requires Remembers(w)
    ensures Remembers(Run(w, actions)) && Run(w, actions).keep == w.keep
  {
    hide Act, Resume, Remembers;
    if actions != [] {
      var w1, a := Run(w, actions[..|actions| - 1]), actions[|actions| - 1];
      RemembersTheNewest(w, actions[..|actions| - 1]);
      if a.Publishes? {
        PublishRemembers(w1, a);
      } else {
        OthersRemember(w1, a);
      }
    }
  }

  lemma OthersRemember(w: World, a: Action)
    requires Remembers(w) && !a.Publishes?
    ensures Remembers(Act(w, a)) && Act(w, a).keep == w.keep
  {
    SameMemory(w, a);
    hide Act;
  }

  lemma SameMemory(w: World, a: Action)
    requires !a.Publishes?
    ensures Act(w, a).all == w.all && Act(w, a).history == w.history && Act(w, a).keep == w.keep
  {
    hide Remembers;
  }

  lemma OpenedRemembers(all: seq<Event>, keep: nat, size: int, f: Filter, after: nat)
    ensures Remembers(Opened(all, keep, size, f, after)) && Opened(all, keep, size, f, after).keep == keep && Opened(all, keep, size, f, after).size == size
  {
  }

  /** What an action does to a listener: an event it asked for waits for it, or cuts it off when `size` items are unread already (no
      bound: `size` not positive); and it is closed with the bus. */
  ghost predicate ListenerTaken(w: World, w': World, a: Action) {
    var (l, l') := (w.listening, w'.listening);
    match a
    case Publishes(kind, org, charger, data) =>
      var e := Event(|w.all| + 1, kind, org, charger, data);
      && w'.all == w.all + [e] && l'.closed == l.closed && l'.filter == l.filter
      && (l'.overflowed <==> l.overflowed || (IsAskedFor(e, l.filter) && w.size > 0 && |l.queue| >= w.size))
      && l'.queue == (if IsAskedFor(e, l.filter) && !l'.overflowed then l.queue + [Just(e)] else l.queue)
    case Closes => l'.closed && l'.overflowed == l.overflowed && l'.queue == (if w.size > 0 && |l.queue| >= w.size then l.queue else l.queue + [Nothing])
    case Resumes => l'.closed == l.closed && l'.overflowed == l.overflowed && l'.filter == l.filter && w'.all == w.all
  }

  lemma ListenerActs(w: World, a: Action)
    ensures ListenerTaken(w, Act(w, a), a)
  {
  }

  /** MAIN RESULT. Over any run, a listener is cut off by an action exactly when an event it asked for is published while `size` items are
      unread; otherwise such an event waits for it. */
  lemma CutOffExactly(w: World, actions: seq<Action>, a: Action)
    ensures ListenerTaken(Run(w, actions), Run(w, actions + [a]), a)
  {
    hide ListenerTaken, Act;
    assert (actions + [a])[..|actions|] == actions;
    ListenerActs(Run(w, actions), a);
  }
}
