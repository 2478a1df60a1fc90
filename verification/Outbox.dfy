/** Store-and-forward to one backend: frames that cannot be delivered now wait, in order, until they can, or are given up on. */
module Outbox {
  datatype Maybe<+T> = Nothing | Just(value: T)

  datatype Entry<T> = Entry(frame: T, queuedAt: real)

  /** The frames that wait, whether a flush is under way and the frame in its hand, a frame `send` is writing, whether the
      link is up, and how many frames may wait. */
  datatype Box<T> = Box(outbox: seq<Entry<T>>, flushing: bool, hand: Maybe<Entry<T>>, sending: Maybe<T>, ready: bool, max: int)

  /** What became of a frame that was to wait. */
  datatype Fate = Kept | Refused | Dropped

  function FateOf<T>(b: Box<T>): Fate {
    if b.max <= 0 then Dropped else if |b.outbox| >= b.max then Refused else Kept
  }

  function Buffered<T>(b: Box<T>, frame: T, now: real): Box<T> {
    if FateOf(b).Kept? then b.(outbox := b.outbox + [Entry(frame, now)]) else b
  }

  /** Anything that waits already goes first. */
  predicate MustWait<T>(b: Box<T>) {
    b.outbox != [] || b.flushing || !b.ready
  }

  /** How many of the frames at the front have waited too long. */
  function Overdue<T>(outbox: seq<Entry<T>>, timeout: real, now: real): nat
    ensures Overdue(outbox, timeout, now) <= |outbox|
  {
    if outbox == [] || now - outbox[0].queuedAt < timeout then 0 else 1 + Overdue(outbox[1..], timeout, now)
  }

  function FramesOf<T>(outbox: seq<Entry<T>>): (frames: seq<T>)
    ensures |frames| == |outbox| && forall i :: 0 <= i < |outbox| ==> frames[i] == outbox[i].frame
  {
    if outbox == [] then [] else [outbox[0].frame] + FramesOf(outbox[1..])
  }

  // ------------------------------------------------------------------
  // The outbox in place
  // ------------------------------------------------------------------

  class BackendOutbox<T(==)> {
    var outbox: seq<Entry<T>>
    var flushing: bool
    var hand: Maybe<Entry<T>>
    var sending: Maybe<T>
    var ready: bool
    var max: int

    constructor (max: int)
      ensures View() == Box([], false, Nothing, Nothing, false, max)
    {
      outbox, flushing, hand, sending, ready, this.max := [], false, Nothing, Nothing, false, max;
    }

    ghost function View(): Box<T>
      reads this
    {
      Box(outbox, flushing, hand, sending, ready, max)
    }

    method Buffer(frame: T, now: real) returns (fate: Fate)
      modifies this`outbox
      ensures View() == Buffered(old(View()), frame, now) && fate == FateOf(old(View()))
    {
      if max <= 0 {
        return Dropped;
      }
      if |outbox| >= max {
        return Refused;
      }
      outbox := outbox + [Entry(frame, now)];
      fate := Kept;
    }

    /** Begin to deliver a frame: it waits (or cannot), or it is being written. */
    method Send(frame: T, now: real) returns (waits: bool, fate: Fate)
      requires sending.Nothing?
      modifies this`outbox, this`sending
      ensures waits == MustWait(old(View()))
      ensures View() == if waits then Buffered(old(View()), frame, now) else old(View()).(sending := Just(frame))
      ensures waits ==> fate == FateOf(old(View()))
    {
      if outbox != [] || flushing || !ready {
        fate := Buffer(frame, now);
        return true, fate;
      }
      sending := Just(frame);
      waits, fate := false, Kept;
    }

    method SendSucceeded()
      requires sending.Just?
      modifies this`sending
      ensures View() == old(View()).(sending := Nothing)
    {
      sending := Nothing;
    }

    /** The write failed: the link is down, and the frame waits. */
    method SendFailed(now: real) returns (fate: Fate)
      requires sending.Just?
      modifies this`sending, this`ready, this`outbox
      ensures View() == Buffered(old(View()), old(sending).value, now).(sending := Nothing, ready := false) && fate == FateOf(old(View()))
    {
      ready := false;
      fate := Buffer(sending.value, now);
      sending := Nothing;
    }

    method FlushBegins()
      requires !flushing
      modifies this`flushing
      ensures View() == old(View()).(flushing := true)
    {
      flushing := true;
    }

    method FlushTakes()
      requires flushing && hand.Nothing? && outbox != [] && ready
      modifies this`outbox, this`hand
      ensures View() == old(View()).(hand := Just(old(outbox)[0]), outbox := old(outbox)[1..])
    {
      hand, outbox := Just(outbox[0]), outbox[1..];
    }

    method FlushWrote()
      requires hand.Just?
      modifies this`hand
      ensures View() == old(View()).(hand := Nothing)
    {
      hand := Nothing;
    }

    /** The flush is interrupted: the frame in its hand goes first again. */
    method FlushFails()
      requires hand.Just?
      modifies this`outbox, this`hand, this`flushing
      ensures View() == old(View()).(hand := Nothing, flushing := false, outbox := [old(hand).value] + old(outbox))
    {
      outbox := [hand.value] + outbox;
      hand, flushing := Nothing, false;
    }

    method FlushEnds()
      requires flushing && hand.Nothing? && (outbox == [] || !ready)
      modifies this`flushing
      ensures View() == old(View()).(flushing := false)
    {
      flushing := false;
    }

    /** Give up on the frames that have waited too long. */
    method Expire(timeout: real, now: real) returns (rejected: seq<T>)
      modifies this`outbox
      ensures var n := Overdue(old(outbox), timeout, now); outbox == old(outbox)[n..] && rejected == FramesOf(old(outbox)[..n])
    {
      rejected := [];
      ghost var before, k := outbox, 0;
      while outbox != [] && now - outbox[0].queuedAt >= timeout
        invariant 0 <= k <= |before| && outbox == before[k..] && rejected == FramesOf(before[..k])
        invariant Overdue(before, timeout, now) == k + Overdue(outbox, timeout, now)
        decreases |outbox|
      {
        assert before[..k + 1] == before[..k] + [outbox[0]] && before[k + 1..] == outbox[1..];
        FramesMore(before[..k], outbox[0]);
        rejected := rejected + [outbox[0].frame];
        outbox := outbox[1..];
        k := k + 1;
      }
    }

    /** Give up on everything that waits. */
    method RejectBuffered() returns (rejected: seq<T>)
      modifies this`outbox
      ensures outbox == [] && rejected == FramesOf(old(outbox))
    {
      rejected := [];
      ghost var before, k := outbox, 0;
      while outbox != []
        invariant 0 <= k <= |before| && outbox == before[k..] && rejected == FramesOf(before[..k])
        decreases |outbox|
      {
        assert before[..k + 1] == before[..k] + [outbox[0]] && before[k + 1..] == outbox[1..];
        FramesMore(before[..k], outbox[0]);
        rejected := rejected + [outbox[0].frame];
        outbox := outbox[1..];
        k := k + 1;
      }
      assert before[..k] == before;
    }
  }

  lemma {:induction false} FramesMore<T>(outbox: seq<Entry<T>>, e: Entry<T>)
    ensures FramesOf(outbox + [e]) == FramesOf(outbox) + [e.frame]
  {
    if outbox == [] {
      assert outbox + [e] == [e] && [e][1..] == [];
    } else {
      assert (outbox + [e])[1..] == outbox[1..] + [e];
      FramesMore(outbox[1..], e);
    }
  }

  // ------------------------------------------------------------------
  // Over time
  // ------------------------------------------------------------------

  /** Frames are numbered in the order in which they were sent. */
  datatype World = World(box: Box<nat>, count: nat, written: seq<nat>, rejected: seq<nat>, discarded: seq<nat>)

  datatype Action =
    | Sends(now: real)
    | SendEnds(ok: bool, now: real)
    | LinkUp
    | LinkDown
    | FlushStarts
    | FlushTakes
    | FlushEntryEnds(ok: bool)
    | FlushStops
    | Expires(timeout: real, now: real)
    | Demoted           // another backend takes over: everything waiting is given up on, nothing waits any more
    | Promoted(max: int)
    | Closed            // the connection is given up for good; a frame in the flush's hand is lost with it

  function New(max: int): World {
    World(Box([], false, Nothing, Nothing, false, max), 0, [], [], [])
  }

  /** `frame` is to wait. */
  function Waits(w: World, frame: nat, now: real): World {
    w.(box := Buffered(w.box, frame, now),
       rejected := if FateOf(w.box).Refused? then w.rejected + [frame] else w.rejected,
       discarded := if FateOf(w.box).Dropped? then w.discarded + [frame] else w.discarded)
  }

  function HandOf(b: Box<nat>): seq<nat> {
    if b.hand.Just? then [b.hand.value.frame] else []
  }

  function SendingOf(b: Box<nat>): seq<nat> {
    if b.sending.Just? then [b.sending.value] else []
  }

  function Act(w: World, a: Action): World {
    var b := w.box;
    match a
    case Sends(now) =>
      if b.sending.Just? then w // the callers send one after another
      else if MustWait(b) then Waits(w.(count := w.count + 1), w.count, now)
      else w.(count := w.count + 1, box := b.(sending := Just(w.count)))
    case SendEnds(ok, now) =>
      if b.sending.Nothing? then w
      else if ok then w.(box := b.(sending := Nothing), written := w.written + [b.sending.value])
      else Waits(w.(box := b.(sending := Nothing, ready := false)), b.sending.value, now)
    case LinkUp => w.(box := b.(ready := true))
    case LinkDown => w.(box := b.(ready := false))
    case FlushStarts => w.(box := b.(flushing := true))
    case FlushTakes => if b.flushing && b.hand.Nothing? && b.outbox != [] && b.ready then w.(box := b.(hand := Just(b.outbox[0]), outbox := b.outbox[1..])) else w
    case FlushEntryEnds(ok) =>
      if b.hand.Nothing? then w
      else if ok then w.(box := b.(hand := Nothing), written := w.written + [b.hand.value.frame])
      else w.(box := b.(hand := Nothing, flushing := false, outbox := [b.hand.value] + b.outbox))
    case FlushStops => if b.flushing && b.hand.Nothing? && (b.outbox == [] || !b.ready) then w.(box := b.(flushing := false)) else w
    case Expires(timeout, now) =>
      var n := Overdue(b.outbox, timeout, now);
      w.(box := b.(outbox := b.outbox[n..]), rejected := w.rejected + FramesOf(b.outbox[..n]))
    case Demoted => w.(box := b.(outbox := [], max := 0), rejected := w.rejected + FramesOf(b.outbox))
    case Promoted(max) => if b.max <= 0 then w.(box := b.(max := max)) else w // only a follower is promoted
    case Closed => w.(box := b.(outbox := [], hand := Nothing, flushing := false, ready := false), discarded := w.discarded + FramesOf(b.outbox) + HandOf(b))
  }

  function Run(max: int, actions: seq<Action>): World {
    if actions == [] then New(max) else Act(Run(max, actions[..|actions| - 1]), actions[|actions| - 1])
  }

  /** The frames that wait, oldest first: in the flush's hand, in the outbox, or being written. */
  function Waiting(b: Box<nat>): seq<nat> {
    HandOf(b) + FramesOf(b.outbox) + SendingOf(b)
  }

  predicate Increasing(s: seq<nat>) {
    forall i, j :: 0 <= i < j < |s| ==> s[i] < s[j]
  }

  function Upto(n: nat): (s: seq<nat>)
    ensures |s| == n && forall i :: 0 <= i < n ==> s[i] == i
  {
    if n == 0 then [] else Upto(n - 1) + [n - 1]
  }

  /** Frames that were written or wait are in the order in which they were sent. */
  predicate InLine(line: seq<nat>, count: nat) {
    Increasing(line) && forall x :: x in line ==> x < count
  }

  /** Every frame is in exactly one place. */
  predicate Accounted(line: seq<nat>, rejected: seq<nat>, discarded: seq<nat>, count: nat) {
    multiset(line) + multiset(rejected) + multiset(discarded) == multiset(Upto(count))
  }

  function LineOf(w: World): seq<nat> {
    w.written + HandOf(w.box) + FramesOf(w.box.outbox) + SendingOf(w.box)
  }

  predicate BoxOk(b: Box<nat>) {
    && |b.outbox| + |HandOf(b)| <= (if b.max < 0 then 0 else b.max) + 1
    && (b.hand.Just? ==> b.flushing) && (b.sending.Just? ==> b.outbox == [] && b.hand.Nothing?)
  }

  predicate Ok(w: World) {
    BoxOk(w.box) && InLine(LineOf(w), w.count) && Accounted(LineOf(w), w.rejected, w.discarded, w.count)
  }

  // ------------------------------------------------------------------
  // One step at a time
  // ------------------------------------------------------------------

  /** Some frames leave the line. */
  lemma Removed(a: seq<nat>, gone: seq<nat>, c: seq<nat>, rejected: seq<nat>, discarded: seq<nat>, count: nat)
    requires InLine(a + gone + c, count) && Accounted(a + gone + c, rejected, discarded, count)
    ensures InLine(a + c, count) && Accounted(a + c, rejected + gone, discarded, count) && Accounted(a + c, rejected, discarded + gone, count)
  {
    var line := a + gone + c;
    forall i, j | 0 <= i < j < |a + c| ensures (a + c)[i] < (a + c)[j] {
      var i', j' := if i < |a| then i else i + |gone|, if j < |a| then j else j + |gone|;
      assert line[i'] == (a + c)[i] && line[j'] == (a + c)[j];
    }
    forall x | x in a + c ensures x < count {
      assert x in line;
    }
    assert multiset(line) == multiset(a + c) + multiset(gone);
    assert multiset(rejected + gone) == multiset(rejected) + multiset(gone);
    assert multiset(discarded + gone) == multiset(discarded) + multiset(gone);
  }

  /** One more frame joins the line, or is given up on at once. */
  lemma Joined(line: seq<nat>, rejected: seq<nat>, discarded: seq<nat>, count: nat)
    requires InLine(line, count) && Accounted(line, rejected, discarded, count)
    ensures InLine(line + [count], count + 1) && InLine(line, count + 1)
    ensures Accounted(line + [count], rejected, discarded, count + 1)
    ensures Accounted(line, rejected + [count], discarded, count + 1) && Accounted(line, rejected, discarded + [count], count + 1)
  {
    hide Upto;
    JoinedLine(line, count);
    hide InLine;
    OneMore(Upto(count), count);
    OneMore(line, count);
    OneMore(rejected, count);
    OneMore(discarded, count);
    assert Upto(count + 1) == Upto(count) + [count];
  }

  lemma JoinedLine(line: seq<nat>, count: nat)
    requires InLine(line, count)
    ensures InLine(line + [count], count + 1) && InLine(line, count + 1)
  {
    assert forall i :: 0 <= i < |line| ==> line[i] in line;
  }

  lemma OneMore(s: seq<nat>, x: nat)
    ensures multiset(s + [x]) == multiset(s) + multiset([x])
  {
  }

  lemma Regroup(a: seq<nat>, gone: seq<nat>, kept: seq<nat>, c: seq<nat>)
    ensures a + (gone + kept) + c == a + gone + (kept + c) && a + kept + c == a + (kept + c)
  {
  }

  lemma FramesSplit<T>(outbox: seq<Entry<T>>, n: nat)
    requires n <= |outbox|
    ensures FramesOf(outbox) == FramesOf(outbox[..n]) + FramesOf(outbox[n..])
  {
  }

  /** A frame that has to wait joins the end of the outbox, or goes. */
  lemma WaitsLine(w: World, frame: nat, now: real)
    requires w.box.sending.Nothing?
    ensures var w' := Waits(w, frame, now);
      && w'.count == w.count && w'.written == w.written && w'.box == w.box.(outbox := w'.box.outbox)
      && (if FateOf(w.box).Kept? then LineOf(w') == LineOf(w) + [frame] && w'.rejected == w.rejected && w'.discarded == w.discarded
          else LineOf(w') == LineOf(w) && ((w'.rejected == w.rejected + [frame] && w'.discarded == w.discarded) || (w'.rejected == w.rejected && w'.discarded == w.discarded + [frame])))
  {
    FramesMore(w.box.outbox, Entry(frame, now));
  }

  lemma SendOk(w: World, now: real)
    requires Ok(w)
    ensures Ok(Act(w, Sends(now)))
  {
    hide InLine, Accounted, Waits, FateOf;
    var w' := Act(w, Sends(now));
    if w.box.sending.Nothing? {
      Joined(LineOf(w), w.rejected, w.discarded, w.count);
      if MustWait(w.box) {
        WaitsLine(w.(count := w.count + 1), w.count, now);
        WaitsFits(w.(count := w.count + 1), w.count, now);
      } else {
        assert LineOf(w') == LineOf(w) + [w.count];
      }
    }
  }

  lemma WaitsFits(w: World, frame: nat, now: real)
    requires BoxOk(w.box) && w.box.sending.Nothing?
    ensures BoxOk(Waits(w, frame, now).box)
  {
  }

  lemma SendEndOk(w: World, ok: bool, now: real)
    requires Ok(w)
    ensures Ok(Act(w, SendEnds(ok, now)))
  {
    hide InLine, Accounted, Waits, FateOf;
    var w' := Act(w, SendEnds(ok, now));
    if w.box.sending.Just? {
      var m := w.box.sending.value;
      assert LineOf(w) == w.written + [m];
      if ok {
        assert LineOf(w') == LineOf(w);
      } else {
        var w1 := w.(box := w.box.(sending := Nothing, ready := false));
        assert LineOf(w1) == w.written + [];
        assert w.written + [m] == w.written + [m] + [] && w.written + [] == LineOf(w1);
        Removed(w.written, [m], [], w.rejected, w.discarded, w.count);
        WaitsLine(w1, m, now);
        WaitsFits(w1, m, now);
        assert LineOf(w1) + [m] == LineOf(w);
      }
    }
  }

  lemma FlushLine(w: World, a: Action)
    requires BoxOk(w.box) && (a.FlushStarts? || a.FlushTakes? || a.FlushEntryEnds? || a.FlushStops? || a.LinkUp? || a.LinkDown? || a.Promoted?)
    ensures var w' := Act(w, a); LineOf(w') == LineOf(w) && w'.count == w.count && w'.rejected == w.rejected && w'.discarded == w.discarded && BoxOk(w'.box)
  {
    hide LineOf;
    if a.FlushTakes? && w.box.outbox != [] && w.box.hand.Nothing? {
      TakenLine(w);
    } else if a.FlushEntryEnds? && w.box.hand.Just? {
      EntryLine(w);
    } else {
      SameLine(w, Act(w, a));
    }
  }

  lemma SameLine(w: World, w': World)
    requires w'.written == w.written && w'.box.outbox == w.box.outbox && w'.box.hand == w.box.hand && w'.box.sending == w.box.sending
    ensures LineOf(w') == LineOf(w)
  {
  }

  lemma TakenLine(w: World)
    requires w.box.outbox != [] && w.box.hand.Nothing?
    ensures LineOf(w.(box := w.box.(hand := Just(w.box.outbox[0]), outbox := w.box.outbox[1..]))) == LineOf(w)
  {
    assert w.written + [] == w.written;
    Regroup(w.written, [w.box.outbox[0].frame], FramesOf(w.box.outbox[1..]), SendingOf(w.box));
  }

  lemma EntryLine(w: World)
    requires w.box.hand.Just?
    ensures LineOf(w.(box := w.box.(hand := Nothing), written := w.written + [w.box.hand.value.frame])) == LineOf(w)
    ensures LineOf(w.(box := w.box.(hand := Nothing, flushing := false, outbox := [w.box.hand.value] + w.box.outbox))) == LineOf(w)
  {
    var h := w.box.hand.value;
    assert ([h] + w.box.outbox)[1..] == w.box.outbox;
    assert w.written + [h.frame] + [] == w.written + [h.frame] && w.written + [] == w.written;
    Regroup(w.written, [h.frame], FramesOf(w.box.outbox), SendingOf(w.box));
  }

  lemma FlushOk(w: World, a: Action)
    requires Ok(w) && (a.FlushStarts? || a.FlushTakes? || a.FlushEntryEnds? || a.FlushStops? || a.LinkUp? || a.LinkDown? || a.Promoted?)
    ensures Ok(Act(w, a))
  {
    hide InLine, Accounted, Act, LineOf;
    FlushLine(w, a);
  }

  lemma ExpireOk(w: World, timeout: real, now: real)
    requires Ok(w)
    ensures Ok(Act(w, Expires(timeout, now)))
  {
    hide InLine, Accounted, FramesOf, Overdue;
    var n := Overdue(w.box.outbox, timeout, now);
    hide Act, HandOf, SendingOf, BoxOk;
    FrontGone(w, n);
    ExpireIs(w, timeout, now);
  }

  lemma ExpireIs(w: World, timeout: real, now: real)
    ensures var n := Overdue(w.box.outbox, timeout, now);
      Act(w, Expires(timeout, now)) == w.(box := w.box.(outbox := w.box.outbox[n..]), rejected := w.rejected + FramesOf(w.box.outbox[..n]))
  {
  }

  /** The oldest `n` frames are rejected. */
  lemma FrontGone(w: World, n: nat)
    requires Ok(w) && n <= |w.box.outbox|
    ensures Ok(w.(box := w.box.(outbox := w.box.outbox[n..]), rejected := w.rejected + FramesOf(w.box.outbox[..n])))
  {
    hide InLine, Accounted, FramesOf;
    var gone, kept := FramesOf(w.box.outbox[..n]), FramesOf(w.box.outbox[n..]);
    FramesSplit(w.box.outbox, n);
    var a, c := w.written + HandOf(w.box), kept + SendingOf(w.box);
    Regroup(a, gone, kept, SendingOf(w.box));
    Removed(a, gone, c, w.rejected, w.discarded, w.count);
  }

  lemma DemoteOk(w: World)
    requires Ok(w)
    ensures Ok(Act(w, Demoted))
  {
    hide InLine, Accounted;
    var w' := Act(w, Demoted);
    var a, gone, c := w.written + HandOf(w.box), FramesOf(w.box.outbox), SendingOf(w.box);
    assert FramesOf(w'.box.outbox) == [] && a + [] == a;
    hide FramesOf;
    Removed(a, gone, c, w.rejected, w.discarded, w.count);
  }

  lemma CloseOk(w: World)
    requires Ok(w)
    ensures Ok(Act(w, Closed))
  {
    hide InLine, Accounted;
    var w' := Act(w, Closed);
    var hand, frames, c := HandOf(w.box), FramesOf(w.box.outbox), SendingOf(w.box);
    assert FramesOf(w'.box.outbox) == [] && w.written + [] + [] == w.written;
    hide FramesOf;
    Removed(w.written + hand, frames, c, w.rejected, w.discarded, w.count);
    Removed(w.written, hand, c, w.rejected, w.discarded + frames, w.count);
  }

  lemma {:induction false} RunOk(max: int, actions: seq<Action>)
    ensures Ok(Run(max, actions))
  {
    hide Act;
    if actions != [] {
      hide Ok;
      var w := Run(max, actions[..|actions| - 1]);
      RunOk(max, actions[..|actions| - 1]);
      match actions[|actions| - 1]
      case Sends(now) => SendOk(w, now);
      case SendEnds(ok, now) => SendEndOk(w, ok, now);
      case Expires(timeout, now) => ExpireOk(w, timeout, now);
      case Demoted => DemoteOk(w);
      case Closed => CloseOk(w);
      case _ => FlushOk(w, actions[|actions| - 1]);
    }
  }

  // ------------------------------------------------------------------
  // Main results
  // ------------------------------------------------------------------

  lemma OneMoreOf(s: seq<nat>, y: nat, x: nat)
    ensures multiset(s + [y])[x] == multiset(s)[x] + if x == y then 1 else 0
  {
  }

  lemma {:induction false} UptoOnce(n: nat, x: nat)
    ensures multiset(Upto(n))[x] == if x < n then 1 else 0
  {
    if n > 0 {
      UptoOnce(n - 1, x);
      OneMoreOf(Upto(n - 1), n - 1, x);
    }
  }

  lemma LineIs(w: World)
    ensures LineOf(w) == w.written + Waiting(w.box)
  {
  }

  lemma Together(a: seq<nat>, b: seq<nat>)
    ensures multiset(a + b) == multiset(a) + multiset(b)
  {
  }

  /** MAIN RESULT. For sends issued one after another, whatever links, flushes, expiry and changes of role do in between: the
      frames written to the backend are a subsequence of the frames sent, in their order, and every frame written was sent
      before every frame that still waits; each frame sent is in exactly one place, once: written, waiting (in the outbox, in
      the flush's hand, being written), given up on, or dropped; and at most `max_buffered` + 1 frames wait. */
  lemma StoreAndForward(max: int, actions: seq<Action>, x: nat)
    ensures var w := Run(max, actions);
      && Increasing(w.written + Waiting(w.box))
      && multiset(w.written)[x] + multiset(Waiting(w.box))[x] + multiset(w.rejected)[x] + multiset(w.discarded)[x] == (if x < w.count then 1 else 0)
      && |w.box.outbox| + |HandOf(w.box)| <= (if w.box.max < 0 then 0 else w.box.max) + 1
  {
    hide Run, Waiting, LineOf, Upto;
    var w := Run(max, actions);
    RunOk(max, actions);
    UptoOnce(w.count, x);
    LineIs(w);
    Together(w.written, Waiting(w.box));
  }

  // ------------------------------------------------------------------
  // When a frame is given up on
  // ------------------------------------------------------------------

  /** The frame sent now cannot be written at once: others wait, or the link is down. */
  predicate HasToWait(w: World) {
    w.box.sending.Nothing? && (w.box.outbox != [] || w.box.flushing || !w.box.ready)
  }

  /** The frames up to the `i`th have waited for the timeout or longer. */
  ghost predicate HaveWaited(outbox: seq<Entry<nat>>, i: nat, timeout: real, now: real)
    requires i < |outbox|
  {
    forall j :: 0 <= j <= i ==> now - outbox[j].queuedAt >= timeout
  }

  /** Refused for lack of room; in the outbox for too long, like everything before it; or the backend is demoted. */
  ghost predicate IsRejectedBy(w: World, a: Action, x: nat) {
    match a
    case Sends(_) => x == w.count && HasToWait(w) && 0 < w.box.max <= |w.box.outbox|
    case Expires(timeout, now) =>
      exists i :: 0 <= i < |w.box.outbox| && w.box.outbox[i].frame == x && HaveWaited(w.box.outbox, i, timeout, now)
    case Demoted => exists i :: 0 <= i < |w.box.outbox| && w.box.outbox[i].frame == x
    case _ => false
  }

  /** Nothing may wait for this backend; or the connection is given up for good. */
  ghost predicate IsDiscardedBy(w: World, a: Action, x: nat) {
    match a
    case Sends(_) => x == w.count && HasToWait(w) && w.box.max <= 0
    case SendEnds(ok, _) => !ok && w.box.sending == Just(x) && w.box.max <= 0
    case Closed => (w.box.hand.Just? && w.box.hand.value.frame == x) || exists i :: 0 <= i < |w.box.outbox| && w.box.outbox[i].frame == x
    case _ => false
  }

  /** There is room: the frame waits from now on, behind the others. */
  predicate IsKeptBy(w: World, w': World, a: Action) {
    match a
    case Sends(now) => HasToWait(w) && |w.box.outbox| < w.box.max ==> w'.box.outbox == w.box.outbox + [Entry(w.count, now)]
    case SendEnds(ok, now) => !ok && w.box.sending.Just? && |w.box.outbox| < w.box.max ==> w'.box.outbox == w.box.outbox + [Entry(w.box.sending.value, now)]
    case _ => true
  }

  lemma AmongFrames(outbox: seq<Entry<nat>>, x: nat)
    ensures x in FramesOf(outbox) <==> exists i :: 0 <= i < |outbox| && outbox[i].frame == x
  {
    if x in FramesOf(outbox) {
      var i :| 0 <= i < |FramesOf(outbox)| && FramesOf(outbox)[i] == x;
      assert outbox[i].frame == x;
    }
    if exists i :: 0 <= i < |outbox| && outbox[i].frame == x {
      var i :| 0 <= i < |outbox| && outbox[i].frame == x;
      assert FramesOf(outbox)[i] == x;
    }
  }

  lemma {:induction false} OverdueAre(outbox: seq<Entry<nat>>, timeout: real, now: real)
    ensures forall i :: 0 <= i < |outbox| ==> (i < Overdue(outbox, timeout, now) <==> HaveWaited(outbox, i, timeout, now))
  {
    if outbox != [] && now - outbox[0].queuedAt >= timeout {
      var rest := outbox[1..];
      OverdueAre(rest, timeout, now);
      forall i | 0 <= i < |outbox| ensures i < Overdue(outbox, timeout, now) <==> HaveWaited(outbox, i, timeout, now) {
        if i > 0 {
          assert forall j :: 0 <= j <= i ==> outbox[j] == if j == 0 then outbox[0] else rest[j - 1];
          assert forall j :: 0 <= j <= i - 1 ==> rest[j] == outbox[j + 1];
          assert i - 1 < Overdue(rest, timeout, now) <==> HaveWaited(rest, i - 1, timeout, now);
        }
      }
    }
  }

  lemma ExpiredAre(w: World, timeout: real, now: real, x: nat)
    ensures x in FramesOf(w.box.outbox[..Overdue(w.box.outbox, timeout, now)]) <==> IsRejectedBy(w, Expires(timeout, now), x)
  {
    var n := Overdue(w.box.outbox, timeout, now);
    AmongFrames(w.box.outbox[..n], x);
    OverdueAre(w.box.outbox, timeout, now);
    if i :| 0 <= i < |w.box.outbox[..n]| && w.box.outbox[..n][i].frame == x {
      assert w.box.outbox[i].frame == x;
    }
    if i :| 0 <= i < |w.box.outbox| && w.box.outbox[i].frame == x && i < n {
      assert w.box.outbox[..n][i].frame == x;
    }
  }

  /** What an action adds to the frames given up on, and to those discarded. */
  lemma ActGivesUp(w: World, a: Action, x: nat)
    requires BoxOk(w.box)
    ensures var w' := Act(w, a);
      && (x in w'.rejected <==> x in w.rejected || IsRejectedBy(w, a, x))
      && (x in w'.discarded <==> x in w.discarded || IsDiscardedBy(w, a, x))
      && IsKeptBy(w, w', a)
  {
    AmongFrames(w.box.outbox, x);
    if a.Expires? {
      ExpiredAre(w, a.timeout, a.now, x);
    }
  }

  /** MAIN RESULT. Over any run: a frame is given up on only for lack of room (`max_buffered` frames wait already), or because it and
      everything before it has waited for at least the timeout, or when the backend stops leading; it is discarded only when
      nothing may wait, or the connection is given up for good; and with room for it a frame that has to wait does wait. */
  lemma GivenUpExactly(max: int, actions: seq<Action>, a: Action, x: nat)
    ensures var (w, w') := (Run(max, actions), Run(max, actions + [a]));
      && (x in w'.rejected <==> x in w.rejected || IsRejectedBy(w, a, x))
      && (x in w'.discarded <==> x in w.discarded || IsDiscardedBy(w, a, x))
      && IsKeptBy(w, w', a)
  {
    hide IsRejectedBy, IsDiscardedBy, IsKeptBy, Act, InLine, Accounted;
    RunOk(max, actions);
    assert (actions + [a])[..|actions|] == actions;
    ActGivesUp(Run(max, actions), a, x);
  }
}
