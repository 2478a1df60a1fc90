/** Database writes in the background: a bounded line in which order is kept, names coalesce and failures are retried. */
module WriteBehindLanes {
  datatype Maybe<+T> = Nothing | Just(value: T)

  /** The place of a write in the line: one of its own, or the one of its name (a later write of that name replaces it). */
  datatype Key = Own(serial: nat) | Named(name: string)

  /** A write; `id` tells writes apart, `attempts` counts its failures other than timeouts. */
  datatype Item = Item(id: nat, call: string, attempts: nat)

  datatype Slot = Slot(key: Key, item: Item)

  /** A lane: the line, the write being run (it keeps its place), and the number of own places given out. */
  datatype Lane = Lane(pending: seq<Slot>, running: Maybe<Slot>, serial: nat, closed: bool)

  datatype Outcome = Stored | TimedOut | Failed

  predicate HasKey(pending: seq<Slot>, key: Key) {
    exists i :: 0 <= i < |pending| && pending[i].key == key
  }

  /** The first place of `key`. */
  function PlaceOf(pending: seq<Slot>, key: Key): nat
    requires HasKey(pending, key)
    ensures PlaceOf(pending, key) < |pending| && pending[PlaceOf(pending, key)].key == key
    ensures forall i :: 0 <= i < PlaceOf(pending, key) ==> pending[i].key != key
  {
    if pending[0].key == key then 0
    else
      assert HasKey(pending[1..], key) by {
        var i :| 0 <= i < |pending| && pending[i].key == key;
        assert pending[1..][i - 1].key == key;
      }
      1 + PlaceOf(pending[1..], key)
  }

  /** Queue a write; refused if the lane is closed or full. */
  function Submitted(l: Lane, id: nat, call: string, name: Maybe<string>, maxPending: int): (Lane, bool) {
    if l.closed then (l, false)
    else if name.Just? && HasKey(l.pending, Named(name.value)) then
      (l.(pending := l.pending[PlaceOf(l.pending, Named(name.value)) := Slot(Named(name.value), Item(id, call, 0))]), true)
    else if |l.pending| >= maxPending then (l, false)
    else if name.Just? then (l.(pending := l.pending + [Slot(Named(name.value), Item(id, call, 0))]), true)
    else (l.(pending := l.pending + [Slot(Own(l.serial + 1), Item(id, call, 0))], serial := l.serial + 1), true)
  }

  /** The worker runs the write at the head. */
  function Start(l: Lane): Lane {
    if l.running.Just? || l.pending == [] then l else l.(running := Just(l.pending[0]))
  }

  /** The write is over or given up on: its place goes, unless a newer write of its name took it meanwhile. */
  predicate IsOver(l: Lane, outcome: Outcome, maxAttempts: int)
    requires l.running.Just?
  {
    outcome.Stored? || (outcome.Failed? && l.running.value.item.attempts + 1 >= maxAttempts)
  }

  /** The content of the head is still the write that ran. */
  predicate StillHead(l: Lane)
    requires l.running.Just?
  {
    l.pending != [] && l.pending[0].key == l.running.value.key && l.pending[0].item.id == l.running.value.item.id
  }

  function Finish(l: Lane, outcome: Outcome, maxAttempts: int): Lane {
    if l.running.Nothing? then l
    else if IsOver(l, outcome, maxAttempts) then
      l.(running := Nothing, pending := if StillHead(l) then l.pending[1..] else l.pending)
    else if outcome.Failed? && StillHead(l) then
      var tried := l.running.value.item.(attempts := l.running.value.item.attempts + 1);
      l.(running := Nothing, pending := l.pending[0 := Slot(l.running.value.key, tried)])
    else l.(running := Nothing)
  }

  // ------------------------------------------------------------------
  // A lane in place
  // ------------------------------------------------------------------

  class WriteLane {
    const maxPending: int
    const maxAttempts: int
    var pending: seq<Slot>
    var running: Maybe<Slot>
    var serial: nat
    var closed: bool
    var written: nat
    var failed: nat
    var dropped: nat
    var coalesced: nat
    var consecutiveFailures: nat

    constructor (maxPending: int, maxAttempts: int)
      ensures View() == Lane([], Nothing, 0, false) && this.maxPending == maxPending && this.maxAttempts == maxAttempts
    {
      this.maxPending, this.maxAttempts := maxPending, maxAttempts;
      pending, running, serial, closed := [], Nothing, 0, false;
      written, failed, dropped, coalesced, consecutiveFailures := 0, 0, 0, 0, 0;
    }

    ghost function View(): Lane
      reads this
    {
      Lane(pending, running, serial, closed)
    }

    method IndexOf(key: Key) returns (found: Maybe<nat>)
      ensures found.Just? <==> HasKey(pending, key)
      ensures found.Just? ==> found.value == PlaceOf(pending, key)
    {
      var i := 0;
      while i < |pending|
        invariant 0 <= i <= |pending| && forall j :: 0 <= j < i ==> pending[j].key != key
      {
        if pending[i].key == key {
          return Just(i);
        }
        i := i + 1;
      }
      found := Nothing;
    }

    /** Queue a write and return at once. */
    method SubmitWrite(id: nat, call: string, name: Maybe<string>) returns (accepted: bool)
      modifies this`pending, this`serial, this`coalesced, this`dropped
      ensures (View(), accepted) == Submitted(old(View()), id, call, name, maxPending)
    {
      if closed {
        return false;
      }
      if name.Just? {
        var at := IndexOf(Named(name.value));
        if at.Just? {
          pending := pending[at.value := Slot(Named(name.value), Item(id, call, 0))];
          coalesced := coalesced + 1;
          return true;
        }
      }
      if |pending| >= maxPending {
        dropped := dropped + 1;
        return false;
      }
      var key: Key;
      if name.Just? {
        key := Named(name.value);
      } else {
        serial := serial + 1;
        key := Own(serial);
      }
      pending := pending + [Slot(key, Item(id, call, 0))];
      accepted := true;
    }

    method StartNext()
      requires running.Nothing? && pending != []
      modifies this`running
      ensures View() == Start(old(View()))
    {
      running := Just(pending[0]);
    }

    /** The write that was running came to an end. */
    method Ended(outcome: Outcome)
      requires running.Just?
      modifies this`pending, this`running, this`written, this`failed, this`consecutiveFailures
      ensures View() == Finish(old(View()), outcome, maxAttempts)
      ensures consecutiveFailures == if outcome.Stored? then 0 else old(consecutiveFailures) + 1
    {
      var slot := running.value;
      running := Nothing;
      if outcome.Stored? {
        written, consecutiveFailures := written + 1, 0;
      } else {
        failed, consecutiveFailures := failed + 1, consecutiveFailures + 1;
        if outcome.TimedOut? {
          return;
        }
        var tried := slot.item.(attempts := slot.item.attempts + 1);
        if tried.attempts < maxAttempts {
          if pending != [] && pending[0].key == slot.key && pending[0].item.id == slot.item.id {
            pending := pending[0 := Slot(slot.key, tried)];
          }
          return;
        }
      }
      if pending != [] && pending[0].key == slot.key && pending[0].item.id == slot.item.id {
        pending := pending[1..];
      }
    }
  }

  /** All lanes: one shard's writes always share a lane (no shard: the first). */
  class WriteBehind {
    const lanes: seq<WriteLane>
    const hash: string -> int

    constructor (lanes: seq<WriteLane>, hash: string -> int)
      requires |lanes| >= 1
      ensures this.lanes == lanes && this.hash == hash
    {
      this.lanes, this.hash := lanes, hash;
    }

    function LaneOf(shard: Maybe<string>): (i: nat)
      requires |lanes| >= 1
      ensures i < |lanes|
    {
      if shard.Just? then hash(shard.value) % |lanes| else 0
    }

    /** The write goes to its shard's lane; other lanes are not touched. */
    method Submit(id: nat, call: string, name: Maybe<string>, shard: Maybe<string>) returns (accepted: bool)
      requires |lanes| >= 1 && forall i, j :: 0 <= i < j < |lanes| ==> lanes[i] != lanes[j]
      modifies lanes[LaneOf(shard)]
      ensures var lane := lanes[LaneOf(shard)]; (lane.View(), accepted) == Submitted(old(lane.View()), id, call, name, lane.maxPending)
      ensures forall i :: 0 <= i < |lanes| && i != LaneOf(shard) ==> lanes[i].View() == old(lanes[i].View())
    {
      accepted := lanes[LaneOf(shard)].SubmitWrite(id, call, name);
    }
  }

  // ------------------------------------------------------------------
  // A lane over time
  // ------------------------------------------------------------------

  /** A write the lane accepted, and one run of a write with its outcome. A run that timed out or failed may have reached the
      database all the same. */
  datatype Accepted = Accepted(id: nat, key: Key)
  datatype Ran = Ran(id: nat, key: Key, outcome: Outcome, reached: bool)

  /** The lane, how many writes were submitted, the accepted ones in order, every run in order, and the writes with a place of
      their own that are over (stored or given up on), in order. */
  datatype World = World(lane: Lane, count: nat, accepted: seq<Accepted>, log: seq<Ran>, over: seq<nat>)

  const NewWorld := World(Lane([], Nothing, 0, false), 0, [], [], [])

  datatype Action = Submits(call: string, name: Maybe<string>) | Starts | Ends(outcome: Outcome, reached: bool) | Closes

  function KeyFor(l: Lane, name: Maybe<string>): Key {
    if name.Just? then Named(name.value) else Own(l.serial + 1)
  }

  function Act(w: World, a: Action, maxPending: int, maxAttempts: int): World {
    match a
    case Submits(call, name) =>
      var (lane, accepted) := Submitted(w.lane, w.count, call, name, maxPending);
      World(lane, w.count + 1, if accepted then w.accepted + [Accepted(w.count, KeyFor(w.lane, name))] else w.accepted, w.log, w.over)
    case Starts => w.(lane := Start(w.lane))
    case Ends(outcome, reached) =>
      if w.lane.running.Nothing? then w
      else
        var r := w.lane.running.value;
        w.(lane := Finish(w.lane, outcome, maxAttempts), log := w.log + [Ran(r.item.id, r.key, outcome, reached || outcome.Stored?)],
           over := if r.key.Own? && IsOver(w.lane, outcome, maxAttempts) then w.over + [r.item.id] else w.over)
    case Closes => w.(lane := w.lane.(closed := true))
  }

  function Run(actions: seq<Action>, maxPending: int, maxAttempts: int): World {
    if actions == [] then NewWorld else Act(Run(actions[..|actions| - 1], maxPending, maxAttempts), actions[|actions| - 1], maxPending, maxAttempts)
  }

  // ------------------------------------------------------------------
  // What holds throughout
  // ------------------------------------------------------------------

  /** The writes with places of their own, in order. */
  function OwnAccepted(accepted: seq<Accepted>): seq<nat> {
    if accepted == [] then []
    else OwnAccepted(accepted[..|accepted| - 1]) + if accepted[|accepted| - 1].key.Own? then [accepted[|accepted| - 1].id] else []
  }

  function OwnWaiting(pending: seq<Slot>): seq<nat> {
    if pending == [] then []
    else OwnWaiting(pending[..|pending| - 1]) + if pending[|pending| - 1].key.Own? then [pending[|pending| - 1].item.id] else []
  }

  /** The write of a name that was accepted last, and the one that was run last. */
  function LastAccepted(accepted: seq<Accepted>, key: Key): Maybe<nat> {
    if accepted == [] then Nothing
    else if accepted[|accepted| - 1].key == key then Just(accepted[|accepted| - 1].id) else LastAccepted(accepted[..|accepted| - 1], key)
  }

  function LastRun(log: seq<Ran>, key: Key): Maybe<nat> {
    if log == [] then Nothing else if log[|log| - 1].key == key then Just(log[|log| - 1].id) else LastRun(log[..|log| - 1], key)
  }

  /** How often a write came to this end. */
  function Times(log: seq<Ran>, id: nat, outcome: Outcome): nat {
    if log == [] then 0
    else Times(log[..|log| - 1], id, outcome) + if log[|log| - 1].id == id && log[|log| - 1].outcome == outcome then 1 else 0
  }

  /** How often a write reached the database. */
  function Reaches(log: seq<Ran>, id: nat): nat {
    if log == [] then 0
    else Reaches(log[..|log| - 1], id) + if log[|log| - 1].id == id && log[|log| - 1].reached then 1 else 0
  }

  predicate Waits(pending: seq<Slot>, id: nat) {
    exists i :: 0 <= i < |pending| && pending[i].item.id == id
  }

  predicate DistinctSlots(pending: seq<Slot>) {
    forall i, j :: 0 <= i < j < |pending| ==> pending[i].key != pending[j].key && pending[i].item.id != pending[j].item.id
  }

  /** A waiting write has not been stored, and its failures are counted. */
  predicate SlotOk(w: World, slot: Slot) {
    && slot.item.id < w.count && (slot.key.Own? ==> slot.key.serial <= w.lane.serial)
    && Times(w.log, slot.item.id, Stored) == 0 && Times(w.log, slot.item.id, Failed) == slot.item.attempts
  }

  predicate SlotsOk(w: World) {
    forall i :: 0 <= i < |w.lane.pending| ==> SlotOk(w, w.lane.pending[i])
  }

  /** The write being run keeps its place at the head, unless a newer write of its name has taken it. */
  predicate RunningOk(w: World) {
    w.lane.running.Just? ==>
      && w.lane.pending != [] && w.lane.pending[0].key == w.lane.running.value.key && w.lane.running.value.item.id < w.count
      && Times(w.log, w.lane.running.value.item.id, Stored) == 0
      && (w.lane.running.value.key.Own? ==> w.lane.pending[0].item.id == w.lane.running.value.item.id)
      && (w.lane.pending[0].item.id == w.lane.running.value.item.id ==> w.lane.pending[0].item == w.lane.running.value.item)
      && (w.lane.pending[0].item.id != w.lane.running.value.item.id ==> !Waits(w.lane.pending, w.lane.running.value.item.id))
  }

  /** The last accepted write of a name waits, or it is the last one that was run. */
  predicate NameOk(w: World, name: string) {
    var last := LastAccepted(w.accepted, Named(name));
    && (forall i :: 0 <= i < |w.lane.pending| && w.lane.pending[i].key == Named(name) ==> Just(w.lane.pending[i].item.id) == last)
    && (last.Just? && !HasKey(w.lane.pending, Named(name)) ==> LastRun(w.log, Named(name)) == last)
  }

  predicate Unseen(log: seq<Ran>, id: nat) {
    Times(log, id, Stored) == 0 && Times(log, id, Failed) == 0
  }

  /** A write that was stored is not run again. */
  ghost predicate StoredIsLast(log: seq<Ran>) {
    forall i, j :: 0 <= i < j < |log| && log[i].id == log[j].id ==> !log[i].outcome.Stored?
  }

  /** No write is stored twice or run after that, and writes that were not submitted yet did not run. */
  ghost predicate LogOk(log: seq<Ran>, count: nat) {
    (forall id: nat :: Times(log, id, Stored) <= 1) && (forall id: nat :: id >= count ==> Unseen(log, id)) && StoredIsLast(log)
  }

  lemma {:induction false} NotStored(log: seq<Ran>, id: nat, i: nat)
    requires i < |log| && Times(log, id, Stored) == 0 && log[i].id == id
    ensures !log[i].outcome.Stored?
  {
    if i < |log| - 1 {
      NotStored(log[..|log| - 1], id, i);
    }
  }

  lemma LogLater(log: seq<Ran>, count: nat)
    requires LogOk(log, count)
    ensures LogOk(log, count + 1) && Unseen(log, count)
  {
    forall id: nat | id >= count + 1 ensures Unseen(log, id) {}
  }

  ghost predicate LaneOk(w: World, maxPending: int) {
    && DistinctSlots(w.lane.pending) && SlotsOk(w) && RunningOk(w) && (forall name: string :: NameOk(w, name))
    && (w.lane.pending == [] || |w.lane.pending| <= maxPending)
    && OwnAccepted(w.accepted) == w.over + OwnWaiting(w.lane.pending)
    && LogOk(w.log, w.count)
  }

  // ------------------------------------------------------------------
  // One step at a time
  // ------------------------------------------------------------------

  lemma OwnAppended(pending: seq<Slot>, s: Slot)
    ensures OwnWaiting(pending + [s]) == OwnWaiting(pending) + if s.key.Own? then [s.item.id] else []
  {
    assert (pending + [s])[..|pending|] == pending;
  }

  lemma {:induction false} OwnHead(pending: seq<Slot>)
    requires pending != []
    ensures OwnWaiting(pending) == (if pending[0].key.Own? then [pending[0].item.id] else []) + OwnWaiting(pending[1..])
  {
    var n := |pending| - 1;
    if n == 0 {
      assert pending[1..] == [] && pending[..0] == [];
    } else {
      OwnHead(pending[..n]);
      assert pending[..n][1..] == pending[1..][..n - 1];
    }
  }

  /** Only keys and ids of writes matter for the order. */
  lemma {:induction false} OwnSame(a: seq<Slot>, b: seq<Slot>)
    requires |a| == |b| && forall i :: 0 <= i < |a| ==> a[i].key == b[i].key && (a[i].key.Own? ==> a[i].item.id == b[i].item.id)
    ensures OwnWaiting(a) == OwnWaiting(b)
  {
    if a != [] {
      OwnSame(a[..|a| - 1], b[..|b| - 1]);
    }
  }

  lemma TimesMore(log: seq<Ran>, r: Ran, id: nat, outcome: Outcome)
    ensures Times(log + [r], id, outcome) == Times(log, id, outcome) + if r.id == id && r.outcome == outcome then 1 else 0
    ensures LastRun(log + [r], r.key) == Just(r.id) && forall key :: key != r.key ==> LastRun(log + [r], key) == LastRun(log, key)
  {
    assert (log + [r])[..|log|] == log;
  }

  lemma AcceptedMore(accepted: seq<Accepted>, a: Accepted)
    ensures OwnAccepted(accepted + [a]) == OwnAccepted(accepted) + if a.key.Own? then [a.id] else []
    ensures LastAccepted(accepted + [a], a.key) == Just(a.id) && forall key :: key != a.key ==> LastAccepted(accepted + [a], key) == LastAccepted(accepted, key)
  {
    assert (accepted + [a])[..|accepted|] == accepted;
  }

  /** A refused write changes nothing. */
  lemma RefusedOk(w: World, maxPending: int)
    requires LaneOk(w, maxPending)
    ensures LaneOk(w.(count := w.count + 1), maxPending)
  {
    hide LogOk;
    LogLater(w.log, w.count);
    var w' := w.(count := w.count + 1);
    forall name: string ensures NameOk(w', name) {
      assert NameOk(w, name);
    }
    assert SlotsOk(w') by {
      forall i | 0 <= i < |w'.lane.pending| ensures SlotOk(w', w'.lane.pending[i]) {
        assert SlotOk(w, w.lane.pending[i]);
      }
    }
  }

  /** A write with a new place. */
  lemma AppendedOk(w: World, call: string, key: Key, serial: nat, maxPending: int)
    requires LaneOk(w, maxPending) && |w.lane.pending| < maxPending && !HasKey(w.lane.pending, key)
    requires serial >= w.lane.serial && (key.Own? ==> key.serial <= serial)
    ensures LaneOk(World(w.lane.(pending := w.lane.pending + [Slot(key, Item(w.count, call, 0))], serial := serial), w.count + 1,
                         w.accepted + [Accepted(w.count, key)], w.log, w.over), maxPending)
  {
    hide OwnWaiting, OwnAccepted, LastAccepted, LastRun, LogOk;
    var s := Slot(key, Item(w.count, call, 0));
    var w' := World(w.lane.(pending := w.lane.pending + [s], serial := serial), w.count + 1, w.accepted + [Accepted(w.count, key)], w.log, w.over);
    OwnAppended(w.lane.pending, s);
    AcceptedMore(w.accepted, Accepted(w.count, key));
    LogLater(w.log, w.count);
    assert SlotsOk(w') by {
      forall i | 0 <= i < |w'.lane.pending| ensures SlotOk(w', w'.lane.pending[i]) {
        assert i < |w.lane.pending| ==> SlotOk(w, w.lane.pending[i]);
      }
    }
    AppendedNames(w, w', s);
    AppendedRunning(w, w', s);
  }

  lemma AppendedNames(w: World, w': World, s: Slot)
    requires w'.lane.pending == w.lane.pending + [s] && w'.log == w.log && !HasKey(w.lane.pending, s.key)
    requires LastAccepted(w'.accepted, s.key) == Just(s.item.id) && forall key :: key != s.key ==> LastAccepted(w'.accepted, key) == LastAccepted(w.accepted, key)
    requires forall name: string :: NameOk(w, name)
    ensures forall name: string :: NameOk(w', name)
  {
    forall name: string ensures NameOk(w', name) {
      assert NameOk(w, name);
      assert w'.lane.pending[|w.lane.pending|] == s;
      if HasKey(w.lane.pending, Named(name)) {
        var i :| 0 <= i < |w.lane.pending| && w.lane.pending[i].key == Named(name);
        assert w'.lane.pending[i].key == Named(name);
      }
    }
  }

  lemma AppendedRunning(w: World, w': World, s: Slot)
    requires RunningOk(w) && w'.lane.pending == w.lane.pending + [s] && w'.lane.running == w.lane.running && w'.log == w.log && w'.count >= w.count && s.item.id == w.count
    ensures RunningOk(w')
  {
    if w.lane.running.Just? {
      forall i | 0 <= i < |w'.lane.pending| && w'.lane.pending[i].item.id == w.lane.running.value.item.id ensures Waits(w.lane.pending, w.lane.running.value.item.id) {
        assert w.lane.pending[i].item.id == w.lane.running.value.item.id;
      }
    }
  }

  /** A write that takes the place of a waiting one of its name. */
  lemma ReplacedOk(w: World, call: string, name: string, at: nat, maxPending: int)
    requires LaneOk(w, maxPending) && at < |w.lane.pending| && w.lane.pending[at].key == Named(name)
    ensures LaneOk(World(w.lane.(pending := w.lane.pending[at := Slot(Named(name), Item(w.count, call, 0))]), w.count + 1,
                         w.accepted + [Accepted(w.count, Named(name))], w.log, w.over), maxPending)
  {
    hide OwnWaiting, OwnAccepted, LastAccepted, LastRun, LogOk;
    var s := Slot(Named(name), Item(w.count, call, 0));
    var w' := World(w.lane.(pending := w.lane.pending[at := s]), w.count + 1, w.accepted + [Accepted(w.count, Named(name))], w.log, w.over);
    OwnSame(w.lane.pending, w'.lane.pending);
    AcceptedMore(w.accepted, Accepted(w.count, Named(name)));
    LogLater(w.log, w.count);
    assert SlotsOk(w') by {
      forall i | 0 <= i < |w'.lane.pending| ensures SlotOk(w', w'.lane.pending[i]) {
        assert SlotOk(w, w.lane.pending[i]);
      }
    }
    ReplacedNames(w, w', s, at);
    ReplacedRunning(w, w', s, at);
  }

  lemma ReplacedNames(w: World, w': World, s: Slot, at: nat)
    requires at < |w.lane.pending| && w'.lane.pending == w.lane.pending[at := s] && w'.log == w.log && s.key == w.lane.pending[at].key && DistinctSlots(w.lane.pending)
    requires LastAccepted(w'.accepted, s.key) == Just(s.item.id) && forall key :: key != s.key ==> LastAccepted(w'.accepted, key) == LastAccepted(w.accepted, key)
    requires forall name: string :: NameOk(w, name)
    ensures forall name: string :: NameOk(w', name)
  {
    forall name: string ensures NameOk(w', name) {
      assert NameOk(w, name);
      if HasKey(w.lane.pending, Named(name)) {
        var i :| 0 <= i < |w.lane.pending| && w.lane.pending[i].key == Named(name);
        assert w'.lane.pending[i].key == Named(name);
      }
    }
  }

  lemma ReplacedRunning(w: World, w': World, s: Slot, at: nat)
    requires RunningOk(w) && DistinctSlots(w.lane.pending) && at < |w.lane.pending| && w'.lane.pending == w.lane.pending[at := s]
    requires w'.lane.running == w.lane.running && w'.log == w.log && w'.count >= w.count && s.item.id == w.count && s.key.Named? && s.key == w.lane.pending[at].key
    ensures RunningOk(w')
  {
    if w.lane.running.Just? {
      var id := w.lane.running.value.item.id;
      forall i | 0 <= i < |w'.lane.pending| && w'.lane.pending[i].item.id == id ensures i != at && w.lane.pending[i].item.id == id {
      }
      if w.lane.pending[0].item.id == id && at == 0 {
        forall i | 1 <= i < |w.lane.pending| ensures w.lane.pending[i].item.id != id {}
      }
    }
  }

  lemma SubmitOk(w: World, call: string, name: Maybe<string>, maxPending: int, maxAttempts: int)
    requires LaneOk(w, maxPending)
    ensures LaneOk(Act(w, Submits(call, name), maxPending, maxAttempts), maxPending)
  {
    hide LaneOk;
    var (lane, accepted) := Submitted(w.lane, w.count, call, name, maxPending);
    if !accepted {
      RefusedOk(w, maxPending);
    } else if name.Just? && HasKey(w.lane.pending, Named(name.value)) {
      ReplacedOk(w, call, name.value, PlaceOf(w.lane.pending, Named(name.value)), maxPending);
    } else if name.Just? {
      AppendedOk(w, call, Named(name.value), w.lane.serial, maxPending);
    } else {
      OwnIsNew(w, maxPending);
      AppendedOk(w, call, Own(w.lane.serial + 1), w.lane.serial + 1, maxPending);
    }
  }

  lemma OwnIsNew(w: World, maxPending: int)
    requires LaneOk(w, maxPending)
    ensures !HasKey(w.lane.pending, Own(w.lane.serial + 1))
  {
    forall i | 0 <= i < |w.lane.pending| ensures w.lane.pending[i].key != Own(w.lane.serial + 1) {
      assert SlotOk(w, w.lane.pending[i]);
    }
  }

  lemma StartOk(w: World, maxPending: int, maxAttempts: int)
    requires LaneOk(w, maxPending)
    ensures LaneOk(Act(w, Starts, maxPending, maxAttempts), maxPending)
  {
    hide LogOk;
    var w' := Act(w, Starts, maxPending, maxAttempts);
    forall name: string ensures NameOk(w', name) {
      assert NameOk(w, name);
    }
    if w.lane.running.Nothing? && w.lane.pending != [] {
      assert SlotOk(w, w.lane.pending[0]);
    }
    assert SlotsOk(w') by {
      forall i | 0 <= i < |w'.lane.pending| ensures SlotOk(w', w'.lane.pending[i]) {
        assert SlotOk(w, w.lane.pending[i]);
      }
    }
  }

  // ------------------------------------------------------------------
  // A write ends
  // ------------------------------------------------------------------

  lemma LogMore(log: seq<Ran>, count: nat, r: Ran)
    requires LogOk(log, count) && r.id < count && Times(log, r.id, Stored) == 0
    ensures LogOk(log + [r], count)
  {
    forall id: nat ensures Times(log + [r], id, Stored) <= 1 {
      TimesMore(log, r, id, Stored);
    }
    forall id: nat | id >= count ensures Unseen(log + [r], id) {
      assert Unseen(log, id);
      TimesMore(log, r, id, Stored);
      TimesMore(log, r, id, Failed);
    }
    forall i, j | 0 <= i < j < |log + [r]| && (log + [r])[i].id == (log + [r])[j].id ensures !(log + [r])[i].outcome.Stored? {
      if j == |log| {
        NotStored(log, r.id, i);
      }
    }
  }

  /** The place of the write that ran goes. */
  lemma PoppedOk(w: World, outcome: Outcome, reached: bool, maxPending: int, maxAttempts: int)
    requires LaneOk(w, maxPending) && w.lane.running.Just? && IsOver(w.lane, outcome, maxAttempts) && StillHead(w.lane)
    ensures LaneOk(Act(w, Ends(outcome, reached), maxPending, maxAttempts), maxPending)
  {
    hide OwnWaiting, OwnAccepted, LastAccepted, LastRun, LogOk, Times;
    var slot := w.lane.running.value;
    var r := Ran(slot.item.id, slot.key, outcome, reached || outcome.Stored?);
    var w' := Act(w, Ends(outcome, reached), maxPending, maxAttempts);
    OwnHead(w.lane.pending);
    LogMore(w.log, w.count, r);
    assert SlotsOk(w') by {
      forall i | 0 <= i < |w'.lane.pending| ensures SlotOk(w', w'.lane.pending[i]) {
        assert SlotOk(w, w.lane.pending[i + 1]);
        TimesMore(w.log, r, w.lane.pending[i + 1].item.id, Stored);
        TimesMore(w.log, r, w.lane.pending[i + 1].item.id, Failed);
      }
    }
    TimesMore(w.log, r, 0, Stored);
    forall name: string ensures NameOk(w', name) {
      PoppedName(w, w', r, name);
    }
  }

  lemma PoppedName(w: World, w': World, r: Ran, name: string)
    requires NameOk(w, name) && w.lane.pending != [] && w'.lane.pending == w.lane.pending[1..] && w'.accepted == w.accepted && DistinctSlots(w.lane.pending)
    requires r.key == w.lane.pending[0].key && r.id == w.lane.pending[0].item.id && w'.log == w.log + [r]
    ensures NameOk(w', name)
  {
    hide LastAccepted, LastRun;
    TimesMore(w.log, r, 0, Stored);
    forall i | 0 <= i < |w'.lane.pending| && w'.lane.pending[i].key == Named(name) ensures Just(w'.lane.pending[i].item.id) == LastAccepted(w.accepted, Named(name)) {
      assert w'.lane.pending[i] == w.lane.pending[i + 1];
    }
    if HasKey(w.lane.pending, Named(name)) && Named(name) != r.key {
      var i :| 0 <= i < |w.lane.pending| && w.lane.pending[i].key == Named(name);
      assert w'.lane.pending[i - 1].key == Named(name);
    }
  }

  /** The place stays: the write is tried again, or a newer one of its name goes next. */
  lemma KeptOk(w: World, outcome: Outcome, reached: bool, maxPending: int, maxAttempts: int)
    requires LaneOk(w, maxPending) && w.lane.running.Just? && !(IsOver(w.lane, outcome, maxAttempts) && StillHead(w.lane))
    ensures LaneOk(Act(w, Ends(outcome, reached), maxPending, maxAttempts), maxPending)
  {
    hide OwnWaiting, OwnAccepted, LastAccepted, LastRun, LogOk, Times;
    var slot := w.lane.running.value;
    var r := Ran(slot.item.id, slot.key, outcome, reached || outcome.Stored?);
    var w' := Act(w, Ends(outcome, reached), maxPending, maxAttempts);
    OwnSame(w.lane.pending, w'.lane.pending);
    LogMore(w.log, w.count, r);
    assert SlotsOk(w') by {
      forall i | 0 <= i < |w'.lane.pending| ensures SlotOk(w', w'.lane.pending[i]) {
        KeptSlot(w, outcome, reached, maxPending, maxAttempts, i);
      }
    }
    TimesMore(w.log, r, 0, Stored);
    forall name: string ensures NameOk(w', name) {
      KeptName(w, w', r, name);
    }
  }

  lemma KeptSlot(w: World, outcome: Outcome, reached: bool, maxPending: int, maxAttempts: int, i: nat)
    requires LaneOk(w, maxPending) && w.lane.running.Just? && !(IsOver(w.lane, outcome, maxAttempts) && StillHead(w.lane)) && i < |w.lane.pending|
    ensures var w' := Act(w, Ends(outcome, reached), maxPending, maxAttempts); i < |w'.lane.pending| && SlotOk(w', w'.lane.pending[i])
  {
    hide Times, LogOk;
    var slot := w.lane.running.value;
    var r := Ran(slot.item.id, slot.key, outcome, reached || outcome.Stored?);
    assert SlotOk(w, w.lane.pending[i]);
    TimesMore(w.log, r, w.lane.pending[i].item.id, Stored);
    TimesMore(w.log, r, w.lane.pending[i].item.id, Failed);
  }

  lemma KeptName(w: World, w': World, r: Ran, name: string)
    requires NameOk(w, name) && |w'.lane.pending| == |w.lane.pending| && w'.accepted == w.accepted && w.lane.pending != [] && r.key == w.lane.pending[0].key
    requires forall i :: 0 <= i < |w.lane.pending| ==> w'.lane.pending[i].key == w.lane.pending[i].key && w'.lane.pending[i].item.id == w.lane.pending[i].item.id
    requires w'.log == w.log + [r]
    ensures NameOk(w', name)
  {
    hide LastAccepted, LastRun;
    TimesMore(w.log, r, 0, Stored);
    if HasKey(w.lane.pending, Named(name)) {
      var i :| 0 <= i < |w.lane.pending| && w.lane.pending[i].key == Named(name);
      assert w'.lane.pending[i].key == Named(name);
    }
    assert w'.lane.pending[0].key == r.key;
  }

  lemma EndOk(w: World, outcome: Outcome, reached: bool, maxPending: int, maxAttempts: int)
    requires LaneOk(w, maxPending)
    ensures LaneOk(Act(w, Ends(outcome, reached), maxPending, maxAttempts), maxPending)
  {
    hide LaneOk;
    if w.lane.running.Just? {
      if IsOver(w.lane, outcome, maxAttempts) && StillHead(w.lane) {
        PoppedOk(w, outcome, reached, maxPending, maxAttempts);
      } else {
        KeptOk(w, outcome, reached, maxPending, maxAttempts);
      }
    }
  }

  lemma CloseOk(w: World, maxPending: int)
    requires LaneOk(w, maxPending)
    ensures LaneOk(w.(lane := w.lane.(closed := true)), maxPending)
  {
    hide LogOk;
    var w' := w.(lane := w.lane.(closed := true));
    forall name: string ensures NameOk(w', name) {
      assert NameOk(w, name);
    }
    assert SlotsOk(w') by {
      forall i | 0 <= i < |w'.lane.pending| ensures SlotOk(w', w'.lane.pending[i]) {
        assert SlotOk(w, w.lane.pending[i]);
      }
    }
  }

  lemma {:induction false} RunOk(actions: seq<Action>, maxPending: int, maxAttempts: int)
    ensures LaneOk(Run(actions, maxPending, maxAttempts), maxPending)
  {
    hide Act;
    if actions != [] {
      hide LaneOk;
      var w := Run(actions[..|actions| - 1], maxPending, maxAttempts);
      RunOk(actions[..|actions| - 1], maxPending, maxAttempts);
      match actions[|actions| - 1]
      case Submits(call, name) => SubmitOk(w, call, name, maxPending, maxAttempts);
      case Starts => StartOk(w, maxPending, maxAttempts);
      case Ends(outcome, reached) => EndOk(w, outcome, reached, maxPending, maxAttempts);
      case Closes =>
        CloseOk(w, maxPending);
        CloseIs(w, maxPending, maxAttempts);
    }
  }

  lemma CloseIs(w: World, maxPending: int, maxAttempts: int)
    ensures Act(w, Closes, maxPending, maxAttempts) == w.(lane := w.lane.(closed := true))
  {
  }

  // ------------------------------------------------------------------
  // Main results
  // ------------------------------------------------------------------

  /** MAIN RESULT. At most `max_pending` writes wait. Writes with places of their own are over (stored, or given up on) exactly
      in the order in which they were accepted, none is lost, and no write is stored twice. Once the lane has drained, the
      last run of a named write was the run of the last one accepted, even if it replaced another while that was running. */
  lemma WritesAreInOrder(actions: seq<Action>, maxPending: int, maxAttempts: int, id: nat, name: string)
    ensures var w := Run(actions, maxPending, maxAttempts);
      && (w.lane.pending == [] || |w.lane.pending| <= maxPending)
      && OwnAccepted(w.accepted) == w.over + OwnWaiting(w.lane.pending)
      && Times(w.log, id, Stored) <= 1
      && (w.lane.pending == [] && LastAccepted(w.accepted, Named(name)).Just? ==> LastRun(w.log, Named(name)) == LastAccepted(w.accepted, Named(name)))
  {
    var w := Run(actions, maxPending, maxAttempts);
    RunOk(actions, maxPending, maxAttempts);
    assert NameOk(w, name);
  }

  /** A write that still has its place is given up on exactly when this is its `max_attempts`-th real failure (outages do not
      count), and is never run again once it was stored. */
  lemma GivenUpAfterAttempts(actions: seq<Action>, outcome: Outcome, reached: bool, maxPending: int, maxAttempts: int)
    requires var w := Run(actions, maxPending, maxAttempts); w.lane.running.Just? && StillHead(w.lane)
    ensures var w := Run(actions, maxPending, maxAttempts);
      var w' := Act(w, Ends(outcome, reached), maxPending, maxAttempts);
      var id := w.lane.running.value.item.id;
      && Times(w.log, id, Stored) == 0
      && (Waits(w'.lane.pending, id) <==> !(outcome.Stored? || (outcome.Failed? && Times(w'.log, id, Failed) >= maxAttempts)))
  {
    hide Run, OwnAccepted, OwnWaiting, LastAccepted, LastRun;
    RunOk(actions, maxPending, maxAttempts);
    var w := Run(actions, maxPending, maxAttempts);
    assert SlotOk(w, w.lane.pending[0]);
    hide LaneOk;
    EndsHead(w, outcome, reached, maxPending, maxAttempts);
  }

  lemma EndsHead(w: World, outcome: Outcome, reached: bool, maxPending: int, maxAttempts: int)
    requires w.lane.running.Just? && StillHead(w.lane) && SlotOk(w, w.lane.pending[0]) && RunningOk(w) && DistinctSlots(w.lane.pending)
    ensures var w' := Act(w, Ends(outcome, reached), maxPending, maxAttempts); var id := w.lane.running.value.item.id;
      Waits(w'.lane.pending, id) <==> !(outcome.Stored? || (outcome.Failed? && Times(w'.log, id, Failed) >= maxAttempts))
  {
    var slot := w.lane.running.value;
    var w' := Act(w, Ends(outcome, reached), maxPending, maxAttempts);
    TimesMore(w.log, Ran(slot.item.id, slot.key, outcome, reached || outcome.Stored?), slot.item.id, Failed);
    hide Times, LastRun, Waits, DistinctSlots, Finish;
    FinishedHead(w.lane, outcome, maxAttempts);
    if IsOver(w.lane, outcome, maxAttempts) {
      TailIsWithout(w.lane.pending);
    } else {
      HeadIsThere(w'.lane.pending);
    }
  }

  lemma FinishedHead(l: Lane, outcome: Outcome, maxAttempts: int)
    requires l.running.Just? && StillHead(l)
    ensures var pending := Finish(l, outcome, maxAttempts).pending;
      if IsOver(l, outcome, maxAttempts) then pending == l.pending[1..] else pending != [] && pending[0].item.id == l.running.value.item.id
  {
  }

  lemma TailIsWithout(pending: seq<Slot>)
    requires pending != [] && DistinctSlots(pending)
    ensures !Waits(pending[1..], pending[0].item.id)
  {
    assert forall i :: 0 <= i < |pending[1..]| ==> pending[1..][i] == pending[i + 1];
  }

  lemma HeadIsThere(pending: seq<Slot>)
    requires pending != []
    ensures Waits(pending, pending[0].item.id)
  {
  }

  lemma {:induction false} ReachesOnce(log: seq<Ran>, id: nat, i: nat)
    requires i < |log| && log[i].id == id && log[i].reached
    ensures Reaches(log, id) >= 1
  {
    if i < |log| - 1 {
      ReachesOnce(log[..|log| - 1], id, i);
    }
  }

  lemma {:induction false} ReachesTwice(log: seq<Ran>, id: nat, i: nat, j: nat)
    requires i < j < |log| && log[i].id == log[j].id == id && log[i].reached && log[j].reached
    ensures Reaches(log, id) >= 2
  {
    if j < |log| - 1 {
      ReachesTwice(log[..|log| - 1], id, i, j);
    } else {
      ReachesOnce(log[..|log| - 1], id, i);
    }
  }

  lemma {:induction false} OneReach(log: seq<Ran>, id: nat) returns (i: nat)
    requires Reaches(log, id) >= 1
    ensures i < |log| && log[i].id == id && log[i].reached
  {
    i := |log| - 1;
    if !(log[i].id == id && log[i].reached) {
      i := OneReach(log[..i], id);
    }
  }

  lemma {:induction false} TwoReaches(log: seq<Ran>, id: nat) returns (i: nat, j: nat)
    requires Reaches(log, id) >= 2
    ensures i < j < |log| && log[i].id == log[j].id == id && log[i].reached && log[j].reached
  {
    var m := |log| - 1;
    if log[m].id == id && log[m].reached {
      i := OneReach(log[..m], id);
      j := m;
    } else {
      i, j := TwoReaches(log[..m], id);
    }
  }

  /** The `i`th run reached the database, though the lane was told that it timed out or failed; a later run of the write reached it
      as well. */
  ghost predicate UnheardThenAgain(log: seq<Ran>, id: nat) {
    exists i, j :: 0 <= i < j < |log| && UnheardAt(log, id, i) && log[j].id == id && log[j].reached
  }

  predicate UnheardAt(log: seq<Ran>, id: nat, i: nat)
    requires i < |log|
  {
    log[i].id == id && log[i].reached && !log[i].outcome.Stored?
  }

  /** MAIN RESULT. Though no write is stored twice as far as the lane is told, a write reaches the database more than once exactly
      when a run of it got there that timed out or failed, and a later one did as well. */
  lemma ReachesTwiceExactly(actions: seq<Action>, maxPending: int, maxAttempts: int, id: nat)
    ensures var log := Run(actions, maxPending, maxAttempts).log;
      Reaches(log, id) >= 2 <==> UnheardThenAgain(log, id)
  {
    hide Run, LaneOk;
    LogIsOk(actions, maxPending, maxAttempts);
    var log := Run(actions, maxPending, maxAttempts).log;
    if Reaches(log, id) >= 2 {
      var i, j := TwoReaches(log, id);
      assert UnheardAt(log, id, i);
    }
    if UnheardThenAgain(log, id) {
      var i, j :| 0 <= i < j < |log| && UnheardAt(log, id, i) && log[j].id == id && log[j].reached;
      ReachesTwice(log, id, i, j);
    }
  }

  lemma LogIsOk(actions: seq<Action>, maxPending: int, maxAttempts: int)
    ensures StoredIsLast(Run(actions, maxPending, maxAttempts).log)
  {
    hide Run;
    RunOk(actions, maxPending, maxAttempts);
  }

  /** It happens: a write that got there times out, is tried again, and is stored. */
  lemma AWriteCanReachTwice(call: string, maxPending: int, maxAttempts: int)
    requires maxPending >= 1
    ensures var w := Run([Submits(call, Nothing), Starts, Ends(TimedOut, true), Starts, Ends(Stored, true)], maxPending, maxAttempts);
      w.lane.pending == [] && Reaches(w.log, 0) == 2 && Times(w.log, 0, Stored) == 1
  {
    hide Run, Reaches, Times;
    var a1, a2, a3, a5 := Submits(call, Nothing), Starts, Ends(TimedOut, true), Ends(Stored, true);
    assert [] + [a1] == [a1] && [a1] + [a2] == [a1, a2] && [a1, a2] + [a3] == [a1, a2, a3];
    assert [a1, a2, a3] + [a2] == [a1, a2, a3, a2] && [a1, a2, a3, a2] + [a5] == [a1, a2, a3, a2, a5];
    OneMore([], a1, maxPending, maxAttempts);
    OneMore([a1], a2, maxPending, maxAttempts);
    OneMore([a1, a2], a3, maxPending, maxAttempts);
    OneMore([a1, a2, a3], a2, maxPending, maxAttempts);
    OneMore([a1, a2, a3, a2], a5, maxPending, maxAttempts);
    CountTwo(Ran(0, Own(1), TimedOut, true), Ran(0, Own(1), Stored, true));
  }

  lemma OneMore(actions: seq<Action>, a: Action, maxPending: int, maxAttempts: int)
    ensures Run(actions + [a], maxPending, maxAttempts) == Act(Run(actions, maxPending, maxAttempts), a, maxPending, maxAttempts)
    ensures Run([], maxPending, maxAttempts) == NewWorld
  {
    hide Act;
    assert (actions + [a])[..|actions|] == actions;
  }

  lemma CountTwo(a: Ran, b: Ran)
    requires a.id == b.id && a.reached && b.reached && a.outcome.TimedOut? && b.outcome.Stored?
    ensures Reaches([a, b], a.id) == 2 && Times([a, b], a.id, Stored) == 1 && [] + [a] == [a] && [a] + [b] == [a, b]
  {
    assert [a, b][..1] == [a] && [a][..0] == [];
    assert Reaches([a], a.id) == 1 && Times([a], a.id, Stored) == 0;
  }

  /** MAIN RESULT. A write is refused exactly when the lane is closed, or `max_pending` writes wait and none of them has its name. */
  lemma RefusedExactly(actions: seq<Action>, call: string, name: Maybe<string>, maxPending: int, maxAttempts: int)
    ensures var (w, w') := (Run(actions, maxPending, maxAttempts), Run(actions + [Submits(call, name)], maxPending, maxAttempts));
      var refused := w.lane.closed || (|w.lane.pending| >= maxPending && forall i :: 0 <= i < |w.lane.pending| ==> name == Nothing || w.lane.pending[i].key != Named(name.value));
      && (|w'.accepted| == |w.accepted| + if refused then 0 else 1)
      && (refused ==> w'.lane == w.lane)
      && (!refused ==> exists i :: 0 <= i < |w'.lane.pending| && w'.lane.pending[i].item == Item(w.count, call, 0))
  {
    assert (actions + [Submits(call, name)])[..|actions|] == actions;
    var (w, w') := (Run(actions, maxPending, maxAttempts), Run(actions + [Submits(call, name)], maxPending, maxAttempts));
    hide Run;
    assert w' == Act(w, Submits(call, name), maxPending, maxAttempts);
    if !w.lane.closed {
      if name.Just? && HasKey(w.lane.pending, Named(name.value)) {
        var at := PlaceOf(w.lane.pending, Named(name.value));
        assert w'.lane.pending[at].item == Item(w.count, call, 0);
      } else if |w.lane.pending| < maxPending {
        assert w'.lane.pending[|w.lane.pending|].item == Item(w.count, call, 0);
      }
    }
  }
}
