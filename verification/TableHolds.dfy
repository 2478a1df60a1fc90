/** Copies that wait: why they wait, for how long at most, and that nothing waits without a wake-up. */
module TableHolds {
  import opened Ocpp
  import opened TableState
  import opened TableSteps
  import opened TableInvariant
  import opened TableCopies
  import opened TableRuns
  import opened TableMoves
  import opened TableTranslation

  // ------------------------------------------------------------------
  // Why a queue is not empty
  // ------------------------------------------------------------------

  /** `f` got the start of record `r` and has not answered it: copies that quote `r` have to wait. */
  predicate Awaits(t: Tx, f: Backend, r: Ref) {
    r in t.recs && f in t.recs[r].flags.awaiting && f !in t.recs[r].backendIds
  }

  predicate HeadWaits(t: Tx, f: Backend, item: Queued) {
    item.IdCopy? && item.rec.Some? && Awaits(t, f, item.rec.value)
  }

  /** A queue that is not empty is headed by a copy that waits for the follower's answer to a start. */
  predicate Guarded(t: Tx, f: Backend) {
    Queue(t, f) != [] ==> HeadWaits(t, f, Queue(t, f)[0])
  }

  ghost predicate AllGuarded(t: Tx) {
    forall f: Backend :: Guarded(t, f)
  }

  /** Whoever waited for `g` still does. */
  predicate WaitsAlike(a: TxRecord, b: TxRecord, g: Backend) {
    (g in a.flags.awaiting ==> g in b.flags.awaiting) && (g in b.backendIds ==> g in a.backendIds)
  }

  predicate AllWaitAlike(t: Tx, t': Tx, g: Backend) {
    Queue(t', g) == Queue(t, g) && forall r :: r in t.recs ==> r in t'.recs && WaitsAlike(t.recs[r], t'.recs[r], g)
  }

  lemma GuardKept(t: Tx, t': Tx, g: Backend)
    requires Guarded(t, g) && AllWaitAlike(t, t', g)
    ensures Guarded(t', g)
  {
  }

  lemma CopiesWaitAlike(t: Tx, t': Tx, F: set<Backend>, g: Backend)
    requires OnlyCopies(t, t', F) && g !in F
    ensures AllWaitAlike(t, t', g)
  {
    forall r | r in t.recs ensures WaitsAlike(t.recs[r], t'.recs[r], g) {
      assert OnlyFlags(t.recs[r], t'.recs[r], F) && SameFlags(t.recs[r], t'.recs[r], g);
    }
  }

  // ------------------------------------------------------------------
  // Serving a queue
  // ------------------------------------------------------------------

  /** However a queue was left, serving it restores the guard. */
  lemma {:induction false} DrainGuards(cfg: Config, t: Table, f: Backend, now: Time)
    requires WF(t.tx)
    ensures Guarded(Drain(cfg, t, f, now).0.tx, f)
    decreases |Queue(t.tx, f)|
  {
    hide WF;
    var q := Queue(t.tx, f);
    if q != [] {
      PopKeeps(cfg, t, f, now);
      var h := HeadStep(cfg, t, f, q[0], now);
      if h.Leaves? {
        hide HeadStep;
        DrainGuards(cfg, Popped(h, f, q), f, now);
      }
    }
  }

  lemma DrainGuardsAll(cfg: Config, t: Table, f: Backend, now: Time)
    requires WF(t.tx) && forall g :: g != f ==> Guarded(t.tx, g)
    ensures AllGuarded(Drain(cfg, t, f, now).0.tx)
  {
    hide WF, Drain, Guarded;
    DrainGuards(cfg, t, f, now);
    DrainServes(cfg, t, f, now);
    forall g: Backend ensures Guarded(Drain(cfg, t, f, now).0.tx, g) {
      if g != f {
        CopiesWaitAlike(t.tx, Drain(cfg, t, f, now).0.tx, {f}, g);
        GuardKept(t.tx, Drain(cfg, t, f, now).0.tx, g);
      }
    }
  }

  lemma EnqueueGuards(cfg: Config, t: Table, f: Backend, item: Queued, now: Time)
    requires WF(t.tx) && AllGuarded(t.tx) && ItemOk(t.tx, item)
    ensures AllGuarded(Enqueue(cfg, t, f, item, now).0.tx)
  {
    hide WF, Drain;
    var q := Queue(t.tx, f);
    if |q| >= cfg.maxHeld {
      OverflowGuards(t.tx, f, item);
    } else {
      QueuedMore(t, f, item);
      var t1 := t.(tx := SetQueue(t.tx, f, q + [item]));
      forall g | g != f ensures Guarded(t1.tx, g) {
        GuardKept(t.tx, t1.tx, g);
      }
      DrainGuardsAll(cfg, t1, f, now);
    }
  }

  lemma OverflowGuards(t: Tx, f: Backend, item: Queued)
    requires AllGuarded(t) && (ConcernsTx(item) ==> RefOf(item) in t.recs)
    ensures AllGuarded(Overflowed(SetQueue(t, f, Queue(t, f)), f, item))
  {
    forall g: Backend ensures Guarded(Overflowed(SetQueue(t, f, Queue(t, f)), f, item), g) {
      GuardKept(t, Overflowed(SetQueue(t, f, Queue(t, f)), f, item), g);
    }
  }

  lemma {:induction false} CopyGuards(cfg: Config, t: Table, item: Queued, followers: seq<Follower>, now: Time)
    requires WF(t.tx) && AllGuarded(t.tx) && ItemOk(t.tx, item)
    ensures AllGuarded(CopyToAll(cfg, t, item, followers, now).0.tx)
  {
    hide WF, ItemOk, AllGuarded, Enqueue, Grows;
    if followers != [] {
      var rest, last := followers[..|followers| - 1], followers[|followers| - 1];
      CopyGuards(cfg, t, item, rest, now);
      CopyToAllKeeps(cfg, t, item, rest, now);
      ItemGrows(t.tx, CopyToAll(cfg, t, item, rest, now).0.tx, item);
      EnqueueGuards(cfg, CopyToAll(cfg, t, item, rest, now).0, last.key, item, now);
    }
  }

  /** A record's other notes changed. */
  lemma PutGuards(t: Tx, r: Ref, rec: TxRecord)
    requires AllGuarded(t) && r in t.recs && rec.flags.awaiting == t.recs[r].flags.awaiting && rec.backendIds == t.recs[r].backendIds
    ensures AllGuarded(Put(t, r, rec))
  {
    forall g: Backend ensures Guarded(Put(t, r, rec), g) {
      GuardKept(t, Put(t, r, rec), g);
    }
  }

  lemma CopyStartGuards(cfg: Config, t: Table, r: Ref, isNew: bool, frame: Frame, follower: Follower, now: Time)
    requires WF(t.tx) && AllGuarded(t.tx) && ItemOk(t.tx, StartCopy(r, frame))
    ensures AllGuarded(CopyStart(cfg, t, r, isNew, frame, follower, now).0.tx)
  {
    hide WF, AllGuarded, Enqueue, HasStart, Grows;
    var f := follower.key;
    var rec := t.tx.recs[r];
    if !isNew && HasStart(rec, f) {
    } else if !follower.ready {
      PutGuards(t.tx, r, Degraded(rec, f));
    } else {
      QueuedForKeeps(t, r, frame, f);
      PutGuards(t.tx, r, QueuedAt(rec, f));
      EnqueueGuards(cfg, QueuedFor(t, r, f), f, StartCopy(r, frame), now);
    }
  }

  lemma {:induction false} CopyStartsGuard(cfg: Config, t: Table, r: Ref, isNew: bool, frame: Frame, followers: seq<Follower>, now: Time)
    requires WF(t.tx) && AllGuarded(t.tx) && ItemOk(t.tx, StartCopy(r, frame))
    ensures AllGuarded(CopyStartToAll(cfg, t, r, isNew, frame, followers, now).0.tx)
  {
    hide WF, AllGuarded, CopyStart, Grows, ItemOk;
    if followers != [] {
      var rest := followers[..|followers| - 1];
      CopyStartsGuard(cfg, t, r, isNew, frame, rest, now);
      CopyStartToAllKeeps(cfg, t, r, isNew, frame, rest, now);
      ItemGrows(t.tx, CopyStartToAll(cfg, t, r, isNew, frame, rest, now).0.tx, StartCopy(r, frame));
      CopyStartGuards(cfg, CopyStartToAll(cfg, t, r, isNew, frame, rest, now).0, r, isNew, frame, followers[|followers| - 1], now);
    }
  }

  // ------------------------------------------------------------------
  // One step, seen by the current leader
  // ------------------------------------------------------------------

  /** Everybody but `l` waits as before; `l` itself has no queue. */
  lemma GuardedBut(t: Tx, t': Tx, l: Backend)
    requires AllGuarded(t) && Queue(t', l) == [] && forall g :: g != l ==> AllWaitAlike(t, t', g)
    ensures AllGuarded(t')
  {
    forall g: Backend ensures Guarded(t', g) {
      if g != l {
        GuardKept(t, t', g);
      }
    }
  }

  /** The event fits a session whose current leader is `l`: only `l` sends leader frames, and `l` is no follower. */
  predicate FitsLeader(input: Input, l: Backend) {
    match input
    case ChargerFrame(_, leader, followers) => leader == l && l !in KeysOf(followers) && DistinctKeys(followers)
    case LeaderFrameIn(leader, _) => leader == l
    case FollowerFrame(follower, _) => follower != l
    case _ => true
  }

  function NextLeader(input: Input, l: Backend): Backend {
    if input.Promotion? && input.newLeader.Some? then input.newLeader.value else l
  }

  lemma ForgetWaits(t: Tx, dead: set<Ref>)
    requires AllGuarded(t)
    ensures AllGuarded(ForgetAll(t, dead)) && ForgetAll(t, dead).held == t.held
  {
    forall g: Backend ensures Guarded(ForgetAll(t, dead), g) {
      GuardKept(t, ForgetAll(t, dead), g);
    }
  }

  lemma StartGuards(cfg: Config, t: Table, frame: Frame, l: Backend, followers: seq<Follower>, now: Time)
    requires WF(t.tx) && AllGuarded(t.tx) && Queue(t.tx, l) == [] && IsStart(frame) && l !in KeysOf(followers)
    ensures var t' := ChargerStart(cfg, t, frame, l, followers, now).0; AllGuarded(t'.tx) && Queue(t'.tx, l) == []
  {
    hide WF, AllGuarded, CopyStartToAll, Attempt, Choose, StartCaseOf, StartFrame;
    var key := frame.payload.start;
    StartCaseOk(cfg, t.tx, l, key, now);
    match StartCaseOf(cfg, t.tx, l, key, now)
    case Again(r) =>
    case Numbered(r) =>
      NumberedGuards(t.tx, r, l, t.tx.recs[r].backendIds[l], t.tx.recs[r].confs[l], now);
    case Copied(r) =>
      ParkIsPut(t.tx, r, l, frame.id, now);
      PutGuards(t.tx, r, Park(AwaitCopy(t.tx, r, l, now), r, frame.id).recs[r]);
    case Busy(r) =>
      PutGuards(t.tx, r, Parked(t.tx.recs[r], frame.id));
    case Forwarded(known) =>
      ForwardGuards(cfg, t, known, frame, l, followers, now);
  }

  lemma NumberedGuards(t: Tx, r: Ref, l: Backend, issued: int, conf: Conf, now: Time)
    requires AllGuarded(t) && r in t.recs && Queue(t, l) == []
    ensures AllGuarded(OpenRecord(t, r, l, issued, conf, now)) && OpenRecord(t, r, l, issued, conf, now).held == t.held
  {
    hide AllGuarded, Choose;
    var t' := OpenRecord(t, r, l, issued, conf, now);
    forall g | g != l ensures AllWaitAlike(t, t', g) {}
    GuardedBut(t, t', l);
  }

  lemma ForwardGuards(cfg: Config, t: Table, known: Option<Ref>, frame: Frame, l: Backend, followers: seq<Follower>, now: Time)
    requires WF(t.tx) && AllGuarded(t.tx) && Queue(t.tx, l) == [] && IsStart(frame) && l !in KeysOf(followers)
    requires known.Some? ==> IsHeld(t.tx, known.value) && t.tx.recs[known.value].key == frame.payload.start
    requires known.None? && cfg.dedupe ==> frame.payload.start !in t.tx.ix.byStart
    ensures var (tx1, r) := Attempt(cfg, t.tx, known, frame.payload.start, frame.id, now);
      var t' := CopyStartToAll(cfg, Table(tx1, StartFrame(t.sp, l, frame, true, now).0), r, known.None?, frame, followers, now).0;
      AllGuarded(t'.tx) && Queue(t'.tx, l) == []
  {
    hide WF, AllGuarded, CopyStartToAll, StartFrame, Attempt;
    AttemptKeeps(cfg, t.tx, known, frame.payload.start, frame.id, now);
    AttemptGuards(cfg, t.tx, known, frame.payload.start, frame.id, now);
    var (tx1, r) := Attempt(cfg, t.tx, known, frame.payload.start, frame.id, now);
    var t1 := Table(tx1, StartFrame(t.sp, l, frame, true, now).0);
    CopyStartsGuard(cfg, t1, r, known.None?, frame, followers, now);
    CopyStartToAllServes(cfg, t1, r, known.None?, frame, followers, now);
  }

  lemma AttemptGuards(cfg: Config, t: Tx, known: Option<Ref>, key: StartKey, msg: MsgId, now: Time)
    requires WF(t) && AllGuarded(t) && (known.Some? ==> known.value in t.recs)
    ensures var t' := Attempt(cfg, t, known, key, msg, now).0; AllGuarded(t') && t'.held == t.held
  {
    hide IndexesOk, QueuesOk;
    var t' := Attempt(cfg, t, known, key, msg, now).0;
    assert t.next !in t.recs;
    forall g: Backend ensures Guarded(t', g) {
      GuardKept(t, t', g);
    }
  }

  lemma CallGuards(cfg: Config, t: Table, frame: Frame, l: Backend, followers: seq<Follower>, now: Time)
    requires WF(t.tx) && AllGuarded(t.tx) && Queue(t.tx, l) == [] && frame.Call? && !IsStart(frame) && l !in KeysOf(followers)
    ensures var t' := ChargerCall(cfg, t, frame, l, followers, now).0; AllGuarded(t'.tx) && Queue(t'.tx, l) == []
  {
    hide WF, AllGuarded, CopyToAll, Quoted;
    if QuotesTx(frame) {
      var found := Find(t.tx.ix.byTx, frame.payload.tx.value);
      QuotedKeeps(t.tx, frame, l, found, now);
      QuotedLeavesQueues(t.tx, frame, l, found, now);
      QuotedGuards(t.tx, frame, l, found, now);
      QuotedIs(cfg, t, frame, l, followers, now);
      var t1 := t.(tx := Quoted(t.tx, frame, l, found, now));
      CopyGuards(cfg, t1, IdCopy(found, frame), followers, now);
      CopyToAllServes(cfg, t1, IdCopy(found, frame), followers, now);
    } else {
      CopyGuards(cfg, t, PlainCopy(frame), followers, now);
      CopyToAllServes(cfg, t, PlainCopy(frame), followers, now);
    }
  }

  lemma QuotedGuards(t: Tx, frame: Frame, l: Backend, found: Option<Ref>, now: Time)
    requires WF(t) && AllGuarded(t) && QuotesTx(frame) && found == Find(t.ix.byTx, frame.payload.tx.value)
    ensures AllGuarded(Quoted(t, frame, l, found, now))
  {
    hide WF, AllGuarded, Quoted, Collect;
    if found.Some? {
      var r := found.value;
      HeldUnderWF(t, frame.payload.tx.value);
      QuotedIsMarked(t, frame, l, r, now);
      var t1 := Marked(t, l, r, now);
      PutGuards(t, r, t1.recs[r]);
      if frame.action.StopTransaction? && !t.recs[r].state.Closed? {
        ClosedGuards(t1, r, now);
        CollectGuards(ClosedRecord(t1, r, now), r);
      }
    } else {
      QuotedUnknown(t, frame, l, now);
    }
  }

  lemma QuotedUnknown(t: Tx, frame: Frame, l: Backend, now: Time)
    ensures Quoted(t, frame, l, None, now) == t
  {
  }

  lemma ClosedGuards(t: Tx, r: Ref, now: Time)
    requires AllGuarded(t) && r in t.recs
    ensures AllGuarded(ClosedRecord(t, r, now)) && r in ClosedRecord(t, r, now).recs
  {
    forall g: Backend ensures Guarded(ClosedRecord(t, r, now), g) {
      GuardKept(t, ClosedRecord(t, r, now), g);
    }
  }

  lemma CollectGuards(t: Tx, r: Ref)
    requires AllGuarded(t) && r in t.recs
    ensures AllGuarded(Collect(t, r))
  {
    CollectShape(t, r);
    forall g: Backend ensures Guarded(Collect(t, r), g) {
      GuardKept(t, Collect(t, r), g);
    }
  }

  /** Learning `b`'s id disturbs at most `b`'s own queue. */
  lemma LearnWaits(t: Tx, r: Ref, b: Backend, frame: Frame)
    requires r in t.recs
    ensures forall g :: g != b ==> AllWaitAlike(t, Learn(t, r, b, frame), g)
  {
    hide Collect;
    CollectShape(LearnId(t, r, b, frame), r);
  }

  lemma AnswerGuards(t: Tx, l: Backend, frame: Frame, now: Time)
    requires WF(t) && AllGuarded(t) && Queue(t, l) == [] && (frame.Result? || frame.Error?)
    ensures AllGuarded(LeaderAnswer(t, l, frame, now).0)
  {
    hide WF, AllGuarded, OwedAnswer, Learn;
    if IsOwed(t, frame.id) {
      TrackedHeld(t, frame.id);
      OwedGuards(t, t.ix.startMsgs[frame.id], l, frame, now);
    } else if AnswersCopy(t, l, frame.id) {
      TrackedHeld(t, frame.id);
      var r := t.ix.startMsgs[frame.id];
      LearnWaits(t, r, l, frame);
      GuardedBut(t, Learn(t, r, l, frame), l);
      LoggedGuards(Learn(t, r, l, frame), Without(t.copied, Copy(l, frame.id)));
    } else {
      LoggedGuards(t, Without(t.copied, Copy(l, frame.id)));
    }
  }

  lemma LoggedGuards(t: Tx, log: seq<Copy>)
    requires AllGuarded(t)
    ensures AllGuarded(t.(copied := log))
  {
    forall g: Backend ensures Guarded(t.(copied := log), g) {
      GuardKept(t, t.(copied := log), g);
    }
  }

  lemma OwedGuards(t: Tx, r: Ref, l: Backend, frame: Frame, now: Time)
    requires WF(t) && AllGuarded(t) && Queue(t, l) == [] && (frame.Result? || frame.Error?) && r in t.recs
    ensures AllGuarded(OwedAnswer(t, r, l, frame, now).0)
  {
    hide WF, AllGuarded, Collect, OpenRecord;
    var rec := t.recs[r];
    if !rec.state.Pending? {
      PutGuards(t, r, WithoutAttempt(rec, frame.id));
      CollectGuards(Put(t, r, WithoutAttempt(rec, frame.id)), r);
    } else if frame.Result? && frame.conf.tx.Some? {
      NumberedGuards(t, r, l, frame.conf.tx.value, frame.conf, now);
      var t1 := OpenRecord(t, r, l, frame.conf.tx.value, frame.conf, now);
      OpenedResolves(t, r, l, frame.conf.tx.value, frame.conf, now);
      PutGuards(t1, r, WithoutRetries(t1.recs[r], frame.id));
      CollectGuards(Put(t1, r, WithoutRetries(t1.recs[r], frame.id)), r);
    } else {
      FailedGuards(t, r, frame.id);
    }
  }

  lemma FailedGuards(t: Tx, r: Ref, msg: MsgId)
    requires AllGuarded(t) && r in t.recs
    ensures AllGuarded(Collect(DropAttempt(t, r, msg), r))
  {
    hide AllGuarded, Collect;
    PutGuards(t, r, DropAttempt(t, r, msg).recs[r]);
    CollectGuards(DropAttempt(t, r, msg), r);
  }

  lemma FollowerGuards(cfg: Config, t: Table, follower: Backend, frame: Frame, now: Time)
    requires WF(t.tx) && AllGuarded(t.tx)
    ensures AllGuarded(FromFollower(cfg, t, follower, frame, now).0.tx)
    ensures forall l :: l != follower ==> Queue(FromFollower(cfg, t, follower, frame, now).0.tx, l) == Queue(t.tx, l)
  {
    hide WF, IsHeld, Learn, Drain, AllGuarded, Guarded;
    if frame.Result? || frame.Error? {
      var t1 := t.(tx := t.tx.(copied := Without(t.tx.copied, Copy(follower, frame.id))));
      CopiedKeeps(t.tx, t1.tx.copied);
      LoggedGuards(t.tx, t1.tx.copied);
      if frame.id in t1.tx.ix.startMsgs {
        TrackedHeld(t1.tx, frame.id);
        var r := t1.tx.ix.startMsgs[frame.id];
        LearnKeeps(t1.tx, r, follower, frame);
        LearnWaits(t1.tx, r, follower, frame);
        var t2 := t1.(tx := Learn(t1.tx, r, follower, frame));
        forall g | g != follower ensures Guarded(t2.tx, g) {
          OneGuarded(t1.tx, g);
          GuardKept(t1.tx, t2.tx, g);
        }
        DrainGuardsAll(cfg, t2, follower, now);
        DrainServes(cfg, t2, follower, now);
      }
    }
  }

  lemma OneGuarded(t: Tx, g: Backend)
    requires AllGuarded(t)
    ensures Guarded(t, g)
  {
  }

  lemma PromotionGuards(t: Tx, l: Backend, newLeader: Option<Backend>)
    requires AllGuarded(t) && Queue(t, l) == []
    ensures AllGuarded(LeaderChanged(t, newLeader)) && Queue(LeaderChanged(t, newLeader), NextLeader(Promotion(newLeader), l)) == []
  {
    hide Waiting;
    var t1 := GiveUpAll(t, Waiting(t));
    forall g: Backend ensures Guarded(t1, g) {
      GuardKept(t, t1, g);
    }
    if newLeader.Some? {
      DroppedGuards(t1, newLeader.value);
    }
  }

  lemma DroppedGuards(t: Tx, b: Backend)
    requires AllGuarded(t)
    ensures AllGuarded(DropQueue(t, b)) && Queue(DropQueue(t, b), b) == []
  {
    forall g: Backend ensures Guarded(DropQueue(t, b), g) {
      if g != b {
        GuardKept(t, DropQueue(t, b), g);
      }
    }
  }

  lemma {:induction false} HoldsGuard(cfg: Config, t: Table, order: seq<Backend>, now: Time)
    requires WF(t.tx) && AllGuarded(t.tx)
    ensures AllGuarded(ExpireHolds(cfg, t, order, now).0.tx)
    ensures forall l :: Queue(t.tx, l) == [] ==> Queue(ExpireHolds(cfg, t, order, now).0.tx, l) == []
  {
    hide WF, AllGuarded, Drain;
    if order != [] {
      var rest := order[..|order| - 1];
      HoldsGuard(cfg, t, rest, now);
      ExpireHoldsKeeps(cfg, t, rest, now);
      var t1 := ExpireHolds(cfg, t, rest, now).0;
      AllThenDrained(cfg, t1, order[|order| - 1], now);
    }
  }

  lemma AllThenDrained(cfg: Config, t: Table, f: Backend, now: Time)
    requires WF(t.tx) && AllGuarded(t.tx)
    ensures AllGuarded(Drain(cfg, t, f, now).0.tx)
    ensures forall l :: Queue(t.tx, l) == [] ==> Queue(Drain(cfg, t, f, now).0.tx, l) == []
  {
    hide WF, Drain;
    DrainGuardsAll(cfg, t, f, now);
    DrainServes(cfg, t, f, now);
    var fates := DrainSettles(cfg, t, f, now);
  }

  lemma StepGuards(cfg: Config, t: Table, e: Event, l: Backend)
    requires WF(t.tx) && AllGuarded(t.tx) && Queue(t.tx, l) == [] && FitsLeader(e.input, l)
    ensures var t' := Step(cfg, t, e).0; AllGuarded(t'.tx) && Queue(t'.tx, NextLeader(e.input, l)) == []
  {
    hide WF, AllGuarded, ForgetAll, Expired, Lapsed, ReleaseAll, ChargerStart, ChargerCall, LeaderAnswer, LeaderCall, FromFollower, LeaderChanged,
      ExpireHolds, AttemptFailed, NoteCommand;
    match e.input
    case ChargerFrame(frame, leader, followers) =>
      ForgetKeeps(t.tx, Expired(cfg, t.tx, e.now));
      ForgetWaits(t.tx, Expired(cfg, t.tx, e.now));
      var t1 := Prune(cfg, t, e.now, e.wall);
      if IsStart(frame) {
        StartGuards(cfg, t1, frame, l, followers, e.now);
      } else if frame.Call? {
        CallGuards(cfg, t1, frame, l, followers, e.now);
      }
    case LeaderFrameIn(leader, frame) =>
      if frame.Result? || frame.Error? {
        AnswerGuards(t.tx, l, frame, e.now);
      }
    case FollowerFrame(follower, frame) =>
      FollowerGuards(cfg, t, follower, frame, e.now);
    case Promotion(newLeader) =>
      PromotionGuards(t.tx, l, newLeader);
    case HoldTimer(order) =>
      HoldsGuard(cfg, t, order, e.now);
    case BrokerRefused(msg) =>
      RefusedGuards(t.tx, msg);
    case RestCommand(action, payload) =>
    case IdleCheck =>
      ForgetWaits(t.tx, Expired(cfg, t.tx, e.now));
  }

  lemma RefusedGuards(t: Tx, msg: MsgId)
    requires WF(t) && AllGuarded(t)
    ensures AllGuarded(StartFailed(t, msg).0)
  {
    hide WF, AllGuarded, Collect;
    if IsOwed(t, msg) {
      TrackedHeld(t, msg);
      FailedGuards(t, t.ix.startMsgs[msg], msg);
    }
  }

  // ------------------------------------------------------------------
  // How long a copy has waited
  // ------------------------------------------------------------------

  predicate SinceBy(rec: TxRecord, now: Time) {
    forall f :: f in rec.flags.since ==> rec.flags.since[f] <= now
  }

  /** Every wait began at `now` at the latest. */
  predicate AllSinceBy(t: Tx, now: Time) {
    forall r :: r in t.recs ==> SinceBy(t.recs[r], now)
  }

  predicate NoLaterSince(a: TxRecord, b: TxRecord) {
    forall f :: f in b.flags.since ==> f in a.flags.since && b.flags.since[f] == a.flags.since[f]
  }

  predicate NoLater(t: Tx, t': Tx) {
    forall r :: r in t'.recs ==> if r in t.recs then NoLaterSince(t.recs[r], t'.recs[r]) else t'.recs[r].flags.since == map[]
  }

  lemma NoLaterBy(t: Tx, t': Tx, now: Time)
    requires AllSinceBy(t, now) && NoLater(t, t')
    ensures AllSinceBy(t', now)
  {
    forall r | r in t'.recs ensures SinceBy(t'.recs[r], now) {
      assert r in t.recs ==> SinceBy(t.recs[r], now);
    }
  }

  lemma HeadSinceBy(cfg: Config, t: Table, f: Backend, item: Queued, now: Time)
    requires ItemOk(t.tx, item) && AllSinceBy(t.tx, now)
    ensures var h := HeadStep(cfg, t, f, item, now); h.Leaves? ==> AllSinceBy(h.t.tx, now)
  {
    if ConcernsTx(item) {
      assert SinceBy(t.tx.recs[RefOf(item)], now);
    }
  }

  lemma PopSinceBy(cfg: Config, t: Table, f: Backend, now: Time)
    requires WF(t.tx) && AllSinceBy(t.tx, now) && Queue(t.tx, f) != [] && HeadStep(cfg, t, f, Queue(t.tx, f)[0], now).Leaves?
    ensures AllSinceBy(Popped(HeadStep(cfg, t, f, Queue(t.tx, f)[0], now), f, Queue(t.tx, f)).tx, now)
  {
    hide WF, AllSinceBy, HeadStep;
    PopKeeps(cfg, t, f, now);
    HeadSinceBy(cfg, t, f, Queue(t.tx, f)[0], now);
    var h := HeadStep(cfg, t, f, Queue(t.tx, f)[0], now);
    SameRecsSinceBy(h.t.tx, Popped(h, f, Queue(t.tx, f)).tx, now);
  }

  lemma QueueMoveSinceBy(cfg: Config, e: Event, t0: Tx, t: Tx, m: Move, t': Tx)
    requires WF(t) && Moves(cfg, e, t0, t, m, t') && QueueMove(m) && AllSinceBy(t, e.now)
    ensures AllSinceBy(t', e.now)
  {
    hide WF, AllSinceBy, HeadStep;
    match m
    case HeadLeaves(f, sp) =>
      PopSinceBy(cfg, Table(t, sp), f, e.now);
    case Joins(f, item) => SameRecsSinceBy(t, t', e.now);
    case Overflows(f, item) =>
      if ConcernsTx(item) {
        PutSinceBy(t, t', RefOf(item), e.now);
      } else {
        SameRecsSinceBy(t, t', e.now);
      }
    case CopiesStart(r, f, frame, isNew) => PutSinceBy(t, t', r, e.now);
    case NotReady(r, f) => PutSinceBy(t, t', r, e.now);
  }

  lemma SameRecsSinceBy(t: Tx, t': Tx, now: Time)
    requires AllSinceBy(t, now) && t'.recs == t.recs
    ensures AllSinceBy(t', now)
  {
  }

  lemma PutSinceBy(t: Tx, t': Tx, r: Ref, now: Time)
    requires AllSinceBy(t, now) && r in t.recs && r in t'.recs && NoLaterSince(t.recs[r], t'.recs[r]) && forall x :: x in t'.recs && x != r ==> x in t.recs && t'.recs[x] == t.recs[x]
    ensures AllSinceBy(t', now)
  {
    assert SinceBy(t.recs[r], now);
  }

  lemma OtherMoveNoLater(cfg: Config, e: Event, t0: Tx, t: Tx, m: Move, t': Tx)
    requires WF(t) && Moves(cfg, e, t0, t, m, t') && !QueueMove(m)
    ensures NoLater(t, t')
  {
    hide WF, GiveUpAll, Waiting, Collect, NoLater, HeadStep, Popped, Choose, Attempt;
    match m
    case Logs(copied) => SameRecsNoLater(t, t');
    case DropsQueue(b) => DroppedNoLater(t, b);
    case Began(known, key, msg) => BeganNoLater(cfg, t, known, key, msg, e.now);
    case GivesUp => GivenUpNoLater(t, Waiting(t));
    case Collected(r) => CollectedNoLater(t, r);
    case OpenedByAnswer(r, leader, frame) => AnsweredNoLater(t, r, leader, frame, e.now);
    case Forgets(dead) => SameRecsNoLater(t, t');
    case _ =>
      hide Moves;
      if UpdatesTries(m) {
        TriesNoLater(cfg, e, t0, t, m, t');
      } else {
        RecordMoveNoLater(cfg, e, t0, t, m, t');
      }
  }

  predicate UpdatesTries(m: Move) {
    m.Parks? || m.ParksOnCopy? || m.Fails? || m.AnsweredAgain?
  }

  lemma TriesNoLater(cfg: Config, e: Event, t0: Tx, t: Tx, m: Move, t': Tx)
    requires WF(t) && Moves(cfg, e, t0, t, m, t') && UpdatesTries(m)
    ensures NoLater(t, t')
  {
    hide WF, NoLater, HeadStep, Popped, Choose, StartCaseOf;
    match m
    case Parks(r, msg) => UpdateNoLater(t, t', r);
    case ParksOnCopy(r, leader, msg) =>
      ParkIsPut(t, r, leader, msg, e.now);
      UpdateNoLater(t, t', r);
    case Fails(r, msg) =>
      TrackedHeld(t, msg);
      UpdateNoLater(t, t', r);
    case AnsweredAgain(r, msg) => UpdateNoLater(t, t', r);
  }

  lemma RecordMoveNoLater(cfg: Config, e: Event, t0: Tx, t: Tx, m: Move, t': Tx)
    requires WF(t) && Moves(cfg, e, t0, t, m, t') && (m.Learned? || m.OpenedByCopy? || m.Marks? || m.Closes?)
    ensures NoLater(t, t')
  {
    hide WF, NoLater, HeadStep, Popped, Choose, LearnId;
    match m
    case Learned(r, b, frame) =>
      TrackedHeld(t, IdOf(frame));
      LearnedNoLater(t, r, b, frame);
    case OpenedByCopy(r, leader) => UpdateNoLater(t, t', r);
    case Marks(r, leader) => UpdateNoLater(t, t', r);
    case Closes(r) => UpdateNoLater(t, t', r);
  }

  lemma LearnedNoLater(t: Tx, r: Ref, b: Backend, frame: Frame)
    requires r in t.recs
    ensures NoLater(t, LearnId(t, r, b, frame))
  {
    UpdateNoLater(t, LearnId(t, r, b, frame), r);
  }

  lemma UpdateNoLater(t: Tx, t': Tx, r: Ref)
    requires r in t.recs && r in t'.recs && t'.recs == t.recs[r := t'.recs[r]] && NoLaterSince(t.recs[r], t'.recs[r])
    ensures NoLater(t, t')
  {
  }

  lemma SameRecsNoLater(t: Tx, t': Tx)
    requires t'.recs == t.recs
    ensures NoLater(t, t')
  {
  }

  lemma DroppedNoLater(t: Tx, b: Backend)
    ensures NoLater(t, DropQueue(t, b))
  {
  }

  lemma BeganNoLater(cfg: Config, t: Tx, known: Option<Ref>, key: StartKey, msg: MsgId, now: Time)
    requires WF(t) && (known.Some? ==> Find(t.ix.byStart, key) == known)
    ensures NoLater(t, Attempt(cfg, t, known, key, msg, now).0)
  {
    hide IndexesOk, QueuesOk;
    assert t.next !in t.recs;
  }

  lemma GivenUpNoLater(t: Tx, rs: set<Ref>)
    ensures NoLater(t, GiveUpAll(t, rs))
  {
  }

  lemma CollectedNoLater(t: Tx, r: Ref)
    requires r in t.recs
    ensures NoLater(t, Collect(t, r))
  {
    CollectShape(t, r);
  }

  lemma AnsweredNoLater(t: Tx, r: Ref, leader: Backend, frame: Frame, now: Time)
    requires r in t.recs && frame.Result? && frame.conf.tx.Some?
    ensures NoLater(t, AnswerOpens(t, r, leader, frame, now))
  {
    hide Choose;
  }

  lemma StepSinceBy(cfg: Config, t: Table, e: Event)
    requires WF(t.tx) && AllSinceBy(t.tx, e.now) && ProperEvent(e)
    ensures AllSinceBy(Step(cfg, t, e).0.tx, e.now)
  {
    hide WF, AllSinceBy, Moves, Step, NoLater;
    ghost var inv := (x: Tx) => AllSinceBy(x, e.now);
    assert Survives(cfg, e, t.tx, inv) by {
      forall x, m, x' | WF(x) && inv(x) && Moves(cfg, e, t.tx, x, m, x') ensures inv(x') {
        if QueueMove(m) {
          QueueMoveSinceBy(cfg, e, t.tx, x, m, x');
        } else {
          OtherMoveNoLater(cfg, e, t.tx, x, m, x');
          NoLaterBy(x, x', e.now);
        }
      }
    }
    StepByMoves(cfg, t, e, inv);
  }

  // ------------------------------------------------------------------
  // The timer
  // ------------------------------------------------------------------

  /** The copy that waits at the head of `f`'s queue is given up on at this time (the wait of a follower without a start time
      begins `now`). */
  function DueAt(cfg: Config, t: Tx, f: Backend, now: Time): Time
    requires Queue(t, f) != [] && ConcernsTx(Queue(t, f)[0])
  {
    var since := Rec(t, RefOf(Queue(t, f)[0])).flags.since;
    (if f in since then since[f] else now) + cfg.followerWait
  }

  predicate Blocks(t: Tx, f: Backend) {
    Queue(t, f) != [] && Queue(t, f)[0].IdCopy? && Queue(t, f)[0].rec.Some? && f in Rec(t, Queue(t, f)[0].rec.value).flags.awaiting
  }

  /** The soonest of the due times of the followers in `order`. */
  function Soonest(cfg: Config, t: Tx, order: seq<Backend>, now: Time): Option<Time> {
    if order == [] then None
    else
      var f := order[|order| - 1];
      var before := Soonest(cfg, t, order[..|order| - 1], now);
      if !Blocks(t, f) then before
      else
        var due := DueAt(cfg, t, f, now);
        if before.None? || due < before.value then Some(due) else before
  }

  /** How long until the first waiting head is due (None: nothing waits); `order` lists the queues. */
  function NextExpiryIn(cfg: Config, t: Tx, order: seq<Backend>, now: Time): Option<Time> {
    var soonest := Soonest(cfg, t, order, now);
    if soonest.None? then None else Some(if soonest.value - now < 0.0 then 0.0 else soonest.value - now)
  }

  lemma {:induction false} SoonestIs(cfg: Config, t: Tx, order: seq<Backend>, now: Time)
    ensures Soonest(cfg, t, order, now).None? <==> forall i :: 0 <= i < |order| ==> !Blocks(t, order[i])
    ensures Soonest(cfg, t, order, now).Some? ==>
              exists i :: 0 <= i < |order| && Blocks(t, order[i]) && Soonest(cfg, t, order, now).value == DueAt(cfg, t, order[i], now)
    ensures forall i :: 0 <= i < |order| && Blocks(t, order[i]) ==> Soonest(cfg, t, order, now).value <= DueAt(cfg, t, order[i], now)
  {
    if order != [] {
      var n := |order| - 1;
      SoonestIs(cfg, t, order[..n], now);
      assert forall i :: 0 <= i < n ==> order[..n][i] == order[i];
      var before := Soonest(cfg, t, order[..n], now);
      if before.Some? {
        var i :| 0 <= i < n && Blocks(t, order[..n][i]) && before.value == DueAt(cfg, t, order[..n][i], now);
        assert Blocks(t, order[i]) && before.value == DueAt(cfg, t, order[i], now);
      }
      assert order[n] == order[|order| - 1];
    }
  }

  /** A queue whose head is due loses it when it is served. */
  lemma DueLeaves(cfg: Config, t: Table, f: Backend, now: Time)
    requires WF(t.tx) && Guarded(t.tx, f) && Queue(t.tx, f) != [] && DueAt(cfg, t.tx, f, now) <= now
    ensures |Queue(Drain(cfg, t, f, now).0.tx, f)| < |Queue(t.tx, f)|
  {
    hide WF;
    var q := Queue(t.tx, f);
    assert HeadWaits(t.tx, f, q[0]);
    FoundOk(t.tx, RefOf(q[0]));
    var h := HeadStep(cfg, t, f, q[0], now);
    assert h.Leaves?;
    PopKeeps(cfg, t, f, now);
    var fates := DrainSettles(cfg, Popped(h, f, q), f, now);
  }

  lemma DrainShrinks(cfg: Config, t: Table, g: Backend, f: Backend, now: Time)
    requires WF(t.tx)
    ensures |Queue(Drain(cfg, t, g, now).0.tx, f)| <= |Queue(t.tx, f)|
  {
    hide WF, Drain;
    if g == f {
      var fates := DrainSettles(cfg, t, f, now);
    } else {
      DrainServes(cfg, t, g, now);
    }
  }

  /** Serving other followers first does not postpone `f`. */
  lemma DueStays(cfg: Config, t: Table, t': Table, F: set<Backend>, f: Backend, now: Time)
    requires Serves(t, t', F) && f !in F && Guarded(t.tx, f) && Queue(t.tx, f) != []
    ensures Queue(t'.tx, f) == Queue(t.tx, f) && Guarded(t'.tx, f) && DueAt(cfg, t'.tx, f, now) == DueAt(cfg, t.tx, f, now)
  {
    CopiesWaitAlike(t.tx, t'.tx, F, f);
    GuardKept(t.tx, t'.tx, f);
    var r := RefOf(Queue(t.tx, f)[0]);
    assert OnlyFlags(t.tx.recs[r], t'.tx.recs[r], F) && SameFlags(t.tx.recs[r], t'.tx.recs[r], f);
  }

  /** When the timer fires at or after its due time, a queue loses its head, in whatever order the queues are visited. */
  lemma {:induction false} ExpiryRemovesHead(cfg: Config, t: Table, order: seq<Backend>, f: Backend, now: Time)
    requires WF(t.tx) && Guarded(t.tx, f) && Queue(t.tx, f) != [] && f in order && DueAt(cfg, t.tx, f, now) <= now
    ensures |Queue(ExpireHolds(cfg, t, order, now).0.tx, f)| < |Queue(t.tx, f)|
  {
    hide WF, Guarded, Drain, DueAt;
    var rest, last := order[..|order| - 1], order[|order| - 1];
    assert order == rest + [last];
    var t1 := ExpireHolds(cfg, t, rest, now).0;
    ExpireHoldsKeeps(cfg, t, rest, now);
    if f in rest {
      ExpiryRemovesHead(cfg, t, rest, f, now);
      DrainShrinks(cfg, t1, last, f, now);
    } else {
      ExpireHoldsServes(cfg, t, rest, now);
      DueStays(cfg, t, t1, (set b | b in rest), f, now);
      DueLeaves(cfg, t1, f, now);
    }
  }

  // ------------------------------------------------------------------
  // Whole runs
  // ------------------------------------------------------------------

  /** The leader after a run that began under leader `l`. */
  function LeaderAfter(run: seq<Event>, l: Backend): Backend {
    if run == [] then l else NextLeader(run[|run| - 1].input, LeaderAfter(run[..|run| - 1], l))
  }

  /** Every event fits the leader last named, and the clock never goes back. */
  ghost predicate SessionRun(run: seq<Event>, l: Backend) {
    && (forall i :: 0 <= i < |run| ==> FitsLeader(run[i].input, LeaderAfter(run[..i], l)))
    && (forall i, j :: 0 <= i < j < |run| ==> run[i].now <= run[j].now)
  }

  lemma SessionPrefix(run: seq<Event>, l: Backend)
    requires SessionRun(run, l) && run != []
    ensures SessionRun(run[..|run| - 1], l) && FitsLeader(run[|run| - 1].input, LeaderAfter(run[..|run| - 1], l)) && ProperEvent(run[|run| - 1])
    ensures forall i :: 0 <= i < |run| ==> run[i].now <= run[|run| - 1].now
  {
    var before := run[..|run| - 1];
    forall i | 0 <= i < |before| ensures FitsLeader(before[i].input, LeaderAfter(before[..i], l)) {
      assert before[..i] == run[..i];
    }
  }

  /** In every reachable state of a session, every queue that is not empty is headed by a copy that waits for an answer. */
  lemma {:induction false} RunGuards(cfg: Config, run: seq<Event>, l: Backend)
    requires SessionRun(run, l)
    ensures AllGuarded(After(cfg, run).tx) && Queue(After(cfg, run).tx, LeaderAfter(run, l)) == []
  {
    hide WF, AllGuarded, Step, FitsLeader, SessionRun;
    if run == [] {
      NothingHeld();
    } else {
      var before := run[..|run| - 1];
      SessionPrefix(run, l);
      RunGuards(cfg, before, l);
      RunKeeps(cfg, before);
      StepGuards(cfg, After(cfg, before), run[|run| - 1], LeaderAfter(before, l));
    }
  }

  lemma NothingHeld()
    ensures AllGuarded(EmptyTable.tx)
  {
  }

  lemma {:induction false} RunSinceBy(cfg: Config, run: seq<Event>, l: Backend, now: Time)
    requires SessionRun(run, l) && forall i :: 0 <= i < |run| ==> run[i].now <= now
    ensures AllSinceBy(After(cfg, run).tx, now)
  {
    hide WF, Step, SessionRun;
    if run != [] {
      hide AllSinceBy;
      var before, e := run[..|run| - 1], run[|run| - 1];
      SessionPrefix(run, l);
      RunSinceBy(cfg, before, l, e.now);
      RunKeeps(cfg, before);
      StepSinceBy(cfg, After(cfg, before), e);
      LaterSinceBy(After(cfg, run).tx, e.now, now);
    }
  }

  lemma LaterSinceBy(t: Tx, before: Time, now: Time)
    requires AllSinceBy(t, before) && before <= now
    ensures AllSinceBy(t, now)
  {
    forall r | r in t.recs ensures SinceBy(t.recs[r], now) {
      assert SinceBy(t.recs[r], before);
    }
  }

  lemma NonEmptyBlocks(t: Tx, f: Backend)
    requires Guarded(t, f)
    ensures Blocks(t, f) <==> Queue(t, f) != []
  {
  }

  /** MAIN RESULT. No wake-up is lost. At any moment of a session, for any order in which the queues are listed: the timer has
      a due time exactly when some copy waits; it is at most `follower_wait` away; and when the timer fires no earlier than
      that, at least one queue (`f`) loses its head. */
  lemma NoWakeUpIsLost(cfg: Config, run: seq<Event>, l: Backend, order: seq<Backend>, now: Time, later: Time) returns (f: Backend)
    requires SessionRun(run, l) && forall i :: 0 <= i < |run| ==> run[i].now <= now
    requires forall b :: b in After(cfg, run).tx.held ==> b in order
    ensures var t := After(cfg, run);
      var due := NextExpiryIn(cfg, t.tx, order, now);
      && (due.None? <==> forall b: Backend :: Queue(t.tx, b) == [])
      && (due.Some? ==> 0.0 <= due.value <= if cfg.followerWait < 0.0 then 0.0 else cfg.followerWait)
      && (due.Some? && now + due.value <= later ==>
            Queue(t.tx, f) != [] && |Queue(ExpireHolds(cfg, t, order, later).0.tx, f)| < |Queue(t.tx, f)|)
  {
    hide WF, After, ExpireHolds, DueAt, SessionRun, Soonest;
    var t := After(cfg, run);
    RunKeeps(cfg, run);
    RunGuards(cfg, run, l);
    RunSinceBy(cfg, run, l, now);
    SoonestIs(cfg, t.tx, order, now);
    forall b: Backend ensures Blocks(t.tx, b) <==> Queue(t.tx, b) != [] {
      OneGuarded(t.tx, b);
      NonEmptyBlocks(t.tx, b);
    }
    f := l;
    if Soonest(cfg, t.tx, order, now).Some? {
      var i :| 0 <= i < |order| && Blocks(t.tx, order[i]) && Soonest(cfg, t.tx, order, now).value == DueAt(cfg, t.tx, order[i], now);
      f := order[i];
      OneGuarded(t.tx, f);
      DueSoon(cfg, t.tx, f, now, later);
      if now + NextExpiryIn(cfg, t.tx, order, now).value <= later {
        ExpiryRemovesHead(cfg, t, order, f, later);
      }
    } else {
      forall b: Backend ensures Queue(t.tx, b) == [] {
        if b in t.tx.held {
          var i :| 0 <= i < |order| && order[i] == b;
        }
      }
    }
  }

  lemma DueSoon(cfg: Config, t: Tx, f: Backend, now: Time, later: Time)
    requires WF(t) && Guarded(t, f) && Queue(t, f) != [] && AllSinceBy(t, now)
    ensures DueAt(cfg, t, f, now) <= now + cfg.followerWait && DueAt(cfg, t, f, later) == DueAt(cfg, t, f, now)
  {
    var r := RefOf(Queue(t, f)[0]);
    FoundOk(t, r);
    assert SinceBy(t.recs[r], now);
  }
}
