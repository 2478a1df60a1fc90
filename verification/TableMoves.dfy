/** Every step of the table is a chain of small moves: an induction principle that lets an invariant be proved once per
    kind of move.

    `Moves` says what each kind of move may do, `StepByMoves` that what all moves keep, every step keeps. */
module TableMoves {
  import opened Ocpp
  import opened TableState
  import opened TableSteps
  import opened TableInvariant
  import opened TableCopies
  import opened TableRuns

  datatype Move =
    // the copy queues
    | HeadLeaves(f: Backend, sp: Spaces)
    | Joins(f: Backend, item: Queued)
    | Overflows(f: Backend, item: Queued)
    | CopiesStart(ref: Ref, f: Backend, frame: Frame, isNew: bool)
    | NotReady(ref: Ref, f: Backend)
    | Logs(copied: seq<Copy>)
    | DropsQueue(b: Backend)
    // attempts and retries
    | Began(known: Option<Ref>, key: StartKey, msg: MsgId)
    | Parks(ref: Ref, msg: MsgId)
    | ParksOnCopy(ref: Ref, leader: Backend, msg: MsgId)
    | Fails(ref: Ref, msg: MsgId)
    | AnsweredAgain(ref: Ref, msg: MsgId)
    | GivesUp
    | Collected(ref: Ref)
    // ids
    | Learned(ref: Ref, backend: Backend, frame: Frame)
    | OpenedByCopy(ref: Ref, leader: Backend)
    | OpenedByAnswer(ref: Ref, leader: Backend, frame: Frame)
    // use and end of a record
    | Marks(ref: Ref, leader: Backend)
    | Closes(ref: Ref)
    | Forgets(dead: set<Ref>)

  /** The event is `b`'s answer `frame`. */
  predicate IsAnswer(input: Input, b: Backend, frame: Frame) {
    input == LeaderFrameIn(b, frame) || input == FollowerFrame(b, frame)
  }

  /** The event is the charger's start `key`, message `msg`, under `leader`. */
  predicate IsStartEvent(input: Input, leader: Backend, key: StartKey, msg: MsgId) {
    SendsStart(input, msg, key) && input.leader == leader
  }

  predicate IsFull(cfg: Config, t: Tx, f: Backend) {
    |Queue(t, f)| >= cfg.maxHeld
  }

  /** The leader answered: the record is open, nobody waits any more. */
  ghost function AnswerOpens(t: Tx, r: Ref, leader: Backend, frame: Frame, now: Time): Tx
    requires frame.Result? && frame.conf.tx.Some?
  {
    var t1 := OpenRecord(t, r, leader, frame.conf.tx.value, frame.conf, now);
    Put(t1, r, WithoutRetries(Rec(t1, r), frame.id))
  }

  /** One move of a step that began in `t0` (or, after pruning, in `p0`). */
  ghost predicate Moves(cfg: Config, e: Event, t0: Tx, t: Tx, m: Move, t': Tx) {
    match m
    case HeadLeaves(f, sp) =>
      Queue(t, f) != [] &&
      var h := HeadStep(cfg, Table(t, sp), f, Queue(t, f)[0], e.now);
      h.Leaves? && t' == Popped(h, f, Queue(t, f)).tx
    case Joins(f, item) =>
      CopiesTo(e.input, f) && !IsFull(cfg, t, f) && !item.StartCopy? && ItemOk(t, item) && t' == SetQueue(t, f, Queue(t, f) + [item])
    case Overflows(f, item) =>
      CopiesTo(e.input, f) && IsFull(cfg, t, f) && !item.StartCopy? && ItemOk(t, item) && t' == Overflowed(SetQueue(t, f, Queue(t, f)), f, item)
    case CopiesStart(r, f, frame, isNew) =>
      && ItemOk(t, StartCopy(r, frame)) && IsStart(frame) && Find(t.ix.startMsgs, frame.id) == Some(r)
      && (isNew || !HasStart(t.recs[r], f)) && ChargerSends(e.input, frame) && CopiesTo(e.input, f)
      && (f in t.recs[r].flags.queued ==> r in t0.recs && f in t0.recs[r].flags.queued)
      && var t1 := Put(t, r, QueuedAt(t.recs[r], f));
         t' == if IsFull(cfg, t, f) then Overflowed(SetQueue(t1, f, Queue(t, f)), f, StartCopy(r, frame)) else SetQueue(t1, f, Queue(t, f) + [StartCopy(r, frame)])
    case NotReady(r, f) => r in t.recs && CopiesTo(e.input, f) && t' == Put(t, r, Degraded(t.recs[r], f))
    case Logs(copied) => t' == t.(copied := copied) && forall c :: c in copied ==> c in t.copied
    case DropsQueue(b) => e.input == Promotion(Some(b)) && t' == DropQueue(t, b)
    case Began(known, key, msg) =>
      && t' == Attempt(cfg, t, known, key, msg, e.now).0 && SendsStart(e.input, msg, key) && IsPruned(cfg, e, t0, t)
      && (known.Some? ==> Find(t.ix.byStart, key) == known)
      && (known.None? && cfg.dedupe ==> key !in t.ix.byStart)
      && (msg in t.ix.startMsgs ==> msg in t0.ix.startMsgs)
    case Parks(r, msg) =>
      r in t.recs && t.recs[r].tries.sent != {} && Find(t.ix.byStart, t.recs[r].key) == Some(r) && t.recs[r].state.Pending? &&
      SendsStart(e.input, msg, t.recs[r].key) && IsPruned(cfg, e, t0, t) && t' == Park(t, r, msg)
    case ParksOnCopy(r, leader, msg) =>
      && r in t.recs && Find(t.ix.byStart, t.recs[r].key) == Some(r) && t.recs[r].state.Pending?
      && t.recs[r].tries.sent == {} && leader in t.recs[r].flags.awaiting && leader in t.recs[r].flags.copyMsgs
      && IsPruned(cfg, e, t0, t) && StartCaseOf(cfg, t, leader, t.recs[r].key, e.now) == Copied(r)
      && IsStartEvent(e.input, leader, t.recs[r].key, msg) && t' == Park(AwaitCopy(t, r, leader, e.now), r, msg)
    case Fails(r, msg) => IsOwed(t, msg) && t.ix.startMsgs[msg] == r && t' == DropAttempt(t, r, msg)
    case AnsweredAgain(r, msg) => r in t.recs && !t.recs[r].state.Pending? && t' == Put(t, r, WithoutAttempt(t.recs[r], msg))
    case GivesUp => e.input.Promotion? && t' == GiveUpAll(t, Waiting(t))
    case Collected(r) => r in t.recs && t' == Collect(t, r)
    case Learned(r, b, frame) =>
      && t' == LearnId(t, r, b, frame) && IsAnswer(e.input, b, frame) && Find(t.ix.startMsgs, IdOf(frame)) == Some(r)
      && t.recs == t0.recs && t.ix == t0.ix && (e.input.LeaderFrameIn? ==> AnswersCopy(t, b, IdOf(frame)))
    case OpenedByCopy(r, leader) =>
      && r in t.recs && t.recs[r].state.Pending? && t.recs[r].tries.sent == {} && Find(t.ix.byStart, t.recs[r].key) == Some(r)
      && leader in t.recs[r].backendIds && leader in t.recs[r].confs
      && (exists msg :: IsStartEvent(e.input, leader, t.recs[r].key, msg)) && IsPruned(cfg, e, t0, t)
      && t' == OpenRecord(t, r, leader, t.recs[r].backendIds[leader], t.recs[r].confs[leader], e.now)
    case OpenedByAnswer(r, leader, frame) =>
      && t == t0 && e.input == LeaderFrameIn(leader, frame) && frame.Result? && frame.conf.tx.Some? && IsOwed(t, frame.id)
      && r in t.recs && t.recs[r].state.Pending? && Find(t.ix.startMsgs, frame.id) == Some(r)
      && t' == AnswerOpens(t, r, leader, frame, e.now)
    case Marks(r, leader) => r in t.recs && t.recs[r].txId.Some? && t' == Marked(t, leader, r, e.now)
    case Closes(r) =>
      && r in t.recs && t.recs[r].txId.Some? && !t.recs[r].state.Closed? && Find(t.ix.byTx, t.recs[r].txId.value) == Some(r)
      && t' == ClosedRecord(t, r, e.now)
    case Forgets(dead) => (e.input.ChargerFrame? || e.input.IdleCheck?) && t' == ForgetAll(t, dead)
  }

  /** The first move after the step forgot what is old. */
  predicate IsPruned(cfg: Config, e: Event, t0: Tx, t: Tx) {
    t == ForgetAll(t0, Expired(cfg, t0, e.now))
  }

  /** `f` is one of the followers of the event. */
  predicate CopiesTo(input: Input, f: Backend) {
    input.ChargerFrame? && f in KeysOf(input.followers)
  }

  predicate ChargerSends(input: Input, frame: Frame) {
    input.ChargerFrame? && input.frame == frame
  }

  /** `inv` survives every move of a step that began in `t0`. */
  ghost predicate Survives(cfg: Config, e: Event, t0: Tx, inv: Tx -> bool) {
    forall t, m, t' :: WF(t) && inv(t) && Moves(cfg, e, t0, t, m, t') ==> inv(t')
  }

  lemma Move1(cfg: Config, e: Event, t0: Tx, t: Tx, m: Move, t': Tx, inv: Tx -> bool)
    requires Survives(cfg, e, t0, inv) && WF(t) && inv(t) && Moves(cfg, e, t0, t, m, t')
    ensures inv(t')
  {
  }

  /** The moves that only serve one follower. */
  predicate QueueMove(m: Move) {
    m.HeadLeaves? || m.Joins? || m.Overflows? || m.CopiesStart? || m.NotReady?
  }

  /** They change nothing but that follower's queue and what records note about it. */
  lemma QueueMoveCopies(cfg: Config, e: Event, t0: Tx, t: Tx, m: Move, t': Tx)
    requires WF(t) && Moves(cfg, e, t0, t, m, t') && QueueMove(m)
    ensures OnlyCopies(t, t', {m.f})
  {
    hide WF, OnlyCopies;
    match m
    case HeadLeaves(f, sp) =>
      HeadLeavesCopies(cfg, Table(t, sp), f, e.now);
    case Joins(f, item) =>
      QueueCopies(t, t, f, Queue(t, f) + [item]);
    case NotReady(r, f) =>
      PutCopies(t, r, Degraded(t.recs[r], f), f);
    case CopiesStart(r, f, frame, isNew) =>
      StartMoveCopies(cfg, e, t0, t, r, f, frame, isNew, t');
    case Overflows(f, item) =>
      if ConcernsTx(item) {
        OverflowCopies(t, f, RefOf(item), Refused(t.recs[RefOf(item)], f));
      } else {
        QueueCopies(t, t, f, Queue(t, f));
      }
  }

  lemma StartMoveCopies(cfg: Config, e: Event, t0: Tx, t: Tx, r: Ref, f: Backend, frame: Frame, isNew: bool, t': Tx)
    requires WF(t) && Moves(cfg, e, t0, t, CopiesStart(r, f, frame, isNew), t')
    ensures OnlyCopies(t, t', {f})
  {
    hide WF, OnlyCopies;
    var t1 := Put(t, r, QueuedAt(t.recs[r], f));
    PutCopies(t, r, QueuedAt(t.recs[r], f), f);
    if IsFull(cfg, t, f) {
      OverflowCopies(t, f, r, Refused(QueuedAt(t.recs[r], f), f));
      assert t1.recs[r := Refused(QueuedAt(t.recs[r], f), f)] == t.recs[r := Refused(QueuedAt(t.recs[r], f), f)];
    } else {
      QueueCopies(t, t1, f, Queue(t, f) + [StartCopy(r, frame)]);
    }
  }

  lemma PutCopies(t: Tx, r: Ref, rec: TxRecord, f: Backend)
    requires r in t.recs && OnlyFlags(t.recs[r], rec, {f})
    ensures OnlyCopies(t, Put(t, r, rec), {f})
  {
  }

  lemma QueueCopies(t: Tx, t1: Tx, f: Backend, q: seq<Queued>)
    requires OnlyCopies(t, t1, {f}) || t1 == t
    ensures OnlyCopies(t, SetQueue(t1, f, q), {f})
  {
  }

  lemma OverflowCopies(t: Tx, f: Backend, r: Ref, rec: TxRecord)
    requires r in t.recs && OnlyFlags(t.recs[r], rec, {f})
    ensures OnlyCopies(t, Put(SetQueue(t, f, Queue(t, f)), r, rec), {f})
  {
  }

  lemma HeadLeavesCopies(cfg: Config, t: Table, f: Backend, now: Time)
    requires WF(t.tx) && Queue(t.tx, f) != [] && HeadStep(cfg, t, f, Queue(t.tx, f)[0], now).Leaves?
    ensures OnlyCopies(t.tx, Popped(HeadStep(cfg, t, f, Queue(t.tx, f)[0], now), f, Queue(t.tx, f)).tx, {f})
  {
    hide WF, HeadStep, OnlyCopies;
    var q := Queue(t.tx, f);
    var h := HeadStep(cfg, t, f, q[0], now);
    PopKeeps(cfg, t, f, now);
    HeadStepServes(cfg, t, f, q[0], now);
    SetQueueServes(h.t, f, q[1..]);
    ServesTransitive(t, h.t, Popped(h, f, q), {f});
  }

  // ------------------------------------------------------------------
  // A step is a chain of moves
  // ------------------------------------------------------------------

  lemma {:induction false} DrainMoves(cfg: Config, e: Event, t0: Tx, t: Table, f: Backend, inv: Tx -> bool)
    requires WF(t.tx) && inv(t.tx) && Survives(cfg, e, t0, inv)
    ensures inv(Drain(cfg, t, f, e.now).0.tx)
    decreases |Queue(t.tx, f)|
  {
    hide WF, Survives, HeadStep;
    var q := Queue(t.tx, f);
    if q != [] {
      PopKeeps(cfg, t, f, e.now);
      var h := HeadStep(cfg, t, f, q[0], e.now);
      if h.Leaves? {
        assert Table(t.tx, t.sp) == t;
        Move1(cfg, e, t0, t.tx, HeadLeaves(f, t.sp), Popped(h, f, q).tx, inv);
        DrainMoves(cfg, e, t0, Popped(h, f, q), f, inv);
      }
    }
  }

  lemma EnqueueMoves(cfg: Config, e: Event, t0: Tx, t: Table, f: Backend, item: Queued, inv: Tx -> bool)
    requires WF(t.tx) && inv(t.tx) && Survives(cfg, e, t0, inv) && ItemOk(t.tx, item) && !item.StartCopy? && CopiesTo(e.input, f)
    ensures inv(Enqueue(cfg, t, f, item, e.now).0.tx)
  {
    hide WF, Survives, ItemOk, Drain;
    if IsFull(cfg, t.tx, f) {
      Move1(cfg, e, t0, t.tx, Overflows(f, item), Overflowed(SetQueue(t.tx, f, Queue(t.tx, f)), f, item), inv);
    } else {
      QueuedMore(t, f, item);
      Move1(cfg, e, t0, t.tx, Joins(f, item), SetQueue(t.tx, f, Queue(t.tx, f) + [item]), inv);
      DrainMoves(cfg, e, t0, t.(tx := SetQueue(t.tx, f, Queue(t.tx, f) + [item])), f, inv);
    }
  }

  lemma {:induction false} CopyMoves(cfg: Config, e: Event, t0: Tx, t: Table, item: Queued, followers: seq<Follower>, inv: Tx -> bool)
    requires WF(t.tx) && inv(t.tx) && Survives(cfg, e, t0, inv) && ItemOk(t.tx, item) && !item.StartCopy?
    requires forall i :: 0 <= i < |followers| ==> CopiesTo(e.input, followers[i].key)
    ensures inv(CopyToAll(cfg, t, item, followers, e.now).0.tx)
  {
    hide WF, Survives, ItemOk, Enqueue, Grows;
    if followers != [] {
      var rest, last := followers[..|followers| - 1], followers[|followers| - 1];
      CopyMoves(cfg, e, t0, t, item, rest, inv);
      CopyToAllKeeps(cfg, t, item, rest, e.now);
      var t1 := CopyToAll(cfg, t, item, rest, e.now).0;
      ItemGrows(t.tx, t1.tx, item);
      if last.ready {
        EnqueueMoves(cfg, e, t0, t1, last.key, item, inv);
      }
    }
  }

  /** A start copy is about to be made for `f` on a tracked record that has none waiting there, unless it had one before the step. */
  ghost predicate MayCopy(e: Event, t0: Tx, t: Tx, r: Ref, frame: Frame, f: Backend) {
    && CopiesTo(e.input, f) && ItemOk(t, StartCopy(r, frame)) && Find(t.ix.startMsgs, frame.id) == Some(r) && ChargerSends(e.input, frame)
    && (f in t.recs[r].flags.queued ==> r in t0.recs && f in t0.recs[r].flags.queued)
  }

  lemma CopyStartMoves(cfg: Config, e: Event, t0: Tx, t: Table, r: Ref, isNew: bool, frame: Frame, follower: Follower, inv: Tx -> bool)
    requires WF(t.tx) && inv(t.tx) && Survives(cfg, e, t0, inv) && MayCopy(e, t0, t.tx, r, frame, follower.key)
    ensures inv(CopyStart(cfg, t, r, isNew, frame, follower, e.now).0.tx)
  {
    hide WF, Survives, Enqueue, HasStart;
    var f := follower.key;
    var rec := t.tx.recs[r];
    if !isNew && HasStart(rec, f) {
    } else if !follower.ready {
      Move1(cfg, e, t0, t.tx, NotReady(r, f), Put(t.tx, r, Degraded(rec, f)), inv);
    } else {
      ReadyMoves(cfg, e, t0, t, r, isNew, frame, f, inv);
    }
  }

  lemma ReadyMoves(cfg: Config, e: Event, t0: Tx, t: Table, r: Ref, isNew: bool, frame: Frame, f: Backend, inv: Tx -> bool)
    requires WF(t.tx) && inv(t.tx) && Survives(cfg, e, t0, inv) && MayCopy(e, t0, t.tx, r, frame, f) && (isNew || !HasStart(t.tx.recs[r], f))
    ensures inv(Enqueue(cfg, QueuedFor(t, r, f), f, StartCopy(r, frame), e.now).0.tx)
  {
    hide WF, Survives, Drain, HasStart;
    var t1 := QueuedFor(t, r, f);
    QueuedForKeeps(t, r, frame, f);
    if IsFull(cfg, t.tx, f) {
      Move1(cfg, e, t0, t.tx, CopiesStart(r, f, frame, isNew), Overflowed(SetQueue(t1.tx, f, Queue(t.tx, f)), f, StartCopy(r, frame)), inv);
    } else {
      var t2 := SetQueue(t1.tx, f, Queue(t.tx, f) + [StartCopy(r, frame)]);
      Move1(cfg, e, t0, t.tx, CopiesStart(r, f, frame, isNew), t2, inv);
      QueuedMore(t1, f, StartCopy(r, frame));
      DrainMoves(cfg, e, t0, t1.(tx := t2), f, inv);
    }
  }

  lemma {:induction false} CopyStartsMoves(cfg: Config, e: Event, t0: Tx, t: Table, r: Ref, isNew: bool, frame: Frame, followers: seq<Follower>, inv: Tx -> bool)
    requires WF(t.tx) && inv(t.tx) && Survives(cfg, e, t0, inv) && DistinctKeys(followers) && ItemOk(t.tx, StartCopy(r, frame))
    requires forall i :: 0 <= i < |followers| ==> MayCopy(e, t0, t.tx, r, frame, followers[i].key)
    ensures inv(CopyStartToAll(cfg, t, r, isNew, frame, followers, e.now).0.tx)
  {
    hide WF, Survives, CopyStart, Serves, Grows, MayCopy;
    if followers != [] {
      var rest, last := followers[..|followers| - 1], followers[|followers| - 1];
      CopyStartsMoves(cfg, e, t0, t, r, isNew, frame, rest, inv);
      CopyStartToAllKeeps(cfg, t, r, isNew, frame, rest, e.now);
      CopyStartToAllServes(cfg, t, r, isNew, frame, rest, e.now);
      MemberSplit(followers, last.key);
      var t1 := CopyStartToAll(cfg, t, r, isNew, frame, rest, e.now).0;
      StillMayCopy(e, t0, t, t1, r, frame, last.key, KeysOf(rest));
      CopyStartMoves(cfg, e, t0, t1, r, isNew, frame, last, inv);
    }
  }

  lemma StillMayCopy(e: Event, t0: Tx, t: Table, t1: Table, r: Ref, frame: Frame, f: Backend, F: set<Backend>)
    requires MayCopy(e, t0, t.tx, r, frame, f) && Serves(t, t1, F) && f !in F
    ensures MayCopy(e, t0, t1.tx, r, frame, f)
  {
    assert OnlyFlags(t.tx.recs[r], t1.tx.recs[r], F) && SameFlags(t.tx.recs[r], t1.tx.recs[r], f);
  }

  lemma StartMoves(cfg: Config, e: Event, t0: Tx, t: Table, inv: Tx -> bool)
    requires WF(t.tx) && inv(t.tx) && Survives(cfg, e, t0, inv) && e.input.ChargerFrame? && IsStart(e.input.frame) && ProperEvent(e)
    requires t.tx.recs == t0.recs && (forall m :: m in t.tx.ix.startMsgs ==> m in t0.ix.startMsgs)
    requires IsPruned(cfg, e, t0, t.tx)
    ensures inv(ChargerStart(cfg, t, e.input.frame, e.input.leader, e.input.followers, e.now).0.tx)
  {
    hide WF, Survives, IsPruned;
    var (frame, leader) := (e.input.frame, e.input.leader);
    var key := frame.payload.start;
    StartCaseOk(cfg, t.tx, leader, key, e.now);
    FoundByStart(cfg, t.tx, leader, key, e.now);
    match StartCaseOf(cfg, t.tx, leader, key, e.now)
    case Again(r) =>
    case Numbered(r) =>
      var rec := t.tx.recs[r];
      assert IsStartEvent(e.input, leader, rec.key, frame.id);
      Move1(cfg, e, t0, t.tx, OpenedByCopy(r, leader), OpenRecord(t.tx, r, leader, rec.backendIds[leader], rec.confs[leader], e.now), inv);
    case Copied(r) =>
      Move1(cfg, e, t0, t.tx, ParksOnCopy(r, leader, frame.id), Park(AwaitCopy(t.tx, r, leader, e.now), r, frame.id), inv);
    case Busy(r) =>
      Move1(cfg, e, t0, t.tx, Parks(r, frame.id), Park(t.tx, r, frame.id), inv);
    case Forwarded(known) =>
      ForwardMoves(cfg, e, t0, t, known, inv);
  }

  /** The record a retried start concerns is the one its start key leads to. */
  lemma FoundByStart(cfg: Config, t: Tx, leader: Backend, key: StartKey, now: Time)
    requires WF(t)
    ensures match StartCaseOf(cfg, t, leader, key, now)
      case Forwarded(known) => known.Some? ==> Find(t.ix.byStart, key) == known
      case Again(r) => Find(t.ix.byStart, key) == Some(r) && Rec(t, r).key == key
      case Numbered(r) => Find(t.ix.byStart, key) == Some(r) && Rec(t, r).key == key && Rec(t, r).tries.sent == {}
      case Copied(r) => Find(t.ix.byStart, key) == Some(r) && Rec(t, r).key == key && Rec(t, r).tries.sent == {} && leader in Rec(t, r).flags.awaiting
      case Busy(r) => Find(t.ix.byStart, key) == Some(r) && Rec(t, r).key == key && Rec(t, r).state.Pending?
  {
    if cfg.dedupe && key in t.ix.byStart {
      FoundOk(t, t.ix.byStart[key]);
    }
  }

  lemma ForwardMoves(cfg: Config, e: Event, t0: Tx, t: Table, known: Option<Ref>, inv: Tx -> bool)
    requires WF(t.tx) && inv(t.tx) && Survives(cfg, e, t0, inv) && e.input.ChargerFrame? && IsStart(e.input.frame) && ProperEvent(e)
    requires t.tx.recs == t0.recs && (forall m :: m in t.tx.ix.startMsgs ==> m in t0.ix.startMsgs)
    requires IsPruned(cfg, e, t0, t.tx)
    requires var key := e.input.frame.payload.start;
      && (known.Some? ==> IsHeld(t.tx, known.value) && t.tx.recs[known.value].key == key && Find(t.tx.ix.byStart, key) == known)
      && (known.None? && cfg.dedupe ==> key !in t.tx.ix.byStart)
    ensures var frame := e.input.frame;
      var (tx1, r) := Attempt(cfg, t.tx, known, frame.payload.start, frame.id, e.now);
      inv(CopyStartToAll(cfg, Table(tx1, StartFrame(t.sp, e.input.leader, frame, true, e.now).0), r, known.None?, frame, e.input.followers, e.now).0.tx)
  {
    hide WF, Survives, CopyStartToAll, IsPruned, MayCopy;
    var frame := e.input.frame;
    var (tx1, r) := Attempt(cfg, t.tx, known, frame.payload.start, frame.id, e.now);
    AttemptKeeps(cfg, t.tx, known, frame.payload.start, frame.id, e.now);
    Move1(cfg, e, t0, t.tx, Began(known, frame.payload.start, frame.id), tx1, inv);
    AttemptMayCopy(cfg, e, t0, t.tx, known, frame);
    CopyStartsMoves(cfg, e, t0, Table(tx1, StartFrame(t.sp, e.input.leader, frame, true, e.now).0), r, known.None?, frame, e.input.followers, inv);
  }

  lemma AttemptMayCopy(cfg: Config, e: Event, t0: Tx, t: Tx, known: Option<Ref>, frame: Frame)
    requires WF(t) && t.recs == t0.recs && IsStart(frame) && ChargerSends(e.input, frame)
    requires known.Some? ==> known.value in t.recs && t.recs[known.value].key == frame.payload.start
    ensures var (t', r) := Attempt(cfg, t, known, frame.payload.start, frame.id, e.now);
      forall i :: 0 <= i < |e.input.followers| ==> MayCopy(e, t0, t', r, frame, e.input.followers[i].key)
  {
  }

  lemma CallMoves(cfg: Config, e: Event, t0: Tx, t: Table, inv: Tx -> bool)
    requires WF(t.tx) && inv(t.tx) && Survives(cfg, e, t0, inv) && e.input.ChargerFrame? && e.input.frame.Call? && !IsStart(e.input.frame)
    ensures inv(ChargerCall(cfg, t, e.input.frame, e.input.leader, e.input.followers, e.now).0.tx)
  {
    hide WF, Survives, CopyToAll, Quoted;
    KeysCopied(e.input);
    var (frame, leader, followers) := (e.input.frame, e.input.leader, e.input.followers);
    if QuotesTx(frame) {
      var found := Find(t.tx.ix.byTx, frame.payload.tx.value);
      QuotedKeeps(t.tx, frame, leader, found, e.now);
      QuotedMoves(cfg, e, t0, t.tx, frame, leader, found, inv);
      CopyMoves(cfg, e, t0, t.(tx := Quoted(t.tx, frame, leader, found, e.now)), IdCopy(found, frame), followers, inv);
      QuotedIs(cfg, t, frame, leader, followers, e.now);
    } else {
      CopyMoves(cfg, e, t0, t, PlainCopy(frame), followers, inv);
    }
  }

  lemma KeysCopied(input: Input)
    requires input.ChargerFrame?
    ensures forall i :: 0 <= i < |input.followers| ==> CopiesTo(input, input.followers[i].key)
  {
  }

  lemma QuotedIs(cfg: Config, t: Table, frame: Frame, leader: Backend, followers: seq<Follower>, now: Time)
    requires QuotesTx(frame)
    ensures var found := Find(t.tx.ix.byTx, frame.payload.tx.value);
      ChargerCall(cfg, t, frame, leader, followers, now).0 ==
      CopyToAll(cfg, t.(tx := Quoted(t.tx, frame, leader, found, now)), IdCopy(found, frame), followers, now).0
  {
    hide CopyToAll;
  }

  lemma QuotedMoves(cfg: Config, e: Event, t0: Tx, t: Tx, frame: Frame, leader: Backend, found: Option<Ref>, inv: Tx -> bool)
    requires WF(t) && inv(t) && Survives(cfg, e, t0, inv) && QuotesTx(frame) && found == Find(t.ix.byTx, frame.payload.tx.value)
    ensures inv(Quoted(t, frame, leader, found, e.now))
  {
    hide WF, Survives, CloseRecord, Marked;
    if found.Some? {
      hide Quoted;
      var r := found.value;
      HeldUnderWF(t, frame.payload.tx.value);
      QuotedIsMarked(t, frame, leader, r, e.now);
      var t1 := Marked(t, leader, r, e.now);
      MarkedKeeps(t, leader, r, e.now);
      Move1(cfg, e, t0, t, Marks(r, leader), t1, inv);
      if frame.action.StopTransaction? && !t.recs[r].state.Closed? {
        MarkedAlike(t, leader, r, e.now);
        ClosedMoves(cfg, e, t0, t1, r, inv);
      }
    }
  }

  lemma MarkedAlike(t: Tx, leader: Backend, r: Ref, now: Time)
    requires r in t.recs
    ensures var t' := Marked(t, leader, r, now); r in t'.recs && t'.recs[r].state == t.recs[r].state && t'.recs[r].txId == t.recs[r].txId && t'.ix.byTx == t.ix.byTx
  {
  }

  lemma ClosedMoves(cfg: Config, e: Event, t0: Tx, t: Tx, r: Ref, inv: Tx -> bool)
    requires WF(t) && inv(t) && Survives(cfg, e, t0, inv) && r in t.recs && t.recs[r].txId.Some?
    requires !t.recs[r].state.Closed? && Find(t.ix.byTx, t.recs[r].txId.value) == Some(r)
    ensures inv(CloseRecord(t, r, e.now))
  {
    hide WF, Survives, Collect;
    ClosedKeeps(t, r, e.now);
    Move1(cfg, e, t0, t, Closes(r), ClosedRecord(t, r, e.now), inv);
    Move1(cfg, e, t0, ClosedRecord(t, r, e.now), Collected(r), CloseRecord(t, r, e.now), inv);
  }

  lemma HeldUnderWF(t: Tx, k: int)
    requires WF(t) && k in t.ix.byTx
    ensures t.ix.byTx[k] in t.recs && t.recs[t.ix.byTx[k]].txId == Some(k)
  {
    HeldUnder(t, k);
  }

  lemma AnswerMoves(cfg: Config, e: Event, t: Tx, leader: Backend, frame: Frame, inv: Tx -> bool)
    requires WF(t) && inv(t) && Survives(cfg, e, t, inv) && e.input == LeaderFrameIn(leader, frame) && (frame.Result? || frame.Error?)
    ensures inv(LeaderAnswer(t, leader, frame, e.now).0)
  {
    hide WF, Survives, OwedAnswer, StrayAnswer;
    if IsOwed(t, frame.id) {
      TrackedHeld(t, frame.id);
      OwedMoves(cfg, e, t, t.ix.startMsgs[frame.id], leader, frame, inv);
    } else {
      StrayMoves(cfg, e, t, leader, frame, inv);
    }
  }

  lemma StrayMoves(cfg: Config, e: Event, t: Tx, leader: Backend, frame: Frame, inv: Tx -> bool)
    requires WF(t) && inv(t) && Survives(cfg, e, t, inv) && e.input == LeaderFrameIn(leader, frame) && (frame.Result? || frame.Error?)
    ensures inv(StrayAnswer(t, leader, frame).0)
  {
    hide WF, Survives, LearnId, Collect, IsHeld;
    var log := Without(t.copied, Copy(leader, frame.id));
    WithoutIsLess(t.copied, Copy(leader, frame.id));
    if AnswersCopy(t, leader, frame.id) {
      TrackedHeld(t, frame.id);
      var r := t.ix.startMsgs[frame.id];
      LearnMoves(cfg, e, t, t, r, leader, frame, inv);
      LearnKeeps(t, r, leader, frame);
      var t2 := Learn(t, r, leader, frame);
      Move1(cfg, e, t, t2, Logs(log), t2.(copied := log), inv);
    } else {
      Move1(cfg, e, t, t, Logs(log), t.(copied := log), inv);
    }
  }

  lemma {:induction false} WithoutIsLess(log: seq<Copy>, c: Copy)
    ensures forall x :: x in Without(log, c) ==> x in log
  {
    if log != [] {
      WithoutIsLess(log[1..], c);
    }
  }

  lemma LearnMoves(cfg: Config, e: Event, t0: Tx, t: Tx, r: Ref, b: Backend, frame: Frame, inv: Tx -> bool)
    requires WF(t) && inv(t) && Survives(cfg, e, t0, inv) && IsAnswer(e.input, b, frame) && (frame.Result? || frame.Error?)
    requires Find(t.ix.startMsgs, frame.id) == Some(r) && IsHeld(t, r) && t.recs == t0.recs && t.ix == t0.ix
    requires e.input.LeaderFrameIn? ==> AnswersCopy(t, b, frame.id)
    ensures inv(Learn(t, r, b, frame))
  {
    hide WF, Survives, LearnId, Collect;
    var t1 := LearnId(t, r, b, frame);
    Move1(cfg, e, t0, t, Learned(r, b, frame), t1, inv);
    LearnIdKeeps(t, r, b, frame);
    Move1(cfg, e, t0, t1, Collected(r), Collect(t1, r), inv);
  }

  lemma OwedMoves(cfg: Config, e: Event, t: Tx, r: Ref, leader: Backend, frame: Frame, inv: Tx -> bool)
    requires WF(t) && inv(t) && Survives(cfg, e, t, inv) && e.input == LeaderFrameIn(leader, frame) && (frame.Result? || frame.Error?)
    requires Find(t.ix.startMsgs, frame.id) == Some(r) && IsHeld(t, r) && IsOwed(t, frame.id)
    ensures inv(OwedAnswer(t, r, leader, frame, e.now).0)
  {
    hide WF, Survives, Collect, OpenRecord;
    var rec := t.recs[r];
    if !rec.state.Pending? {
      FoundOk(t, r);
      var t1 := Put(t, r, WithoutAttempt(rec, frame.id));
      PutKeeps(t, r, WithoutAttempt(rec, frame.id));
      Move1(cfg, e, t, t, AnsweredAgain(r, frame.id), t1, inv);
      Move1(cfg, e, t, t1, Collected(r), Collect(t1, r), inv);
    } else if frame.Result? && frame.conf.tx.Some? {
      var t1 := AnswerOpens(t, r, leader, frame, e.now);
      StartedKeeps(t, r, leader, frame, e.now);
      Move1(cfg, e, t, t, OpenedByAnswer(r, leader, frame), t1, inv);
      Move1(cfg, e, t, t1, Collected(r), Collect(t1, r), inv);
    } else {
      FailMoves(cfg, e, t, r, frame.id, inv);
    }
  }

  lemma StartedKeeps(t: Tx, r: Ref, leader: Backend, frame: Frame, now: Time)
    requires WF(t) && r in t.recs && t.recs[r].state.Pending? && frame.Result? && frame.conf.tx.Some?
    ensures WF(AnswerOpens(t, r, leader, frame, now)) && r in AnswerOpens(t, r, leader, frame, now).recs
  {
    hide WF, OpenRecord;
    OpenKeeps(t, r, leader, frame.conf.tx.value, frame.conf, now);
    var t1 := OpenRecord(t, r, leader, frame.conf.tx.value, frame.conf, now);
    FoundOk(t1, r);
    PutKeeps(t1, r, WithoutRetries(t1.recs[r], frame.id));
  }

  lemma FailMoves(cfg: Config, e: Event, t: Tx, r: Ref, msg: MsgId, inv: Tx -> bool)
    requires WF(t) && inv(t) && Survives(cfg, e, t, inv) && IsOwed(t, msg) && t.ix.startMsgs[msg] == r
    ensures inv(Collect(DropAttempt(t, r, msg), r))
  {
    hide WF, Survives, Collect;
    TrackedHeld(t, msg);
    FoundOk(t, r);
    var t1 := DropAttempt(t, r, msg);
    PutKeeps(t, r, t1.recs[r]);
    Move1(cfg, e, t, t, Fails(r, msg), t1, inv);
    Move1(cfg, e, t, t1, Collected(r), Collect(t1, r), inv);
  }

  lemma FollowerMoves(cfg: Config, e: Event, t: Table, follower: Backend, frame: Frame, inv: Tx -> bool)
    requires WF(t.tx) && inv(t.tx) && Survives(cfg, e, t.tx, inv) && e.input == FollowerFrame(follower, frame)
    ensures inv(FromFollower(cfg, t, follower, frame, e.now).0.tx)
  {
    hide WF, Survives, Learn, Drain, IsHeld;
    if frame.Result? || frame.Error? {
      var log := Without(t.tx.copied, Copy(follower, frame.id));
      WithoutIsLess(t.tx.copied, Copy(follower, frame.id));
      var t1 := t.(tx := t.tx.(copied := log));
      CopiedKeeps(t.tx, log);
      Move1(cfg, e, t.tx, t.tx, Logs(log), t1.tx, inv);
      if frame.id in t1.tx.ix.startMsgs {
        TrackedHeld(t1.tx, frame.id);
        var r := t1.tx.ix.startMsgs[frame.id];
        LearnMoves(cfg, e, t.tx, t1.tx, r, follower, frame, inv);
        LearnKeeps(t1.tx, r, follower, frame);
        DrainMoves(cfg, e, t.tx, t1.(tx := Learn(t1.tx, r, follower, frame)), follower, inv);
      }
    }
  }

  lemma RefusedMoves(cfg: Config, e: Event, t: Tx, msg: MsgId, inv: Tx -> bool)
    requires WF(t) && inv(t) && Survives(cfg, e, t, inv)
    ensures inv(StartFailed(t, msg).0)
  {
    hide WF, Survives, Collect;
    if IsOwed(t, msg) {
      FailMoves(cfg, e, t, t.ix.startMsgs[msg], msg, inv);
    }
  }

  lemma PromotionMoves(cfg: Config, e: Event, t: Tx, newLeader: Option<Backend>, inv: Tx -> bool)
    requires WF(t) && inv(t) && Survives(cfg, e, t, inv) && e.input == Promotion(newLeader)
    ensures inv(LeaderChanged(t, newLeader))
  {
    hide WF, Survives, GiveUpAll, DropQueue, Waiting;
    var t1 := GiveUpAll(t, Waiting(t));
    GiveUpKeeps(t, Waiting(t));
    Move1(cfg, e, t, t, GivesUp, t1, inv);
    if newLeader.Some? {
      Move1(cfg, e, t, t1, DropsQueue(newLeader.value), DropQueue(t1, newLeader.value), inv);
    }
  }

  lemma {:induction false} HoldMoves(cfg: Config, e: Event, t: Table, order: seq<Backend>, inv: Tx -> bool)
    requires WF(t.tx) && inv(t.tx) && Survives(cfg, e, t.tx, inv)
    ensures inv(ExpireHolds(cfg, t, order, e.now).0.tx)
  {
    hide WF, Survives, Drain;
    if order != [] {
      var rest := order[..|order| - 1];
      HoldMoves(cfg, e, t, rest, inv);
      ExpireHoldsKeeps(cfg, t, rest, e.now);
      DrainMoves(cfg, e, t.tx, ExpireHolds(cfg, t, rest, e.now).0, order[|order| - 1], inv);
    }
  }

  lemma ForgetMoves(cfg: Config, e: Event, t: Tx, inv: Tx -> bool)
    requires WF(t) && inv(t) && Survives(cfg, e, t, inv) && (e.input.ChargerFrame? || e.input.IdleCheck?)
    ensures var t1 := ForgetAll(t, Expired(cfg, t, e.now)); inv(t1) && WF(t1) && t1.recs == t.recs
    ensures forall m :: m in ForgetAll(t, Expired(cfg, t, e.now)).ix.startMsgs ==> m in t.ix.startMsgs
  {
    hide WF, Survives, Expired;
    Move1(cfg, e, t, t, Forgets(Expired(cfg, t, e.now)), ForgetAll(t, Expired(cfg, t, e.now)), inv);
    ForgetKeeps(t, Expired(cfg, t, e.now));
  }

  /** Induction over the moves of a step. */
  lemma StepByMoves(cfg: Config, t: Table, e: Event, inv: Tx -> bool)
    requires WF(t.tx) && inv(t.tx) && Survives(cfg, e, t.tx, inv) && ProperEvent(e)
    ensures inv(Step(cfg, t, e).0.tx)
  {
    hide WF, Survives, ForgetAll, Expired, Lapsed, ReleaseAll, SettleReply, ChargerStart, ChargerCall, LeaderAnswer, LeaderCall, FromFollower,
      LeaderChanged, ExpireHolds, StartFailed, NoteCommand;
    match e.input
    case ChargerFrame(frame, leader, followers) =>
      ForgetMoves(cfg, e, t.tx, inv);
      var t1 := Prune(cfg, t, e.now, e.wall);
      if IsStart(frame) {
        StartMoves(cfg, e, t.tx, t1, inv);
      } else if frame.Call? {
        CallMoves(cfg, e, t.tx, t1, inv);
      }
    case LeaderFrameIn(leader, frame) =>
      if frame.Result? || frame.Error? {
        AnswerMoves(cfg, e, t.tx, leader, frame, inv);
      }
    case FollowerFrame(follower, frame) =>
      FollowerMoves(cfg, e, t, follower, frame, inv);
    case Promotion(newLeader) =>
      PromotionMoves(cfg, e, t.tx, newLeader, inv);
    case HoldTimer(order) =>
      HoldMoves(cfg, e, t, order, inv);
    case BrokerRefused(msg) =>
      RefusedMoves(cfg, e, t.tx, msg, inv);
    case RestCommand(action, payload) =>
    case IdleCheck =>
      ForgetMoves(cfg, e, t.tx, inv);
  }
}
