/** Since when a follower is waited for: the clock of a wait starts when a copy of the start goes out, and only then; and who is given
    up on at once. */
module TableWaits {
  import opened Ocpp
  import opened TableState
  import opened TableSteps
  import opened TableInvariant
  import opened TableCopies
  import opened TableRuns
  import opened TableMoves
  import opened TableRules

  // ------------------------------------------------------------------
  // What a wait is counted from
  // ------------------------------------------------------------------

  /** A copy of the start of `r`, message `msg`, was in `f`'s queue when the event began, or is made of the event's frame. */
  ghost predicate IsStartFor(t0: Tx, e: Event, r: Ref, f: Backend, msg: MsgId) {
    || (exists i :: 0 <= i < |Queue(t0, f)| && IsStartCopy(Queue(t0, f)[i], r, msg))
    || (e.input.ChargerFrame? && IsStart(e.input.frame) && e.input.frame.id == msg && f in KeysOf(e.input.followers))
  }

  predicate IsStartCopy(item: Queued, r: Ref, msg: MsgId) {
    item.StartCopy? && item.ref == r && IdOf(item.frame) == msg
  }

  /** `f` is waited for just as before: since the same time, on the same copy. */
  predicate WaitsAsBefore(a: TxRecord, b: TxRecord, f: Backend) {
    && f in a.flags.awaiting && f in a.flags.since && f in b.flags.since && a.flags.since[f] == b.flags.since[f]
    && f in a.flags.copyMsgs && f in b.flags.copyMsgs && a.flags.copyMsgs[f] == b.flags.copyMsgs[f]
  }

  /** If `f` is waited for, it is so as before the event, or since now, on a start copy that went out in the event. */
  ghost predicate TimedFrom(t0: Tx, e: Event, r: Ref, rec: TxRecord, f: Backend) {
    f in rec.flags.awaiting ==>
      || (r in t0.recs && WaitsAsBefore(t0.recs[r], rec, f))
      || (f in rec.flags.since && rec.flags.since[f] == e.now && f in rec.flags.copyMsgs && IsStartFor(t0, e, r, f, rec.flags.copyMsgs[f]))
  }

  ghost predicate AllTimed(t0: Tx, e: Event, t: Tx) {
    forall r, f: Backend :: r in t.recs ==> TimedFrom(t0, e, r, t.recs[r], f)
  }

  /** Every start copy in `f`'s queue was there when the event began, or is made of the event's frame. */
  ghost predicate ItemsFrom(t0: Tx, e: Event, f: Backend, q: seq<Queued>) {
    forall i :: 0 <= i < |q| && q[i].StartCopy? ==> IsStartFor(t0, e, q[i].ref, f, IdOf(q[i].frame))
  }

  ghost predicate QueuesFrom(t0: Tx, e: Event, t: Tx) {
    forall f: Backend :: ItemsFrom(t0, e, f, Queue(t, f))
  }

  /** Every wait has a beginning and a copy. */
  predicate HasBegun(rec: TxRecord, f: Backend) {
    f in rec.flags.awaiting ==> f in rec.flags.since && f in rec.flags.copyMsgs
  }

  ghost predicate AllBegun(t: Tx) {
    forall r, f: Backend :: r in t.recs ==> HasBegun(t.recs[r], f)
  }

  // ------------------------------------------------------------------
  // Each kind of move
  // ------------------------------------------------------------------

  /** Whoever is waited for afterwards was waited for in the same way before. */
  predicate NoNewWaits(t: Tx, t': Tx) {
    forall r :: r in t'.recs ==> if r in t.recs then FewerWaits(t.recs[r], t'.recs[r]) else t'.recs[r].flags.awaiting == {}
  }

  predicate FewerWaits(a: TxRecord, b: TxRecord) {
    && b.flags.awaiting <= a.flags.awaiting
    && forall f: Backend :: f in b.flags.awaiting ==> SameClock(a.flags, b.flags, f)
  }

  predicate SameClock(a: Flags, b: Flags, f: Backend) {
    && (f in a.since <==> f in b.since) && (f in a.since ==> a.since[f] == b.since[f])
    && (f in a.copyMsgs <==> f in b.copyMsgs) && (f in a.copyMsgs ==> a.copyMsgs[f] == b.copyMsgs[f])
  }

  lemma NoNewTimed(t0: Tx, e: Event, t: Tx, t': Tx)
    requires AllTimed(t0, e, t) && NoNewWaits(t, t')
    ensures AllTimed(t0, e, t')
  {
    forall r, f: Backend | r in t'.recs ensures TimedFrom(t0, e, r, t'.recs[r], f) {
      if r in t.recs && f in t'.recs[r].flags.awaiting {
        assert TimedFrom(t0, e, r, t.recs[r], f);
        assert SameClock(t.recs[r].flags, t'.recs[r].flags, f);
      }
    }
  }

  /** The queues hold no start copies but those they held. */
  lemma SameQueues(t0: Tx, e: Event, t: Tx, t': Tx)
    requires QueuesFrom(t0, e, t) && t'.held == t.held
    ensures QueuesFrom(t0, e, t')
  {
    forall f: Backend ensures ItemsFrom(t0, e, f, Queue(t', f)) {
      assert ItemsFrom(t0, e, f, Queue(t, f));
    }
  }

  lemma QueueSet(t0: Tx, e: Event, t: Tx, f: Backend, q: seq<Queued>, t': Tx)
    requires QueuesFrom(t0, e, t) && ItemsFrom(t0, e, f, q) && t'.held == t.held[f := q]
    ensures QueuesFrom(t0, e, t')
  {
    forall g: Backend ensures ItemsFrom(t0, e, g, Queue(t', g)) {
      assert ItemsFrom(t0, e, g, Queue(t, g));
    }
  }

  lemma TailFrom(t0: Tx, e: Event, f: Backend, q: seq<Queued>)
    requires q != [] && ItemsFrom(t0, e, f, q)
    ensures ItemsFrom(t0, e, f, q[1..])
  {
    forall i | 0 <= i < |q[1..]| && q[1..][i].StartCopy? ensures IsStartFor(t0, e, q[1..][i].ref, f, IdOf(q[1..][i].frame)) {
      assert q[1..][i] == q[i + 1];
    }
  }

  lemma MoveTimed(cfg: Config, e: Event, t0: Tx, t: Tx, m: Move, t': Tx)
    requires WF(t) && Moves(cfg, e, t0, t, m, t') && AllTimed(t0, e, t) && QueuesFrom(t0, e, t)
    ensures AllTimed(t0, e, t') && QueuesFrom(t0, e, t')
  {
    hide WF, Moves, AllTimed, QueuesFrom, NoNewWaits;
    if m.HeadLeaves? {
      HeadTimed(cfg, e, t0, t, m.f, m.sp, t');
    } else if QueueMove(m) {
      JoinTimed(cfg, e, t0, t, m, t');
      NoNewTimed(t0, e, t, t');
    } else if m.DropsQueue? {
      DropTimed(t0, e, t, m.b);
      DropIs(cfg, e, t0, t, m, t');
      NoNewTimed(t0, e, t, t');
    } else {
      RestTimed(cfg, e, t0, t, m, t');
      SameQueues(t0, e, t, t');
      NoNewTimed(t0, e, t, t');
    }
  }

  lemma DropIs(cfg: Config, e: Event, t0: Tx, t: Tx, m: Move, t': Tx)
    requires Moves(cfg, e, t0, t, m, t') && m.DropsQueue?
    ensures t' == DropQueue(t, m.b)
  {
  }

  lemma HeadTimed(cfg: Config, e: Event, t0: Tx, t: Tx, f: Backend, sp: Spaces, t': Tx)
    requires WF(t) && Moves(cfg, e, t0, t, HeadLeaves(f, sp), t') && AllTimed(t0, e, t) && QueuesFrom(t0, e, t)
    ensures AllTimed(t0, e, t') && QueuesFrom(t0, e, t')
  {
    var q := Queue(t, f);
    HeadOk(t, f);
    hide WF, AllTimed;
    assert ItemsFrom(t0, e, f, q);
    TailFrom(t0, e, f, q);
    hide QueuesFrom, StartFrame;
    QueueSet(t0, e, t, f, q[1..], t');
    match q[0]
    case StartCopy(r, frame) => StartTimed(t0, e, t, r, f, frame.id, t');
    case _ =>
      assert NoNewWaits(t, t');
      NoNewTimed(t0, e, t, t');
  }

  lemma HeadOk(t: Tx, f: Backend)
    requires WF(t) && Queue(t, f) != []
    ensures ItemOk(t, Queue(t, f)[0])
  {
    assert QueueOk(t, Queue(t, f));
  }

  /** The start copy goes out: now the wait begins. */
  lemma StartTimed(t0: Tx, e: Event, t: Tx, r: Ref, f: Backend, msg: MsgId, t': Tx)
    requires AllTimed(t0, e, t) && r in t.recs && IsStartFor(t0, e, r, f, msg)
    requires t'.recs == t.recs[r := StartWentTo(t.recs[r], f, msg, e.now)]
    ensures AllTimed(t0, e, t')
  {
    forall x, g: Backend | x in t'.recs ensures TimedFrom(t0, e, x, t'.recs[x], g) {
      assert TimedFrom(t0, e, x, t.recs[x], g);
    }
  }

  lemma JoinTimed(cfg: Config, e: Event, t0: Tx, t: Tx, m: Move, t': Tx)
    requires WF(t) && Moves(cfg, e, t0, t, m, t') && QueueMove(m) && !m.HeadLeaves? && QueuesFrom(t0, e, t)
    ensures NoNewWaits(t, t') && QueuesFrom(t0, e, t')
  {
    hide WF, QueuesFrom, NoNewWaits;
    AtQueue(t0, e, t, m.f);
    if m.CopiesStart? {
      QueuedTimed(cfg, e, t0, t, m, t');
    } else {
      hide ItemsFrom;
      OtherJoins(cfg, e, t0, t, m, t');
    }
  }

  lemma QueuedTimed(cfg: Config, e: Event, t0: Tx, t: Tx, m: Move, t': Tx)
    requires Moves(cfg, e, t0, t, m, t') && m.CopiesStart? && QueuesFrom(t0, e, t) && ItemsFrom(t0, e, m.f, Queue(t, m.f))
    ensures NoNewWaits(t, t') && QueuesFrom(t0, e, t')
  {
    hide QueuesFrom;
    QueueSet(t0, e, t, m.f, if IsFull(cfg, t, m.f) then Queue(t, m.f) else Queue(t, m.f) + [StartCopy(m.ref, m.frame)], t');
  }

  lemma OtherJoins(cfg: Config, e: Event, t0: Tx, t: Tx, m: Move, t': Tx)
    requires Moves(cfg, e, t0, t, m, t') && (m.Joins? || m.Overflows? || m.NotReady?) && QueuesFrom(t0, e, t) && ItemsFrom(t0, e, m.f, Queue(t, m.f))
    ensures NoNewWaits(t, t') && QueuesFrom(t0, e, t')
  {
    hide QueuesFrom;
    match m
    case Joins(f, item) => QueueSet(t0, e, t, f, Queue(t, f) + [item], t');
    case Overflows(f, item) => QueueSet(t0, e, t, f, Queue(t, f), t');
    case NotReady(r, f) => SameQueues(t0, e, t, t');
  }

  lemma AtQueue(t0: Tx, e: Event, t: Tx, f: Backend)
    requires QueuesFrom(t0, e, t)
    ensures ItemsFrom(t0, e, f, Queue(t, f))
  {
  }

  lemma DropTimed(t0: Tx, e: Event, t: Tx, b: Backend)
    requires QueuesFrom(t0, e, t)
    ensures NoNewWaits(t, DropQueue(t, b)) && QueuesFrom(t0, e, DropQueue(t, b))
  {
    var t' := DropQueue(t, b);
    forall f: Backend ensures ItemsFrom(t0, e, f, Queue(t', f)) {
      assert ItemsFrom(t0, e, f, Queue(t, f));
    }
  }

  /** The moves that leave the queues alone start no wait. */
  lemma RestTimed(cfg: Config, e: Event, t0: Tx, t: Tx, m: Move, t': Tx)
    requires WF(t) && Moves(cfg, e, t0, t, m, t') && !QueueMove(m) && !m.DropsQueue?
    ensures NoNewWaits(t, t') && t'.held == t.held
  {
    hide WF, Moves, NoNewWaits;
    if m.GivesUp? || m.Collected? || m.Learned? {
      AnswerTimed(cfg, e, t0, t, m, t');
    } else if m.OpenedByCopy? || m.OpenedByAnswer? {
      OpenTimed(cfg, e, t0, t, m, t');
    } else {
      UseTimed(cfg, e, t0, t, m, t');
    }
  }

  lemma AnswerTimed(cfg: Config, e: Event, t0: Tx, t: Tx, m: Move, t': Tx)
    requires WF(t) && Moves(cfg, e, t0, t, m, t') && (m.GivesUp? || m.Collected? || m.Learned?)
    ensures NoNewWaits(t, t') && t'.held == t.held
  {
    hide WF, NoNewWaits, GiveUpAll, Collect, LearnId, Waiting, AnswersCopy;
    match m
    case GivesUp => GivenUpTimed(t, Waiting(t));
    case Collected(r) => CollectedTimed(t, r);
    case Learned(r, b, frame) =>
      TrackedHeld(t, IdOf(frame));
      LearnedTimed(t, r, b, frame);
  }

  lemma ForgetTimed(t: Tx, dead: set<Ref>)
    ensures ForgetAll(t, dead).recs == t.recs && ForgetAll(t, dead).held == t.held
  {
  }

  lemma GivenUpTimed(t: Tx, rs: set<Ref>)
    ensures NoNewWaits(t, GiveUpAll(t, rs)) && GiveUpAll(t, rs).held == t.held
  {
  }

  lemma CollectedTimed(t: Tx, r: Ref)
    requires r in t.recs
    ensures NoNewWaits(t, Collect(t, r)) && Collect(t, r).held == t.held
  {
  }

  lemma LearnedTimed(t: Tx, r: Ref, b: Backend, frame: Frame)
    requires r in t.recs
    ensures NoNewWaits(t, LearnId(t, r, b, frame)) && LearnId(t, r, b, frame).held == t.held
  {
  }

  lemma OpenTimed(cfg: Config, e: Event, t0: Tx, t: Tx, m: Move, t': Tx)
    requires Moves(cfg, e, t0, t, m, t') && (m.OpenedByCopy? || m.OpenedByAnswer?)
    ensures NoNewWaits(t, t') && t'.held == t.held
  {
    hide Choose, IsPruned;
  }

  lemma UseTimed(cfg: Config, e: Event, t0: Tx, t: Tx, m: Move, t': Tx)
    requires WF(t) && Moves(cfg, e, t0, t, m, t') && !QueueMove(m) && !m.DropsQueue?
    requires !(m.GivesUp? || m.Collected? || m.Learned? || m.OpenedByCopy? || m.OpenedByAnswer?)
    ensures NoNewWaits(t, t') && t'.held == t.held
  {
    hide WF, NoNewWaits, ForgetAll, StartCaseOf, IsPruned, OneAlike, Park, AwaitCopy, DropAttempt, WithoutAttempt, Marked, ClosedRecord, Attempt;
    match m
    case Began(known, key, msg) => OneTimed(t, t', if known.Some? then known.value else t.next) by { BeganTimed(cfg, t, known, key, msg, e.now); }
    case Parks(r, msg) => OneTimed(t, t', r) by { ParkTimed(t, r, msg); }
    case ParksOnCopy(r, leader, msg) => OneTimed(t, t', r) by { OweTimed(t, r, leader, msg, e.now); }
    case Fails(r, msg) => OneTimed(t, t', r) by { FailTimed(t, r, msg); }
    case AnsweredAgain(r, msg) => OneTimed(t, t', r) by { AgainTimed(t, r, msg); }
    case Marks(r, leader) => OneTimed(t, t', r) by { MarkTimed(t, leader, r, e.now); }
    case Closes(r) => OneTimed(t, t', r) by { CloseTimed(t, r, e.now); }
    case Forgets(dead) =>
      ForgetTimed(t, dead);
      SameTimed(t, t');
    case Logs(copied) => SameTimed(t, t');
  }

  function WaitFlags(rec: TxRecord): (set<Backend>, map<Backend, Time>, map<Backend, MsgId>) {
    (rec.flags.awaiting, rec.flags.since, rec.flags.copyMsgs)
  }

  /** Only `r` changed, and not in what is waited for. */
  predicate OneAlike(t: Tx, t': Tx, r: Ref) {
    r in t'.recs && t'.recs == t.recs[r := t'.recs[r]] && WaitFlags(t'.recs[r]) == WaitFlags(Rec(t, r)) && t'.held == t.held
  }

  lemma OneTimed(t: Tx, t': Tx, r: Ref)
    requires OneAlike(t, t', r)
    ensures NoNewWaits(t, t') && t'.held == t.held
  {
  }

  lemma SameTimed(t: Tx, t': Tx)
    requires t'.recs == t.recs
    ensures NoNewWaits(t, t')
  {
  }

  lemma BeganTimed(cfg: Config, t: Tx, known: Option<Ref>, key: StartKey, msg: MsgId, now: Time)
    requires WF(t)
    ensures OneAlike(t, Attempt(cfg, t, known, key, msg, now).0, if known.Some? then known.value else t.next)
  {
  }

  lemma ParkTimed(t: Tx, r: Ref, msg: MsgId)
    ensures OneAlike(t, Park(t, r, msg), r)
  {
  }

  lemma OweTimed(t: Tx, r: Ref, leader: Backend, msg: MsgId, now: Time)
    ensures OneAlike(t, Park(AwaitCopy(t, r, leader, now), r, msg), r)
  {
    var t' := Park(AwaitCopy(t, r, leader, now), r, msg);
    assert t'.recs == t.recs[r := t'.recs[r]];
  }

  lemma FailTimed(t: Tx, r: Ref, msg: MsgId)
    ensures OneAlike(t, DropAttempt(t, r, msg), r)
  {
  }

  lemma AgainTimed(t: Tx, r: Ref, msg: MsgId)
    ensures OneAlike(t, Put(t, r, WithoutAttempt(Rec(t, r), msg)), r)
  {
  }

  lemma MarkTimed(t: Tx, leader: Backend, r: Ref, now: Time)
    ensures OneAlike(t, Marked(t, leader, r, now), r)
  {
  }

  lemma CloseTimed(t: Tx, r: Ref, now: Time)
    ensures OneAlike(t, ClosedRecord(t, r, now), r)
  {
  }

  lemma StepTimed(cfg: Config, t: Table, e: Event)
    requires WF(t.tx) && ProperEvent(e) && AllBegun(t.tx)
    ensures AllTimed(t.tx, e, Step(cfg, t, e).0.tx)
  {
    hide WF, AllTimed, QueuesFrom, Moves, Step;
    ghost var inv := (x: Tx) => AllTimed(t.tx, e, x) && QueuesFrom(t.tx, e, x);
    assert Survives(cfg, e, t.tx, inv) by {
      forall x, m, x' | WF(x) && inv(x) && Moves(cfg, e, t.tx, x, m, x') ensures inv(x') {
        MoveTimed(cfg, e, t.tx, x, m, x');
      }
    }
    TimedBefore(t.tx, e);
    StepByMoves(cfg, t, e, inv);
  }

  lemma TimedBefore(t: Tx, e: Event)
    requires AllBegun(t)
    ensures AllTimed(t, e, t) && QueuesFrom(t, e, t)
  {
    forall r, f: Backend | r in t.recs ensures TimedFrom(t, e, r, t.recs[r], f) {
      assert HasBegun(t.recs[r], f);
    }
    forall f: Backend ensures ItemsFrom(t, e, f, Queue(t, f)) {
      forall i | 0 <= i < |Queue(t, f)| && Queue(t, f)[i].StartCopy? ensures IsStartFor(t, e, Queue(t, f)[i].ref, f, IdOf(Queue(t, f)[i].frame)) {
        assert IsStartCopy(Queue(t, f)[i], Queue(t, f)[i].ref, IdOf(Queue(t, f)[i].frame));
      }
    }
  }

  // ------------------------------------------------------------------
  // Over whole runs
  // ------------------------------------------------------------------

  lemma TimedBegun(t0: Tx, e: Event, t: Tx)
    requires AllTimed(t0, e, t)
    ensures AllBegun(t)
  {
    forall r, f: Backend | r in t.recs ensures HasBegun(t.recs[r], f) {
      assert TimedFrom(t0, e, r, t.recs[r], f);
    }
  }

  lemma {:induction false} RunBegun(cfg: Config, run: seq<Event>)
    requires ProperRun(run)
    ensures AllBegun(After(cfg, run).tx)
  {
    hide WF, Step;
    if run != [] {
      hide AllBegun, AllTimed;
      var before := run[..|run| - 1];
      RunBegun(cfg, before);
      RunKeeps(cfg, before);
      assert ProperEvent(run[|run| - 1]);
      StepTimed(cfg, After(cfg, before), run[|run| - 1]);
      TimedBegun(After(cfg, before).tx, run[|run| - 1], After(cfg, run).tx);
    }
  }

  /** MAIN RESULT. In every run, a wait is counted from the event in which the follower's copy of the start went out, and nothing else
      ever starts or restarts it: whoever is waited for after an event was waited for before it, since the same time and on the
      same copy, or is so since this event, on a start copy that waited for it or is made of the frame that came in. */
  lemma WaitsAreTimed(cfg: Config, run: seq<Event>, e: Event, r: Ref, f: Backend)
    requires ProperRun(run) && ProperEvent(e)
    requires var t' := Step(cfg, After(cfg, run), e).0.tx; r in t'.recs && f in t'.recs[r].flags.awaiting
    ensures TimedFrom(After(cfg, run).tx, e, r, Step(cfg, After(cfg, run), e).0.tx.recs[r], f)
  {
    hide WF, Step, AllBegun;
    RunKeeps(cfg, run);
    RunBegun(cfg, run);
    StepTimed(cfg, After(cfg, run), e);
  }

  // ------------------------------------------------------------------
  // Who is given up on at once
  // ------------------------------------------------------------------

  /** There is no place in `f`'s queue. */
  predicate NoPlace(cfg: Config, t: Tx, f: Backend) {
    |Queue(t, f)| >= cfg.maxHeld
  }

  predicate GivenUpFor(t: Tx, r: Ref, f: Backend) {
    r in t.recs && f in t.recs[r].flags.degraded
  }

  lemma OthersGivenUp(t: Table, t': Table, G: set<Backend>, f: Backend)
    requires Serves(t, t', G) && f !in G
    ensures Queue(t'.tx, f) == Queue(t.tx, f)
    ensures forall r: Ref :: r in t.tx.recs ==> r in t'.tx.recs && SameFlags(t.tx.recs[r], t'.tx.recs[r], f) && t'.tx.recs[r].backendIds == t.tx.recs[r].backendIds
  {
    forall r | r in t.tx.recs ensures SameFlags(t.tx.recs[r], t'.tx.recs[r], f) {
      assert OnlyFlags(t.tx.recs[r], t'.tx.recs[r], G);
    }
  }

  lemma {:induction false} FullQueueGivesUp(cfg: Config, t: Table, item: Queued, followers: seq<Follower>, now: Time, f: Backend)
    requires WF(t.tx) && ItemOk(t.tx, item) && ConcernsTx(item) && DistinctKeys(followers) && Follower(f, true) in followers && NoPlace(cfg, t.tx, f)
    ensures GivenUpFor(CopyToAll(cfg, t, item, followers, now).0.tx, RefOf(item), f)
  {
    hide WF, Enqueue, Serves;
    var rest, last := followers[..|followers| - 1], followers[|followers| - 1];
    MemberSplit(followers, f);
    CopyToAllKeeps(cfg, t, item, rest, now);
    var t1 := CopyToAll(cfg, t, item, rest, now).0;
    ItemGrows(t.tx, t1.tx, item);
    if last.key == f {
      CopyToAllServes(cfg, t, item, rest, now);
      NotAmong(rest, f);
      OthersGivenUp(t, t1, KeysOf(rest), f);
      EnqueueRefuses(cfg, t1, f, item, now);
    } else {
      FullQueueGivesUp(cfg, t, item, rest, now, f);
      if last.ready {
        EnqueueServes(cfg, t1, last.key, item, now);
        OthersGivenUp(t1, Enqueue(cfg, t1, last.key, item, now).0, {last.key}, f);
      }
    }
  }

  lemma EnqueueRefuses(cfg: Config, t: Table, f: Backend, item: Queued, now: Time)
    requires ConcernsTx(item) && NoPlace(cfg, t.tx, f)
    ensures GivenUpFor(Enqueue(cfg, t, f, item, now).0.tx, RefOf(item), f) && f !in Enqueue(cfg, t, f, item, now).0.tx.recs[RefOf(item)].flags.queued
  {
  }

  /** The follower cannot be sent the start: it is not connected, or its queue is full. */
  predicate CannotHave(cfg: Config, t: Tx, follower: Follower) {
    !follower.ready || NoPlace(cfg, t, follower.key)
  }

  lemma {:induction false} StartGivesUp(cfg: Config, t: Table, r: Ref, isNew: bool, frame: Frame, followers: seq<Follower>, now: Time, i: nat)
    requires WF(t.tx) && ItemOk(t.tx, StartCopy(r, frame)) && DistinctKeys(followers) && i < |followers|
    requires (isNew || Lacks(t.tx.recs[r], followers[i].key)) && CannotHave(cfg, t.tx, followers[i])
    ensures GivenUpFor(CopyStartToAll(cfg, t, r, isNew, frame, followers, now).0.tx, r, followers[i].key)
  {
    hide WF, Enqueue, CopyStart, Serves;
    var rest, last := followers[..|followers| - 1], followers[|followers| - 1];
    var f := followers[i].key;
    CopyStartToAllKeeps(cfg, t, r, isNew, frame, rest, now);
    var t1 := CopyStartToAll(cfg, t, r, isNew, frame, rest, now).0;
    ItemGrows(t.tx, t1.tx, StartCopy(r, frame));
    if i == |followers| - 1 {
      CopyStartToAllServes(cfg, t, r, isNew, frame, rest, now);
      OthersGivenUp(t, t1, KeysOf(rest), f);
      OneStartGivesUp(cfg, t1, r, isNew, frame, last, now);
    } else {
      StartGivesUp(cfg, t, r, isNew, frame, rest, now, i);
      CopyStartServes(cfg, t1, r, isNew, frame, last, now);
      OthersGivenUp(t1, CopyStart(cfg, t1, r, isNew, frame, last, now).0, {last.key}, f);
    }
  }

  lemma OneStartGivesUp(cfg: Config, t: Table, r: Ref, isNew: bool, frame: Frame, follower: Follower, now: Time)
    requires r in t.tx.recs && (isNew || Lacks(t.tx.recs[r], follower.key)) && CannotHave(cfg, t.tx, follower)
    ensures GivenUpFor(CopyStart(cfg, t, r, isNew, frame, follower, now).0.tx, r, follower.key)
  {
    if follower.ready {
      var t1 := t.(tx := Put(t.tx, r, QueuedAt(t.tx.recs[r], follower.key)));
      EnqueueRefuses(cfg, t1, follower.key, StartCopy(r, frame), now);
    }
  }

  /** MAIN RESULT. No copy is lost in silence: when a frame that quotes a known transaction finds no place in a ready follower's
      queue, the follower is marked as given up on for that transaction; and so is, for a start that is sent to the leader,
      every follower that lacks it and cannot be sent it, because it is not connected or its queue is full. */
  lemma LostCopiesAreMarked(cfg: Config, run: seq<Event>, e: Event, i: nat)
    requires ProperEvent(e) && e.input.ChargerFrame? && e.input.frame.Call? && i < |e.input.followers|
    ensures var (t, frame, follower) := (After(cfg, run).tx, e.input.frame, e.input.followers[i]); var (t', out) := Step(cfg, After(cfg, run), e);
      && (IsQuote(frame) && QuotedRecord(cfg, t, frame.payload.tx.value, e.now).Some? && follower.ready && NoPlace(cfg, t, follower.key) ==>
            GivenUpFor(t'.tx, t.ix.byTx[frame.payload.tx.value], follower.key))
      && (frame.action.StartTransaction? && out.toLeader.Some? && CannotHave(cfg, t, follower) ==>
            Find(t'.tx.ix.startMsgs, frame.id).Some? &&
            var r := t'.tx.ix.startMsgs[frame.id]; (r in t.recs && !Lacks(t.recs[r], follower.key)) || GivenUpFor(t'.tx, r, follower.key))
  {
    hide WF, After, ForgetAll, Expired, Lapsed, ReleaseAll, ChargerStart, ChargerCall, Outdated, GivenUpFor, CannotHave, Lacks;
    var t, frame := After(cfg, run), e.input.frame;
    RunKeeps(cfg, run);
    AfterForgetting(cfg, t.tx, e.now);
    var p := Prune(cfg, t, e.now, e.wall);
    SamePlaces(cfg, t.tx, p.tx, e.input.followers[i]);
    if IsStart(frame) {
      StartCallGivesUp(cfg, p, frame, e.input.leader, e.input.followers, e.now, i);
    } else {
      CallGivesUp(cfg, p, frame, e.input.leader, e.input.followers, e.now, i);
      SameFind(t.tx, p.tx, if frame.payload.tx.Some? then frame.payload.tx.value else 0);
    }
  }

  lemma SamePlaces(cfg: Config, t: Tx, p: Tx, follower: Follower)
    requires p.held == t.held
    ensures NoPlace(cfg, p, follower.key) == NoPlace(cfg, t, follower.key) && CannotHave(cfg, p, follower) == CannotHave(cfg, t, follower)
  {
  }

  lemma CallGivesUp(cfg: Config, t: Table, frame: Frame, leader: Backend, followers: seq<Follower>, now: Time, i: nat)
    requires WF(t.tx) && frame.Call? && !IsStart(frame) && DistinctKeys(followers) && i < |followers|
    ensures IsQuote(frame) && frame.payload.tx.value in t.tx.ix.byTx && followers[i].ready && NoPlace(cfg, t.tx, followers[i].key) ==>
      GivenUpFor(ChargerCall(cfg, t, frame, leader, followers, now).0.tx, t.tx.ix.byTx[frame.payload.tx.value], followers[i].key)
  {
    hide WF, CopyToAll, GivenUpFor;
    if IsQuote(frame) && frame.payload.tx.value in t.tx.ix.byTx && followers[i].ready && NoPlace(cfg, t.tx, followers[i].key) {
      var found := Find(t.tx.ix.byTx, frame.payload.tx.value);
      QuotedKeeps(t.tx, frame, leader, found, now);
      QuotedIs(cfg, t, frame, leader, followers, now);
      QuotedLeavesQueues(t.tx, frame, leader, found, now);
      assert followers[i] == Follower(followers[i].key, true);
      FullQueueGivesUp(cfg, t.(tx := Quoted(t.tx, frame, leader, found, now)), IdCopy(found, frame), followers, now, followers[i].key);
    }
  }

  lemma StartCallGivesUp(cfg: Config, t: Table, frame: Frame, leader: Backend, followers: seq<Follower>, now: Time, i: nat)
    requires WF(t.tx) && IsStart(frame) && DistinctKeys(followers) && i < |followers|
    ensures var (t', plan) := ChargerStart(cfg, t, frame, leader, followers, now);
      plan.toLeader.Some? && CannotHave(cfg, t.tx, followers[i]) ==>
        Find(t'.tx.ix.startMsgs, frame.id).Some? &&
        var r := t'.tx.ix.startMsgs[frame.id]; (r in t.tx.recs && !Lacks(t.tx.recs[r], followers[i].key)) || GivenUpFor(t'.tx, r, followers[i].key)
  {
    hide WF, CopyStartToAll, GivenUpFor;
    var key := frame.payload.start;
    StartCaseOk(cfg, t.tx, leader, key, now);
    var case_ := StartCaseOf(cfg, t.tx, leader, key, now);
    if case_.Forwarded? {
      AttemptKeeps(cfg, t.tx, case_.known, key, frame.id, now);
      var (tx1, r) := Attempt(cfg, t.tx, case_.known, key, frame.id, now);
      var t1 := Table(tx1, StartFrame(t.sp, leader, frame, true, now).0);
      CopiedRecord(cfg, t1, r, case_.known.None?, frame, followers, now);
      if (case_.known.None? || Lacks(t.tx.recs[r], followers[i].key)) && CannotHave(cfg, t.tx, followers[i]) {
        StartGivesUp(cfg, t1, r, case_.known.None?, frame, followers, now, i);
      }
    }
  }
}
