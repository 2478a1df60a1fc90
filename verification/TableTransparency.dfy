/** With one leader that is never replaced, the table is invisible to the charger and to that leader. */
module TableTransparency {
  import opened Ocpp
  import opened TableState
  import opened TableSteps
  import opened TableInvariant
  import opened TableCopies
  import opened TableRuns
  import opened TableMoves
  import opened TableTranslation
  import opened IdSpaces
  import opened TableHolds

  // ------------------------------------------------------------------
  // The charger and the leader use the same numbers: transactions
  // ------------------------------------------------------------------

  /** The leader `l` and the charger call the record by one number; it was started once, and nobody waits for it. */
  ghost predicate RecAlike(rec: TxRecord, l: Backend) {
    && (rec.txId.Some? <==> l in rec.backendIds) && (l in rec.backendIds ==> rec.txId == Some(rec.backendIds[l]))
    && l !in rec.flags.copyMsgs && rec.tries.aliases == []
    && (!rec.state.Pending? ==> rec.tries.sent == {})
    && (forall m, m' :: m in rec.tries.sent && m' in rec.tries.sent ==> m == m')
  }

  ghost predicate RecsAlike(t: Tx, l: Backend) {
    forall r :: r in t.recs ==> RecAlike(t.recs[r], l)
  }

  predicate NumberAlike(t: Tx, p: BackendTx) {
    p in t.ix.byBackend ==> t.ix.byBackend[p] in t.recs && t.recs[t.ix.byBackend[p]].txId == Some(p.id)
  }

  predicate CopiedNot(t: Tx, l: Backend) {
    forall c :: c in t.copied ==> c.backend != l
  }

  ghost predicate TxAlike(t: Tx, l: Backend) {
    RecsAlike(t, l) && (forall p :: p in t.ix.byBackend && p.backend == l ==> NumberAlike(t, p)) && CopiedNot(t, l) && Queue(t, l) == []
  }

  /** The leader answers a start with a number the charger holds already. */
  predicate Reissues(t: Tx, input: Input) {
    input.LeaderFrameIn? && input.frame.Result? && input.frame.conf.tx.Some? && IsOwed(t, input.frame.id) &&
    Rec(t, t.ix.startMsgs[input.frame.id]).state.Pending? && input.frame.conf.tx.value in t.ix.byTx
  }

  /** A start the table already has a record for. */
  predicate KnownStartEvent(t: Tx, input: Input) {
    input.ChargerFrame? && IsStart(input.frame) && input.frame.payload.start in t.ix.byStart
  }

  /** Nothing but frames and timers, under one leader. */
  predicate PlainEvent(input: Input, l: Backend) {
    FitsLeader(input, l) && !input.Promotion? && !input.RestCommand?
  }

  /** Records keep their numbers and attempts at most shrink; `l` gets no copies. */
  predicate StaysAlike(a: TxRecord, b: TxRecord, l: Backend) {
    && b.txId == a.txId && b.backendIds == a.backendIds && b.tries.aliases == a.tries.aliases && b.tries.sent <= a.tries.sent
    && (!b.state.Pending? ==> !a.state.Pending? || b.tries.sent == {})
    && (l in b.flags.copyMsgs ==> l in a.flags.copyMsgs)
  }

  lemma StaysRecAlike(a: TxRecord, b: TxRecord, l: Backend)
    requires RecAlike(a, l) && StaysAlike(a, b, l)
    ensures RecAlike(b, l)
  {
  }

  lemma AllStayAlike(t: Tx, t': Tx, l: Backend)
    requires TxAlike(t, l) && t'.recs.Keys == t.recs.Keys && forall r :: r in t.recs ==> StaysAlike(t.recs[r], t'.recs[r], l)
    requires forall p :: p in t'.ix.byBackend ==> p in t.ix.byBackend && t'.ix.byBackend[p] == t.ix.byBackend[p]
    requires (forall c :: c in t'.copied ==> c in t.copied || c.backend != l) && Queue(t', l) == []
    ensures TxAlike(t', l)
  {
    hide RecAlike;
    forall r | r in t'.recs ensures RecAlike(t'.recs[r], l) {
      StaysRecAlike(t.recs[r], t'.recs[r], l);
    }
    forall p | p in t'.ix.byBackend && p.backend == l ensures NumberAlike(t', p) {
      assert NumberAlike(t, p);
    }
  }

  lemma UpdateAlike(t: Tx, t': Tx, r: Ref, l: Backend)
    requires TxAlike(t, l) && r in t.recs && r in t'.recs && t'.recs == t.recs[r := t'.recs[r]] && StaysAlike(t.recs[r], t'.recs[r], l)
    requires t'.ix.byBackend == t.ix.byBackend && t'.copied == t.copied && t'.held == t.held
    ensures TxAlike(t', l)
  {
    hide TxAlike;
    NoQueue(t, l);
    AllStayAlike(t, t', l);
  }

  lemma NoQueue(t: Tx, l: Backend)
    requires TxAlike(t, l)
    ensures Queue(t, l) == [] && CopiedNot(t, l)
  {
  }

  lemma OneAlike(t: Tx, r: Ref, l: Backend)
    requires TxAlike(t, l) && r in t.recs
    ensures RecAlike(t.recs[r], l)
  {
  }

  lemma CopiesAlike(t: Tx, t': Tx, f: Backend, l: Backend)
    requires TxAlike(t, l) && OnlyCopies(t, t', {f}) && f != l && forall c :: c in t'.copied ==> c in t.copied || c.backend != l
    ensures TxAlike(t', l)
  {
    hide TxAlike;
    NoQueue(t, l);
    forall r | r in t.recs ensures StaysAlike(t.recs[r], t'.recs[r], l) {
      assert OnlyFlags(t.recs[r], t'.recs[r], {f}) && SameFlags(t.recs[r], t'.recs[r], l);
    }
    AllStayAlike(t, t', l);
  }

  /** Serving a follower notes copies for that follower only. */
  lemma HeadLogs(cfg: Config, t: Table, f: Backend, item: Queued, now: Time)
    ensures var h := HeadStep(cfg, t, f, item, now); h.Leaves? ==> forall c :: c in h.t.tx.copied ==> c in t.tx.copied || c.backend == f
  {
    forall msg ensures forall c :: c in NoteCopy(t.tx, f, msg).copied ==> c in t.tx.copied || c.backend == f {}
    if item.StartCopy? {
      var tx1 := Put(t.tx, item.ref, StartWentTo(Rec(t.tx, item.ref), f, IdOf(item.frame), now));
      assert forall c :: c in NoteCopy(tx1, f, IdOf(item.frame)).copied ==> c in t.tx.copied || c.backend == f;
    }
  }

  lemma QueueMoveAlike(cfg: Config, e: Event, t0: Tx, t: Tx, m: Move, t': Tx, l: Backend)
    requires WF(t) && Moves(cfg, e, t0, t, m, t') && QueueMove(m) && TxAlike(t, l) && FitsLeader(e.input, l)
    ensures TxAlike(t', l)
  {
    hide WF, TxAlike, OnlyCopies, HeadStep;
    NoQueue(t, l);
    QueueMoveCopies(cfg, e, t0, t, m, t');
    if m.HeadLeaves? {
      HeadLogs(cfg, Table(t, m.sp), m.f, Queue(t, m.f)[0], e.now);
    }
    CopiesAlike(t, t', m.f, l);
  }

  lemma MoveAlike(cfg: Config, e: Event, t0: Tx, t: Tx, m: Move, t': Tx, l: Backend)
    requires WF(t) && Moves(cfg, e, t0, t, m, t') && TxAlike(t, l)
    requires PlainEvent(e.input, l) && !Reissues(t0, e.input) && !KnownStartEvent(t0, e.input)
    ensures TxAlike(t', l)
  {
    hide WF, TxAlike, Moves, Reissues, KnownStartEvent;
    if QueueMove(m) {
      QueueMoveAlike(cfg, e, t0, t, m, t', l);
    } else if m.Began? || m.Parks? || m.ParksOnCopy? || m.OpenedByCopy? || m.OpenedByAnswer? || m.Learned? {
      GrowingMoveAlike(cfg, e, t0, t, m, t', l);
    } else {
      ShrinkingMoveAlike(cfg, e, t0, t, m, t', l);
    }
  }

  lemma ShrinkingMoveAlike(cfg: Config, e: Event, t0: Tx, t: Tx, m: Move, t': Tx, l: Backend)
    requires WF(t) && Moves(cfg, e, t0, t, m, t') && TxAlike(t, l) && PlainEvent(e.input, l)
    requires m.Logs? || m.DropsQueue? || m.Fails? || m.AnsweredAgain? || m.GivesUp? || m.Collected? || m.Marks? || m.Closes? || m.Forgets?
    ensures TxAlike(t', l)
  {
    hide WF, TxAlike, Collect, ForgetAll, ClosedRecord, Marked, GiveUpAll, DropQueue;
    match m
    case Logs(copied) =>
      LogAlike(t, copied, l);
    case DropsQueue(b) =>
    case Fails(r, msg) =>
      TrackedHeld(t, msg);
      OneAlike(t, r, l);
      UpdateAlike(t, t', r, l);
    case AnsweredAgain(r, msg) =>
      UpdateAlike(t, t', r, l);
    case GivesUp =>
    case Collected(r) =>
      CollectShape(t, r);
      UpdateAlike(t, t', r, l);
    case Marks(r, leader) =>
      MarkedAlike(t, leader, r, e.now, l);
    case Closes(r) =>
      FoundOk(t, r);
      ClosedAlike(t, r, e.now, l);
    case Forgets(dead) =>
      ForgetAlike(t, dead, l);
  }

  lemma LogAlike(t: Tx, log: seq<Copy>, l: Backend)
    requires TxAlike(t, l) && forall c :: c in log ==> c in t.copied
    ensures TxAlike(t.(copied := log), l)
  {
    hide TxAlike;
    NoQueue(t, l);
    AllStayAlike(t, t.(copied := log), l);
  }

  lemma MarkedAlike(t: Tx, leader: Backend, r: Ref, now: Time, l: Backend)
    requires TxAlike(t, l) && r in t.recs
    ensures TxAlike(Marked(t, leader, r, now), l)
  {
    hide TxAlike;
    UpdateAlike(t, Marked(t, leader, r, now), r, l);
  }

  lemma ClosedAlike(t: Tx, r: Ref, now: Time, l: Backend)
    requires TxAlike(t, l) && r in t.recs && !t.recs[r].state.Pending?
    ensures TxAlike(ClosedRecord(t, r, now), l)
  {
    hide TxAlike;
    UpdateAlike(t, ClosedRecord(t, r, now), r, l);
  }

  lemma ForgetAlike(t: Tx, dead: set<Ref>, l: Backend)
    requires TxAlike(t, l)
    ensures TxAlike(ForgetAll(t, dead), l)
  {
    hide TxAlike;
    NoQueue(t, l);
    AllStayAlike(t, ForgetAll(t, dead), l);
  }

  lemma GrowingMoveAlike(cfg: Config, e: Event, t0: Tx, t: Tx, m: Move, t': Tx, l: Backend)
    requires WF(t) && Moves(cfg, e, t0, t, m, t') && TxAlike(t, l)
    requires PlainEvent(e.input, l) && !Reissues(t0, e.input) && !KnownStartEvent(t0, e.input)
    requires m.Began? || m.Parks? || m.ParksOnCopy? || m.OpenedByCopy? || m.OpenedByAnswer? || m.Learned?
    ensures TxAlike(t', l)
  {
    hide WF, TxAlike, Attempt, StartCaseOf, OpenRecord, LearnId, AnswerOpens, FitsLeader;
    match m
    case Began(known, key, msg) =>
      BeganAlike(cfg, t, known, key, msg, e.now, l);
    case Parks(r, msg) =>
    case ParksOnCopy(r, leader, msg) =>
    case OpenedByCopy(r, leader) =>
    case Learned(r, b, frame) =>
      TrackedHeld(t, IdOf(frame));
      OneAlike(t, r, l);
      LearnedBySomeoneElse(e, l, b, frame);
      LearnedAlike(t, r, b, frame, l);
    case OpenedByAnswer(r, leader, frame) =>
      SameLeader(e.input, leader, l);
      FoundOk(t, r);
      AnsweredAlike(t, r, l, frame, e.now);
  }

  lemma SameLeader(input: Input, leader: Backend, l: Backend)
    requires FitsLeader(input, l) && input.LeaderFrameIn? && input.leader == leader
    ensures leader == l
  {
  }

  lemma LearnedBySomeoneElse(e: Event, l: Backend, b: Backend, frame: Frame)
    requires FitsLeader(e.input, l) && IsAnswer(e.input, b, frame)
    ensures e.input.LeaderFrameIn? ==> b == l
    ensures !e.input.LeaderFrameIn? ==> b != l
  {
  }

  lemma BeganAlike(cfg: Config, t: Tx, known: Option<Ref>, key: StartKey, msg: MsgId, now: Time, l: Backend)
    requires WF(t) && TxAlike(t, l) && known.None?
    ensures TxAlike(Attempt(cfg, t, known, key, msg, now).0, l)
  {
    hide IndexesOk, QueuesOk, RecAlike;
    var (t', r) := Attempt(cfg, t, known, key, msg, now);
    assert t.next !in t.recs;
    NewAlike(key, r, msg, now, l);
    forall p | p in t'.ix.byBackend && p.backend == l ensures NumberAlike(t', p) {
      assert NumberAlike(t, p);
    }
  }

  lemma NewAlike(key: StartKey, r: Ref, msg: MsgId, now: Time, l: Backend)
    ensures RecAlike(Tried(NewRecord(key, r, now), msg, now), l)
  {
  }

  lemma LearnedAlike(t: Tx, r: Ref, b: Backend, frame: Frame, l: Backend)
    requires TxAlike(t, l) && r in t.recs && b != l
    ensures TxAlike(LearnId(t, r, b, frame), l)
  {
    var t' := LearnId(t, r, b, frame);
    assert RecAlike(t.recs[r], l);
    assert RecAlike(t'.recs[r], l);
    forall p | p in t'.ix.byBackend && p.backend == l ensures NumberAlike(t', p) {
      assert NumberAlike(t, p);
    }
  }

  lemma AnsweredAlike(t: Tx, r: Ref, l: Backend, frame: Frame, now: Time)
    requires TxAlike(t, l) && frame.Result? && frame.conf.tx.Some? && r in t.recs && frame.id in t.recs[r].tries.sent
    requires frame.conf.tx.value !in t.ix.byTx && t.recs[r].txId.None?
    ensures TxAlike(AnswerOpens(t, r, l, frame, now), l)
  {
    hide RecAlike, Fresh;
    var t' := AnswerOpens(t, r, l, frame, now);
    AnsweredUnder(t, r, l, frame, now);
    AnsweredRecAlike(t, r, l, frame, now);
    forall p | p in t'.ix.byBackend && p.backend == l ensures NumberAlike(t', p) {
      assert p in t.ix.byBackend ==> NumberAlike(t, p);
    }
  }

  lemma AnsweredUnder(t: Tx, r: Ref, l: Backend, frame: Frame, now: Time)
    requires frame.Result? && frame.conf.tx.Some? && r in t.recs
    ensures var t' := AnswerOpens(t, r, l, frame, now);
      && r in t'.recs && t'.recs == t.recs[r := t'.recs[r]] && t'.held == t.held && t'.copied == t.copied
      && t'.ix.byBackend == t.ix.byBackend[BackendTx(l, frame.conf.tx.value) := r] && t'.recs[r].txId == Some(Choose(t, frame.conf.tx.value))
  {
    hide Choose;
    var t1 := OpenRecord(t, r, l, frame.conf.tx.value, frame.conf, now);
    var t' := AnswerOpens(t, r, l, frame, now);
    assert t1.recs[r := t'.recs[r]] == t.recs[r := t'.recs[r]];
  }

  lemma AnsweredRecAlike(t: Tx, r: Ref, l: Backend, frame: Frame, now: Time)
    requires frame.Result? && frame.conf.tx.Some? && r in t.recs && RecAlike(t.recs[r], l) && frame.id in t.recs[r].tries.sent
    requires frame.conf.tx.value !in t.ix.byTx
    ensures RecAlike(Rec(AnswerOpens(t, r, l, frame, now), r), l)
  {
    hide Fresh;
    assert t.recs[r].tries.sent - {frame.id} == {};
  }

  lemma StepTxAlike(cfg: Config, t: Table, e: Event, l: Backend)
    requires WF(t.tx) && TxAlike(t.tx, l) && PlainEvent(e.input, l) && !Reissues(t.tx, e.input) && !KnownStartEvent(t.tx, e.input)
    ensures TxAlike(Step(cfg, t, e).0.tx, l)
  {
    hide WF, TxAlike, Moves, Step, Reissues, KnownStartEvent;
    ghost var inv := (x: Tx) => TxAlike(x, l);
    assert Survives(cfg, e, t.tx, inv) by {
      forall x, m, x' | WF(x) && inv(x) && Moves(cfg, e, t.tx, x, m, x') ensures inv(x') {
        MoveAlike(cfg, e, t.tx, x, m, x', l);
      }
    }
    StepByMoves(cfg, t, e, inv);
  }

  // ------------------------------------------------------------------
  // ... and reservations and profiles
  // ------------------------------------------------------------------

  predicate OwnObject(o: IdRecord, l: Backend) {
    l in o.backendIds && o.backendIds[l] == o.cid
  }

  /** Every object the charger holds was made by `l`, and both call it by one number. */
  ghost predicate SpacesAlike(sp: Spaces, l: Backend) {
    && SpacesOk(sp)
    && (forall id :: id in sp.records ==> OwnObject(Obj(sp, sp.records[id]), l))
    && (forall key :: key in sp.index ==> key.backend == l && Obj(sp, sp.index[key]).cid == key.bid)
  }

  lemma SameObjectsAlike(sp: Spaces, sp': Spaces, l: Backend)
    requires SpacesAlike(sp, l) && SameObjects(sp, sp')
    ensures SpacesAlike(sp', l)
  {
    SameObjectsOk(sp, sp');
    forall id | id in sp'.records ensures OwnObject(Obj(sp', sp'.records[id]), l) {
      assert RecordedOk(sp, id) && OwnObject(Obj(sp, sp.records[id]), l);
    }
    forall key | key in sp'.index ensures Obj(sp', sp'.index[key]).cid == key.bid {
      assert IndexedOk(sp, key);
    }
  }

  lemma ReleasedAlike(sp: Spaces, gone: set<Ref>, l: Backend)
    requires SpacesAlike(sp, l)
    ensures SpacesAlike(ReleaseAll(sp, gone), l)
  {
    ReleaseOk(sp, gone);
  }

  lemma ExpectedAlike(sp: Spaces, log: seq<Expected>, l: Backend)
    requires SpacesAlike(sp, l)
    ensures SpacesAlike(sp.(expected := log), l)
  {
    ExpectedOk(sp, log);
  }

  lemma SettledAlike(sp: Spaces, frame: Frame, l: Backend)
    requires SpacesAlike(sp, l)
    ensures SpacesAlike(SettleReply(sp, frame), l)
  {
    hide SpacesAlike;
    var log := DropExpected(sp.expected, IdOf(frame));
    ExpectedAlike(sp, log, l);
    var e := ExpectedFor(sp.expected, IdOf(frame));
    if e.Some? {
      ReleasedAlike(sp.(expected := log), {e.value.ref}, l);
    }
  }

  /** The leader's number for an object is the charger's. */
  lemma AssignedAlike(sp: Spaces, space: Space, l: Backend, bid: int, expires: Option<Time>, now: Time)
    requires SpacesAlike(sp, l)
    ensures var (sp', r, made) := SpaceAssign(sp, space, l, bid, expires, now); SpacesAlike(sp', l) && Obj(sp', r).cid == bid
  {
    SpaceAssignOk(sp, space, l, bid, expires, now);
    var key := SpaceKey(space, l, bid);
    var (sp', r, made) := SpaceAssign(sp, space, l, bid, expires, now);
    if key !in sp.index {
      NumberFree(sp, space, l, bid);
    }
    forall id | id in sp'.records ensures OwnObject(Obj(sp', sp'.records[id]), l) {
      assert id in sp.records ==> RecordedOk(sp, id) && OwnObject(Obj(sp, sp.records[id]), l);
    }
    forall k | k in sp'.index ensures k.backend == l && Obj(sp', sp'.index[k]).cid == k.bid {
      assert k in sp.index ==> IndexedOk(sp, k);
    }
  }

  lemma NumberFree(sp: Spaces, space: Space, l: Backend, bid: int)
    requires SpacesAlike(sp, l) && SpaceKey(space, l, bid) !in sp.index
    ensures SpaceId(space, bid) !in sp.records
  {
    if SpaceId(space, bid) in sp.records {
      IndexedAlike(sp, SpaceId(space, bid), l);
    }
  }

  lemma IndexedAlike(sp: Spaces, id: SpaceId, l: Backend)
    requires SpacesAlike(sp, l) && id in sp.records
    ensures SpaceKey(id.space, l, id.cid) in sp.index
  {
    assert RecordedOk(sp, id) && OwnObject(Obj(sp, sp.records[id]), l);
  }

  /** A command of the leader reaches the charger as it is. */
  lemma CommandUnchanged(t: Table, l: Backend, frame: Frame, now: Time)
    requires TxAlike(t.tx, l) && SpacesAlike(t.sp, l) && frame.Call?
    ensures LeaderCall(t, l, frame, now).1 == frame && SpacesAlike(LeaderCall(t, l, frame, now).0.sp, l)
  {
    hide SpacesAlike, SpaceAssign, TxAlike;
    if BackendQuotesTx(frame.action) && frame.payload.tx.Some? {
      QuotedAlike(t.tx, l, frame.payload.tx.value);
    }
    var spec := SpaceOf(frame.action);
    if spec.Some? && frame.payload.obj.Some? {
      var (space, mode) := spec.value;
      var value := frame.payload.obj.value;
      if mode.Assign? {
        AssignedAlike(t.sp, space, l, value, ExpiryOf(frame.action, frame.payload), now);
        var (sp1, r, made) := SpaceAssign(t.sp, space, l, value, ExpiryOf(frame.action, frame.payload), now);
        ExpectedAlike(sp1, ExpectReply(sp1, Expected(frame.id, r, Assign, made)).expected, l);
      } else if SpaceKey(space, l, value) in t.sp.index {
        KnownUnder(t.sp, SpaceKey(space, l, value), l);
        ExpectedAlike(t.sp, ExpectReply(t.sp, Expected(frame.id, t.sp.index[SpaceKey(space, l, value)], Release, false)).expected, l);
      }
    }
  }

  lemma KnownUnder(sp: Spaces, key: SpaceKey, l: Backend)
    requires SpacesAlike(sp, l) && key in sp.index
    ensures Obj(sp, sp.index[key]).cid == key.bid
  {
  }

  lemma QuotedAlike(t: Tx, l: Backend, issued: int)
    requires TxAlike(t, l)
    ensures ReverseId(t, l, issued).Some? ==> ReverseId(t, l, issued) == Some(issued)
  {
    assert BackendTx(l, issued) in t.ix.byBackend ==> NumberAlike(t, BackendTx(l, issued));
  }

  /** A start reaches the leader as it is. */
  lemma StartUnchanged(sp: Spaces, l: Backend, frame: Frame, now: Time)
    requires SpacesAlike(sp, l)
    ensures StartFrame(sp, l, frame, true, now).1 == frame
  {
    if frame.Call? && frame.payload.obj.Some? {
      var id := SpaceId(Reservation, frame.payload.obj.value);
      assert id in sp.records ==> RecordedOk(sp, id) && OwnObject(Obj(sp, sp.records[id]), l);
    }
  }

  // ------------------------------------------------------------------
  // One step
  // ------------------------------------------------------------------

  /** The output of an event is the frame that came in, to the other side. */
  predicate PassedOn(input: Input, out: Output) {
    && out.toLeader == (if input.ChargerFrame? then Some(input.frame) else None)
    && out.toCharger == (if input.LeaderFrameIn? then [input.frame] else [])
  }

  lemma AnswerUnchanged(t: Tx, l: Backend, frame: Frame, now: Time)
    requires WF(t) && TxAlike(t, l) && (frame.Result? || frame.Error?) && !Reissues(t, LeaderFrameIn(l, frame))
    ensures LeaderAnswer(t, l, frame, now).1 == LeaderPlan(Some(frame), [])
  {
    hide WF, TxAlike, OwedAnswer;
    NoQueue(t, l);
    if IsOwed(t, frame.id) {
      TrackedHeld(t, frame.id);
      OneAlike(t, t.ix.startMsgs[frame.id], l);
      OwedUnchanged(t, t.ix.startMsgs[frame.id], l, frame, now);
    } else if frame.id in t.ix.startMsgs {
      TrackedHeld(t, frame.id);
      OneAlike(t, t.ix.startMsgs[frame.id], l);
    }
  }

  lemma OwedUnchanged(t: Tx, r: Ref, l: Backend, frame: Frame, now: Time)
    requires (frame.Result? || frame.Error?) && !Reissues(t, LeaderFrameIn(l, frame)) && IsOwed(t, frame.id) && t.ix.startMsgs[frame.id] == r
    requires r in t.recs && RecAlike(t.recs[r], l)
    ensures OwedAnswer(t, r, l, frame, now).1 == LeaderPlan(Some(frame), [])
  {
    hide Fresh, Collect;
  }

  lemma StartPassedOn(cfg: Config, t: Table, frame: Frame, l: Backend, followers: seq<Follower>, now: Time)
    requires SpacesAlike(t.sp, l) && IsStart(frame) && frame.payload.start !in t.tx.ix.byStart
    ensures var plan := ChargerStart(cfg, t, frame, l, followers, now).1; plan.toLeader == Some(frame) && plan.reply == None
  {
    hide SpacesAlike, CopyStartToAll, StartFrame, Attempt;
    StartUnchanged(t.sp, l, frame, now);
  }

  lemma CallPassedOn(cfg: Config, t: Table, frame: Frame, l: Backend, followers: seq<Follower>, now: Time)
    requires WF(t.tx) && TxAlike(t.tx, l) && frame.Call? && !IsStart(frame)
    ensures var plan := ChargerCall(cfg, t, frame, l, followers, now).1; plan.toLeader == Some(frame) && plan.reply == None
  {
    hide WF, TxAlike, CopyToAll, CloseRecord;
    if QuotesTx(frame) {
      var found := Find(t.tx.ix.byTx, frame.payload.tx.value);
      if found.Some? {
        HeldUnderWF(t.tx, frame.payload.tx.value);
        OneAlike(t.tx, found.value, l);
      }
    }
  }

  /** What an event sends to the leader and to the charger is the frame that came in from the other side, and nothing else. */
  lemma StepPassesOn(cfg: Config, t: Table, e: Event, l: Backend)
    requires WF(t.tx) && TxAlike(t.tx, l) && SpacesAlike(t.sp, l)
    requires PlainEvent(e.input, l) && !Reissues(t.tx, e.input) && !KnownStartEvent(t.tx, e.input)
    ensures PassedOn(e.input, Step(cfg, t, e).1)
  {
    hide WF, TxAlike, SpacesAlike, Expired, Lapsed, ChargerStart, ChargerCall, LeaderAnswer, LeaderCall, FromFollower, ExpireHolds, AttemptFailed, Reissues;
    match e.input
    case ChargerFrame(frame, leader, followers) =>
      ForgetKeeps(t.tx, Expired(cfg, t.tx, e.now));
      ForgetAlike(t.tx, Expired(cfg, t.tx, e.now), l);
      ReleasedAlike(t.sp, Lapsed(cfg, t.sp, e.now, e.wall), l);
      var t1 := Prune(cfg, t, e.now, e.wall);
      if IsStart(frame) {
        StartPassedOn(cfg, t1, frame, l, followers, e.now);
      } else if frame.Call? {
        CallPassedOn(cfg, t1, frame, l, followers, e.now);
      }
    case LeaderFrameIn(leader, frame) =>
      if frame.Call? {
        CommandUnchanged(t, l, frame, e.now);
      } else if !frame.Odd? {
        AnswerUnchanged(t.tx, l, frame, e.now);
      }
    case FollowerFrame(follower, frame) =>
    case HoldTimer(order) =>
    case BrokerRefused(msg) =>
      NobodyElseHears(t.tx, msg, l);
    case IdleCheck =>
  }

  lemma NobodyElseHears(t: Tx, msg: MsgId, l: Backend)
    requires WF(t) && TxAlike(t, l)
    ensures StartFailed(t, msg).1 == []
  {
    hide WF, TxAlike;
    if IsOwed(t, msg) {
      TrackedHeld(t, msg);
      OneAlike(t, t.ix.startMsgs[msg], l);
    }
  }

  lemma StepSpacesAlike(cfg: Config, t: Table, e: Event, l: Backend)
    requires WF(t.tx) && TxAlike(t.tx, l) && SpacesAlike(t.sp, l) && PlainEvent(e.input, l)
    ensures SpacesAlike(Step(cfg, t, e).0.sp, l)
  {
    hide WF, TxAlike, SpacesAlike, SameObjects, ForgetAll, Expired, Lapsed, ReleaseAll, SettleReply, ChargerStart, ChargerCall, LeaderAnswer, LeaderCall,
      FromFollower, ExpireHolds, AttemptFailed;
    match e.input
    case ChargerFrame(frame, leader, followers) =>
      ForgetKeeps(t.tx, Expired(cfg, t.tx, e.now));
      ReleasedAlike(t.sp, Lapsed(cfg, t.sp, e.now, e.wall), l);
      var t1 := Prune(cfg, t, e.now, e.wall);
      if frame.Call? {
        ChargerFrameSame(cfg, t1, frame, leader, followers, e.now);
        SameObjectsAlike(t1.sp, Step(cfg, t, e).0.sp, l);
      } else if !frame.Odd? {
        SettledAlike(t1.sp, frame, l);
      }
    case LeaderFrameIn(leader, frame) =>
      if frame.Call? {
        CommandUnchanged(t, l, frame, e.now);
      }
    case FollowerFrame(follower, frame) =>
      FollowerSame(cfg, t, follower, frame, e.now);
      SameObjectsAlike(t.sp, Step(cfg, t, e).0.sp, l);
    case HoldTimer(order) =>
      HoldsSame(cfg, t, order, e.now);
      SameObjectsAlike(t.sp, Step(cfg, t, e).0.sp, l);
    case BrokerRefused(msg) =>
    case IdleCheck =>
      ReleasedAlike(t.sp, Lapsed(cfg, t.sp, e.now, e.wall), l);
  }

  // ------------------------------------------------------------------
  // Whole runs
  // ------------------------------------------------------------------

  predicate StartsAs(e: Event, key: StartKey) {
    e.input.ChargerFrame? && IsStart(e.input.frame) && e.input.frame.payload.start == key
  }

  /** The charger never repeats a start (or the table does not look for repeats). */
  ghost predicate DistinctStarts(cfg: Config, run: seq<Event>) {
    cfg.dedupe ==> forall i, j, key :: 0 <= i < j < |run| && StartsAs(run[i], key) ==> !StartsAs(run[j], key)
  }

  /** The start of every record the table can find by its start was sent in the run; without deduplication there is none. */
  ghost predicate StartsKnown(cfg: Config, run: seq<Event>, t: Tx) {
    && (!cfg.dedupe ==> t.ix.byStart == map[])
    && forall k :: k in t.ix.byStart ==> exists i :: 0 <= i < |run| && StartsAs(run[i], k)
  }

  lemma MoveStartsKnown(cfg: Config, run: seq<Event>, e: Event, t0: Tx, t: Tx, m: Move, t': Tx)
    requires WF(t) && Moves(cfg, e, t0, t, m, t') && StartsKnown(cfg, run + [e], t)
    ensures StartsKnown(cfg, run + [e], t')
  {
    hide WF, Moves, StartsKnown, Shrinks;
    if m.Began? {
      BeganKnown(cfg, run, e, t0, t, m, t');
    } else if !Numbers(m) {
      MoveShrinks(cfg, e, t0, t, m, t');
      ShrunkKnown(cfg, run + [e], t, t');
    } else {
      NumberedKnown(cfg, run + [e], e, t0, t, m, t');
    }
  }

  lemma ShrunkKnown(cfg: Config, run: seq<Event>, t: Tx, t': Tx)
    requires StartsKnown(cfg, run, t) && Shrinks(t, t')
    ensures StartsKnown(cfg, run, t')
  {
  }

  lemma NumberedKnown(cfg: Config, run: seq<Event>, e: Event, t0: Tx, t: Tx, m: Move, t': Tx)
    requires Moves(cfg, e, t0, t, m, t') && StartsKnown(cfg, run, t) && Numbers(m) && !m.Began?
    ensures StartsKnown(cfg, run, t')
  {
    hide Choose;
  }

  lemma BeganKnown(cfg: Config, run: seq<Event>, e: Event, t0: Tx, t: Tx, m: Move, t': Tx)
    requires Moves(cfg, e, t0, t, m, t') && StartsKnown(cfg, run + [e], t) && m.Began?
    ensures StartsKnown(cfg, run + [e], t')
  {
    assert StartsAs((run + [e])[|run|], m.key);
  }

  lemma StepStartsKnown(cfg: Config, run: seq<Event>, t: Table, e: Event)
    requires WF(t.tx) && StartsKnown(cfg, run, t.tx) && ProperEvent(e)
    ensures StartsKnown(cfg, run + [e], Step(cfg, t, e).0.tx)
  {
    hide WF, Moves, Step;
    forall k | k in t.tx.ix.byStart ensures exists i :: 0 <= i < |run + [e]| && StartsAs((run + [e])[i], k) {
      var i :| 0 <= i < |run| && StartsAs(run[i], k);
      assert StartsAs((run + [e])[i], k);
    }
    assert StartsKnown(cfg, run + [e], t.tx);
    hide StartsKnown;
    ghost var inv := (x: Tx) => StartsKnown(cfg, run + [e], x);
    assert Survives(cfg, e, t.tx, inv) by {
      forall x, m, x' | WF(x) && inv(x) && Moves(cfg, e, t.tx, x, m, x') ensures inv(x') {
        MoveStartsKnown(cfg, run, e, t.tx, x, m, x');
      }
    }
    StepByMoves(cfg, t, e, inv);
  }

  lemma {:induction false} RunStartsKnown(cfg: Config, run: seq<Event>)
    requires ProperRun(run)
    ensures StartsKnown(cfg, run, After(cfg, run).tx)
  {
    hide WF, Step;
    if run != [] {
      hide StartsKnown;
      var before := run[..|run| - 1];
      RunStartsKnown(cfg, before);
      RunKeeps(cfg, before);
      assert ProperEvent(run[|run| - 1]);
      StepStartsKnown(cfg, before, After(cfg, before), run[|run| - 1]);
      assert run == before + [run[|run| - 1]];
    }
  }

  /** Under one leader `l`, which is never replaced and never gives a number the charger still holds; the broker itself
      sends no commands; and no start is repeated. */
  ghost predicate OneLeaderRun(cfg: Config, run: seq<Event>, l: Backend) {
    && (forall i :: 0 <= i < |run| ==> PlainEvent(run[i].input, l) && !Reissues(After(cfg, run[..i]).tx, run[i].input))
    && DistinctStarts(cfg, run)
  }

  lemma OneLeaderEvent(cfg: Config, run: seq<Event>, l: Backend, i: nat)
    requires OneLeaderRun(cfg, run, l) && i < |run|
    ensures var t := After(cfg, run[..i]).tx; PlainEvent(run[i].input, l) && !Reissues(t, run[i].input) && !KnownStartEvent(t, run[i].input)
    ensures ProperRun(run[..i])
  {
    hide After, Reissues;
    var t := After(cfg, run[..i]).tx;
    forall j | 0 <= j < i ensures ProperEvent(run[..i][j]) {
      assert PlainEvent(run[j].input, l);
    }
    RunStartsKnown(cfg, run[..i]);
    if run[i].input.ChargerFrame? && IsStart(run[i].input.frame) {
      var key := run[i].input.frame.payload.start;
      forall j | 0 <= j < i && cfg.dedupe ensures !StartsAs(run[..i][j], key) {
        assert StartsAs(run[j], key) ==> !StartsAs(run[i], key);
      }
    }
  }

  lemma {:induction false} RunAlike(cfg: Config, run: seq<Event>, l: Backend, n: nat)
    requires OneLeaderRun(cfg, run, l) && n <= |run|
    ensures TxAlike(After(cfg, run[..n]).tx, l) && SpacesAlike(After(cfg, run[..n]).sp, l)
  {
    hide WF, TxAlike, SpacesAlike, Step, PlainEvent, Reissues, KnownStartEvent;
    if n == 0 {
      NothingDiffers(l);
    } else {
      RunAlike(cfg, run, l, n - 1);
      OneLeaderEvent(cfg, run, l, n - 1);
      RunKeeps(cfg, run[..n - 1]);
      assert run[..n][..n - 1] == run[..n - 1];
      StepTxAlike(cfg, After(cfg, run[..n - 1]), run[n - 1], l);
      StepSpacesAlike(cfg, After(cfg, run[..n - 1]), run[n - 1], l);
    }
  }

  lemma NothingDiffers(l: Backend)
    ensures TxAlike(EmptyTable.tx, l) && SpacesAlike(EmptyTable.sp, l)
  {
  }

  /** MAIN RESULT. With one leader that is never replaced, from an empty table: every frame from the charger reaches the
      leader exactly as it was, every frame from the leader reaches the charger exactly as it was, and neither of them
      ever gets any other frame. */
  lemma TrafficIsUntouched(cfg: Config, run: seq<Event>, l: Backend, i: nat)
    requires OneLeaderRun(cfg, run, l) && i < |run|
    ensures PassedOn(run[i].input, Emitted(cfg, run, i))
  {
    hide WF, TxAlike, SpacesAlike, After, Step, PlainEvent, Reissues, KnownStartEvent, OneLeaderRun;
    RunAlike(cfg, run, l, i);
    RunKeeps(cfg, run[..i]);
    OneLeaderEvent(cfg, run, l, i);
    StepPassesOn(cfg, After(cfg, run[..i]), run[i], l);
  }
}
