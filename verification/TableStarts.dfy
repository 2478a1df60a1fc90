/** A transaction in use is the one its start leads to, until it is stopped. */
module TableStarts {
  import opened Ocpp
  import opened TableState
  import opened TableSteps
  import opened TableInvariant
  import opened TableCopies
  import opened TableRuns
  import opened TableMoves
  import opened TableTranslation
  import opened TableRetries

  /** The record is found by the charger's id, or by a start message. */
  ghost predicate InUse(t: Tx, r: Ref) {
    r in t.recs && ((t.recs[r].txId.Some? && Find(t.ix.byTx, t.recs[r].txId.value) == Some(r)) || exists m :: Tracks(t, m, r))
  }

  ghost predicate StartFound(t: Tx, r: Ref) {
    InUse(t, r) && !t.recs[r].state.Closed? ==> Find(t.ix.byStart, t.recs[r].key) == Some(r)
  }

  ghost predicate StartsFound(t: Tx) {
    forall r: Ref :: StartFound(t, r)
  }

  // ------------------------------------------------------------------
  // Moves
  // ------------------------------------------------------------------

  /** `a` and `b` are the same start with the same id, and as far as before. */
  predicate SameStart(a: TxRecord, b: TxRecord) {
    b.key == a.key && b.txId == a.txId && b.state == a.state
  }

  /** The same starts are found in the same way, and at most messages are forgotten. */
  ghost predicate SameStarts(t: Tx, t': Tx) {
    && t'.recs.Keys == t.recs.Keys && (forall r :: r in t.recs ==> SameStart(t.recs[r], t'.recs[r]))
    && t'.ix.byTx == t.ix.byTx && t'.ix.byStart == t.ix.byStart && t'.ix.startMsgs == t.ix.startMsgs
  }

  lemma SameStartsFound(t: Tx, t': Tx)
    requires StartsFound(t) && SameStarts(t, t')
    ensures StartsFound(t')
  {
    forall r: Ref ensures StartFound(t', r) {
      assert StartFound(t, r);
      if m :| Tracks(t', m, r) {
        assert Tracks(t, m, r);
      }
    }
  }

  lemma PutSame(t: Tx, r: Ref, rec: TxRecord)
    requires r in t.recs && SameStart(t.recs[r], rec)
    ensures SameStarts(t, Put(t, r, rec))
  {
  }

  lemma CopiesSame(t: Tx, t': Tx, F: set<Backend>)
    requires OnlyCopies(t, t', F)
    ensures SameStarts(t, t')
  {
    forall r | r in t.recs ensures OnlyFlags(t.recs[r], t'.recs[r], F) {}
  }

  lemma DropSame(t: Tx, b: Backend)
    ensures SameStarts(t, DropQueue(t, b))
  {
  }

  lemma LogSame(t: Tx, copied: seq<Copy>)
    ensures SameStarts(t, t.(copied := copied))
  {
  }

  lemma LearnedSame(t: Tx, r: Ref, b: Backend, frame: Frame)
    requires r in t.recs
    ensures SameStarts(t, LearnId(t, r, b, frame))
  {
  }

  /** Entries are only lost for records that are not in use any more. */
  lemma FewerFound(t: Tx, t': Tx)
    requires StartsFound(t) && t'.recs.Keys == t.recs.Keys && (forall r :: r in t.recs ==> SameStart(t.recs[r], t'.recs[r]) || t'.recs[r].state.Closed?)
    requires forall k :: k in t'.ix.byTx ==> k in t.ix.byTx && t'.ix.byTx[k] == t.ix.byTx[k]
    requires forall m :: m in t'.ix.startMsgs ==> m in t.ix.startMsgs && t'.ix.startMsgs[m] == t.ix.startMsgs[m]
    requires forall k :: k in t.ix.byStart ==> (Find(t'.ix.byStart, k) == Some(t.ix.byStart[k]) || Unused(t', t.ix.byStart[k]))
    ensures StartsFound(t')
  {
    forall r: Ref ensures StartFound(t', r) {
      if InUse(t', r) && !t'.recs[r].state.Closed? {
        StillInUse(t, t', r);
        assert StartFound(t, r) && t.ix.byStart[t.recs[r].key] == r;
      }
    }
  }

  lemma StillInUse(t: Tx, t': Tx, r: Ref)
    requires InUse(t', r) && r in t.recs && t'.recs[r].txId == t.recs[r].txId
    requires forall k :: k in t'.ix.byTx ==> k in t.ix.byTx && t'.ix.byTx[k] == t.ix.byTx[k]
    requires forall m :: m in t'.ix.startMsgs ==> m in t.ix.startMsgs && t'.ix.startMsgs[m] == t.ix.startMsgs[m]
    ensures InUse(t, r)
  {
    if t'.recs[r].txId.Some? && Find(t'.ix.byTx, t'.recs[r].txId.value) == Some(r) {
      UnderBoth(t, t', t.recs[r].txId.value, r);
    } else {
      var m :| Tracks(t', m, r);
      assert Tracks(t, m, r);
    }
  }

  lemma UnderBoth(t: Tx, t': Tx, k: int, r: Ref)
    requires forall k :: k in t'.ix.byTx ==> k in t.ix.byTx && t'.ix.byTx[k] == t.ix.byTx[k]
    requires Find(t'.ix.byTx, k) == Some(r)
    ensures Find(t.ix.byTx, k) == Some(r)
  {
  }

  lemma TrackedMessage(t: Tx, m: MsgId)
    requires WF(t) && m in t.ix.startMsgs
    ensures t.ix.startMsgs[m] in t.recs && m in t.recs[t.ix.startMsgs[m]].tries.msgs
  {
    hide RecordsOk, QueuesOk;
  }

  ghost predicate Unused(t: Tx, r: Ref) {
    r !in t.recs || t.recs[r].state.Closed? || !InUse(t, r)
  }

  lemma GaveUpFound(t: Tx, rs: set<Ref>)
    requires WF(t) && StartsFound(t) && rs == Waiting(t)
    ensures StartsFound(GiveUpAll(t, rs))
  {
    var t' := GiveUpAll(t, rs);
    forall k | k in t.ix.byStart ensures Find(t'.ix.byStart, k) == Some(t.ix.byStart[k]) || Unused(t', t.ix.byStart[k]) {
      var r := t.ix.byStart[k];
      KnownStart(t, k);
      if r in rs && Dead(Rec(t, r)) {
        forall m ensures !Tracks(t', m, r) {
          if m in t.ix.startMsgs && t.ix.startMsgs[m] == r {
            TrackedHeld(t, m);
          }
        }
        WaitingPending(t, r);
        NoIdPending(t, r);
      }
    }
    FewerFound(t, t');
  }

  lemma WaitingPending(t: Tx, r: Ref)
    requires r in Waiting(t)
    ensures Rec(t, r).state.Pending?
  {
  }

  lemma NoIdPending(t: Tx, r: Ref)
    requires WF(t) && r in t.recs && t.recs[r].state.Pending?
    ensures t.recs[r].txId.None?
  {
    assert RecordOk(t.recs[r]);
  }

  lemma CollectedFound(t: Tx, r: Ref)
    requires WF(t) && StartsFound(t) && r in t.recs
    ensures StartsFound(Collect(t, r))
  {
    hide WF;
    var t' := Collect(t, r);
    CollectShape(t, r);
    if Quiet(t.recs[r]) {
      forall m ensures !Tracks(t', m, r) {
        if m in t.ix.startMsgs && t.ix.startMsgs[m] == r {
          TrackedMessage(t, m);
        }
      }
      if t.recs[r].state.Pending? {
        NoIdPending(t, r);
      }
      FewerFound(t, t');
    }
  }

  lemma ForgottenFound(t: Tx, dead: set<Ref>)
    requires StartsFound(t)
    ensures StartsFound(ForgetAll(t, dead))
  {
    FewerFound(t, ForgetAll(t, dead));
  }

  lemma ClosedFound(t: Tx, r: Ref, now: Time)
    requires StartsFound(t) && r in t.recs && t.recs[r].txId.Some? && !t.recs[r].state.Closed? && Find(t.ix.byTx, t.recs[r].txId.value) == Some(r)
    ensures StartsFound(ClosedRecord(t, r, now))
  {
    assert StartFound(t, r);
    FewerFound(t, ClosedRecord(t, r, now));
  }

  lemma BegunFound(cfg: Config, t: Tx, known: Option<Ref>, key: StartKey, msg: MsgId, now: Time)
    requires WF(t) && cfg.dedupe && StartsFound(t) && (if known.Some? then Find(t.ix.byStart, key) == known else key !in t.ix.byStart)
    ensures StartsFound(Attempt(cfg, t, known, key, msg, now).0)
  {
    hide RecordsOk, QueuesOk;
    var (t', r) := Attempt(cfg, t, known, key, msg, now);
    if known.Some? {
      KnownStart(t, key);
    } else {
      assert r !in t.recs by {
        NextFree(t);
      }
    }
    forall x: Ref ensures StartFound(t', x) {
      assert StartFound(t, x);
      if m :| Tracks(t', m, x) {
        assert m == msg || Tracks(t, m, x);
      }
    }
  }

  lemma NextFree(t: Tx)
    requires RecordsOk(t)
    ensures t.next !in t.recs
  {
  }

  /** A record that its start leads to gets an id. */
  lemma OpenedStartFound(t: Tx, t': Tx, r: Ref, id: int)
    requires StartsFound(t) && r in t.recs && Find(t.ix.byStart, t.recs[r].key) == Some(r)
    requires r in t'.recs && t'.recs == t.recs[r := t'.recs[r]] && t'.recs[r].key == t.recs[r].key
    requires t'.ix.byTx == t.ix.byTx[id := r] && t'.ix.byStart == t.ix.byStart && t'.ix.startMsgs == t.ix.startMsgs
    ensures StartsFound(t')
  {
    forall x: Ref ensures StartFound(t', x) {
      assert StartFound(t, x);
      if m :| Tracks(t', m, x) {
        assert Tracks(t, m, x);
      }
    }
  }

  lemma MoveFoundStarts(cfg: Config, e: Event, t0: Tx, t: Tx, m: Move, t': Tx)
    requires WF(t) && cfg.dedupe && Moves(cfg, e, t0, t, m, t') && StartsFound(t)
    ensures StartsFound(t')
  {
    hide WF, StartsFound, Moves, SameStarts;
    if QueueMove(m) {
      QueueMoveCopies(cfg, e, t0, t, m, t');
      CopiesSame(t, t', {m.f});
      SameStartsFound(t, t');
    } else if Opens(m) {
      OpensFound(cfg, e, t0, t, m, t');
    } else if Loosens(m) {
      LoosensFound(cfg, e, t0, t, m, t');
    } else {
      OtherMoveSame(cfg, e, t0, t, m, t');
      SameStartsFound(t, t');
    }
  }

  predicate Opens(m: Move) {
    m.Began? || m.OpenedByCopy? || m.OpenedByAnswer?
  }

  predicate Loosens(m: Move) {
    m.GivesUp? || m.Collected? || m.Closes? || m.Forgets?
  }

  lemma LoosensFound(cfg: Config, e: Event, t0: Tx, t: Tx, m: Move, t': Tx)
    requires WF(t) && Moves(cfg, e, t0, t, m, t') && StartsFound(t) && Loosens(m)
    ensures StartsFound(t')
  {
    hide WF, StartsFound, GiveUpAll, Waiting, Collect, ForgetAll, ClosedRecord;
    match m
    case GivesUp => GaveUpFound(t, Waiting(t));
    case Collected(r) => CollectedFound(t, r);
    case Closes(r) => ClosedFound(t, r, e.now);
    case Forgets(dead) => ForgottenFound(t, dead);
  }

  lemma OpensFound(cfg: Config, e: Event, t0: Tx, t: Tx, m: Move, t': Tx)
    requires WF(t) && cfg.dedupe && Moves(cfg, e, t0, t, m, t') && StartsFound(t) && Opens(m)
    ensures StartsFound(t')
  {
    hide WF, StartsFound, Attempt, Choose, HeadStep;
    match m
    case Began(known, key, msg) => BegunFound(cfg, t, known, key, msg, e.now);
    case OpenedByCopy(r, leader) =>
      OpenedStartFound(t, t', r, Choose(t, t.recs[r].backendIds[leader]));
    case OpenedByAnswer(r, leader, frame) =>
      TrackedInUse(t, frame.id, r);
      AnswerOpensAs(t, r, leader, frame, e.now);
      OpenedStartFound(t, t', r, Choose(t, frame.conf.tx.value));
  }

  lemma TrackedInUse(t: Tx, msg: MsgId, r: Ref)
    requires StartsFound(t) && Find(t.ix.startMsgs, msg) == Some(r) && r in t.recs && !t.recs[r].state.Closed?
    ensures Find(t.ix.byStart, t.recs[r].key) == Some(r)
  {
    assert Tracks(t, msg, r);
    assert StartFound(t, r);
  }

  lemma OtherMoveSame(cfg: Config, e: Event, t0: Tx, t: Tx, m: Move, t': Tx)
    requires WF(t) && Moves(cfg, e, t0, t, m, t') && !QueueMove(m) && !Opens(m) && !Loosens(m)
    ensures SameStarts(t, t')
  {
    hide WF, SameStarts, DropQueue, HeadStep, LearnId;
    match m
    case Logs(copied) => LogSame(t, copied);
    case DropsQueue(b) => DropSame(t, b);
    case Parks(r, msg) => PutSame(t, r, Parked(t.recs[r], msg));
    case ParksOnCopy(r, leader, msg) =>
      ParkIsPut(t, r, leader, msg, e.now);
      PutSame(t, r, t'.recs[r]);
    case Fails(r, msg) =>
      TrackedHeld(t, msg);
      PutSame(t, r, t'.recs[r]);
    case AnsweredAgain(r, msg) => PutSame(t, r, WithoutAttempt(t.recs[r], msg));
    case Learned(r, b, frame) =>
      TrackedHeld(t, IdOf(frame));
      LearnedSame(t, r, b, frame);
    case Marks(r, leader) => PutSame(t, r, t'.recs[r]);
  }

  // ------------------------------------------------------------------
  // Steps and runs
  // ------------------------------------------------------------------

  lemma StepStartsFound(cfg: Config, t: Table, e: Event)
    requires WF(t.tx) && cfg.dedupe && StartsFound(t.tx) && ProperEvent(e)
    ensures StartsFound(Step(cfg, t, e).0.tx)
  {
    hide WF, StartsFound, Moves, Step;
    ghost var inv := (x: Tx) => StartsFound(x);
    assert Survives(cfg, e, t.tx, inv) by {
      forall x, m, x' | WF(x) && inv(x) && Moves(cfg, e, t.tx, x, m, x') ensures inv(x') {
        MoveFoundStarts(cfg, e, t.tx, x, m, x');
      }
    }
    StepByMoves(cfg, t, e, inv);
  }

  /** MAIN RESULT. In every reachable state (with retries recognised at all), a record that can be found in any way and is not
      stopped is the one its start leads to: so a retry of its start reaches it, and no two such records have the same start. */
  lemma {:induction false} RunStartsFound(cfg: Config, run: seq<Event>)
    requires ProperRun(run) && cfg.dedupe
    ensures StartsFound(After(cfg, run).tx)
  {
    hide WF, Step;
    if run != [] {
      hide StartsFound;
      var before := run[..|run| - 1];
      RunStartsFound(cfg, before);
      RunKeeps(cfg, before);
      assert ProperEvent(run[|run| - 1]);
      StepStartsFound(cfg, After(cfg, before), run[|run| - 1]);
    }
  }
}
