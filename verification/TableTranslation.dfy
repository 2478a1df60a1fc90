/** The two translations are inverse: what a charger frame quotes to a backend is that backend's own number, and the number
    quoted back reaches the charger as its own, as long as no backend numbers two starts alike. */
module TableTranslation {
  import opened Ocpp
  import opened TableState
  import opened TableSteps
  import opened TableInvariant
  import opened TableCopies
  import opened TableRuns
  import opened TableMoves
  import opened TableRules
  import opened ObjectRules

  // ------------------------------------------------------------------
  // Moves that bring no number
  // ------------------------------------------------------------------

  /** Nothing was numbered or registered; at most index entries for charger ids, starts and messages went away. */
  ghost predicate Shrinks(t: Tx, t': Tx) {
    && NoNewIds(t, t') && t'.ix.byBackend == t.ix.byBackend && t'.recs.Keys == t.recs.Keys
    && (forall r :: r in t.recs ==> t'.recs[r].txId == t.recs[r].txId)
    && (forall k :: k in t'.ix.byTx ==> k in t.ix.byTx && t'.ix.byTx[k] == t.ix.byTx[k])
    && (forall k :: k in t'.ix.byStart ==> k in t.ix.byStart && t'.ix.byStart[k] == t.ix.byStart[k])
  }

  predicate Numbers(m: Move) {
    m.Began? || m.Learned? || m.OpenedByCopy? || m.OpenedByAnswer? || m.Forgets?
  }

  lemma PutShrinks(t: Tx, r: Ref, rec: TxRecord)
    requires r in t.recs && rec.key == t.recs[r].key && rec.backendIds == t.recs[r].backendIds && rec.txId == t.recs[r].txId
    ensures Shrinks(t, Put(t, r, rec))
  {
  }

  lemma CollectShrinks(t: Tx, r: Ref)
    requires r in t.recs
    ensures Shrinks(t, Collect(t, r))
  {
    hide Collect;
    CollectShape(t, r);
  }

  lemma QueueMoveShrinks(t: Tx, t': Tx, F: set<Backend>)
    requires OnlyCopies(t, t', F)
    ensures Shrinks(t, t')
  {
    forall r | r in t.recs ensures OnlyFlags(t.recs[r], t'.recs[r], F) {}
  }

  lemma OtherMoveShrinks(cfg: Config, e: Event, t0: Tx, t: Tx, m: Move, t': Tx)
    requires WF(t) && Moves(cfg, e, t0, t, m, t') && !Numbers(m)
    requires !QueueMove(m)
    ensures Shrinks(t, t')
  {
    hide WF, Shrinks, Collect, GiveUpAll, Waiting, DropQueue, ClosedRecord, Popped, HeadStep;
    match m
    case Logs(copied) =>
      LogShrinks(t, copied);
    case DropsQueue(b) =>
      DropShrinks(t, b);
    case Parks(r, msg) =>
      PutShrinks(t, r, Parked(t.recs[r], msg));
    case ParksOnCopy(r, leader, msg) =>
      ParkIsPut(t, r, leader, msg, e.now);
      PutShrinks(t, r, t'.recs[r]);
    case Fails(r, msg) =>
      TrackedHeld(t, msg);
      PutShrinks(t, r, DropAttempt(t, r, msg).recs[r]);
    case AnsweredAgain(r, msg) =>
      PutShrinks(t, r, WithoutAttempt(t.recs[r], msg));
    case GivesUp =>
      GiveUpShrinks(t, Waiting(t));
    case Collected(r) =>
      CollectShrinks(t, r);
    case Marks(r, leader) =>
      PutShrinks(t, r, Marked(t, leader, r, e.now).recs[r]);
    case Closes(r) =>
      ClosedShrinks(t, r, e.now);
  }

  lemma LogShrinks(t: Tx, copied: seq<Copy>)
    ensures Shrinks(t, t.(copied := copied))
  {
  }

  /** Waiting for the leader's copy is one update of the record. */
  lemma ParkIsPut(t: Tx, r: Ref, leader: Backend, msg: MsgId, now: Time)
    requires r in t.recs
    ensures var t' := Park(AwaitCopy(t, r, leader, now), r, msg);
      && r in t'.recs && t' == Put(t, r, t'.recs[r])
      && t'.recs[r] == Parked(Owing(t.recs[r], if leader in t.recs[r].flags.copyMsgs then {t.recs[r].flags.copyMsgs[leader]} else {}, now), msg)
  {
    var t1 := AwaitCopy(t, r, leader, now);
    assert t.recs[r := t1.recs[r]][r := Park(t1, r, msg).recs[r]] == t.recs[r := Park(t1, r, msg).recs[r]];
  }

  lemma DropShrinks(t: Tx, b: Backend)
    ensures Shrinks(t, DropQueue(t, b))
  {
  }

  lemma GiveUpShrinks(t: Tx, rs: set<Ref>)
    ensures Shrinks(t, GiveUpAll(t, rs))
  {
  }

  lemma ClosedShrinks(t: Tx, r: Ref, now: Time)
    requires r in t.recs
    ensures Shrinks(t, ClosedRecord(t, r, now))
  {
  }

  lemma MoveShrinks(cfg: Config, e: Event, t0: Tx, t: Tx, m: Move, t': Tx)
    requires WF(t) && Moves(cfg, e, t0, t, m, t') && !Numbers(m)
    ensures Shrinks(t, t')
  {
    hide WF, Shrinks, Moves;
    if QueueMove(m) {
      QueueMoveCopies(cfg, e, t0, t, m, t');
      QueueMoveShrinks(t, t', {m.f});
    } else {
      OtherMoveShrinks(cfg, e, t0, t, m, t');
    }
  }

  // ------------------------------------------------------------------
  // Every number in use leads back
  // ------------------------------------------------------------------

  /** Every number a backend has for the record leads back to the record. */
  ghost predicate Registered(t: Tx, r: Ref) {
    r in t.recs && forall b :: b in t.recs[r].backendIds ==> Find(t.ix.byBackend, BackendTx(b, t.recs[r].backendIds[b])) == Some(r)
  }

  /** ... for every record the table can find. */
  ghost predicate AllRegistered(t: Tx) {
    && (forall k :: k in t.ix.byTx ==> Registered(t, t.ix.byTx[k]))
    && (forall k :: k in t.ix.byStart ==> Registered(t, t.ix.byStart[k]))
    && (forall m :: m in t.ix.startMsgs ==> Registered(t, t.ix.startMsgs[m]))
  }

  /** `b` answers the tracked start message `msg` with a number by which it already calls another record the table holds. */
  predicate NumbersAlike(t: Tx, b: Backend, msg: MsgId, id: int) {
    var key := BackendTx(b, id);
    msg in t.ix.startMsgs && key in t.ix.byBackend && t.ix.byBackend[key] != t.ix.startMsgs[msg]
    && Find(Rec(t, t.ix.byBackend[key]).backendIds, b) == Some(id)
  }

  predicate Clash(t: Tx, input: Input) {
    match input
    case LeaderFrameIn(b, frame) => frame.Result? && frame.conf.tx.Some? && NumbersAlike(t, b, frame.id, frame.conf.tx.value)
    case FollowerFrame(b, frame) => frame.Result? && frame.conf.tx.Some? && NumbersAlike(t, b, frame.id, frame.conf.tx.value)
    case _ => false
  }

  lemma ShrunkRegistered(t: Tx, t': Tx)
    requires AllRegistered(t) && Shrinks(t, t')
    ensures AllRegistered(t')
  {
    forall r | Registered(t, r) ensures Registered(t', r) {}
  }

  /** `r` got the number `id` from `b`, and no other record has it. */
  lemma NumberedRegistered(t: Tx, t': Tx, r: Ref, b: Backend, id: int)
    requires AllRegistered(t) && r in t'.recs && r in t.recs && Registered(t, r)
    requires t'.recs == t.recs[r := t'.recs[r]] && t'.recs[r].backendIds == t.recs[r].backendIds[b := id]
    requires t'.ix.byBackend == t.ix.byBackend[BackendTx(b, id) := r]
    requires forall k :: k in t'.ix.byTx ==> t'.ix.byTx[k] == r || (k in t.ix.byTx && t'.ix.byTx[k] == t.ix.byTx[k])
    requires t'.ix.byStart == t.ix.byStart && t'.ix.startMsgs == t.ix.startMsgs
    requires var key := BackendTx(b, id);
      key in t.ix.byBackend && t.ix.byBackend[key] != r ==> Find(Rec(t, t.ix.byBackend[key]).backendIds, b) != Some(id)
    ensures AllRegistered(t')
  {
    hide Registered;
    forall x | Registered(t, x) ensures Registered(t', x) {
      StaysRegistered(t, t', r, b, id, x);
    }
  }

  lemma StaysRegistered(t: Tx, t': Tx, r: Ref, b: Backend, id: int, x: Ref)
    requires Registered(t, x) && r in t.recs && r in t'.recs
    requires t'.recs == t.recs[r := t'.recs[r]] && t'.recs[r].backendIds == t.recs[r].backendIds[b := id]
    requires t'.ix.byBackend == t.ix.byBackend[BackendTx(b, id) := r]
    requires var key := BackendTx(b, id);
      key in t.ix.byBackend && t.ix.byBackend[key] != r ==> Find(Rec(t, t.ix.byBackend[key]).backendIds, b) != Some(id)
    ensures Registered(t', x)
  {
    forall c | c in t'.recs[x].backendIds ensures Find(t'.ix.byBackend, BackendTx(c, t'.recs[x].backendIds[c])) == Some(x) {
      if x != r {
        assert Find(t.ix.byBackend, BackendTx(c, t.recs[x].backendIds[c])) == Some(x);
      }
    }
  }

  lemma BegunRegistered(cfg: Config, t: Tx, known: Option<Ref>, key: StartKey, msg: MsgId, now: Time)
    requires AllRegistered(t) && WF(t) && (known.Some? ==> Find(t.ix.byStart, key) == known)
    ensures AllRegistered(Attempt(cfg, t, known, key, msg, now).0)
  {
    var (t', r) := Attempt(cfg, t, known, key, msg, now);
    forall x | Registered(t, x) ensures Registered(t', x) {}
    assert Registered(t', r);
  }

  lemma ForgottenRegistered(t: Tx, dead: set<Ref>)
    requires AllRegistered(t)
    ensures AllRegistered(ForgetAll(t, dead))
  {
    var t' := ForgetAll(t, dead);
    forall x | Registered(t, x) && x !in dead ensures Registered(t', x) {}
  }

  lemma MoveRegistered(cfg: Config, e: Event, t0: Tx, t: Tx, m: Move, t': Tx)
    requires WF(t) && Moves(cfg, e, t0, t, m, t') && AllRegistered(t) && !Clash(t0, e.input)
    ensures AllRegistered(t')
  {
    hide AllRegistered, WF, Moves, Shrinks;
    if !Numbers(m) {
      MoveShrinks(cfg, e, t0, t, m, t');
      ShrunkRegistered(t, t');
    } else {
      NumberingRegistered(cfg, e, t0, t, m, t');
    }
  }

  lemma NumberingRegistered(cfg: Config, e: Event, t0: Tx, t: Tx, m: Move, t': Tx)
    requires WF(t) && Moves(cfg, e, t0, t, m, t') && AllRegistered(t) && !Clash(t0, e.input) && Numbers(m)
    ensures AllRegistered(t')
  {
    hide AllRegistered, Registered, WF, Attempt, ForgetAll, OpenRecord, AnswerOpens, LearnId, HeadStep, Clash;
    match m
    case Began(known, key, msg) =>
      BegunRegistered(cfg, t, known, key, msg, e.now);
    case Forgets(dead) =>
      ForgottenRegistered(t, dead);
    case Learned(r, b, frame) =>
      LearnedRegistered(e, t0, t, r, b, frame);
    case OpenedByCopy(r, leader) =>
      ReopenedRegistered(t, r, leader, t.recs[r].confs[leader], e.now);
    case OpenedByAnswer(r, leader, frame) =>
      AnsweredRegistered(e, t, r, leader, frame);
  }

  lemma AnsweredRegistered(e: Event, t: Tx, r: Ref, leader: Backend, frame: Frame)
    requires AllRegistered(t) && !Clash(t, e.input) && e.input == LeaderFrameIn(leader, frame) && frame.Result? && frame.conf.tx.Some?
    requires Find(t.ix.startMsgs, frame.id) == Some(r)
    ensures AllRegistered(AnswerOpens(t, r, leader, frame, e.now))
  {
    hide AllRegistered, OpenRecord, Shrinks;
    RegisteredByMsg(t, frame.id);
    var t1 := OpenRecord(t, r, leader, frame.conf.tx.value, frame.conf, e.now);
    OpenedRegistered(t, r, leader, frame.conf.tx.value, frame.conf, e.now);
    OpenedResolves(t, r, leader, frame.conf.tx.value, frame.conf, e.now);
    PutShrinks(t1, r, WithoutRetries(t1.recs[r], frame.id));
    ShrunkRegistered(t1, AnswerOpens(t, r, leader, frame, e.now));
  }

  lemma ReopenedRegistered(t: Tx, r: Ref, leader: Backend, conf: Conf, now: Time)
    requires AllRegistered(t) && r in t.recs && Find(t.ix.byStart, t.recs[r].key) == Some(r) && leader in t.recs[r].backendIds
    ensures AllRegistered(OpenRecord(t, r, leader, t.recs[r].backendIds[leader], conf, now))
  {
    hide AllRegistered, OpenRecord;
    RegisteredByStart(t, r);
    OpenedRegistered(t, r, leader, t.recs[r].backendIds[leader], conf, now);
  }

  lemma RegisteredByStart(t: Tx, r: Ref)
    requires AllRegistered(t) && r in t.recs && Find(t.ix.byStart, t.recs[r].key) == Some(r)
    ensures Registered(t, r)
  {
  }

  lemma RegisteredByMsg(t: Tx, msg: MsgId)
    requires AllRegistered(t) && msg in t.ix.startMsgs
    ensures Registered(t, t.ix.startMsgs[msg])
  {
  }

  lemma OpenedResolves(t: Tx, r: Ref, leader: Backend, issued: int, conf: Conf, now: Time)
    ensures r in OpenRecord(t, r, leader, issued, conf, now).recs
  {
  }

  lemma OpenedRegistered(t: Tx, r: Ref, leader: Backend, issued: int, conf: Conf, now: Time)
    requires AllRegistered(t) && Registered(t, r)
    requires var key := BackendTx(leader, issued);
      key in t.ix.byBackend && t.ix.byBackend[key] != r ==> Find(Rec(t, t.ix.byBackend[key]).backendIds, leader) != Some(issued)
    ensures AllRegistered(OpenRecord(t, r, leader, issued, conf, now))
  {
    hide AllRegistered, Choose;
    NumberedRegistered(t, OpenRecord(t, r, leader, issued, conf, now), r, leader, issued);
  }

  lemma LearnedRegistered(e: Event, t0: Tx, t: Tx, r: Ref, b: Backend, frame: Frame)
    requires AllRegistered(t) && !Clash(t0, e.input) && IsAnswer(e.input, b, frame) && Find(t.ix.startMsgs, IdOf(frame)) == Some(r)
    requires t.recs == t0.recs && t.ix == t0.ix
    ensures AllRegistered(LearnId(t, r, b, frame))
  {
    hide AllRegistered;
    RegisteredByMsg(t, IdOf(frame));
    if frame.Result? && frame.conf.tx.Some? {
      NumberedRegistered(t, LearnId(t, r, b, frame), r, b, frame.conf.tx.value);
    } else {
      PutShrinks(t, r, t.recs[r].(flags := Failed(t.recs[r].flags, b)));
      ShrunkRegistered(t, LearnId(t, r, b, frame));
    }
  }

  // ------------------------------------------------------------------
  // Round trips
  // ------------------------------------------------------------------

  lemma StepRegistered(cfg: Config, t: Table, e: Event)
    requires WF(t.tx) && AllRegistered(t.tx) && !Clash(t.tx, e.input) && ProperEvent(e)
    ensures AllRegistered(Step(cfg, t, e).0.tx)
  {
    hide WF, AllRegistered, Moves, Step, Clash;
    ghost var inv := (x: Tx) => AllRegistered(x);
    assert Survives(cfg, e, t.tx, inv) by {
      forall x, m, x' | WF(x) && inv(x) && Moves(cfg, e, t.tx, x, m, x') ensures inv(x') {
        MoveRegistered(cfg, e, t.tx, x, m, x');
      }
    }
    StepByMoves(cfg, t, e, inv);
  }

  /** No backend answers two starts the table holds with one number. */
  ghost predicate ClashFree(cfg: Config, run: seq<Event>) {
    forall i :: 0 <= i < |run| ==> !Clash(After(cfg, run[..i]).tx, run[i].input)
  }

  lemma {:induction false} RunRegistered(cfg: Config, run: seq<Event>)
    requires ProperRun(run) && ClashFree(cfg, run)
    ensures AllRegistered(After(cfg, run).tx)
  {
    hide AllRegistered, WF, Step, Clash;
    if run == [] {
      NothingRegistered();
    } else {
      var before := run[..|run| - 1];
      assert forall i :: 0 <= i < |before| ==> before[..i] == run[..i] && before[i] == run[i];
      RunRegistered(cfg, before);
      RunKeeps(cfg, before);
      assert run[..|run| - 1] == before && ProperEvent(run[|run| - 1]);
      StepRegistered(cfg, After(cfg, before), run[|run| - 1]);
    }
  }

  lemma NothingRegistered()
    ensures AllRegistered(EmptyTable.tx)
  {
  }

  /** MAIN RESULT. In every reachable state of a run in which no backend numbers two starts alike: what a MeterValues or
      StopTransaction about transaction `k` quotes to a leader that has an id for it is that leader's own id, if the
      transaction is not about to be forgotten; and a RemoteStopTransaction, SetChargingProfile or RemoteStartTransaction in
      which this leader quotes the id back reaches the charger with `k`. */
  lemma TranslationsAreInverse(cfg: Config, run: seq<Event>, k: int, b: Backend, quote: Event, command: Event)
    requires ProperRun(run) && ClashFree(cfg, run)
    requires var t := After(cfg, run).tx;
      k in t.ix.byTx && b in Rec(t, t.ix.byTx[k]).backendIds && !Outdated(cfg, Rec(t, t.ix.byTx[k]), quote.now)
    requires quote.input.ChargerFrame? && quote.input.leader == b && quote.input.frame.Call? && quote.input.frame.payload.tx == Some(k)
    requires quote.input.frame.action in {MeterValues, StopTransaction}
    requires command.input.LeaderFrameIn? && command.input.leader == b && command.input.frame.Call?
    requires command.input.frame.action in {RemoteStopTransaction, SetChargingProfile, RemoteStartTransaction}
    requires command.input.frame.payload.tx == Some(Rec(After(cfg, run).tx, After(cfg, run).tx.ix.byTx[k]).backendIds[b])
    ensures var t := After(cfg, run); var n := Rec(t.tx, t.tx.ix.byTx[k]).backendIds[b];
      && Step(cfg, t, quote).1.toLeader == Some(WithTx(quote.input.frame, n))
      && var back := Step(cfg, t, command).1.toCharger; |back| == 1 && back[0].Call? && back[0].payload.tx == Some(k)
  {
    hide After, AllRegistered, WF, Step, Outdated, MadeAs, QuoteTaken;
    RunKeeps(cfg, run);
    RunRegistered(cfg, run);
    var t := After(cfg, run);
    RegisteredUnder(t.tx, k);
    HeldUnderWF(t.tx, k);
    QuotesReachTheLeader(cfg, run, quote);
    CommandsReachTheCharger(cfg, run, command);
  }

  lemma RegisteredUnder(t: Tx, k: int)
    requires AllRegistered(t) && k in t.ix.byTx
    ensures Registered(t, t.ix.byTx[k])
  {
  }

  /** The condition is needed: once a backend gives a second transaction a number it already gave one, a command that
      quotes it can no longer reach the first. */
  lemma ClashBreaksTheFirst(t: Tx, b: Backend, frame: Frame, r: Ref, first: Ref)
    requires WF(t) && frame.Result? && frame.conf.tx.Some? && Find(t.ix.startMsgs, frame.id) == Some(r)
    requires NumbersAlike(t, b, frame.id, frame.conf.tx.value) && first == t.ix.byBackend[BackendTx(b, frame.conf.tx.value)]
    requires Rec(t, first).txId.Some?
    ensures ReverseId(LearnId(t, r, b, frame), b, frame.conf.tx.value) != Rec(t, first).txId
  {
    TrackedHeld(t, frame.id);
    assert IsHeld(t, first) && IsHeld(t, r);
  }
}
