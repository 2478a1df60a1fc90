/** Retries of a start that wait for the answer to another attempt: who answers them, when, and which of them nobody does. */
module TableRetries {
  import opened Ocpp
  import opened TableState
  import opened TableSteps
  import opened TableInvariant
  import opened TableCopies
  import opened TableRuns
  import opened TableMoves
  import opened TableTranslation

  // ------------------------------------------------------------------
  // A retry waits only for an attempt that is still outstanding
  // ------------------------------------------------------------------

  predicate WaitsForSomething(rec: TxRecord) {
    rec.tries.aliases != [] ==> rec.state.Pending? && rec.tries.sent != {}
  }

  /** In every record, retries wait only while it is pending and an attempt is outstanding. */
  predicate NobodyWaitsForNothing(t: Tx) {
    forall r :: r in t.recs ==> WaitsForSomething(t.recs[r])
  }

  /** Neither the attempts nor the state changed. */
  predicate SameTries(a: TxRecord, b: TxRecord) {
    b.state == a.state && b.key == a.key && b.tries.sent == a.tries.sent && b.tries.aliases == a.tries.aliases
  }

  predicate AllSameTries(t: Tx, t': Tx) {
    t'.recs.Keys == t.recs.Keys && forall r :: r in t.recs ==> SameTries(t.recs[r], t'.recs[r])
  }

  lemma CopiesSameTries(t: Tx, t': Tx, F: set<Backend>)
    requires OnlyCopies(t, t', F)
    ensures AllSameTries(t, t')
  {
    forall r | r in t.recs ensures SameTries(t.recs[r], t'.recs[r]) {
      assert OnlyFlags(t.recs[r], t'.recs[r], F);
    }
  }

  lemma SameTriesWait(t: Tx, t': Tx)
    requires AllSameTries(t, t') && NobodyWaitsForNothing(t)
    ensures NobodyWaitsForNothing(t')
  {
  }

  lemma PutWaits(t: Tx, r: Ref, rec: TxRecord)
    requires NobodyWaitsForNothing(t) && WaitsForSomething(rec)
    ensures NobodyWaitsForNothing(Put(t, r, rec))
  {
  }

  lemma PutWaitsWith(t: Tx, t': Tx, r: Ref)
    requires NobodyWaitsForNothing(t) && r in t'.recs && t'.recs == t.recs[r := t'.recs[r]] && WaitsForSomething(t'.recs[r])
    ensures NobodyWaitsForNothing(t')
  {
  }

  lemma TriesOf(t: Tx, r: Ref)
    requires NobodyWaitsForNothing(t) && r in t.recs
    ensures WaitsForSomething(t.recs[r])
  {
  }

  lemma CollectSameTries(t: Tx, r: Ref)
    requires r in t.recs
    ensures AllSameTries(t, Collect(t, r))
  {
    CollectShape(t, r);
  }

  lemma DropSameTries(t: Tx, b: Backend)
    ensures AllSameTries(t, DropQueue(t, b))
  {
  }

  lemma GiveUpWaits(t: Tx, rs: set<Ref>)
    requires NobodyWaitsForNothing(t)
    ensures NobodyWaitsForNothing(GiveUpAll(t, rs))
  {
  }

  lemma NotPending(t: Tx, r: Ref)
    requires WF(t) && r in t.recs && t.recs[r].txId.Some?
    ensures !t.recs[r].state.Pending?
  {
    FoundOk(t, r);
  }

  lemma MoveWaits(cfg: Config, e: Event, t0: Tx, t: Tx, m: Move, t': Tx)
    requires WF(t) && Moves(cfg, e, t0, t, m, t') && NobodyWaitsForNothing(t)
    ensures NobodyWaitsForNothing(t')
  {
    hide WF, NobodyWaitsForNothing, AllSameTries, Moves;
    if QueueMove(m) {
      QueueMoveCopies(cfg, e, t0, t, m, t');
      CopiesSameTries(t, t', {m.f});
      SameTriesWait(t, t');
    } else if m.Logs? || m.DropsQueue? || m.GivesUp? || m.Collected? || m.Forgets? {
      WideMoveWaits(cfg, e, t0, t, m, t');
    } else if m.Learned? || m.OpenedByCopy? || m.OpenedByAnswer? {
      NumberMoveWaits(cfg, e, t0, t, m, t');
    } else {
      RecordMoveWaits(cfg, e, t0, t, m, t');
    }
  }

  lemma WideMoveWaits(cfg: Config, e: Event, t0: Tx, t: Tx, m: Move, t': Tx)
    requires Moves(cfg, e, t0, t, m, t') && NobodyWaitsForNothing(t)
    requires m.Logs? || m.DropsQueue? || m.GivesUp? || m.Collected? || m.Forgets?
    ensures NobodyWaitsForNothing(t')
  {
    hide NobodyWaitsForNothing, AllSameTries, GiveUpAll, Waiting, DropQueue, Collect;
    match m
    case Logs(copied) => SameRecsWait(t, t');
    case DropsQueue(b) =>
      DropSameTries(t, b);
      SameTriesWait(t, t');
    case GivesUp => GiveUpWaits(t, Waiting(t));
    case Collected(r) =>
      CollectSameTries(t, r);
      SameTriesWait(t, t');
    case Forgets(dead) => SameRecsWait(t, t');
  }

  lemma SameRecsWait(t: Tx, t': Tx)
    requires NobodyWaitsForNothing(t) && t'.recs == t.recs
    ensures NobodyWaitsForNothing(t')
  {
  }

  lemma NumberMoveWaits(cfg: Config, e: Event, t0: Tx, t: Tx, m: Move, t': Tx)
    requires WF(t) && Moves(cfg, e, t0, t, m, t') && NobodyWaitsForNothing(t)
    requires m.Learned? || m.OpenedByCopy? || m.OpenedByAnswer?
    ensures NobodyWaitsForNothing(t')
  {
    hide WF, NobodyWaitsForNothing, Choose;
    match m
    case Learned(r, b, frame) =>
      TrackedHeld(t, IdOf(frame));
      TriesOf(t, r);
      PutWaitsWith(t, t', r);
    case OpenedByCopy(r, leader) =>
      TriesOf(t, r);
      PutWaitsWith(t, t', r);
    case OpenedByAnswer(r, leader, frame) =>
      OpenedThenAnswered(t, r, leader, frame, e.now);
      PutWaitsWith(t, t', r);
  }

  /** The leader's answer is one update of the record. */
  lemma OpenedThenAnswered(t: Tx, r: Ref, leader: Backend, frame: Frame, now: Time)
    requires frame.Result? && frame.conf.tx.Some?
    ensures var t' := AnswerOpens(t, r, leader, frame, now);
      r in t'.recs && t'.recs == t.recs[r := t'.recs[r]] && t'.recs[r].tries.aliases == []
  {
    var t1 := OpenRecord(t, r, leader, frame.conf.tx.value, frame.conf, now);
    var t' := AnswerOpens(t, r, leader, frame, now);
    assert t1.recs[r := t'.recs[r]] == t.recs[r := t'.recs[r]];
  }

  lemma RecordMoveWaits(cfg: Config, e: Event, t0: Tx, t: Tx, m: Move, t': Tx)
    requires WF(t) && Moves(cfg, e, t0, t, m, t') && NobodyWaitsForNothing(t)
    requires m.Began? || m.Parks? || m.ParksOnCopy? || m.Fails? || m.AnsweredAgain? || m.Marks? || m.Closes?
    ensures NobodyWaitsForNothing(t')
  {
    hide WF, NobodyWaitsForNothing;
    match m
    case Began(known, key, msg) => BeganWaits(cfg, t, known, key, msg, e.now);
    case Parks(r, msg) => PutWaits(t, r, Parked(t.recs[r], msg));
    case ParksOnCopy(r, leader, msg) =>
      ParkIsPut(t, r, leader, msg, e.now);
      PutWaits(t, r, t'.recs[r]);
    case Fails(r, msg) =>
      TrackedHeld(t, msg);
      TriesOf(t, r);
      PutWaits(t, r, t'.recs[r]);
    case AnsweredAgain(r, msg) =>
      TriesOf(t, r);
      PutWaits(t, r, WithoutAttempt(t.recs[r], msg));
    case Marks(r, leader) =>
      TriesOf(t, r);
      PutWaits(t, r, t'.recs[r]);
    case Closes(r) =>
      NotPending(t, r);
      TriesOf(t, r);
      PutWaitsWith(t, t', r);
  }

  lemma BeganWaits(cfg: Config, t: Tx, known: Option<Ref>, key: StartKey, msg: MsgId, now: Time)
    requires WF(t) && (known.Some? ==> Find(t.ix.byStart, key) == known) && NobodyWaitsForNothing(t)
    ensures NobodyWaitsForNothing(Attempt(cfg, t, known, key, msg, now).0)
  {
    hide IndexesOk, QueuesOk, NobodyWaitsForNothing;
    if known.Some? {
      KnownStart(t, key);
      TriesOf(t, known.value);
    }
    PutWaitsWith(t, Attempt(cfg, t, known, key, msg, now).0, Attempt(cfg, t, known, key, msg, now).1);
  }

  lemma KnownStart(t: Tx, key: StartKey)
    requires WF(t) && key in t.ix.byStart
    ensures t.ix.byStart[key] in t.recs && t.recs[t.ix.byStart[key]].key == key
  {
  }

  lemma StepWaits(cfg: Config, t: Table, e: Event)
    requires WF(t.tx) && NobodyWaitsForNothing(t.tx) && ProperEvent(e)
    ensures NobodyWaitsForNothing(Step(cfg, t, e).0.tx)
  {
    hide WF, NobodyWaitsForNothing, Moves, Step;
    ghost var inv := (x: Tx) => NobodyWaitsForNothing(x);
    assert Survives(cfg, e, t.tx, inv) by {
      forall x, m, x' | WF(x) && inv(x) && Moves(cfg, e, t.tx, x, m, x') ensures inv(x') {
        MoveWaits(cfg, e, t.tx, x, m, x');
      }
    }
    StepByMoves(cfg, t, e, inv);
  }

  /** In every reachable state, a record with waiting retries is pending and has an attempt outstanding. */
  lemma {:induction false} RunWaits(cfg: Config, run: seq<Event>)
    requires ProperRun(run)
    ensures NobodyWaitsForNothing(After(cfg, run).tx)
  {
    hide WF, Step;
    if run != [] {
      hide NobodyWaitsForNothing;
      var before := run[..|run| - 1];
      RunWaits(cfg, before);
      RunKeeps(cfg, before);
      assert ProperEvent(run[|run| - 1]);
      StepWaits(cfg, After(cfg, before), run[|run| - 1]);
    }
  }

  // ------------------------------------------------------------------
  // Outstanding attempts are found by their message, with one exception
  // ------------------------------------------------------------------

  /** The table can still find the record: by its start, by the charger's id, or by a start message. */
  ghost predicate Live(t: Tx, r: Ref) {
    r in t.recs &&
    (|| Find(t.ix.byStart, t.recs[r].key) == Some(r)
     || (t.recs[r].txId.Some? && Find(t.ix.byTx, t.recs[r].txId.value) == Some(r))
     || (exists m :: Tracks(t, m, r)))
  }

  predicate Tracks(t: Tx, m: MsgId, r: Ref) {
    m in t.ix.startMsgs && t.ix.startMsgs[m] == r
  }

  ghost predicate FoundFor(t: Tx, r: Ref) {
    Live(t, r) ==> forall m :: m in t.recs[r].tries.sent ==> Tracks(t, m, r)
  }

  /** Every outstanding attempt of a record the table can find is found by its message: its answer will be recognised. */
  ghost predicate AttemptsFound(t: Tx) {
    forall r :: r in t.recs ==> FoundFor(t, r)
  }

  /** Indexes and attempts at most shrank, and no tracked attempt that is still outstanding was lost. */
  ghost predicate Loses(t: Tx, t': Tx) {
    && t'.recs.Keys == t.recs.Keys
    && (forall r :: r in t.recs ==> FewerTries(t.recs[r], t'.recs[r]))
    && (forall k :: k in t'.ix.byTx ==> k in t.ix.byTx && t'.ix.byTx[k] == t.ix.byTx[k])
    && (forall k :: k in t'.ix.byStart ==> k in t.ix.byStart && t'.ix.byStart[k] == t.ix.byStart[k])
    && (forall m :: m in t'.ix.startMsgs ==> m in t.ix.startMsgs && t'.ix.startMsgs[m] == t.ix.startMsgs[m])
    && (forall m, r :: Tracks(t, m, r) && r in t'.recs && m in t'.recs[r].tries.sent && Live(t', r) ==> m in t'.ix.startMsgs)
  }

  predicate FewerTries(a: TxRecord, b: TxRecord) {
    b.key == a.key && b.txId == a.txId && b.tries.sent <= a.tries.sent
  }

  lemma LosesKeepsFound(t: Tx, t': Tx)
    requires AttemptsFound(t) && Loses(t, t')
    ensures AttemptsFound(t')
  {
    forall r | Live(t', r) ensures FoundFor(t', r) {
      LosesLive(t, t', r);
      assert FoundFor(t, r) && FewerTries(t.recs[r], t'.recs[r]);
    }
  }

  lemma LosesLive(t: Tx, t': Tx, r: Ref)
    requires Loses(t, t') && Live(t', r)
    ensures Live(t, r)
  {
    assert FewerTries(t.recs[r], t'.recs[r]);
    if t'.recs[r].txId.Some? && Find(t'.ix.byTx, t'.recs[r].txId.value) == Some(r) {
      StillUnder(t, t', t'.recs[r].txId.value, r);
    }
    if m :| Tracks(t', m, r) {
      assert Tracks(t, m, r);
    }
  }

  lemma StillUnder(t: Tx, t': Tx, k: int, r: Ref)
    requires Loses(t, t') && Find(t'.ix.byTx, k) == Some(r)
    ensures Find(t.ix.byTx, k) == Some(r)
  {
  }

  lemma PutLoses(t: Tx, r: Ref, rec: TxRecord)
    requires r in t.recs && FewerTries(t.recs[r], rec)
    ensures Loses(t, Put(t, r, rec))
  {
  }

  lemma CopiesLoses(t: Tx, t': Tx, F: set<Backend>)
    requires OnlyCopies(t, t', F)
    ensures Loses(t, t')
  {
    forall r | r in t.recs ensures FewerTries(t.recs[r], t'.recs[r]) {
      assert OnlyFlags(t.recs[r], t'.recs[r], F);
    }
  }

  lemma CollectLoses(t: Tx, r: Ref)
    requires r in t.recs
    ensures Loses(t, Collect(t, r))
  {
    hide Live;
    CollectShape(t, r);
    CollectTracks(t, r);
    hide Collect;
  }

  /** Only messages of the record itself are forgotten, and only when no attempt is outstanding. */
  lemma CollectTracks(t: Tx, r: Ref)
    requires r in t.recs
    ensures forall m :: m in t.ix.startMsgs && (t.ix.startMsgs[m] != r || t.recs[r].tries.sent != {}) ==> m in Collect(t, r).ix.startMsgs
  {
  }

  lemma DropLoses(t: Tx, b: Backend)
    ensures Loses(t, DropQueue(t, b))
  {
  }

  lemma GiveUpLoses(t: Tx, rs: set<Ref>)
    ensures Loses(t, GiveUpAll(t, rs))
  {
  }

  lemma ForgetLoses(t: Tx, dead: set<Ref>)
    ensures Loses(t, ForgetAll(t, dead))
  {
  }

  lemma ClosedLoses(t: Tx, r: Ref, now: Time)
    requires r in t.recs
    ensures Loses(t, ClosedRecord(t, r, now))
  {
  }

  lemma LearnedLoses(t: Tx, r: Ref, b: Backend, frame: Frame)
    requires r in t.recs
    ensures Loses(t, LearnId(t, r, b, frame))
  {
    hide Loses;
    UpdateLoses(t, LearnId(t, r, b, frame), r);
  }

  lemma UpdateLoses(t: Tx, t': Tx, r: Ref)
    requires r in t.recs && r in t'.recs && t'.recs == t.recs[r := t'.recs[r]] && FewerTries(t.recs[r], t'.recs[r])
    requires t'.ix.byTx == t.ix.byTx && t'.ix.byStart == t.ix.byStart && t'.ix.startMsgs == t.ix.startMsgs
    ensures Loses(t, t')
  {
    hide Live;
  }

  lemma OpenedFound(t: Tx, t': Tx, r: Ref, id: int)
    requires AttemptsFound(t) && Live(t, r) && r in t'.recs && t'.recs == t.recs[r := t'.recs[r]]
    requires t'.recs[r].key == t.recs[r].key && t'.recs[r].tries.sent <= t.recs[r].tries.sent
    requires t'.ix.byTx == t.ix.byTx[id := r] && t'.ix.byStart == t.ix.byStart && t'.ix.startMsgs == t.ix.startMsgs
    ensures AttemptsFound(t')
  {
    forall x | Live(t', x) ensures FoundFor(t', x) {
      if x != r {
        UnopenedLive(t, t', r, id, x);
      }
      assert FoundFor(t, x);
    }
  }

  lemma UnopenedLive(t: Tx, t': Tx, r: Ref, id: int, x: Ref)
    requires Live(t', x) && x != r && r in t'.recs && t'.recs == t.recs[r := t'.recs[r]]
    requires t'.ix.byTx == t.ix.byTx[id := r] && t'.ix.byStart == t.ix.byStart && t'.ix.startMsgs == t.ix.startMsgs
    ensures Live(t, x)
  {
    if m :| Tracks(t', m, x) {
      assert Tracks(t, m, x);
    }
  }

  /** One more attempt, under a message the table does not track yet. */
  lemma BeganFound(cfg: Config, t: Tx, known: Option<Ref>, key: StartKey, msg: MsgId, now: Time)
    requires WF(t) && AttemptsFound(t) && (known.Some? ==> Find(t.ix.byStart, key) == known) && msg !in t.ix.startMsgs
    ensures AttemptsFound(Attempt(cfg, t, known, key, msg, now).0)
  {
    hide IndexesOk, QueuesOk, AttemptsFound, FoundFor, Live, Attempt;
    var (t', r) := Attempt(cfg, t, known, key, msg, now);
    if known.Some? {
      KnownStart(t, key);
    }
    forall x | x in t'.recs ensures FoundFor(t', x) {
      BeganFoundFor(cfg, t, known, key, msg, now, x);
    }
    FoundAll(t');
  }

  lemma FoundAll(t: Tx)
    requires forall r :: r in t.recs ==> FoundFor(t, r)
    ensures AttemptsFound(t)
  {
  }

  lemma FoundOne(t: Tx, r: Ref)
    requires AttemptsFound(t) && r in t.recs
    ensures FoundFor(t, r)
  {
  }

  lemma BeganFoundFor(cfg: Config, t: Tx, known: Option<Ref>, key: StartKey, msg: MsgId, now: Time, x: Ref)
    requires WF(t) && AttemptsFound(t) && (known.Some? ==> Find(t.ix.byStart, key) == known) && msg !in t.ix.startMsgs
    requires known.Some? ==> known.value in t.recs && t.recs[known.value].key == key
    requires x in Attempt(cfg, t, known, key, msg, now).0.recs
    ensures FoundFor(Attempt(cfg, t, known, key, msg, now).0, x)
  {
    hide WF, AttemptsFound;
    var (t', r) := Attempt(cfg, t, known, key, msg, now);
    if x in t.recs {
      FoundOne(t, x);
    }
    if m :| x != r && Tracks(t', m, x) {
      assert Tracks(t, m, x);
    }
    if known.None? && x in t.recs {
      FoundOk(t, x);
    }
  }

  /** The retry would wait for a copy whose answer the table would not recognise. */
  predicate ParksUntracked(cfg: Config, t: Tx, e: Event) {
    e.input.ChargerFrame? && IsStart(e.input.frame) &&
    var p := ForgetAll(t, Expired(cfg, t, e.now));
    var c := StartCaseOf(cfg, p, e.input.leader, e.input.frame.payload.start, e.now);
    c.Copied? && !Tracks(p, Rec(p, c.ref).flags.copyMsgs[e.input.leader], c.ref)
  }

  predicate FreshStart(t: Tx, e: Event) {
    e.input.ChargerFrame? && IsStart(e.input.frame) ==> e.input.frame.id !in t.ix.startMsgs
  }

  lemma ParkedFound(t: Tx, r: Ref, leader: Backend, msg: MsgId, now: Time)
    requires AttemptsFound(t) && r in t.recs && leader in t.recs[r].flags.copyMsgs && Tracks(t, t.recs[r].flags.copyMsgs[leader], r)
    ensures AttemptsFound(Park(AwaitCopy(t, r, leader, now), r, msg))
  {
    hide AttemptsFound;
    var t' := Park(AwaitCopy(t, r, leader, now), r, msg);
    ParkIsPut(t, r, leader, msg, now);
    forall x | x in t'.recs ensures FoundFor(t', x) {
      FoundOne(t, x);
      if m :| Tracks(t', m, x) {
        assert Tracks(t, m, x);
      }
      forall m | Tracks(t, m, x) ensures Tracks(t', m, x) {}
    }
    FoundAll(t');
  }

  lemma MoveFound(cfg: Config, e: Event, t0: Tx, t: Tx, m: Move, t': Tx)
    requires WF(t) && Moves(cfg, e, t0, t, m, t') && AttemptsFound(t) && FreshStart(t0, e) && !ParksUntracked(cfg, t0, e)
    ensures AttemptsFound(t')
  {
    hide WF, AttemptsFound, Loses, Moves, ParksUntracked;
    if QueueMove(m) {
      QueueMoveCopies(cfg, e, t0, t, m, t');
      CopiesLoses(t, t', {m.f});
      LosesKeepsFound(t, t');
    } else if m.Began? || m.ParksOnCopy? || m.OpenedByCopy? || m.OpenedByAnswer? {
      SpecialMoveFound(cfg, e, t0, t, m, t');
    } else {
      OtherMoveLoses(cfg, e, t0, t, m, t');
      LosesKeepsFound(t, t');
    }
  }

  lemma OtherMoveLoses(cfg: Config, e: Event, t0: Tx, t: Tx, m: Move, t': Tx)
    requires WF(t) && Moves(cfg, e, t0, t, m, t') && !QueueMove(m)
    requires !(m.Began? || m.ParksOnCopy? || m.OpenedByCopy? || m.OpenedByAnswer?)
    ensures Loses(t, t')
  {
    hide WF, Loses, GiveUpAll, Waiting, DropQueue, Collect, ForgetAll, HeadStep, LearnId, ClosedRecord;
    match m
    case Logs(copied) => LogLoses(t, copied);
    case DropsQueue(b) => DropLoses(t, b);
    case Parks(r, msg) => PutLoses(t, r, Parked(t.recs[r], msg));
    case Fails(r, msg) =>
      TrackedHeld(t, msg);
      PutLoses(t, r, t'.recs[r]);
    case AnsweredAgain(r, msg) => PutLoses(t, r, WithoutAttempt(t.recs[r], msg));
    case GivesUp => GiveUpLoses(t, Waiting(t));
    case Collected(r) => CollectLoses(t, r);
    case Learned(r, b, frame) =>
      TrackedHeld(t, IdOf(frame));
      LearnedLoses(t, r, b, frame);
    case Marks(r, leader) => PutLoses(t, r, t'.recs[r]);
    case Closes(r) => ClosedLoses(t, r, e.now);
    case Forgets(dead) => ForgetLoses(t, dead);
  }

  lemma LogLoses(t: Tx, copied: seq<Copy>)
    ensures Loses(t, t.(copied := copied))
  {
  }

  lemma SpecialMoveFound(cfg: Config, e: Event, t0: Tx, t: Tx, m: Move, t': Tx)
    requires WF(t) && Moves(cfg, e, t0, t, m, t') && AttemptsFound(t) && FreshStart(t0, e) && !ParksUntracked(cfg, t0, e)
    requires m.Began? || m.ParksOnCopy? || m.OpenedByCopy? || m.OpenedByAnswer?
    ensures AttemptsFound(t')
  {
    hide WF, AttemptsFound, Attempt, Choose, ForgetAll, Expired, FoundFor, StartCaseOf;
    match m
    case Began(known, key, msg) =>
      BeganFound(cfg, t, known, key, msg, e.now);
    case ParksOnCopy(r, leader, msg) =>
      ParkedFound(t, r, leader, msg, e.now);
    case OpenedByCopy(r, leader) =>
      OpenedFound(t, t', r, Choose(t, t.recs[r].backendIds[leader]));
    case OpenedByAnswer(r, leader, frame) =>
      assert Tracks(t, frame.id, r);
      AnswerOpensAs(t, r, leader, frame, e.now);
      OpenedFound(t, t', r, Choose(t, frame.conf.tx.value));
  }

  lemma AnswerOpensAs(t: Tx, r: Ref, leader: Backend, frame: Frame, now: Time)
    requires r in t.recs && frame.Result? && frame.conf.tx.Some?
    ensures var t' := AnswerOpens(t, r, leader, frame, now);
      && r in t'.recs && t'.recs == t.recs[r := t'.recs[r]] && t'.recs[r].key == t.recs[r].key && t'.recs[r].tries.sent <= t.recs[r].tries.sent
      && t'.ix.byTx == t.ix.byTx[Choose(t, frame.conf.tx.value) := r] && t'.ix.byStart == t.ix.byStart && t'.ix.startMsgs == t.ix.startMsgs
  {
    hide Choose;
    OpenedThenAnswered(t, r, leader, frame, now);
  }

  /** A step keeps every outstanding attempt found exactly unless a retry waits for a copy that is no longer tracked. */
  lemma StepFoundExactly(cfg: Config, t: Table, e: Event)
    requires WF(t.tx) && AttemptsFound(t.tx) && ProperEvent(e) && FreshStart(t.tx, e)
    ensures AttemptsFound(Step(cfg, t, e).0.tx) <==> !ParksUntracked(cfg, t.tx, e)
  {
    hide WF, AttemptsFound, Moves, Step, ParksUntracked, FreshStart;
    if ParksUntracked(cfg, t.tx, e) {
      UntrackedLost(cfg, t, e);
    } else {
      ghost var inv := (x: Tx) => AttemptsFound(x);
      assert Survives(cfg, e, t.tx, inv) by {
        forall x, m, x' | WF(x) && inv(x) && Moves(cfg, e, t.tx, x, m, x') ensures inv(x') {
          MoveFound(cfg, e, t.tx, x, m, x');
        }
      }
      StepByMoves(cfg, t, e, inv);
    }
  }

  lemma UntrackedLost(cfg: Config, t: Table, e: Event)
    requires WF(t.tx) && ParksUntracked(cfg, t.tx, e)
    ensures !AttemptsFound(Step(cfg, t, e).0.tx)
  {
    hide WF, ForgetAll, Expired, Lapsed, ReleaseAll;
    var p := Prune(cfg, t, e.now, e.wall).tx;
    ForgetKeeps(t.tx, Expired(cfg, t.tx, e.now));
    var leader, key := e.input.leader, e.input.frame.payload.start;
    var c := StartCaseOf(cfg, p, leader, key, e.now);
    FoundByStart(cfg, p, leader, key, e.now);
    StartCaseOk(cfg, p, leader, key, e.now);
    ParkIsPut(p, c.ref, leader, e.input.frame.id, e.now);
    var t' := Step(cfg, t, e).0.tx;
    var msg := p.recs[c.ref].flags.copyMsgs[leader];
    assert Live(t', c.ref) && msg in t'.recs[c.ref].tries.sent && !Tracks(t', msg, c.ref);
    assert !FoundFor(t', c.ref);
  }

  // ------------------------------------------------------------------
  // Whole runs
  // ------------------------------------------------------------------

  predicate SentAsStart(e: Event, msg: MsgId) {
    e.input.ChargerFrame? && IsStart(e.input.frame) && e.input.frame.id == msg
  }

  /** The charger never uses the message id of a start for another start (section 4.1.4 of OCPP-J 1.6). */
  ghost predicate UniqueStarts(run: seq<Event>) {
    forall i, j, msg :: 0 <= i < j < |run| && SentAsStart(run[i], msg) ==> !SentAsStart(run[j], msg)
  }

  lemma StartIsFresh(cfg: Config, run: seq<Event>, i: nat)
    requires UniqueStarts(run) && i < |run|
    ensures FreshStart(After(cfg, run[..i]).tx, run[i])
  {
    hide After;
    var t := After(cfg, run[..i]);
    RunSourced(cfg, run[..i]);
    if run[i].input.ChargerFrame? && IsStart(run[i].input.frame) {
      var msg := run[i].input.frame.id;
      assert SentAsStart(run[i], msg);
      forall j, key | 0 <= j < i ensures !SendsStart(run[..i][j].input, msg, key) {
        assert !SentAsStart(run[j], msg);
      }
    }
  }

  /** In the first `n` events no retry waits for a copy the table no longer tracks. */
  ghost predicate NeverParksUntracked(cfg: Config, run: seq<Event>, n: nat)
    requires n <= |run|
  {
    forall i :: 0 <= i < n ==> !ParksUntracked(cfg, After(cfg, run[..i]).tx, run[i])
  }

  /** MAIN RESULT. Throughout a run, every outstanding attempt of a record the table can find is found by its message,
      if and only if no retry is made to wait for an observer copy that is no longer tracked. */
  lemma AttemptsFoundExactly(cfg: Config, run: seq<Event>)
    requires ProperRun(run) && UniqueStarts(run)
    ensures (forall i :: 0 <= i <= |run| ==> AttemptsFound(After(cfg, run[..i]).tx)) <==> NeverParksUntracked(cfg, run, |run|)
  {
    hide After, AttemptsFound, ParksUntracked, Step;
    if NeverParksUntracked(cfg, run, |run|) {
      forall i | 0 <= i <= |run| ensures AttemptsFound(After(cfg, run[..i]).tx) {
        FoundUpTo(cfg, run, i);
      }
    }
    if forall i :: 0 <= i <= |run| ==> AttemptsFound(After(cfg, run[..i]).tx) {
      forall i | 0 <= i < |run| ensures !ParksUntracked(cfg, After(cfg, run[..i]).tx, run[i]) {
        RunKeeps(cfg, run[..i]);
        StartIsFresh(cfg, run, i);
        StepFoundExactly(cfg, After(cfg, run[..i]), run[i]);
        AfterOneMore(cfg, run, i);
        assert AttemptsFound(After(cfg, run[..i + 1]).tx);
      }
    }
  }

  lemma AfterOneMore(cfg: Config, run: seq<Event>, i: nat)
    requires i < |run|
    ensures After(cfg, run[..i + 1]) == Step(cfg, After(cfg, run[..i]), run[i]).0
  {
    assert run[..i + 1][..i] == run[..i];
  }

  lemma {:induction false} FoundUpTo(cfg: Config, run: seq<Event>, n: nat)
    requires ProperRun(run) && UniqueStarts(run) && n <= |run| && NeverParksUntracked(cfg, run, n)
    ensures AttemptsFound(After(cfg, run[..n]).tx)
  {
    hide After, AttemptsFound, ParksUntracked, Step;
    if n == 0 {
      NothingLost(cfg);
    } else {
      FoundUpTo(cfg, run, n - 1);
      RunKeeps(cfg, run[..n - 1]);
      StartIsFresh(cfg, run, n - 1);
      StepFoundExactly(cfg, After(cfg, run[..n - 1]), run[n - 1]);
      AfterOneMore(cfg, run, n - 1);
    }
  }

  lemma NothingLost(cfg: Config)
    ensures AttemptsFound(After(cfg, []).tx)
  {
  }

  // ------------------------------------------------------------------
  // Every retry is answered once, or let go
  // ------------------------------------------------------------------

  /** The retries that wait on record `r`. */
  function WaitingOn(t: Tx, r: Ref): seq<MsgId> {
    Rec(t, r).tries.aliases
  }

  /** The retry an event adds to those that wait on `r`. */
  function ParkedBy(cfg: Config, t: Tx, e: Event, r: Ref): seq<MsgId> {
    if e.input.ChargerFrame? && IsStart(e.input.frame) &&
       StartCaseOf(cfg, ForgetAll(t, Expired(cfg, t, e.now)), e.input.leader, e.input.frame.payload.start, e.now) in {Copied(r), Busy(r)}
    then [e.input.frame.id] else []
  }

  /** `msg` is the last attempt at `r` that was outstanding. */
  predicate IsLastAttempt(t: Tx, msg: MsgId, r: Ref) {
    IsOwed(t, msg) && t.ix.startMsgs[msg] == r && Rec(t, r).tries.sent - {msg} == {}
  }

  /** The leader numbers the pending record `r`. */
  predicate AnswersStart(t: Tx, input: Input, r: Ref) {
    input.LeaderFrameIn? && input.frame.Result? && input.frame.conf.tx.Some? &&
    IsOwed(t, input.frame.id) && t.ix.startMsgs[input.frame.id] == r && Rec(t, r).state.Pending?
  }

  /** The last attempt at `r` fails: the leader or the broker refuses it. */
  predicate RefusesStart(t: Tx, input: Input, r: Ref) {
    || (input.LeaderFrameIn? && input.frame.Error? && IsLastAttempt(t, input.frame.id, r) && Rec(t, r).state.Pending?)
    || (input.BrokerRefused? && IsLastAttempt(t, input.msg, r))
  }

  /** The retries are dropped without an answer: the leader changed, or it answered the last attempt without a usable id. */
  predicate DropsRetries(t: Tx, input: Input, r: Ref) {
    || (input.Promotion? && r in Waiting(t))
    || (input.LeaderFrameIn? && input.frame.Result? && input.frame.conf.tx.None? && IsLastAttempt(t, input.frame.id, r) && Rec(t, r).state.Pending?)
  }

  predicate EndsWait(t: Tx, input: Input, r: Ref) {
    AnswersStart(t, input, r) || RefusesStart(t, input, r) || DropsRetries(t, input, r)
  }

  lemma QuietRetries(t: Tx, t': Tx, r: Ref)
    requires AllSameTries(t, t')
    ensures WaitingOn(t', r) == WaitingOn(t, r)
  {
  }

  lemma StartRetries(cfg: Config, t: Table, frame: Frame, leader: Backend, followers: seq<Follower>, now: Time, r: Ref)
    requires WF(t.tx) && IsStart(frame)
    ensures WaitingOn(ChargerStart(cfg, t, frame, leader, followers, now).0.tx, r) ==
            WaitingOn(t.tx, r) + (if StartCaseOf(cfg, t.tx, leader, frame.payload.start, now) in {Copied(r), Busy(r)} then [frame.id] else [])
  {
    hide WF, CopyStartToAll, Attempt, Choose, StartCaseOf;
    var key := frame.payload.start;
    StartCaseOk(cfg, t.tx, leader, key, now);
    match StartCaseOf(cfg, t.tx, leader, key, now)
    case Again(a) =>
    case Numbered(n) =>
    case Copied(c) => ParkIsPut(t.tx, c, leader, frame.id, now);
    case Busy(b) =>
    case Forwarded(known) =>
      ForwardedRetries(cfg, t, known, frame, leader, followers, now, r);
  }

  lemma ForwardedRetries(cfg: Config, t: Table, known: Option<Ref>, frame: Frame, leader: Backend, followers: seq<Follower>, now: Time, r: Ref)
    requires WF(t.tx) && IsStart(frame)
    requires known.Some? ==> IsHeld(t.tx, known.value) && t.tx.recs[known.value].key == frame.payload.start
    requires known.None? && cfg.dedupe ==> frame.payload.start !in t.tx.ix.byStart
    ensures var (tx1, x) := Attempt(cfg, t.tx, known, frame.payload.start, frame.id, now);
      WaitingOn(CopyStartToAll(cfg, Table(tx1, StartFrame(t.sp, leader, frame, true, now).0), x, known.None?, frame, followers, now).0.tx, r) == WaitingOn(t.tx, r)
  {
    hide WF, CopyStartToAll;
    AttemptKeeps(cfg, t.tx, known, frame.payload.start, frame.id, now);
    var (tx1, x) := Attempt(cfg, t.tx, known, frame.payload.start, frame.id, now);
    var t1 := Table(tx1, StartFrame(t.sp, leader, frame, true, now).0);
    CopyStartToAllServes(cfg, t1, x, known.None?, frame, followers, now);
    var t2 := CopyStartToAll(cfg, t1, x, known.None?, frame, followers, now).0;
    CopiesSameTries(t1.tx, t2.tx, KeysOf(followers));
    QuietRetries(t1.tx, t2.tx, r);
    if known.None? && t.tx.next in t.tx.recs {
      FoundOk(t.tx, t.tx.next);
    }
  }

  lemma CallRetries(cfg: Config, t: Table, frame: Frame, leader: Backend, followers: seq<Follower>, now: Time, r: Ref)
    requires WF(t.tx) && frame.Call? && !IsStart(frame)
    ensures WaitingOn(ChargerCall(cfg, t, frame, leader, followers, now).0.tx, r) == WaitingOn(t.tx, r)
  {
    hide WF, CopyToAll, Quoted;
    if QuotesTx(frame) {
      var found := Find(t.tx.ix.byTx, frame.payload.tx.value);
      QuotedKeeps(t.tx, frame, leader, found, now);
      QuotedRetries(t.tx, frame, leader, found, now, r);
      QuotedIs(cfg, t, frame, leader, followers, now);
      CopiesRetries(cfg, t.(tx := Quoted(t.tx, frame, leader, found, now)), IdCopy(found, frame), followers, now, r);
    } else {
      CopiesRetries(cfg, t, PlainCopy(frame), followers, now, r);
    }
  }

  lemma CopiesRetries(cfg: Config, t: Table, item: Queued, followers: seq<Follower>, now: Time, r: Ref)
    requires WF(t.tx) && ItemOk(t.tx, item)
    ensures WaitingOn(CopyToAll(cfg, t, item, followers, now).0.tx, r) == WaitingOn(t.tx, r)
  {
    hide WF, CopyToAll, ItemOk;
    CopyToAllServes(cfg, t, item, followers, now);
    CopiesSameTries(t.tx, CopyToAll(cfg, t, item, followers, now).0.tx, KeysOf(followers));
    QuietRetries(t.tx, CopyToAll(cfg, t, item, followers, now).0.tx, r);
  }

  lemma QuotedRetries(t: Tx, frame: Frame, leader: Backend, found: Option<Ref>, now: Time, r: Ref)
    requires WF(t) && QuotesTx(frame) && found == Find(t.ix.byTx, frame.payload.tx.value)
    ensures WaitingOn(Quoted(t, frame, leader, found, now), r) == WaitingOn(t, r)
  {
    hide WF, Quoted, Collect;
    if found.Some? {
      HeldUnderWF(t, frame.payload.tx.value);
      QuotedIsMarked(t, frame, leader, found.value, now);
      var t1 := Marked(t, leader, found.value, now);
      CollectShape(ClosedRecord(t1, found.value, now), found.value);
    } else {
      QuotedNobody(t, frame, leader, now);
    }
  }

  lemma QuotedNobody(t: Tx, frame: Frame, leader: Backend, now: Time)
    ensures Quoted(t, frame, leader, None, now) == t
  {
  }

  lemma LearnRetries(t: Tx, x: Ref, b: Backend, frame: Frame, r: Ref)
    requires x in t.recs
    ensures WaitingOn(Learn(t, x, b, frame), r) == WaitingOn(t, r)
  {
    hide Collect;
    CollectShape(LearnId(t, x, b, frame), x);
  }

  lemma FailedRetries(t: Tx, x: Ref, msg: MsgId, detail: string, r: Ref)
    requires x in t.recs
    ensures WaitingOn(AttemptFailed(t, x, msg, detail).0, r) == if r == x && t.recs[x].tries.sent - {msg} == {} then [] else WaitingOn(t, r)
  {
    hide Collect;
    CollectShape(DropAttempt(t, x, msg), x);
  }

  /** The plan answers the attempt `msg` and then the retries `waiting`, each once and in order, with record `r`'s one answer. */
  predicate IsAnswered(t: Tx, msg: MsgId, waiting: seq<MsgId>, plan: LeaderPlan, r: Ref) {
    r in t.recs && t.recs[r].conf.Some? &&
    plan == LeaderPlan(Some(Result(msg, t.recs[r].conf.value)), ResultsFor(waiting, t.recs[r].conf.value))
  }

  lemma AnsweredRetries(t: Tx, x: Ref, leader: Backend, frame: Frame, now: Time, r: Ref)
    requires x in t.recs && frame.Result? && frame.conf.tx.Some?
    ensures var (t', plan) := LeaderStarted(t, x, leader, frame, now);
      && WaitingOn(t', r) == (if r == x then [] else WaitingOn(t, r))
      && IsAnswered(t', frame.id, WaitingOn(t, x), plan, x)
  {
    hide Collect, Choose;
    OpenedThenAnswered(t, x, leader, frame, now);
    CollectShape(AnswerOpens(t, x, leader, frame, now), x);
  }

  /** What one frame from the leader does to waiting retries. */
  lemma LeaderRetries(t: Tx, leader: Backend, frame: Frame, now: Time, r: Ref)
    requires WF(t) && NobodyWaitsForNothing(t) && (frame.Result? || frame.Error?)
    ensures var input := LeaderFrameIn(leader, frame);
      var (t', plan) := LeaderAnswer(t, leader, frame, now);
      && WaitingOn(t', r) == (if EndsWait(t, input, r) then [] else WaitingOn(t, r))
      && (AnswersStart(t, input, r) ==> IsAnswered(t', frame.id, WaitingOn(t, r), plan, r))
      && (RefusesStart(t, input, r) ==> plan == LeaderPlan(Some(frame), ErrorsFor(WaitingOn(t, r), frame.detail)))
      && (DropsRetries(t, input, r) ==> plan == LeaderPlan(Some(frame), []))
  {
    hide WF, LeaderStarted, AttemptFailed, Learn, Collect, NobodyWaitsForNothing;
    if IsOwed(t, frame.id) {
      OwedRetries(t, leader, frame, now, r);
    } else if AnswersCopy(t, leader, frame.id) {
      TrackedHeld(t, frame.id);
      LearnRetries(t, t.ix.startMsgs[frame.id], leader, frame, r);
    }
  }

  lemma OwedRetries(t: Tx, leader: Backend, frame: Frame, now: Time, r: Ref)
    requires WF(t) && NobodyWaitsForNothing(t) && (frame.Result? || frame.Error?) && IsOwed(t, frame.id)
    ensures var input := LeaderFrameIn(leader, frame);
      var (t', plan) := OwedAnswer(t, t.ix.startMsgs[frame.id], leader, frame, now);
      && WaitingOn(t', r) == (if EndsWait(t, input, r) then [] else WaitingOn(t, r))
      && (AnswersStart(t, input, r) ==> IsAnswered(t', frame.id, WaitingOn(t, r), plan, r))
      && (RefusesStart(t, input, r) ==> plan == LeaderPlan(Some(frame), ErrorsFor(WaitingOn(t, r), frame.detail)))
      && (DropsRetries(t, input, r) ==> plan == LeaderPlan(Some(frame), []))
  {
    hide WF, Collect, NobodyWaitsForNothing;
    var x := t.ix.startMsgs[frame.id];
    TrackedHeld(t, frame.id);
    TriesOf(t, x);
    if !t.recs[x].state.Pending? {
      CollectShape(Put(t, x, WithoutAttempt(t.recs[x], frame.id)), x);
    } else if frame.Result? && frame.conf.tx.Some? {
      hide LeaderStarted;
      AnsweredRetries(t, x, leader, frame, now, r);
    } else {
      hide AttemptFailed;
      FailedRetries(t, x, frame.id, if frame.Error? then frame.detail else NO_ID, r);
      FailedFrames(t, x, frame.id, if frame.Error? then frame.detail else NO_ID);
    }
  }

  lemma FailedFrames(t: Tx, x: Ref, msg: MsgId, detail: string)
    requires x in t.recs
    ensures AttemptFailed(t, x, msg, detail).1 == if t.recs[x].tries.sent - {msg} == {} then ErrorsFor(WaitingOn(t, x), detail) else []
  {
  }

  /** The error that retries hear when the last attempt is refused. */
  function RefusalDetail(input: Input): string {
    if input.LeaderFrameIn? && input.frame.Error? then input.frame.detail else UNAVAILABLE
  }

  /** The frames for the charger when the wait on `r` ends in one of the three ways. */
  predicate EndsAs(t: Tx, t': Tx, input: Input, r: Ref, toCharger: seq<Frame>) {
    && (AnswersStart(t, input, r) ==> r in t'.recs && t'.recs[r].conf.Some? && toCharger == ResultsFor([IdOf(input.frame)] + WaitingOn(t, r), t'.recs[r].conf.value))
    && (RefusesStart(t, input, r) ==> toCharger == (if input.LeaderFrameIn? then [input.frame] else []) + ErrorsFor(WaitingOn(t, r), RefusalDetail(input)))
    && (DropsRetries(t, input, r) ==> toCharger == if input.LeaderFrameIn? then [input.frame] else [])
  }

  lemma ChargerRetries(cfg: Config, t: Table, e: Event, r: Ref)
    requires WF(t.tx) && e.input.ChargerFrame?
    ensures WaitingOn(Step(cfg, t, e).0.tx, r) == WaitingOn(t.tx, r) + ParkedBy(cfg, t.tx, e, r)
  {
    hide WF, ForgetAll, Expired, Lapsed, ReleaseAll, StartCaseOf, ChargerStart, ChargerCall;
    var ChargerFrame(frame, leader, followers) := e.input;
    ForgetKeeps(t.tx, Expired(cfg, t.tx, e.now));
    ForgetShape(t.tx, Expired(cfg, t.tx, e.now));
    var t1 := Prune(cfg, t, e.now, e.wall);
    if IsStart(frame) {
      StartRetries(cfg, t1, frame, leader, followers, e.now, r);
    } else if frame.Call? {
      CallRetries(cfg, t1, frame, leader, followers, e.now, r);
    }
  }

  /** What one event does to the retries waiting on `r`: at most one joins them; if the wait ends, all of them are
      answered together, in order, or all of them are dropped. */
  lemma StepRetries(cfg: Config, t: Table, e: Event, r: Ref)
    requires WF(t.tx) && NobodyWaitsForNothing(t.tx) && ProperEvent(e)
    ensures var (t', out) := Step(cfg, t, e);
      && WaitingOn(t'.tx, r) == (if EndsWait(t.tx, e.input, r) then [] else WaitingOn(t.tx, r)) + ParkedBy(cfg, t.tx, e, r)
      && EndsAs(t.tx, t'.tx, e.input, r, out.toCharger)
  {
    hide WF, NobodyWaitsForNothing, ForgetAll, Expired, Lapsed, ReleaseAll, StartCaseOf, ChargerStart, ChargerCall, LeaderAnswer, LeaderCall, FromFollower,
      ExpireHolds, AttemptFailed, NoteCommand, Waiting, GiveUpAll, DropQueue;
    match e.input
    case ChargerFrame(frame, leader, followers) =>
      ChargerRetries(cfg, t, e, r);
    case LeaderFrameIn(leader, frame) =>
      if frame.Result? || frame.Error? {
        LeaderRetries(t.tx, leader, frame, e.now, r);
        MoreResults(frame.id, WaitingOn(t.tx, r));
      }
    case FollowerFrame(follower, frame) =>
      FollowerRetries(cfg, t, follower, frame, e.now, r);
    case Promotion(newLeader) =>
      PromotionRetries(t.tx, newLeader, r);
    case HoldTimer(order) =>
      ExpireHoldsServes(cfg, t, order, e.now);
      CopiesSameTries(t.tx, ExpireHolds(cfg, t, order, e.now).0.tx, (set b | b in order));
      QuietRetries(t.tx, ExpireHolds(cfg, t, order, e.now).0.tx, r);
    case BrokerRefused(msg) =>
      RefusedRetries(t.tx, msg, r);
    case RestCommand(action, payload) =>
    case IdleCheck =>
      ForgetShape(t.tx, Expired(cfg, t.tx, e.now));
  }

  lemma MoreResults(msg: MsgId, waiting: seq<MsgId>)
    ensures forall conf :: ResultsFor([msg] + waiting, conf) == [Result(msg, conf)] + ResultsFor(waiting, conf)
  {
    assert ([msg] + waiting)[1..] == waiting;
  }

  lemma FollowerRetries(cfg: Config, t: Table, follower: Backend, frame: Frame, now: Time, r: Ref)
    requires WF(t.tx)
    ensures WaitingOn(FromFollower(cfg, t, follower, frame, now).0.tx, r) == WaitingOn(t.tx, r)
  {
    hide WF, IsHeld, Learn, Drain;
    if frame.Result? || frame.Error? {
      var t1 := t.(tx := t.tx.(copied := Without(t.tx.copied, Copy(follower, frame.id))));
      CopiedKeeps(t.tx, t1.tx.copied);
      if frame.id in t1.tx.ix.startMsgs {
        TrackedHeld(t1.tx, frame.id);
        var x := t1.tx.ix.startMsgs[frame.id];
        LearnKeeps(t1.tx, x, follower, frame);
        LearnRetries(t1.tx, x, follower, frame, r);
        var t2 := t1.(tx := Learn(t1.tx, x, follower, frame));
        DrainServes(cfg, t2, follower, now);
        CopiesSameTries(t2.tx, Drain(cfg, t2, follower, now).0.tx, {follower});
        QuietRetries(t2.tx, Drain(cfg, t2, follower, now).0.tx, r);
      }
    }
  }

  lemma PromotionRetries(t: Tx, newLeader: Option<Backend>, r: Ref)
    requires WF(t)
    ensures WaitingOn(LeaderChanged(t, newLeader), r) == if r in Waiting(t) then [] else WaitingOn(t, r)
  {
    hide IndexesOk, QueuesOk, Waiting;
    GivenUpRetries(t, Waiting(t), r);
    var t1 := GiveUpAll(t, Waiting(t));
    if newLeader.Some? {
      DropSameTries(t1, newLeader.value);
      QuietRetries(t1, DropQueue(t1, newLeader.value), r);
    }
  }

  lemma GivenUpRetries(t: Tx, rs: set<Ref>, r: Ref)
    ensures WaitingOn(GiveUpAll(t, rs), r) == if r in rs then [] else WaitingOn(t, r)
  {
  }

  lemma RefusedRetries(t: Tx, msg: MsgId, r: Ref)
    requires WF(t)
    ensures var (t', frames) := StartFailed(t, msg);
      && WaitingOn(t', r) == (if RefusesStart(t, BrokerRefused(msg), r) then [] else WaitingOn(t, r))
      && (RefusesStart(t, BrokerRefused(msg), r) ==> frames == ErrorsFor(WaitingOn(t, r), UNAVAILABLE))
  {
    hide WF, AttemptFailed;
    if IsOwed(t, msg) {
      TrackedHeld(t, msg);
      FailedRetries(t, t.ix.startMsgs[msg], msg, UNAVAILABLE, r);
      FailedFrames(t, t.ix.startMsgs[msg], msg, UNAVAILABLE);
    }
  }

  /** All retries that were made to wait on `r` over a run, in order. */
  ghost function ParkedOver(cfg: Config, run: seq<Event>, r: Ref): seq<MsgId> {
    if run == [] then []
    else ParkedOver(cfg, run[..|run| - 1], r) + ParkedBy(cfg, After(cfg, run[..|run| - 1]).tx, run[|run| - 1], r)
  }

  /** All retries whose wait on `r` ended over a run (answered, refused or dropped), in order. */
  ghost function EndedOver(cfg: Config, run: seq<Event>, r: Ref): seq<MsgId> {
    if run == [] then []
    else
      var t := After(cfg, run[..|run| - 1]).tx;
      EndedOver(cfg, run[..|run| - 1], r) + (if EndsWait(t, run[|run| - 1].input, r) then WaitingOn(t, r) else [])
  }

  /** MAIN RESULT. Every retry made to wait on a record either still waits, or its wait ended exactly once: retries end
      their wait in the order in which they began it. (How a wait ends is `StepRetries`.) */
  lemma {:induction false} RetriesAreConserved(cfg: Config, run: seq<Event>, r: Ref)
    requires ProperRun(run)
    ensures ParkedOver(cfg, run, r) == EndedOver(cfg, run, r) + WaitingOn(After(cfg, run).tx, r)
  {
    hide WF, Step, NobodyWaitsForNothing, EndsWait, ParkedBy;
    if run != [] {
      var before, e := run[..|run| - 1], run[|run| - 1];
      RetriesAreConserved(cfg, before, r);
      RunKeeps(cfg, before);
      RunWaits(cfg, before);
      assert ProperEvent(run[|run| - 1]);
      StepRetries(cfg, After(cfg, before), e, r);
      // a retry never joins in the very event that ends the wait
      JoinsOrEnds(cfg, After(cfg, before).tx, e, r);
    }
  }

  lemma JoinsOrEnds(cfg: Config, t: Tx, e: Event, r: Ref)
    ensures ParkedBy(cfg, t, e, r) == [] || !EndsWait(t, e.input, r)
  {
  }

  /** MAIN RESULT. In a run in which no retry waits for an untracked copy, no retry is stranded: a record with waiting
      retries is pending and has an attempt outstanding whose answer the table will recognise, and the leader's answer to it,
      whatever number it gives, is repeated to every one of them, in order. */
  lemma NoRetryIsStranded(cfg: Config, run: seq<Event>, r: Ref, leader: Backend, conf: Conf, now: Time, wall: Time) returns (msg: MsgId)
    requires ProperRun(run) && UniqueStarts(run) && NeverParksUntracked(cfg, run, |run|)
    requires Live(After(cfg, run).tx, r) && WaitingOn(After(cfg, run).tx, r) != [] && conf.tx.Some?
    ensures var t := After(cfg, run);
      && Rec(t.tx, r).state.Pending? && IsOwed(t.tx, msg) && t.tx.ix.startMsgs[msg] == r
      && var (t', out) := Step(cfg, t, Event(LeaderFrameIn(leader, Result(msg, conf)), now, wall));
         && r in t'.tx.recs && t'.tx.recs[r].conf.Some? && WaitingOn(t'.tx, r) == []
         && out.toCharger == ResultsFor([msg] + WaitingOn(t.tx, r), t'.tx.recs[r].conf.value)
  {
    hide WF, Step, After, AttemptsFound, NobodyWaitsForNothing, ParksUntracked;
    var t := After(cfg, run);
    assert run[..|run|] == run;
    RunKeeps(cfg, run);
    RunWaits(cfg, run);
    FoundUpTo(cfg, run, |run|);
    TriesOf(t.tx, r);
    FoundOne(t.tx, r);
    msg := Pick(t.tx.recs[r].tries.sent);
    assert Tracks(t.tx, msg, r);
    var e := Event(LeaderFrameIn(leader, Result(msg, conf)), now, wall);
    assert AnswersStart(t.tx, e.input, r);
    StepRetries(cfg, t, e, r);
  }
}
