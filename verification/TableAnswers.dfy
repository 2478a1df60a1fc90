/** The ids the charger hears: pairwise distinct, never changed, and the same in every answer to one start. */
module TableAnswers {
  import opened Ocpp
  import opened TableState
  import opened TableSteps
  import opened TableInvariant
  import opened TableCopies
  import opened TableRuns
  import opened TableMoves

  // ------------------------------------------------------------------
  // Distinct, and never changed
  // ------------------------------------------------------------------

  /** One of the ways in which the table finds a record. */
  datatype Way = ByTx(k: int) | ByBackend(p: BackendTx) | ByStart(key: StartKey) | ByMsg(m: MsgId)

  function Lookup(t: Tx, way: Way): Option<Ref> {
    match way
    case ByTx(k) => Find(t.ix.byTx, k)
    case ByBackend(p) => Find(t.ix.byBackend, p)
    case ByStart(key) => Find(t.ix.byStart, key)
    case ByMsg(m) => Find(t.ix.startMsgs, m)
  }

  lemma FoundIsHeld(t: Tx, way: Way)
    requires WF(t) && Lookup(t, way).Some?
    ensures IsHeld(t, Lookup(t, way).value)
  {
    match way
    case ByTx(k) => HeldUnder(t, k);
    case ByBackend(p) =>
    case ByStart(key) =>
    case ByMsg(m) =>
  }

  /** In every reachable state, two records the table can find in any way never share an id the charger holds. */
  lemma HeldIdsAreDistinct(cfg: Config, run: seq<Event>, a: Way, b: Way)
    requires var t := After(cfg, run).tx; Lookup(t, a).Some? && Lookup(t, b).Some? && Lookup(t, a) != Lookup(t, b)
    ensures var t := After(cfg, run).tx;
      Rec(t, Lookup(t, a).value).txId.Some? ==> Rec(t, Lookup(t, a).value).txId != Rec(t, Lookup(t, b).value).txId
  {
    hide WF, After;
    RunKeeps(cfg, run);
    FoundIsHeld(After(cfg, run).tx, a);
    FoundIsHeld(After(cfg, run).tx, b);
  }

  /** Whatever happens after the first `n` events of a run, a record keeps the id and the answer it had by then. */
  lemma {:induction false} AnswersNeverChange(cfg: Config, run: seq<Event>, n: nat)
    requires n <= |run|
    ensures Grows(After(cfg, run[..n]).tx, After(cfg, run).tx)
  {
    hide WF, Step;
    if n == |run| {
      assert run[..n] == run;
      GrowsSelf(After(cfg, run).tx);
    } else {
      var before := run[..|run| - 1];
      assert before[..n] == run[..n];
      AnswersNeverChange(cfg, before, n);
      RunKeeps(cfg, before);
      StepKeeps(cfg, After(cfg, before), run[|run| - 1]);
      GrowsTransitive(After(cfg, run[..n]).tx, After(cfg, before).tx, After(cfg, run).tx);
    }
  }

  /** The charger sees the leader's own number exactly when it does not hold it yet; otherwise it sees one it does not hold
      and that fits 31 bits, as long as it holds fewer than 2^31 - 1 ids: the one next to the largest in use, by the charger or any
      backend, or the smallest free one when that is too large. */
  lemma InventedIdFits(t: Tx, issued: int)
    ensures Choose(t, issued) !in t.ix.byTx
    ensures Choose(t, issued) == issued <==> issued !in t.ix.byTx
    ensures issued in t.ix.byTx && |t.ix.byTx| < MAX_INT32 ==> Choose(t, issued) <= MAX_INT32
    ensures issued in t.ix.byTx ==> IsInvented(t, Choose(t, issued))
  {
    if issued in t.ix.byTx {
      InventedIs(t, issued);
    }
    hide IsInvented;
    assert |t.ix.byTx.Keys| == |t.ix.byTx|;
  }

  // ------------------------------------------------------------------
  // One answer to one start
  // ------------------------------------------------------------------

  /** Every retry that waits was a retry of the record's own start. */
  ghost predicate RetriesSourced(run: seq<Event>, t: Tx) {
    forall r :: r in t.recs ==> WaitersSourced(run, t.recs[r])
  }

  ghost predicate WaitersSourced(run: seq<Event>, rec: TxRecord) {
    forall i :: 0 <= i < |rec.tries.aliases| ==> Started(run, rec.tries.aliases[i], rec.key)
  }

  /** `b`'s waiting retries are some of `a`'s. */
  predicate FewerWait(a: TxRecord, b: TxRecord) {
    b.key == a.key && (b.tries.aliases == a.tries.aliases || b.tries.aliases == [])
  }

  predicate NoNewWaiters(t: Tx, t': Tx) {
    forall r :: r in t'.recs ==> if r in t.recs then FewerWait(t.recs[r], t'.recs[r]) else t'.recs[r].tries.aliases == []
  }

  lemma NoNewWaitersSourced(run: seq<Event>, t: Tx, t': Tx)
    requires RetriesSourced(run, t) && NoNewWaiters(t, t')
    ensures RetriesSourced(run, t')
  {
    forall r | r in t'.recs ensures WaitersSourced(run, t'.recs[r]) {
      assert r in t.recs ==> WaitersSourced(run, t.recs[r]);
    }
  }

  lemma CopiesNoNewWaiters(t: Tx, t': Tx, F: set<Backend>)
    requires OnlyCopies(t, t', F)
    ensures NoNewWaiters(t, t')
  {
    forall r | r in t'.recs ensures FewerWait(t.recs[r], t'.recs[r]) {
      assert OnlyFlags(t.recs[r], t'.recs[r], F);
    }
  }

  lemma PutNoNewWaiters(t: Tx, r: Ref, rec: TxRecord)
    requires r in t.recs && FewerWait(t.recs[r], rec)
    ensures NoNewWaiters(t, Put(t, r, rec))
  {
  }

  predicate Waits(m: Move) {
    m.Parks? || m.ParksOnCopy?
  }

  lemma MoveNoNewWaiters(cfg: Config, e: Event, t0: Tx, t: Tx, m: Move, t': Tx)
    requires WF(t) && Moves(cfg, e, t0, t, m, t') && !QueueMove(m) && !Waits(m)
    ensures NoNewWaiters(t, t')
  {
    hide WF, GiveUpAll, Waiting, Collect, NoNewWaiters, HeadStep, Popped;
    match m
    case Logs(copied) => SameRecs(t, t');
    case DropsQueue(b) => DroppedWaiters(t, b);
    case Began(known, key, msg) => BeganWaiters(cfg, t, known, key, msg, e.now);
    case Fails(r, msg) =>
      TrackedHeld(t, msg);
      PutNoNewWaiters(t, r, DropAttempt(t, r, msg).recs[r]);
    case AnsweredAgain(r, msg) => PutNoNewWaiters(t, r, WithoutAttempt(t.recs[r], msg));
    case GivesUp => GivenUpWaiters(t, Waiting(t));
    case Collected(r) => CollectedWaiters(t, r);
    case Learned(r, b, frame) =>
      TrackedHeld(t, IdOf(frame));
      LearnedWaiters(t, r, b, frame);
    case OpenedByCopy(r, leader) => OpenedWaiters(t, r, leader, t.recs[r].backendIds[leader], t.recs[r].confs[leader], e.now);
    case OpenedByAnswer(r, leader, frame) => AnsweredWaiters(t, r, leader, frame, e.now);
    case Marks(r, leader) => PutNoNewWaiters(t, r, Marked(t, leader, r, e.now).recs[r]);
    case Closes(r) => ClosedWaiters(t, r, e.now);
    case Forgets(dead) => SameRecs(t, t');
  }

  lemma SameRecs(t: Tx, t': Tx)
    requires t'.recs == t.recs
    ensures NoNewWaiters(t, t')
  {
  }

  lemma DroppedWaiters(t: Tx, b: Backend)
    ensures NoNewWaiters(t, DropQueue(t, b))
  {
  }

  lemma BeganWaiters(cfg: Config, t: Tx, known: Option<Ref>, key: StartKey, msg: MsgId, now: Time)
    requires WF(t) && (known.Some? ==> Find(t.ix.byStart, key) == known)
    ensures NoNewWaiters(t, Attempt(cfg, t, known, key, msg, now).0)
  {
    hide IndexesOk, QueuesOk;
    assert t.next !in t.recs;
    if known.Some? {
      StartHeld(t, key);
    }
  }

  lemma StartHeld(t: Tx, key: StartKey)
    requires WF(t) && key in t.ix.byStart
    ensures t.ix.byStart[key] in t.recs
  {
  }

  lemma GivenUpWaiters(t: Tx, rs: set<Ref>)
    ensures NoNewWaiters(t, GiveUpAll(t, rs))
  {
  }

  lemma CollectedWaiters(t: Tx, r: Ref)
    requires r in t.recs
    ensures NoNewWaiters(t, Collect(t, r))
  {
    CollectShape(t, r);
  }

  lemma LearnedWaiters(t: Tx, r: Ref, b: Backend, frame: Frame)
    requires r in t.recs
    ensures NoNewWaiters(t, LearnId(t, r, b, frame))
  {
  }

  lemma OpenedWaiters(t: Tx, r: Ref, leader: Backend, issued: int, conf: Conf, now: Time)
    requires r in t.recs
    ensures NoNewWaiters(t, OpenRecord(t, r, leader, issued, conf, now))
  {
  }

  lemma AnsweredWaiters(t: Tx, r: Ref, leader: Backend, frame: Frame, now: Time)
    requires r in t.recs && frame.Result? && frame.conf.tx.Some?
    ensures NoNewWaiters(t, AnswerOpens(t, r, leader, frame, now))
  {
  }

  lemma ClosedWaiters(t: Tx, r: Ref, now: Time)
    requires r in t.recs
    ensures NoNewWaiters(t, ClosedRecord(t, r, now))
  {
  }

  lemma MoveRetriesSourced(run: seq<Event>, cfg: Config, e: Event, t0: Tx, t: Tx, m: Move, t': Tx)
    requires WF(t) && Moves(cfg, e, t0, t, m, t') && RetriesSourced(run + [e], t)
    ensures RetriesSourced(run + [e], t')
  {
    hide WF, RetriesSourced, NoNewWaiters, Moves;
    if QueueMove(m) {
      QueueMoveCopies(cfg, e, t0, t, m, t');
      CopiesNoNewWaiters(t, t', {m.f});
      NoNewWaitersSourced(run + [e], t, t');
    } else if Waits(m) {
      ParkedSourced(run, cfg, e, t0, t, m, t');
    } else {
      MoveNoNewWaiters(cfg, e, t0, t, m, t');
      NoNewWaitersSourced(run + [e], t, t');
    }
  }

  lemma ParkedSourced(run: seq<Event>, cfg: Config, e: Event, t0: Tx, t: Tx, m: Move, t': Tx)
    requires Moves(cfg, e, t0, t, m, t') && Waits(m) && RetriesSourced(run + [e], t)
    ensures RetriesSourced(run + [e], t')
  {
    var r, msg := m.ref, m.msg;
    assert WaitersSourced(run + [e], t.recs[r]);
    StartedLater(run, e, msg, t.recs[r].key);
    forall x | x in t'.recs ensures WaitersSourced(run + [e], t'.recs[x]) {
      assert x != r ==> WaitersSourced(run + [e], t.recs[x]);
    }
  }

  lemma StepRetriesSourced(run: seq<Event>, cfg: Config, t: Table, e: Event)
    requires WF(t.tx) && RetriesSourced(run, t.tx) && ProperEvent(e)
    ensures RetriesSourced(run + [e], Step(cfg, t, e).0.tx)
  {
    hide WF, Moves, Step;
    forall r, i | r in t.tx.recs && 0 <= i < |t.tx.recs[r].tries.aliases|
      ensures Started(run + [e], t.tx.recs[r].tries.aliases[i], t.tx.recs[r].key)
    {
      assert WaitersSourced(run, t.tx.recs[r]);
      StartedLater(run, e, t.tx.recs[r].tries.aliases[i], t.tx.recs[r].key);
    }
    hide RetriesSourced;
    ghost var inv := (x: Tx) => RetriesSourced(run + [e], x);
    assert RetriesSourced(run + [e], t.tx);
    assert Survives(cfg, e, t.tx, inv) by {
      forall x, m, x' | WF(x) && inv(x) && Moves(cfg, e, t.tx, x, m, x') ensures inv(x') {
        MoveRetriesSourced(run, cfg, e, t.tx, x, m, x');
      }
    }
    StepByMoves(cfg, t, e, inv);
  }

  lemma {:induction false} RunRetriesSourced(cfg: Config, run: seq<Event>)
    requires ProperRun(run)
    ensures RetriesSourced(run, After(cfg, run).tx)
  {
    hide WF, Step, RetriesSourced;
    if run == [] {
      NobodyWaits([]);
    } else {
      var before := run[..|run| - 1];
      RunRetriesSourced(cfg, before);
      RunKeeps(cfg, before);
      assert ProperEvent(run[|run| - 1]);
      StepRetriesSourced(before, cfg, After(cfg, before), run[|run| - 1]);
      assert run == before + [run[|run| - 1]];
    }
  }

  lemma NobodyWaits(run: seq<Event>)
    ensures RetriesSourced(run, EmptyTable.tx)
  {
  }

  /** `frame` is the one answer of record `r`, to a message with which the charger sent that very start. */
  ghost predicate AnswersFor(run: seq<Event>, t: Tx, frame: Frame, r: Ref) {
    && frame.Result? && r in t.recs && t.recs[r].conf == Some(frame.conf) && frame.conf.tx == t.recs[r].txId && frame.conf.tx.Some?
    && Started(run, frame.id, t.recs[r].key)
  }

  /** The leader's own frame, passed on: it answers nothing the table waits for, or a pending start without a usable id. */
  predicate Relayed(t: Tx, input: Input, frame: Frame) {
    input.LeaderFrameIn? && input.frame == frame &&
    (!IsOwed(t, IdOf(frame)) || (Rec(t, t.ix.startMsgs[IdOf(frame)]).state.Pending? && IssuedBy(frame).None?))
  }

  lemma StartAnswer(run: seq<Event>, cfg: Config, t: Table, frame: Frame, leader: Backend, followers: seq<Follower>, now: Time)
    returns (r: Ref)
    requires WF(t.tx) && IsStart(frame) && Started(run, frame.id, frame.payload.start)
    ensures var (t', plan) := ChargerStart(cfg, t, frame, leader, followers, now);
      plan.reply.Some? ==> AnswersFor(run, t'.tx, plan.reply.value, r)
  {
    hide WF, CopyStartToAll, OpenRecord, Attempt, Started;
    var key := frame.payload.start;
    StartCaseOk(cfg, t.tx, leader, key, now);
    FoundByStart(cfg, t.tx, leader, key, now);
    r := 0;
    match StartCaseOf(cfg, t.tx, leader, key, now)
    case Again(a) =>
      r := a;
      FoundOk(t.tx, r);
    case Numbered(n) =>
      r := n;
      OpenAnswer(t.tx, r, leader, t.tx.recs[r].backendIds[leader], t.tx.recs[r].confs[leader], now);
    case Copied(c) =>
    case Busy(b) =>
    case Forwarded(known) =>
  }

  /** Opening a record settles its one answer. */
  lemma OpenAnswer(t: Tx, r: Ref, leader: Backend, issued: int, conf: Conf, now: Time)
    requires r in t.recs
    ensures var t' := OpenRecord(t, r, leader, issued, conf, now);
      && r in t'.recs && t'.recs[r].key == t.recs[r].key && t'.recs[r].tries == t.recs[r].tries
      && t'.recs[r].txId.Some? && t'.recs[r].conf.Some? && t'.recs[r].conf.value.tx == t'.recs[r].txId
  {
  }

  /** What the leader's answer to a pending start, and to its retries, becomes. */
  lemma StartedAnswers(run: seq<Event>, t: Tx, r: Ref, leader: Backend, frame: Frame, now: Time, j: nat)
    requires WF(t) && r in t.recs && frame.Result? && frame.conf.tx.Some? && Started(run, frame.id, t.recs[r].key) && WaitersSourced(run, t.recs[r])
    requires var plan := LeaderStarted(t, r, leader, frame, now).1; j < |Listed(plan.frame) + plan.extra|
    ensures var (t', plan) := LeaderStarted(t, r, leader, frame, now);
      AnswersFor(run, t', (Listed(plan.frame) + plan.extra)[j], r)
  {
    hide WF, OpenRecord, Started, Collect;
    OpenAnswer(t, r, leader, frame.conf.tx.value, frame.conf, now);
    var t1 := OpenRecord(t, r, leader, frame.conf.tx.value, frame.conf, now);
    var t2 := Put(t1, r, WithoutRetries(t1.recs[r], frame.id));
    CollectShape(t2, r);
    var plan := LeaderStarted(t, r, leader, frame, now).1;
    if j > 0 {
      assert (Listed(plan.frame) + plan.extra)[j] == plan.extra[j - 1];
    }
  }

  lemma OwedAnswers(run: seq<Event>, t: Tx, leader: Backend, frame: Frame, now: Time, j: nat) returns (r: Ref)
    requires WF(t) && RetriesSourced(run, t) && (frame.Result? || frame.Error?) && IsOwed(t, frame.id)
    requires Started(run, frame.id, Rec(t, t.ix.startMsgs[frame.id]).key)
    requires var plan := OwedAnswer(t, t.ix.startMsgs[frame.id], leader, frame, now).1; j < |Listed(plan.frame) + plan.extra|
    ensures var (t', plan) := OwedAnswer(t, t.ix.startMsgs[frame.id], leader, frame, now);
      var out := (Listed(plan.frame) + plan.extra)[j];
      out.Result? ==> AnswersFor(run, t', out, r) || (j == 0 && Relayed(t, LeaderFrameIn(leader, frame), out))
  {
    hide WF, Started, Collect, LeaderStarted;
    r := t.ix.startMsgs[frame.id];
    TrackedHeld(t, frame.id);
    FoundOk(t, r);
    var rec := t.recs[r];
    if rec.state.Pending? && frame.Result? && frame.conf.tx.Some? {
      assert WaitersSourced(run, rec);
      StartedAnswers(run, t, r, leader, frame, now, j);
    } else if rec.state.Pending? && frame.Result? {
      UnusableAnswer(t, r, leader, frame, now);
    } else if !rec.state.Pending? {
      CollectShape(Put(t, r, WithoutAttempt(rec, frame.id)), r);
    }
  }

  lemma UnusableAnswer(t: Tx, r: Ref, leader: Backend, frame: Frame, now: Time)
    requires frame.Result? && frame.conf.tx.None?
    ensures LeaderStarted(t, r, leader, frame, now).1 == LeaderPlan(Some(frame), [])
  {
  }

  /** Every StartTransaction result one event makes the charger hear is the one answer of a record, or the leader's own
      frame that the table does not wait for. */
  lemma StepAnswers(run: seq<Event>, cfg: Config, t: Table, e: Event, j: nat) returns (r: Ref)
    requires WF(t.tx) && RetriesSourced(run + [e], t.tx) && Sourced(cfg, run + [e], t) && j < |Step(cfg, t, e).1.toCharger|
    ensures var (t', out) := Step(cfg, t, e);
      out.toCharger[j].Result? && !Relayed(t.tx, e.input, out.toCharger[j]) ==> AnswersFor(run + [e], t'.tx, out.toCharger[j], r)
  {
    hide WF, Started, RetriesSourced, ChargerStart, ChargerCall, OwedAnswer, StrayAnswer, LeaderCall, FromFollower, LeaderChanged, ExpireHolds, AttemptFailed,
      NoteCommand, Expired, ForgetAll;
    r := 0;
    assert (run + [e])[|run|] == e;
    match e.input
    case ChargerFrame(frame, leader, followers) =>
      if IsStart(frame) {
        ForgetKeeps(t.tx, Expired(cfg, t.tx, e.now));
        StartedLater(run, e, frame.id, frame.payload.start);
        r := StartAnswer(run + [e], cfg, Prune(cfg, t, e.now, e.wall), frame, leader, followers, e.now);
      } else if frame.Call? {
        NoReply(cfg, Prune(cfg, t, e.now, e.wall), frame, leader, followers, e.now);
      }
    case LeaderFrameIn(leader, frame) =>
      if frame.Call? {
        CommandStaysCall(t, leader, frame, e.now);
      } else if !frame.Odd? {
        if IsOwed(t.tx, frame.id) {
          r := OwedAnswers(run + [e], t.tx, leader, frame, e.now, j);
        } else {
          StrayPassed(t.tx, leader, frame);
        }
      }
    case FollowerFrame(follower, frame) =>
    case Promotion(newLeader) =>
    case HoldTimer(order) =>
    case BrokerRefused(msg) =>
      OnlyErrors(t.tx, msg, j);
    case RestCommand(action, payload) =>
    case IdleCheck =>
  }

  lemma NoReply(cfg: Config, t: Table, frame: Frame, leader: Backend, followers: seq<Follower>, now: Time)
    requires frame.Call?
    ensures ChargerCall(cfg, t, frame, leader, followers, now).1.reply.None?
  {
  }

  lemma CommandStaysCall(t: Table, leader: Backend, frame: Frame, now: Time)
    requires frame.Call?
    ensures LeaderCall(t, leader, frame, now).1.Call?
  {
  }

  lemma StrayPassed(t: Tx, leader: Backend, frame: Frame)
    requires frame.Result? || frame.Error?
    ensures var plan := StrayAnswer(t, leader, frame).1; plan.extra == [] && (plan.frame.Some? ==> plan.frame.value == frame)
  {
  }

  lemma OnlyErrors(t: Tx, msg: MsgId, j: nat)
    requires j < |StartFailed(t, msg).1|
    ensures StartFailed(t, msg).1[j].Error?
  {
  }

  /** MAIN RESULT. Over a whole run: every StartTransaction result the table gives the charger (the first answer, the answer
      to a retry that waited or came late, a leader's second answer) carries the one id and payload of the record it is for,
      which that record still has at the end of the run; so two such answers for one record differ only in the message
      they answer. */
  lemma OneAnswerPerStart(cfg: Config, run: seq<Event>, i: nat, j: nat) returns (r: Ref)
    requires ProperRun(run) && i < |run| && j < |Emitted(cfg, run, i).toCharger| && Emitted(cfg, run, i).toCharger[j].Result?
    requires !Relayed(After(cfg, run[..i]).tx, run[i].input, Emitted(cfg, run, i).toCharger[j])
    ensures AnswersFor(run[..i + 1], After(cfg, run).tx, Emitted(cfg, run, i).toCharger[j], r)
  {
    hide WF, Step, After, Started, RetriesSourced, Sourced, Relayed;
    var before, e := run[..i], run[i];
    assert run[..i + 1] == before + [e];
    RunKeeps(cfg, before);
    RunUpTo(cfg, run, i);
    RunRetriesSourced(cfg, before);
    RunSourced(cfg, before);
    StepSourcedHere(cfg, before, e);
    r := StepAnswers(before, cfg, After(cfg, before), e, j);
    AnswersNeverChange(cfg, run, i + 1);
  }

  lemma RunUpTo(cfg: Config, run: seq<Event>, i: nat)
    requires i < |run|
    ensures After(cfg, run[..i + 1]) == Step(cfg, After(cfg, run[..i]), run[i]).0
  {
    assert run[..i + 1][..i] == run[..i];
  }

  /** What happened before an event still has after it. */
  lemma StepSourcedHere(cfg: Config, before: seq<Event>, e: Event)
    requires RetriesSourced(before, After(cfg, before).tx) && Sourced(cfg, before, After(cfg, before))
    ensures RetriesSourced(before + [e], After(cfg, before).tx) && Sourced(cfg, before + [e], After(cfg, before))
  {
    hide After, Sourced, Started;
    var t := After(cfg, before);
    SourcedLater(cfg, before, e, t);
    forall r, i | r in t.tx.recs && 0 <= i < |t.tx.recs[r].tries.aliases|
      ensures Started(before + [e], t.tx.recs[r].tries.aliases[i], t.tx.recs[r].key)
    {
      assert WaitersSourced(before, t.tx.recs[r]);
      StartedLater(before, e, t.tx.recs[r].tries.aliases[i], t.tx.recs[r].key);
    }
  }

  // ------------------------------------------------------------------
  // A result that is passed on as it came
  // ------------------------------------------------------------------

  /** The table does not wait for this answer, neither as the leader's own nor as one to a copy. */
  predicate PassedRaw(t: Tx, leader: Backend, frame: Frame) {
    !IsOwed(t, IdOf(frame)) && !AnswersCopy(t, leader, IdOf(frame)) && Copy(leader, IdOf(frame)) !in t.copied
  }

  /** `heard` carries an id that the charger holds for another transaction. */
  predicate IsForeign(t: Tx, heard: Frame) {
    heard.Result? && heard.conf.tx.Some? && heard.conf.tx.value in t.ix.byTx && Find(t.ix.startMsgs, heard.id) != Some(t.ix.byTx[heard.conf.tx.value])
  }

  ghost predicate HearsForeign(t: Tx, toCharger: seq<Frame>) {
    exists j :: 0 <= j < |toCharger| && IsForeign(t, toCharger[j])
  }

  lemma OpenedNotForeign(t: Tx, r: Ref, leader: Backend, frame: Frame, now: Time)
    requires frame.Result? && frame.conf.tx.Some? && r in t.recs
    ensures var plan := LeaderStarted(t, r, leader, frame, now).1; !HearsForeign(t, Listed(plan.frame) + plan.extra)
  {
    hide Collect, Choose;
    ChooseUnused(t, frame.conf.tx.value);
  }

  lemma RepeatedNotForeign(t: Tx, leader: Backend, frame: Frame, now: Time)
    requires WF(t) && frame.Result? && frame.id in t.ix.startMsgs && !Rec(t, t.ix.startMsgs[frame.id]).state.Pending?
    ensures var plan := OwedAnswer(t, t.ix.startMsgs[frame.id], leader, frame, now).1; !HearsForeign(t, Listed(plan.frame) + plan.extra)
  {
    hide WF, Collect;
    var r := t.ix.startMsgs[frame.id];
    TrackedHeld(t, frame.id);
    FoundOk(t, r);
  }

  /** MAIN RESULT. A leader's usable result makes the charger hear an id it holds for another transaction exactly when it is
      passed on as it came, because the table does not wait for it (a late answer to an attempt that a promotion made void,
      say), and its number is one that the charger holds for another transaction. */
  lemma ForeignIdExactly(cfg: Config, run: seq<Event>, e: Event)
    requires e.input.LeaderFrameIn? && e.input.frame.Result? && e.input.frame.conf.tx.Some?
    ensures var (t, frame) := (After(cfg, run).tx, e.input.frame);
      HearsForeign(t, Step(cfg, After(cfg, run), e).1.toCharger) <==> PassedRaw(t, e.input.leader, frame) && IsForeign(t, frame)
  {
    hide WF, After, IsForeign, LeaderStarted, OwedAnswer, StrayAnswer;
    RunKeeps(cfg, run);
    var t, leader, frame := After(cfg, run).tx, e.input.leader, e.input.frame;
    if IsOwed(t, frame.id) {
      var r := t.ix.startMsgs[frame.id];
      TrackedHeld(t, frame.id);
      if Rec(t, r).state.Pending? {
        OpenedNotForeign(t, r, leader, frame, e.now);
        PendingOwed(t, r, leader, frame, e.now);
      } else {
        RepeatedNotForeign(t, leader, frame, e.now);
      }
    } else {
      StrayHeard(t, leader, frame);
      assert [frame][0] == frame;
    }
  }

  lemma PendingOwed(t: Tx, r: Ref, leader: Backend, frame: Frame, now: Time)
    requires Rec(t, r).state.Pending? && frame.Result?
    ensures OwedAnswer(t, r, leader, frame, now) == LeaderStarted(t, r, leader, frame, now)
  {
  }

  lemma StrayHeard(t: Tx, leader: Backend, frame: Frame)
    requires (frame.Result? || frame.Error?) && !IsOwed(t, frame.id)
    ensures var plan := StrayAnswer(t, leader, frame).1; Listed(plan.frame) + plan.extra == if PassedRaw(t, leader, frame) then [frame] else []
  {
  }
}
