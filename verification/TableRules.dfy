/** What a start, a frame that quotes a transaction and a command make the table do and say, in terms of the records alone; and
    when a record is forgotten. */
module TableRules {
  import opened Ocpp
  import opened TableState
  import opened TableSteps
  import opened TableInvariant
  import opened TableCopies
  import opened TableRuns
  import opened TableMoves
  import opened IdSpaces

  // ------------------------------------------------------------------
  // Forgetting
  // ------------------------------------------------------------------

  /** Stopped long ago, idle for very long, or never answered. */
  predicate Outdated(cfg: Config, rec: TxRecord, now: Time) {
    match rec.state
    case Closed => rec.closedAt.Some? && now - rec.closedAt.value > cfg.retainClosed
    case Open => now - rec.touched > cfg.retainOpen
    case Pending => now - rec.created > 300.0 && now - rec.created > 5.0 * cfg.staleStart
  }

  lemma OutdatedById(cfg: Config, t: Tx, k: int, now: Time)
    requires WF(t) && k in t.ix.byTx
    ensures t.ix.byTx[k] in t.recs && (t.ix.byTx[k] in Expired(cfg, t, now) <==> Outdated(cfg, t.recs[t.ix.byTx[k]], now))
  {
    hide RecordsOk, QueuesOk;
    HeldUnder(t, k);
    var r := t.ix.byTx[k];
    NumberedOrPending(t, r);
    assert forall key :: key in t.ix.byStart && t.ix.byStart[key] == r ==> !NeverAnswered(cfg, Rec(t, t.ix.byStart[key]), now);
  }

  lemma NumberedOrPending(t: Tx, r: Ref)
    requires WF(t) && r in t.recs
    ensures t.recs[r].state.Pending? <==> t.recs[r].txId.None?
    ensures t.recs[r].state.Pending? <==> t.recs[r].conf.None?
  {
    assert RecordOk(t.recs[r]);
  }

  lemma OutdatedByStart(cfg: Config, t: Tx, key: StartKey, now: Time)
    requires WF(t) && key in t.ix.byStart
    ensures t.ix.byStart[key] in t.recs && (t.ix.byStart[key] in Expired(cfg, t, now) <==> Outdated(cfg, t.recs[t.ix.byStart[key]], now))
  {
    hide RecordsOk, QueuesOk;
    var r := t.ix.byStart[key];
    assert IsHeld(t, r) && !t.recs[r].state.Closed?;
    NumberedOrPending(t, r);
    if Outdated(cfg, t.recs[r], now) && t.recs[r].state.Open? {
      OutdatedById(cfg, t, t.recs[r].txId.value, now);
    }
  }

  // ------------------------------------------------------------------
  // Starts
  // ------------------------------------------------------------------

  /** Retries are recognised, and the table has a record of the start that is not about to be forgotten. */
  predicate KnowsStart(cfg: Config, t: Tx, key: StartKey, now: Time) {
    cfg.dedupe && key in t.ix.byStart && t.ix.byStart[key] in t.recs && !Outdated(cfg, t.recs[t.ix.byStart[key]], now)
  }

  /** The leader has answered it. */
  predicate IsAnswered(rec: TxRecord) {
    rec.state.Open? && rec.conf.Some?
  }

  /** The leader numbered its copy of it while it followed. */
  predicate IsNumberedBy(rec: TxRecord, leader: Backend) {
    rec.state.Pending? && rec.tries.sent == {} && leader in rec.backendIds && leader in rec.confs
  }

  /** The leader was sent a copy of it while it followed, and owes the answer. */
  predicate IsAwaitedFrom(rec: TxRecord, leader: Backend) {
    rec.state.Pending? && rec.tries.sent == {} && !IsNumberedBy(rec, leader) && leader in rec.flags.awaiting && leader in rec.flags.copyMsgs
  }

  /** An attempt is outstanding, and not for too long. */
  predicate IsUnderway(cfg: Config, rec: TxRecord, now: Time) {
    !rec.state.Open? && rec.tries.sent != {} && now - rec.tries.sentAt < cfg.staleStart
  }

  /** Nothing is known that would make a second transaction of it. */
  predicate MayStart(cfg: Config, t: Tx, key: StartKey, leader: Backend, now: Time) {
    KnowsStart(cfg, t, key, now) ==>
      var rec := t.recs[t.ix.byStart[key]];
      !IsAnswered(rec) && !IsNumberedBy(rec, leader) && !IsAwaitedFrom(rec, leader) && !IsUnderway(cfg, rec, now)
  }

  /** What becomes of the record of a start the table knows, and what the charger hears. */
  ghost predicate KnownStartTaken(cfg: Config, t: Tx, t': Tx, toCharger: seq<Frame>, r: Ref, msg: MsgId, leader: Backend, now: Time)
    requires r in t.recs
  {
    r in t'.recs &&
    var (rec, rec') := (t.recs[r], t'.recs[r]);
    if IsAnswered(rec) then
      toCharger == [Result(msg, rec.conf.value)] && rec' == rec
    else if IsNumberedBy(rec, leader) then
      && rec'.state.Open? && rec'.txId.Some? && Find(t'.ix.byTx, rec'.txId.value) == Some(r) && rec'.backendIds == rec.backendIds
      && rec'.conf == Some(rec.confs[leader].(tx := rec'.txId)) && toCharger == [Result(msg, rec'.conf.value)]
      && (rec.backendIds[leader] !in t.ix.byTx ==> rec'.txId == Some(rec.backendIds[leader]))
      && Find(t'.ix.byBackend, BackendTx(leader, rec.backendIds[leader])) == Some(r) && rec'.touched == now
    else if IsAwaitedFrom(rec, leader) then
      toCharger == [] && rec' == rec.(tries := Tries({rec.flags.copyMsgs[leader]}, now, rec.tries.aliases + [msg], rec.tries.msgs))
    else if IsUnderway(cfg, rec, now) then
      toCharger == [] && rec' == rec.(tries := rec.tries.(aliases := rec.tries.aliases + [msg]))
    else
      toCharger == [] && rec'.tries == Tries(rec.tries.sent + {msg}, now, rec.tries.aliases, rec.tries.msgs + {msg}) && Find(t'.ix.startMsgs, msg) == Some(r)
  }

  /** A start the table does not know gets a record of its own. */
  ghost predicate NewStartTaken(cfg: Config, t: Tx, t': Tx, toCharger: seq<Frame>, key: StartKey, msg: MsgId, now: Time) {
    && toCharger == [] && t.next in t'.recs && t'.recs[t.next].key == key && t'.recs[t.next].state.Pending? && t'.recs[t.next].created == now
    && t'.recs[t.next].tries == Tries({msg}, now, [], {msg})
    && Find(t'.ix.startMsgs, msg) == Some(t.next) && (cfg.dedupe ==> Find(t'.ix.byStart, key) == Some(t.next))
  }

  lemma CopiedRecord(cfg: Config, t: Table, r: Ref, isNew: bool, frame: Frame, followers: seq<Follower>, now: Time)
    requires WF(t.tx) && ItemOk(t.tx, StartCopy(r, frame))
    ensures var t' := CopyStartToAll(cfg, t, r, isNew, frame, followers, now).0.tx;
      t'.ix == t.tx.ix && r in t'.recs && t'.recs[r] == t.tx.recs[r].(flags := t'.recs[r].flags)
  {
    hide WF, CopyStartToAll;
    CopyStartToAllServes(cfg, t, r, isNew, frame, followers, now);
    var t' := CopyStartToAll(cfg, t, r, isNew, frame, followers, now).0;
    assert OnlyFlags(t.tx.recs[r], t'.tx.recs[r], KeysOf(followers));
  }

  lemma ForwardedTaken(cfg: Config, t: Table, known: Option<Ref>, frame: Frame, leader: Backend, followers: seq<Follower>, now: Time)
    requires WF(t.tx) && IsStart(frame) && StartCaseOf(cfg, t.tx, leader, frame.payload.start, now) == Forwarded(known)
    ensures var (t', plan) := ChargerStart(cfg, t, frame, leader, followers, now);
      && plan.toLeader.Some? && plan.reply.None?
      && (if known.Some? then
            known.value in t.tx.recs && known.value in t'.tx.recs && Find(t'.tx.ix.startMsgs, frame.id) == known &&
            t'.tx.recs[known.value].tries == Tried(t.tx.recs[known.value], frame.id, now).tries
          else NewStartTaken(cfg, t.tx, t'.tx, [], frame.payload.start, frame.id, now))
  {
    hide WF, CopyStartToAll;
    var key := frame.payload.start;
    StartCaseOk(cfg, t.tx, leader, key, now);
    AttemptKeeps(cfg, t.tx, known, key, frame.id, now);
    var (tx1, r) := Attempt(cfg, t.tx, known, key, frame.id, now);
    var t1 := Table(tx1, StartFrame(t.sp, leader, frame, true, now).0);
    CopiedRecord(cfg, t1, r, known.None?, frame, followers, now);
    assert [] + [frame.id] == [frame.id];
  }

  lemma NumberedTaken(t: Tx, r: Ref, leader: Backend, now: Time)
    requires r in t.recs && leader in t.recs[r].backendIds && leader in t.recs[r].confs
    ensures var t' := OpenRecord(t, r, leader, t.recs[r].backendIds[leader], t.recs[r].confs[leader], now); var (rec, rec') := (t.recs[r], t'.recs[r]);
      && r in t'.recs && rec'.state.Open? && rec'.txId.Some? && Find(t'.ix.byTx, rec'.txId.value) == Some(r) && rec'.backendIds == rec.backendIds
      && rec'.conf == Some(rec.confs[leader].(tx := rec'.txId)) && rec'.touched == now
      && (rec.backendIds[leader] !in t.ix.byTx ==> rec'.txId == Some(rec.backendIds[leader]))
      && Find(t'.ix.byBackend, BackendTx(leader, rec.backendIds[leader])) == Some(r)
  {
  }

  /** What the table after forgetting does with a start. */
  lemma StartTaken(cfg: Config, t: Table, frame: Frame, leader: Backend, followers: seq<Follower>, now: Time)
    requires WF(t.tx) && IsStart(frame)
    requires cfg.dedupe && frame.payload.start in t.tx.ix.byStart ==> !Outdated(cfg, t.tx.recs[t.tx.ix.byStart[frame.payload.start]], now)
    ensures var (t', plan) := ChargerStart(cfg, t, frame, leader, followers, now); var key := frame.payload.start;
      && (plan.toLeader.Some? <==> MayStart(cfg, t.tx, key, leader, now))
      && if KnowsStart(cfg, t.tx, key, now) then KnownStartTaken(cfg, t.tx, t'.tx, Listed(plan.reply), t.tx.ix.byStart[key], frame.id, leader, now)
         else NewStartTaken(cfg, t.tx, t'.tx, Listed(plan.reply), key, frame.id, now)
  {
    hide WF, CopyStartToAll, Attempt, OpenRecord, Outdated;
    var key := frame.payload.start;
    StartCaseOk(cfg, t.tx, leader, key, now);
    match StartCaseOf(cfg, t.tx, leader, key, now)
    case Again(r) => NumberedOrPending(t.tx, r);
    case Numbered(r) => NumberedTaken(t.tx, r, leader, now);
    case Copied(r) => assert {} + {t.tx.recs[r].flags.copyMsgs[leader]} == {t.tx.recs[r].flags.copyMsgs[leader]};
    case Busy(r) => NumberedOrPending(t.tx, r);
    case Forwarded(known) =>
      ForwardedTaken(cfg, t, known, frame, leader, followers, now);
      if known.Some? {
        NumberedOrPending(t.tx, known.value);
      }
  }

  /** What forgetting leaves. */
  lemma AfterForgetting(cfg: Config, t: Tx, now: Time)
    requires WF(t)
    ensures var p := ForgetAll(t, Expired(cfg, t, now)); WF(p) && p == t.(ix := p.ix)
    ensures var p := ForgetAll(t, Expired(cfg, t, now));
      forall key :: Find(p.ix.byStart, key) == if key in t.ix.byStart && !Outdated(cfg, t.recs[t.ix.byStart[key]], now) then Some(t.ix.byStart[key]) else None
    ensures var p := ForgetAll(t, Expired(cfg, t, now));
      forall k :: Find(p.ix.byTx, k) == if k in t.ix.byTx && !Outdated(cfg, t.recs[t.ix.byTx[k]], now) then Some(t.ix.byTx[k]) else None
  {
    hide WF, Expired, Outdated;
    ForgetKeeps(t, Expired(cfg, t, now));
    ForgetShape(t, Expired(cfg, t, now));
    forall key | key in t.ix.byStart ensures t.ix.byStart[key] in t.recs && (t.ix.byStart[key] in Expired(cfg, t, now) <==> Outdated(cfg, t.recs[t.ix.byStart[key]], now)) {
      OutdatedByStart(cfg, t, key, now);
    }
    forall k: int | k in t.ix.byTx ensures t.ix.byTx[k] in t.recs && (t.ix.byTx[k] in Expired(cfg, t, now) <==> Outdated(cfg, t.recs[t.ix.byTx[k]], now)) {
      OutdatedById(cfg, t, k, now);
    }
  }

  /** MAIN RESULT. In every reachable state a start is sent to the leader if and only if nothing is known that would make a
      second transaction of it: retries are not recognised, or the table has no record of it that is young enough, or that record
      is not answered, not numbered by this very leader, not awaited from it, and not underway. What is done instead, and
      what becomes of the record, follows in each case; and the leader is told the reservation id it goes by itself. */
  lemma StartsReachTheLeaderExactly(cfg: Config, run: seq<Event>, e: Event)
    requires e.input.ChargerFrame? && e.input.frame.Call? && e.input.frame.action.StartTransaction?
    ensures var (t, frame, leader) := (After(cfg, run).tx, e.input.frame, e.input.leader); var (t', out) := Step(cfg, After(cfg, run), e); var key := frame.payload.start;
      && (out.toLeader.Some? <==> MayStart(cfg, t, key, leader, e.now))
      && (if KnowsStart(cfg, t, key, e.now) then KnownStartTaken(cfg, t, t'.tx, out.toCharger, t.ix.byStart[key], frame.id, leader, e.now)
          else NewStartTaken(cfg, t, t'.tx, out.toCharger, key, frame.id, e.now))
      && (out.toLeader.Some? ==> TellsReservation(t'.sp, leader, true, frame, out.toLeader.value))
  {
    hide WF, After, ForgetAll, Expired, Lapsed, ReleaseAll, ChargerStart, Outdated, TellsReservation;
    var t, frame := After(cfg, run), e.input.frame;
    RunKeeps(cfg, run);
    AfterForgetting(cfg, t.tx, e.now);
    var p := Prune(cfg, t, e.now, e.wall);
    assert Find(p.tx.ix.byStart, frame.payload.start).Some? ==> frame.payload.start in t.tx.ix.byStart;
    StartTaken(cfg, p, frame, e.input.leader, e.input.followers, e.now);
    StartTold(cfg, p, frame, e.input.leader, e.input.followers, e.now);
  }

  lemma StartTold(cfg: Config, t: Table, frame: Frame, leader: Backend, followers: seq<Follower>, now: Time)
    requires WF(t.tx) && IsStart(frame)
    ensures var (t', plan) := ChargerStart(cfg, t, frame, leader, followers, now);
      plan.toLeader.Some? ==> TellsReservation(t'.sp, leader, true, frame, plan.toLeader.value)
  {
    hide CopyStartToAll, Attempt, OpenRecord, IndexesOk, RecordsOk, QueuesOk;
    var key := frame.payload.start;
    StartCaseOk(cfg, t.tx, leader, key, now);
    var taken := StartCaseOf(cfg, t.tx, leader, key, now);
    if taken.Forwarded? {
      AttemptKeeps(cfg, t.tx, taken.known, key, frame.id, now);
      var (tx1, r) := Attempt(cfg, t.tx, taken.known, key, frame.id, now);
      var (sp1, told) := StartFrame(t.sp, leader, frame, true, now);
      ToldReservation(t.sp, leader, frame, true, now);
      CopyStartToAllServes(cfg, Table(tx1, sp1), r, taken.known.None?, frame, followers, now);
      SameTold(sp1, CopyStartToAll(cfg, Table(tx1, sp1), r, taken.known.None?, frame, followers, now).0.sp, leader, frame, told);
    }
  }

  lemma SameTold(sp: Spaces, sp': Spaces, leader: Backend, frame: Frame, told: Frame)
    requires SameObjects(sp, sp') && TellsReservation(sp, leader, true, frame, told)
    ensures TellsReservation(sp', leader, true, frame, told)
  {
  }

  // ------------------------------------------------------------------
  // Other frames of the charger
  // ------------------------------------------------------------------

  /** The record the charger quotes, if the table has one that is young enough. */
  function QuotedRecord(cfg: Config, t: Tx, k: int, now: Time): Option<Ref> {
    if k in t.ix.byTx && t.ix.byTx[k] in t.recs && !Outdated(cfg, t.recs[t.ix.byTx[k]], now) then Some(t.ix.byTx[k]) else None
  }

  /** What a frame that quotes a transaction does to its record (`apart`: the leader is not among the followers). */
  ghost predicate QuoteTaken(t: Tx, t': Tx, r: Ref, frame: Frame, leader: Backend, apart: bool, now: Time)
    requires r in t.recs && frame.Call?
  {
    r in t'.recs &&
    var (rec, rec') := (t.recs[r], t'.recs[r]);
    && rec'.touched == now && rec'.txId == rec.txId && rec'.backendIds == rec.backendIds && rec'.conf == rec.conf
    && (apart && leader !in rec.backendIds ==> leader in rec'.flags.degraded)
    && (if frame.action.StopTransaction? then rec'.state.Closed? && rec'.closedAt == (if rec.state.Closed? then rec.closedAt else Some(now))
        else rec'.state == rec.state && rec'.closedAt == rec.closedAt)
    && (frame.action.StopTransaction? ==> Find(t'.ix.byStart, rec.key) != Some(r))
  }

  lemma QuotedTaken(t: Tx, r: Ref, frame: Frame, leader: Backend, now: Time)
    requires WF(t) && QuotesTx(frame) && Find(t.ix.byTx, frame.payload.tx.value) == Some(r) && r in t.recs
    ensures QuoteTaken(t, Quoted(t, frame, leader, Some(r), now), r, frame, leader, true, now)
  {
    hide RecordsOk, QueuesOk;
    QuotedIsMarked(t, frame, leader, r, now);
    NumberedOrPending(t, r);
    if frame.action.StopTransaction? && !t.recs[r].state.Closed? {
      CollectShape(ClosedRecord(Marked(t, leader, r, now), r, now), r);
    }
  }

  lemma QuoteServed(t: Tx, t1: Tx, t2: Tx, r: Ref, frame: Frame, leader: Backend, now: Time, F: set<Backend>)
    requires r in t.recs && frame.Call? && QuoteTaken(t, t1, r, frame, leader, true, now) && OnlyCopies(t1, t2, F)
    ensures QuoteTaken(t, t2, r, frame, leader, leader !in F, now)
  {
    assert OnlyFlags(t1.recs[r], t2.recs[r], F) && (leader !in F ==> SameFlags(t1.recs[r], t2.recs[r], leader));
  }

  lemma CallTaken(cfg: Config, t: Table, frame: Frame, leader: Backend, followers: seq<Follower>, now: Time)
    requires WF(t.tx) && frame.Call? && !IsStart(frame)
    ensures var (t', plan) := ChargerCall(cfg, t, frame, leader, followers, now);
      && plan.reply.None?
      && (if IsQuote(frame) && frame.payload.tx.value in t.tx.ix.byTx then
            var r := t.tx.ix.byTx[frame.payload.tx.value];
            && r in t.tx.recs && QuoteTaken(t.tx, t'.tx, r, frame, leader, leader !in KeysOf(followers), now)
            && plan.toLeader == Some(if leader in t.tx.recs[r].backendIds then WithTx(frame, t.tx.recs[r].backendIds[leader]) else frame)
          else plan.toLeader == Some(frame) && t'.tx.ix == t.tx.ix)
  {
    hide WF, CopyToAll, QuoteTaken;
    if QuotesTx(frame) {
      var found := Find(t.tx.ix.byTx, frame.payload.tx.value);
      QuotedKeeps(t.tx, frame, leader, found, now);
      QuotedIs(cfg, t, frame, leader, followers, now);
      var t1 := t.(tx := Quoted(t.tx, frame, leader, found, now));
      CopyToAllServes(cfg, t1, IdCopy(found, frame), followers, now);
      if found.Some? {
        HeldUnderWF(t.tx, frame.payload.tx.value);
        QuotedTaken(t.tx, found.value, frame, leader, now);
        QuoteServed(t.tx, t1.tx, CopyToAll(cfg, t1, IdCopy(found, frame), followers, now).0.tx, found.value, frame, leader, now, KeysOf(followers));
        assert t.tx.recs[found.value].txId == frame.payload.tx;
      }
    } else {
      PlainOk(t.tx, frame);
      CopyToAllServes(cfg, t, PlainCopy(frame), followers, now);
    }
  }

  lemma PlainOk(t: Tx, frame: Frame)
    requires frame.Call? && !IsStart(frame) && !QuotesTx(frame)
    ensures ItemOk(t, PlainCopy(frame))
  {
  }

  /** MAIN RESULT. What the leader is told of a frame from the charger that is not a start: a MeterValues or StopTransaction of a transaction that
      is known and that the leader has numbered, with the leader's own number; everything else exactly as it is. The record
      counts as used now, and is stopped by a StopTransaction, once. The charger hears nothing. */
  lemma QuotesReachTheLeader(cfg: Config, run: seq<Event>, e: Event)
    requires e.input.ChargerFrame? && !(e.input.frame.Call? && e.input.frame.action.StartTransaction?)
    ensures var (t, frame, leader) := (After(cfg, run).tx, e.input.frame, e.input.leader); var (t', out) := Step(cfg, After(cfg, run), e);
      && out.toCharger == []
      && (if IsQuote(frame) && QuotedRecord(cfg, t, frame.payload.tx.value, e.now).Some? then
            var r := t.ix.byTx[frame.payload.tx.value];
            && QuoteTaken(t, t'.tx, r, frame, leader, leader !in KeysOf(e.input.followers), e.now)
            && out.toLeader == Some(if leader in t.recs[r].backendIds then WithTx(frame, t.recs[r].backendIds[leader]) else frame)
          else out.toLeader == Some(frame))
  {
    hide WF, After, ForgetAll, Expired, Lapsed, ReleaseAll, ChargerCall, Outdated, QuoteTaken;
    var t, frame := After(cfg, run), e.input.frame;
    RunKeeps(cfg, run);
    AfterForgetting(cfg, t.tx, e.now);
    var p := Prune(cfg, t, e.now, e.wall);
    if frame.Call? {
      CallTaken(cfg, p, frame, e.input.leader, e.input.followers, e.now);
      if IsQuote(frame) {
        SameFind(t.tx, p.tx, frame.payload.tx.value);
        if Find(p.tx.ix.byTx, frame.payload.tx.value).Some? {
          QuoteBefore(t.tx, p.tx, Step(cfg, t, e).0.tx, t.tx.ix.byTx[frame.payload.tx.value], frame, e.input.leader, e.input.leader !in KeysOf(e.input.followers), e.now);
        }
      }
    }
  }

  lemma SameFind(t: Tx, p: Tx, k: int)
    requires Find(p.ix.byTx, k).Some? ==> Find(p.ix.byTx, k) == Find(t.ix.byTx, k)
    ensures k in p.ix.byTx ==> k in t.ix.byTx && p.ix.byTx[k] == t.ix.byTx[k]
  {
  }

  lemma QuoteBefore(t: Tx, p: Tx, t': Tx, r: Ref, frame: Frame, leader: Backend, apart: bool, now: Time)
    requires p.recs == t.recs && r in t.recs && frame.Call? && QuoteTaken(p, t', r, frame, leader, apart, now)
    ensures QuoteTaken(t, t', r, frame, leader, apart, now)
  {
  }

  // ------------------------------------------------------------------
  // When a transaction is forgotten
  // ------------------------------------------------------------------

  ghost predicate LeadsTo(t: Tx, k: int, r: Ref) {
    k in t.ix.byTx && t.ix.byTx[k] == r
  }

  lemma MoveLeads(cfg: Config, e: Event, t0: Tx, t: Tx, m: Move, t': Tx, k: int, r: Ref)
    requires WF(t) && Moves(cfg, e, t0, t, m, t') && !m.Forgets? && LeadsTo(t, k, r)
    ensures LeadsTo(t', k, r)
  {
    hide WF, LeadsTo, Moves;
    if m.OpenedByCopy? || m.OpenedByAnswer? {
      OpeningLeads(cfg, e, t0, t, m, t', k, r);
    } else {
      if m.HeadLeaves? || m.Joins? || m.Overflows? || m.CopiesStart? || m.NotReady? || m.Logs? || m.DropsQueue? {
        QueueMoveIndex(cfg, e, t0, t, m, t');
      } else {
        RecordMoveIndex(cfg, e, t0, t, m, t');
      }
      LeadsAlike(t, t', k, r);
    }
  }

  lemma OpeningLeads(cfg: Config, e: Event, t0: Tx, t: Tx, m: Move, t': Tx, k: int, r: Ref)
    requires WF(t) && Moves(cfg, e, t0, t, m, t') && LeadsTo(t, k, r) && (m.OpenedByCopy? || m.OpenedByAnswer?)
    ensures LeadsTo(t', k, r)
  {
    hide WF, LeadsTo;
    match m
    case OpenedByCopy(x, leader) => OpenedLeads(t, x, leader, t.recs[x].backendIds[leader], t.recs[x].confs[leader], e.now, k, r);
    case OpenedByAnswer(x, leader, frame) => AnswerLeads(t, x, leader, frame, e.now, k, r);
  }

  lemma QueueMoveIndex(cfg: Config, e: Event, t0: Tx, t: Tx, m: Move, t': Tx)
    requires Moves(cfg, e, t0, t, m, t')
    requires m.HeadLeaves? || m.Joins? || m.Overflows? || m.CopiesStart? || m.NotReady? || m.Logs? || m.DropsQueue?
    ensures t'.ix.byTx == t.ix.byTx
  {
    hide DropQueue, HeadStep, ItemOk;
    match m
    case HeadLeaves(f, sp) => PopIndexes(cfg, Table(t, sp), f, e.now);
    case DropsQueue(b) => DroppedLeads(t, b);
    case _ =>
  }

  lemma RecordMoveIndex(cfg: Config, e: Event, t0: Tx, t: Tx, m: Move, t': Tx)
    requires Moves(cfg, e, t0, t, m, t') && !m.Forgets? && !m.OpenedByCopy? && !m.OpenedByAnswer?
    requires !(m.HeadLeaves? || m.Joins? || m.Overflows? || m.CopiesStart? || m.NotReady? || m.Logs? || m.DropsQueue?)
    ensures t'.ix.byTx == t.ix.byTx
  {
    hide GiveUpAll, Waiting, Collect, LearnId, Attempt, StartCaseOf, AnswersCopy, IsPruned, IsOwed;
    match m
    case Began(known, key, msg) => AttemptLeads(cfg, t, known, key, msg, e.now);
    case GivesUp => GivenUpLeads(t, Waiting(t));
    case _ =>
  }

  lemma OpenedLeads(t: Tx, x: Ref, leader: Backend, issued: int, conf: Conf, now: Time, k: int, r: Ref)
    requires WF(t) && x in t.recs && LeadsTo(t, k, r)
    ensures LeadsTo(OpenRecord(t, x, leader, issued, conf, now), k, r)
  {
    ChooseUnused(t, issued);
    hide WF, Choose;
  }

  lemma AnswerLeads(t: Tx, x: Ref, leader: Backend, frame: Frame, now: Time, k: int, r: Ref)
    requires WF(t) && x in t.recs && frame.Result? && frame.conf.tx.Some? && LeadsTo(t, k, r)
    ensures LeadsTo(AnswerOpens(t, x, leader, frame, now), k, r)
  {
    ChooseUnused(t, frame.conf.tx.value);
    hide WF, Choose;
  }

  lemma LeadsAlike(t: Tx, t': Tx, k: int, r: Ref)
    requires LeadsTo(t, k, r) && t'.ix.byTx == t.ix.byTx
    ensures LeadsTo(t', k, r)
  {
  }

  lemma PopIndexes(cfg: Config, t: Table, f: Backend, now: Time)
    requires Queue(t.tx, f) != [] && HeadStep(cfg, t, f, Queue(t.tx, f)[0], now).Leaves?
    ensures Popped(HeadStep(cfg, t, f, Queue(t.tx, f)[0], now), f, Queue(t.tx, f)).tx.ix == t.tx.ix
  {
  }

  lemma AttemptLeads(cfg: Config, t: Tx, known: Option<Ref>, key: StartKey, msg: MsgId, now: Time)
    ensures Attempt(cfg, t, known, key, msg, now).0.ix.byTx == t.ix.byTx
  {
  }

  lemma GivenUpLeads(t: Tx, rs: set<Ref>)
    ensures GiveUpAll(t, rs).ix.byTx == t.ix.byTx
  {
  }

  lemma DroppedLeads(t: Tx, b: Backend)
    ensures DropQueue(t, b).ix == t.ix
  {
  }

  lemma StepLeads(cfg: Config, t: Table, e: Event, k: int, r: Ref)
    requires WF(t.tx) && ProperEvent(e) && LeadsTo(t.tx, k, r) && !e.input.ChargerFrame? && !e.input.IdleCheck?
    ensures LeadsTo(Step(cfg, t, e).0.tx, k, r)
  {
    hide WF, LeadsTo, Step;
    ghost var inv := (x: Tx) => LeadsTo(x, k, r);
    assert Survives(cfg, e, t.tx, inv) by {
      forall x, m, x' | WF(x) && inv(x) && Moves(cfg, e, t.tx, x, m, x') ensures inv(x') {
        NoForgetting(cfg, e, t.tx, x, m, x');
        hide Moves;
        MoveLeads(cfg, e, t.tx, x, m, x', k, r);
      }
    }
    StepByMoves(cfg, t, e, inv);
  }

  lemma NoForgetting(cfg: Config, e: Event, t0: Tx, t: Tx, m: Move, t': Tx)
    requires Moves(cfg, e, t0, t, m, t') && !e.input.ChargerFrame? && !e.input.IdleCheck?
    ensures !m.Forgets?
  {
  }

  /** A frame of the charger makes the table forget no id, but for what is outdated, and gives no id to a record that has one. */
  lemma FrameLeads(cfg: Config, t: Table, frame: Frame, leader: Backend, followers: seq<Follower>, now: Time, k: int, r: Ref)
    requires WF(t.tx) && frame.Call? && r in t.tx.recs && t.tx.recs[r].txId.Some?
    ensures IsStart(frame) ==> (LeadsTo(ChargerStart(cfg, t, frame, leader, followers, now).0.tx, k, r) <==> LeadsTo(t.tx, k, r))
    ensures !IsStart(frame) ==> (LeadsTo(ChargerCall(cfg, t, frame, leader, followers, now).0.tx, k, r) <==> LeadsTo(t.tx, k, r))
  {
    hide WF, CopyStartToAll, CopyToAll, Attempt, Choose;
    if IsStart(frame) {
      var key := frame.payload.start;
      StartCaseOk(cfg, t.tx, leader, key, now);
      match StartCaseOf(cfg, t.tx, leader, key, now)
      case Numbered(x) =>
        NumberedOrPending(t.tx, x);
        ChooseUnused(t.tx, t.tx.recs[x].backendIds[leader]);
      case Forwarded(known) =>
        AttemptKeeps(cfg, t.tx, known, key, frame.id, now);
        AttemptLeads(cfg, t.tx, known, key, frame.id, now);
        var (tx1, x) := Attempt(cfg, t.tx, known, key, frame.id, now);
        CopiedRecord(cfg, Table(tx1, StartFrame(t.sp, leader, frame, true, now).0), x, known.None?, frame, followers, now);
      case _ =>
    } else if QuotesTx(frame) {
      var found := Find(t.tx.ix.byTx, frame.payload.tx.value);
      QuotedKeeps(t.tx, frame, leader, found, now);
      QuotedIs(cfg, t, frame, leader, followers, now);
      QuotedLeads(t.tx, frame, leader, found, now);
      CopyToAllServes(cfg, t.(tx := Quoted(t.tx, frame, leader, found, now)), IdCopy(found, frame), followers, now);
    } else {
      PlainOk(t.tx, frame);
      CopyToAllServes(cfg, t, PlainCopy(frame), followers, now);
    }
  }

  lemma QuotedLeads(t: Tx, frame: Frame, leader: Backend, found: Option<Ref>, now: Time)
    requires WF(t) && QuotesTx(frame) && found == Find(t.ix.byTx, frame.payload.tx.value)
    ensures Quoted(t, frame, leader, found, now).ix.byTx == t.ix.byTx
  {
    if found.Some? {
      HeldUnderWF(t, frame.payload.tx.value);
      QuotedIsMarked(t, frame, leader, found.value, now);
      CollectShape(ClosedRecord(Marked(t, leader, found.value, now), found.value, now), found.value);
    }
  }

  /** MAIN RESULT. In every reachable state, the record that the charger's id `k` leads to is still found by it after an event, unless
      the event is a frame from the charger or a check, and the record was stopped, or last used, too long ago. Then it is
      forgotten. */
  lemma RecordsForgottenExactly(cfg: Config, run: seq<Event>, e: Event, k: int)
    requires k in After(cfg, run).tx.ix.byTx && ProperEvent(e)
    ensures var t := After(cfg, run).tx; var r := t.ix.byTx[k];
      && r in t.recs && !t.recs[r].state.Pending?
      && (LeadsTo(Step(cfg, After(cfg, run), e).0.tx, k, r) <==> !((e.input.ChargerFrame? || e.input.IdleCheck?) && Outdated(cfg, t.recs[r], e.now)))
  {
    hide After, WF, ForgetAll, Expired, Lapsed, ReleaseAll, ChargerStart, ChargerCall, LeadsTo, Outdated, FromLeader, FromFollower, LeaderChanged, ExpireHolds, StartFailed, NoteCommand;
    var t := After(cfg, run);
    var r := t.tx.ix.byTx[k];
    RunKeeps(cfg, run);
    HeldUnderWF(t.tx, k);
    NumberedOrPending(t.tx, r);
    LeadsHere(t.tx, k);
    if e.input.ChargerFrame? || e.input.IdleCheck? {
      AfterForgetting(cfg, t.tx, e.now);
      var p := Prune(cfg, t, e.now, e.wall);
      LeadsFind(p.tx, k, r);
      if e.input.ChargerFrame? && e.input.frame.Call? {
        FrameLeads(cfg, p, e.input.frame, e.input.leader, e.input.followers, e.now, k, r);
      }
    } else {
      StepLeads(cfg, t, e, k, r);
    }
  }

  lemma LeadsHere(t: Tx, k: int)
    requires k in t.ix.byTx
    ensures LeadsTo(t, k, t.ix.byTx[k])
  {
  }

  lemma LeadsFind(t: Tx, k: int, r: Ref)
    ensures LeadsTo(t, k, r) <==> Find(t.ix.byTx, k) == Some(r)
  {
  }

  // ------------------------------------------------------------------
  // Answers to starts, and a change of leader
  // ------------------------------------------------------------------

  /** `b`'s answer to the start of `r` is kept: its number and its result, or that it has none. */
  ghost predicate AnswerKept(t: Tx, t': Tx, r: Ref, b: Backend, frame: Frame)
    requires r in t.recs && (frame.Result? || frame.Error?)
  {
    r in t'.recs &&
    if frame.Result? && frame.conf.tx.Some? then
      && t'.recs[r].backendIds == t.recs[r].backendIds[b := frame.conf.tx.value] && t'.recs[r].confs == t.recs[r].confs[b := frame.conf]
      && Find(t'.ix.byBackend, BackendTx(b, frame.conf.tx.value)) == Some(r) && b !in t'.recs[r].flags.degraded
    else
      t'.recs[r].backendIds == t.recs[r].backendIds && t'.recs[r].confs == t.recs[r].confs && b in t'.recs[r].flags.degraded && t'.ix.byBackend == t.ix.byBackend
  }

  /** `b` is asked for nothing about the start of `r`, because its number is known. */
  predicate IsSettledFor(rec: TxRecord, b: Backend) {
    b !in rec.flags.awaiting && b in rec.backendIds
  }

  lemma {:induction false} DrainDegrades(cfg: Config, t: Table, f: Backend, now: Time)
    requires WF(t.tx)
    ensures forall r :: r in t.tx.recs ==> var t' := Drain(cfg, t, f, now).0.tx; r in t'.recs && (f in t.tx.recs[r].flags.degraded ==> f in t'.recs[r].flags.degraded)
  {
    hide WF, Settled, InTime;
    var fates := DrainSettles(cfg, t, f, now);
  }

  /** Whoever has a number for a record is not given up on for it. */
  lemma {:induction false} DrainSpares(cfg: Config, t: Table, f: Backend, now: Time, r: Ref)
    requires WF(t.tx) && r in t.tx.recs && f in t.tx.recs[r].backendIds && f !in t.tx.recs[r].flags.degraded
    ensures var t' := Drain(cfg, t, f, now).0.tx; r in t'.recs && f !in t'.recs[r].flags.degraded
    decreases |Queue(t.tx, f)|
  {
    hide WF, HeadStep;
    var q := Queue(t.tx, f);
    if q != [] && HeadStep(cfg, t, f, q[0], now).Leaves? {
      PopKeeps(cfg, t, f, now);
      HeadSpares(cfg, t, f, q[0], now, r);
      DrainSpares(cfg, Popped(HeadStep(cfg, t, f, q[0], now), f, q), f, now, r);
    }
  }

  lemma HeadSpares(cfg: Config, t: Table, f: Backend, item: Queued, now: Time, r: Ref)
    requires r in t.tx.recs && f in t.tx.recs[r].backendIds && f !in t.tx.recs[r].flags.degraded
    ensures var h := HeadStep(cfg, t, f, item, now);
      h.Leaves? ==> r in h.t.tx.recs && f in h.t.tx.recs[r].backendIds && f !in h.t.tx.recs[r].flags.degraded
  {
  }

  lemma LearnKept(t: Tx, r: Ref, b: Backend, frame: Frame)
    requires r in t.recs && (frame.Result? || frame.Error?)
    ensures AnswerKept(t, Learn(t, r, b, frame), r, b, frame)
  {
    CollectShape(LearnId(t, r, b, frame), r);
  }

  lemma KeptServed(t: Tx, t1: Tx, t2: Tx, r: Ref, b: Backend, frame: Frame)
    requires r in t.recs && (frame.Result? || frame.Error?) && AnswerKept(t, t1, r, b, frame) && OnlyCopies(t1, t2, {b})
    requires r in t2.recs && (b in t1.recs[r].flags.degraded ==> b in t2.recs[r].flags.degraded)
    requires r in t1.recs && b in t1.recs[r].backendIds && b !in t1.recs[r].flags.degraded ==> b !in t2.recs[r].flags.degraded
    ensures AnswerKept(t, t2, r, b, frame)
  {
    assert OnlyFlags(t1.recs[r], t2.recs[r], {b});
  }

  /** MAIN RESULT. What a follower answers is heard by nobody else. If it answers a start that the table tracks and that it is
      awaited for, or has not numbered, then its number and its result are kept for that very record, or that it has none. */
  lemma FollowersAreHeardByTheTableOnly(cfg: Config, run: seq<Event>, e: Event)
    requires e.input.FollowerFrame?
    ensures var (t, frame, f) := (After(cfg, run).tx, e.input.frame, e.input.follower); var (t', out) := Step(cfg, After(cfg, run), e);
      && out.toLeader.None? && out.toCharger == [] && (forall s :: s in out.toFollowers ==> s.to == f)
      && (if (frame.Result? || frame.Error?) && frame.id in t.ix.startMsgs && !IsSettledFor(Rec(t, t.ix.startMsgs[frame.id]), f)
          then t.ix.startMsgs[frame.id] in t.recs && AnswerKept(t, t'.tx, t.ix.startMsgs[frame.id], f, frame)
          else t'.tx == t.(copied := t'.tx.copied) && out.toFollowers == [])
  {
    hide After, WF, Drain, Learn, AnswerKept;
    RunKeeps(cfg, run);
    var t, frame, f := After(cfg, run), e.input.frame, e.input.follower;
    if frame.Result? || frame.Error? {
      var t1 := t.(tx := t.tx.(copied := Without(t.tx.copied, Copy(f, frame.id))));
      CopiedKeeps(t.tx, t1.tx.copied);
      if frame.id in t1.tx.ix.startMsgs && !IsSettledFor(Rec(t.tx, t.tx.ix.startMsgs[frame.id]), f) {
        var r := t.tx.ix.startMsgs[frame.id];
        TrackedHeld(t1.tx, frame.id);
        LearnKeeps(t1.tx, r, f, frame);
        LearnKept(t1.tx, r, f, frame);
        var t2 := t1.(tx := Learn(t1.tx, r, f, frame));
        KeptBefore(t.tx, t1.tx, t2.tx, r, f, frame);
        LearntStays(t1.tx, r, f, frame);
        DrainServes(cfg, t2, f, e.now);
        DrainDegrades(cfg, t2, f, e.now);
        if f in t2.tx.recs[r].backendIds && f !in t2.tx.recs[r].flags.degraded {
          DrainSpares(cfg, t2, f, e.now, r);
        }
        KeptServed(t.tx, t2.tx, Drain(cfg, t2, f, e.now).0.tx, r, f, frame);
      }
    }
  }

  lemma KeptBefore(t: Tx, t1: Tx, t2: Tx, r: Ref, b: Backend, frame: Frame)
    requires t1 == t.(copied := t1.copied) && r in t.recs && (frame.Result? || frame.Error?) && AnswerKept(t1, t2, r, b, frame)
    ensures AnswerKept(t, t2, r, b, frame)
  {
  }

  lemma LearntStays(t: Tx, r: Ref, b: Backend, frame: Frame)
    requires r in t.recs
    ensures r in Learn(t, r, b, frame).recs
  {
    CollectShape(LearnId(t, r, b, frame), r);
  }

  /** MAIN RESULT. When the leader numbers a start that it was asked for and that is still pending, the record is open from then on, with
      that number for the leader; and the charger's id is the same number if the charger holds none like it, and otherwise an
      invented one, that it does not hold. */
  lemma LeadersNumberIsKept(cfg: Config, run: seq<Event>, e: Event, r: Ref)
    requires e.input.LeaderFrameIn? && e.input.frame.Result? && e.input.frame.conf.tx.Some?
    requires var t := After(cfg, run).tx; Find(t.ix.startMsgs, e.input.frame.id) == Some(r) && e.input.frame.id in Rec(t, r).tries.sent && Rec(t, r).state.Pending?
    ensures var (t, leader, conf) := (After(cfg, run).tx, e.input.leader, e.input.frame.conf); var t' := Step(cfg, After(cfg, run), e).0.tx;
      && r in t.recs && r in t'.recs
      && t'.recs[r].state.Open? && t'.recs[r].backendIds == t.recs[r].backendIds[leader := conf.tx.value] && t'.recs[r].touched == e.now
      && t'.recs[r].txId.Some? && t'.recs[r].txId.value !in t.ix.byTx && LeadsTo(t', t'.recs[r].txId.value, r)
      && (if conf.tx.value in t.ix.byTx then IsInvented(t, t'.recs[r].txId.value) else t'.recs[r].txId == conf.tx)
      && t'.recs[r].conf == Some(conf.(tx := t'.recs[r].txId))
      && Find(t'.ix.byBackend, BackendTx(leader, conf.tx.value)) == Some(r) && t'.recs[r].tries.aliases == []
      && e.input.frame.id !in t'.recs[r].tries.sent && leader !in t'.recs[r].flags.awaiting && leader !in t'.recs[r].flags.degraded
  {
    hide After, WF, Choose, IsInvented;
    RunKeeps(cfg, run);
    var t, leader, frame := After(cfg, run).tx, e.input.leader, e.input.frame;
    TrackedHeld(t, frame.id);
    ChooseUnused(t, frame.conf.tx.value);
    InventedUnlessFree(t, frame.conf.tx.value);
    var t1 := OpenRecord(t, r, leader, frame.conf.tx.value, frame.conf, e.now);
    CollectShape(Put(t1, r, WithoutRetries(Rec(t1, r), frame.id)), r);
  }

  lemma InventedUnlessFree(t: Tx, issued: int)
    ensures if issued in t.ix.byTx then IsInvented(t, Choose(t, issued)) else Choose(t, issued) == issued
  {
    if issued in t.ix.byTx {
      InventedIs(t, issued);
    }
  }

  /** Nothing is outstanding of a pending start, nobody was or will be sent a copy, and nobody has numbered it. */
  predicate StandsForNothing(rec: TxRecord) {
    rec.flags.awaiting == {} && rec.flags.queued == {} && rec.backendIds == map[]
  }

  /** MAIN RESULT. When the leader refuses a pending start it was asked for, or numbers it with nothing, that attempt is over: if it was
      the last one, no retry waits any more, and the start is forgotten exactly when nobody can still have it. Everything else about the
      record stays. */
  lemma AFailedStartIsForgotten(cfg: Config, run: seq<Event>, e: Event, r: Ref)
    requires e.input.LeaderFrameIn? && (e.input.frame.Error? || (e.input.frame.Result? && e.input.frame.conf.tx.None?))
    requires var t := After(cfg, run).tx; Find(t.ix.startMsgs, e.input.frame.id) == Some(r) && e.input.frame.id in Rec(t, r).tries.sent && Rec(t, r).state.Pending?
    ensures var (t, t', id) := (After(cfg, run).tx, Step(cfg, After(cfg, run), e).0.tx, e.input.frame.id);
      && r in t.recs && r in t'.recs && t'.recs[r] == t.recs[r].(tries := t'.recs[r].tries) && t'.recs[r].tries.sent == t.recs[r].tries.sent - {id}
      && t'.recs[r].tries.aliases == (if t.recs[r].tries.sent == {id} then [] else t.recs[r].tries.aliases)
      && t'.ix.byTx == t.ix.byTx && t'.ix.byBackend == t.ix.byBackend && t'.held == t.held
      && (Find(t.ix.byStart, t.recs[r].key) == Some(r) ==>
            Find(t'.ix.byStart, t.recs[r].key) == (if t.recs[r].tries.sent == {id} && StandsForNothing(t.recs[r]) then None else Some(r)))
  {
    hide After, WF;
    RunKeeps(cfg, run);
    var t, frame := After(cfg, run).tx, e.input.frame;
    TrackedHeld(t, frame.id);
    hide DropAttempt;
    DroppedAttempt(t, r, frame.id);
    CollectShape(DropAttempt(t, r, frame.id), r);
    hide Collect, StandsForNothing;
    CollectedStart(DropAttempt(t, r, frame.id), r);
  }

  lemma DroppedAttempt(t: Tx, r: Ref, msg: MsgId)
    requires r in t.recs
    ensures var t' := DropAttempt(t, r, msg);
      && t' == t.(recs := t.recs[r := t'.recs[r]]) && t'.recs[r] == t.recs[r].(tries := t'.recs[r].tries) && t'.recs[r].tries.sent == t.recs[r].tries.sent - {msg}
      && t'.recs[r].tries.aliases == (if t.recs[r].tries.sent - {msg} == {} then [] else t.recs[r].tries.aliases)
  {
  }

  lemma CollectedStart(t: Tx, r: Ref)
    requires r in t.recs && t.recs[r].state.Pending?
    ensures Find(t.ix.byStart, t.recs[r].key) == Some(r) ==>
      Find(Collect(t, r).ix.byStart, t.recs[r].key) == if t.recs[r].tries.sent == {} && StandsForNothing(t.recs[r]) then None else Some(r)
  {
  }

  /** The new leader was to be sent a copy that concerns the record. */
  ghost predicate WasDue(t: Tx, b: Backend, r: Ref) {
    exists i :: 0 <= i < |Queue(t, b)| && Concerns(Queue(t, b)[i], r)
  }

  predicate Concerns(item: Queued, r: Ref) {
    (item.StartCopy? && item.ref == r) || (item.IdCopy? && item.rec == Some(r))
  }

  /** The new leader is given up on, if it was to be sent a copy. */
  ghost function FlagsWithout(flags: Flags, newLeader: Option<Backend>, t: Tx, r: Ref): Flags {
    if newLeader.None? || !WasDue(t, newLeader.value, r) then flags
    else
      var b := newLeader.value;
      flags.(degraded := flags.degraded + {b}, awaiting := flags.awaiting - {b}, queued := flags.queued - {b})
  }

  /** MAIN RESULT. When the leader changes, every start that waits for an answer is void: no attempt is outstanding, no retry waits,
      and it is forgotten if nobody can still have it. Ids, answers and numbers stay; the new leader has no queue any more, and
      whatever waited in it is marked as given up on; every other queue stays as it is. */
  lemma AChangeOfLeaderVoidsStarts(cfg: Config, run: seq<Event>, e: Event, key: StartKey)
    requires e.input.Promotion?
    ensures var t := After(cfg, run).tx; var (t', out) := Step(cfg, After(cfg, run), e);
      && out == Output(None, [], []) && t'.sp == After(cfg, run).sp && t'.tx.ix.byTx == t.ix.byTx && t'.tx.ix.byBackend == t.ix.byBackend
      && (forall r :: r in t.recs ==> r in t'.tx.recs && t'.tx.recs[r] == t.recs[r].(flags := FlagsWithout(t.recs[r].flags, e.input.newLeader, t, r), tries := t'.tx.recs[r].tries))
      && (key in t.ix.byStart ==>
            var r := t.ix.byStart[key];
            && r in t.recs
            && (t.recs[r].state.Pending? ==> t'.tx.recs[r].tries.sent == {} && (t.recs[r].tries.sent != {} ==> t'.tx.recs[r].tries.aliases == []))
            && Find(t'.tx.ix.byStart, key) == (if t.recs[r].state.Pending? && t.recs[r].tries.sent != {} && StandsForNothing(t.recs[r]) then None else Some(r)))
      && (forall f: Backend :: Queue(t'.tx, f) == if e.input.newLeader == Some(f) then [] else Queue(t, f))
  {
    hide After, WF;
    RunKeeps(cfg, run);
    var t := After(cfg, run).tx;
    if key in t.ix.byStart {
      StartLeads(t, key);
    }
    hide Waiting, GiveUpAll, DropQueue, StandsForNothing;
    GivenUpAre(t, key);
    hide WasDue;
    var t1 := GiveUpAll(t, Waiting(t));
    if e.input.newLeader.Some? {
      DroppedAre(t1, e.input.newLeader.value);
      SameDue(t, t1, e.input.newLeader.value);
    }
  }

  lemma SameDue(t: Tx, t': Tx, b: Backend)
    requires t'.held == t.held
    ensures forall r: Ref :: WasDue(t', b, r) == WasDue(t, b, r)
  {
    assert Queue(t', b) == Queue(t, b);
  }

  lemma GivenUpAre(t: Tx, key: StartKey)
    requires key in t.ix.byStart ==> t.ix.byStart[key] in t.recs
    ensures var t1 := GiveUpAll(t, Waiting(t));
      && t1.ix.byTx == t.ix.byTx && t1.ix.byBackend == t.ix.byBackend && t1.held == t.held
      && (forall r :: r in t.recs ==> r in t1.recs && t1.recs[r] == t.recs[r].(tries := t1.recs[r].tries))
      && (key in t.ix.byStart ==>
            var r := t.ix.byStart[key];
            && (t.recs[r].state.Pending? ==> t1.recs[r].tries.sent == {} && (t.recs[r].tries.sent != {} ==> t1.recs[r].tries.aliases == []))
            && Find(t1.ix.byStart, key) == (if t.recs[r].state.Pending? && t.recs[r].tries.sent != {} && StandsForNothing(t.recs[r]) then None else Some(r)))
  {
    WaitingAre(t);
    hide Waiting;
  }

  lemma DroppedAre(t: Tx, b: Backend)
    ensures var t1 := DropQueue(t, b);
      && t1.ix == t.ix && (forall r :: r in t.recs ==> r in t1.recs && t1.recs[r] == t.recs[r].(flags := FlagsWithout(t.recs[r].flags, Some(b), t, r)))
      && (forall f: Backend :: Queue(t1, f) == if f == b then [] else Queue(t, f))
  {
    forall r | r in t.recs ensures r in RefsIn(Queue(t, b)) <==> WasDue(t, b, r) {
      InQueue(Queue(t, b), r);
    }
  }

  lemma InQueue(q: seq<Queued>, r: Ref)
    ensures r in RefsIn(q) <==> exists i :: 0 <= i < |q| && Concerns(q[i], r)
  {
    if r in RefsIn(q) {
      var i :| 0 <= i < |q| && ConcernsTx(q[i]) && RefOf(q[i]) == r;
      assert Concerns(q[i], r);
    }
    if i :| 0 <= i < |q| && Concerns(q[i], r) {
      assert ConcernsTx(q[i]) && RefOf(q[i]) == r;
    }
  }

  lemma StartLeads(t: Tx, key: StartKey)
    requires WF(t) && key in t.ix.byStart
    ensures t.ix.byStart[key] in t.recs
  {
    hide RecordsOk, QueuesOk;
  }

  lemma WaitingAre(t: Tx)
    ensures forall key :: key in t.ix.byStart ==> (t.ix.byStart[key] in Waiting(t) <==> Rec(t, t.ix.byStart[key]).state.Pending? && Rec(t, t.ix.byStart[key]).tries.sent != {})
  {
  }
}
