/** Whole runs of the table, from empty: where every id a follower is told comes from, and in which order. */
module TableRuns {
  import opened Ocpp
  import opened TableState
  import opened TableSteps
  import opened TableInvariant
  import opened TableCopies
  import opened IdSpaces

  // ------------------------------------------------------------------
  // What happened in a run
  // ------------------------------------------------------------------

  /** The charger sent the start `key` as message `msg`. */
  ghost predicate Started(run: seq<Event>, msg: MsgId, key: StartKey) {
    exists j :: 0 <= j < |run| && SendsStart(run[j].input, msg, key)
  }

  predicate SendsStart(input: Input, msg: MsgId, key: StartKey) {
    input.ChargerFrame? && IsStart(input.frame) && input.frame.id == msg && input.frame.payload.start == key
  }

  /** Backend `b` answered message `msg` with the transaction id `id`, when that message led to the record `r`. */
  ghost predicate Answered(cfg: Config, run: seq<Event>, r: Ref, b: Backend, msg: MsgId, id: int) {
    exists j :: 0 <= j < |run| && Answers(run[j].input, b, msg, id) && LedTo(cfg, run, j, msg, r)
  }

  /** When the `j`th event came, the message `msg` was tracked as one that carried the start of the record `r`. */
  ghost predicate LedTo(cfg: Config, run: seq<Event>, j: nat, msg: MsgId, r: Ref)
    requires j < |run|
  {
    Find(After(cfg, run[..j]).tx.ix.startMsgs, msg) == Some(r)
  }

  lemma LedToLater(cfg: Config, run: seq<Event>, e: Event, j: nat, msg: MsgId, r: Ref)
    requires j <= |run| && (if j < |run| then LedTo(cfg, run, j, msg, r) else Find(After(cfg, run).tx.ix.startMsgs, msg) == Some(r))
    ensures LedTo(cfg, run + [e], j, msg, r)
  {
    hide After;
    assert (run + [e])[..j] == run[..j] && run[..|run|] == run;
  }

  predicate Answers(input: Input, b: Backend, msg: MsgId, id: int) {
    match input
    case LeaderFrameIn(leader, frame) => leader == b && frame.Result? && frame.id == msg && frame.conf.tx == Some(id)
    case FollowerFrame(follower, frame) => follower == b && frame.Result? && frame.id == msg && frame.conf.tx == Some(id)
    case _ => false
  }

  /** Backend `b` itself issued `id` for the record `r`, the start `key`: it answered a message with it that carried that
      start and led to that very record. */
  ghost predicate IssuedFor(cfg: Config, run: seq<Event>, r: Ref, key: StartKey, b: Backend, id: int) {
    exists msg: MsgId :: Started(run, msg, key) && Answered(cfg, run, r, b, msg, id)
  }

  /** Backend `b` itself made a reservation it calls `id`. */
  ghost predicate Reserved(run: seq<Event>, b: Backend, id: int) {
    exists j :: 0 <= j < |run| && Reserves(run[j].input, b, id)
  }

  predicate Reserves(input: Input, b: Backend, id: int) {
    input.LeaderFrameIn? && input.leader == b && input.frame.Call? && input.frame.action.ReserveNow? && input.frame.payload.obj == Some(id)
  }

  /** Every id the table holds for a backend was issued by that backend for that very start or reservation. */
  ghost predicate Sourced(cfg: Config, run: seq<Event>, t: Table) {
    && (forall r :: r in t.tx.recs ==> IdsSourced(cfg, run, r, t.tx.recs[r]))
    && (forall m :: m in t.tx.ix.startMsgs ==> t.tx.ix.startMsgs[m] in t.tx.recs && Started(run, m, t.tx.recs[t.tx.ix.startMsgs[m]].key))
    && (forall k :: k in t.sp.objs ==> NumbersSourced(run, t.sp.objs[k]))
  }

  ghost predicate IdsSourced(cfg: Config, run: seq<Event>, r: Ref, rec: TxRecord) {
    forall b :: b in rec.backendIds ==> IssuedFor(cfg, run, r, rec.key, b, rec.backendIds[b])
  }

  ghost predicate NumbersSourced(run: seq<Event>, o: IdRecord) {
    o.space.Reservation? ==> forall b :: b in o.backendIds ==> Reserved(run, b, o.backendIds[b])
  }

  lemma StartedLater(run: seq<Event>, e: Event, msg: MsgId, key: StartKey)
    requires Started(run, msg, key) || SendsStart(e.input, msg, key)
    ensures Started(run + [e], msg, key)
  {
    if Started(run, msg, key) {
      var j :| 0 <= j < |run| && SendsStart(run[j].input, msg, key);
      assert (run + [e])[j] == run[j];
    } else {
      assert (run + [e])[|run|] == e;
    }
  }

  lemma IssuedLater(cfg: Config, run: seq<Event>, e: Event, r: Ref, key: StartKey, b: Backend, id: int)
    requires IssuedFor(cfg, run, r, key, b, id)
    ensures IssuedFor(cfg, run + [e], r, key, b, id)
  {
    hide LedTo;
    var msg: MsgId :| Started(run, msg, key) && Answered(cfg, run, r, b, msg, id);
    StartedLater(run, e, msg, key);
    var j :| 0 <= j < |run| && Answers(run[j].input, b, msg, id) && LedTo(cfg, run, j, msg, r);
    assert (run + [e])[j] == run[j];
    LedToLater(cfg, run, e, j, msg, r);
    assert Answered(cfg, run + [e], r, b, msg, id);
  }

  lemma ReservedLater(run: seq<Event>, e: Event, b: Backend, id: int)
    requires Reserved(run, b, id) || Reserves(e.input, b, id)
    ensures Reserved(run + [e], b, id)
  {
    if Reserved(run, b, id) {
      var j :| 0 <= j < |run| && Reserves(run[j].input, b, id);
      assert (run + [e])[j] == run[j];
    } else {
      assert (run + [e])[|run|] == e;
    }
  }

  lemma SourcedLater(cfg: Config, run: seq<Event>, e: Event, t: Table)
    requires Sourced(cfg, run, t)
    ensures Sourced(cfg, run + [e], t)
  {
    forall r, b | r in t.tx.recs && b in t.tx.recs[r].backendIds ensures IssuedFor(cfg, run + [e], r, t.tx.recs[r].key, b, t.tx.recs[r].backendIds[b]) {
      assert IdsSourced(cfg, run, r, t.tx.recs[r]);
      IssuedLater(cfg, run, e, r, t.tx.recs[r].key, b, t.tx.recs[r].backendIds[b]);
    }
    forall m | m in t.tx.ix.startMsgs ensures Started(run + [e], m, t.tx.recs[t.tx.ix.startMsgs[m]].key) {
      StartedLater(run, e, m, t.tx.recs[t.tx.ix.startMsgs[m]].key);
    }
    forall k, b | k in t.sp.objs && t.sp.objs[k].space.Reservation? && b in t.sp.objs[k].backendIds ensures Reserved(run + [e], b, t.sp.objs[k].backendIds[b]) {
      assert NumbersSourced(run, t.sp.objs[k]);
      ReservedLater(run, e, b, t.sp.objs[k].backendIds[b]);
    }
  }

  // ------------------------------------------------------------------
  // Most changes bring no new ids
  // ------------------------------------------------------------------

  /** No record has an id it did not have, and no message is tracked that was not. */
  ghost predicate NoNewIds(t: Tx, t': Tx) {
    && (forall r :: r in t'.recs ==>
          if r in t.recs then t'.recs[r].key == t.recs[r].key && t'.recs[r].backendIds == t.recs[r].backendIds
          else t'.recs[r].backendIds == map[])
    && (forall m :: m in t'.ix.startMsgs ==> m in t.ix.startMsgs && t'.ix.startMsgs[m] == t.ix.startMsgs[m])
    && t.recs.Keys <= t'.recs.Keys
  }

  ghost predicate NoNewNumbers(sp: Spaces, sp': Spaces) {
    forall k :: k in sp'.objs ==>
      if k in sp.objs then sp'.objs[k].space == sp.objs[k].space && sp'.objs[k].backendIds == sp.objs[k].backendIds
      else sp'.objs[k].backendIds == map[]
  }

  lemma NoNewIdsTransitive(t0: Tx, t1: Tx, t2: Tx)
    requires NoNewIds(t0, t1) && NoNewIds(t1, t2)
    ensures NoNewIds(t0, t2)
  {
  }

  lemma SourcedKept(cfg: Config, run: seq<Event>, t: Table, t': Table)
    requires Sourced(cfg, run, t) && NoNewIds(t.tx, t'.tx) && NoNewNumbers(t.sp, t'.sp)
    ensures Sourced(cfg, run, t')
  {
    forall r | r in t'.tx.recs ensures IdsSourced(cfg, run, r, t'.tx.recs[r]) {
      assert r in t.tx.recs ==> IdsSourced(cfg, run, r, t.tx.recs[r]);
    }
    forall k | k in t'.sp.objs ensures NumbersSourced(run, t'.sp.objs[k]) {
      assert k in t.sp.objs ==> NumbersSourced(run, t.sp.objs[k]);
    }
  }

  lemma ServesBringsNothing(t: Table, t': Table, F: set<Backend>)
    requires Serves(t, t', F)
    ensures NoNewIds(t.tx, t'.tx) && NoNewNumbers(t.sp, t'.sp)
  {
  }

  lemma PutBringsNothing(t: Tx, r: Ref, rec: TxRecord)
    requires r in t.recs && rec.key == t.recs[r].key && rec.backendIds == t.recs[r].backendIds
    ensures NoNewIds(t, Put(t, r, rec))
  {
  }

  lemma CollectBringsNothing(t: Tx, r: Ref)
    requires r in t.recs
    ensures NoNewIds(t, Collect(t, r))
  {
    CollectShape(t, r);
  }

  lemma PutCollectBringsNothing(t: Tx, r: Ref, rec: TxRecord)
    requires r in t.recs && rec.key == t.recs[r].key && rec.backendIds == t.recs[r].backendIds
    ensures NoNewIds(t, Collect(Put(t, r, rec), r))
  {
    PutBringsNothing(t, r, rec);
    CollectBringsNothing(Put(t, r, rec), r);
    NoNewIdsTransitive(t, Put(t, r, rec), Collect(Put(t, r, rec), r));
  }

  lemma PruneBringsNothing(cfg: Config, t: Table, now: Time, wall: Time)
    ensures NoNewIds(t.tx, Prune(cfg, t, now, wall).tx) && NoNewNumbers(t.sp, Prune(cfg, t, now, wall).sp)
  {
  }

  lemma LeaderChangedBringsNothing(t: Tx, newLeader: Option<Backend>)
    ensures NoNewIds(t, LeaderChanged(t, newLeader))
  {
    var t1 := GiveUpAll(t, Waiting(t));
    assert NoNewIds(t, t1);
    if newLeader.Some? {
      assert NoNewIds(t1, DropQueue(t1, newLeader.value));
      NoNewIdsTransitive(t, t1, DropQueue(t1, newLeader.value));
    }
  }

  lemma QuotedBringsNothing(t: Tx, frame: Frame, leader: Backend, found: Option<Ref>, now: Time)
    requires WF(t) && QuotesTx(frame) && found == Find(t.ix.byTx, frame.payload.tx.value)
    ensures NoNewIds(t, Quoted(t, frame, leader, found, now))
  {
    if found.Some? {
      var r := found.value;
      HeldUnder(t, frame.payload.tx.value);
      QuotedIsMarked(t, frame, leader, r, now);
      var t1 := Marked(t, leader, r, now);
      PutBringsNothing(t, r, t1.recs[r]);
      if frame.action.StopTransaction? && !t1.recs[r].state.Closed? {
        CloseBringsNothing(t1, r, now);
        NoNewIdsTransitive(t, t1, CloseRecord(t1, r, now));
      }
    }
  }

  lemma CloseBringsNothing(t: Tx, r: Ref, now: Time)
    requires r in t.recs
    ensures NoNewIds(t, CloseRecord(t, r, now))
  {
    var t1 := ClosedRecord(t, r, now);
    CollectBringsNothing(t1, r);
    NoNewIdsTransitive(t, t1, Collect(t1, r));
  }

  // ------------------------------------------------------------------
  // The changes that do bring an id
  // ------------------------------------------------------------------

  /** The answer `frame` of `b`, seen with the table `t` before it, is one of the run. */
  ghost predicate AnswersNow(cfg: Config, run: seq<Event>, t: Tx, b: Backend, frame: Frame) {
    frame.Result? && frame.conf.tx.Some? && frame.id in t.ix.startMsgs ==> Answered(cfg, run, t.ix.startMsgs[frame.id], b, frame.id, frame.conf.tx.value)
  }

  lemma NewIdSourced(cfg: Config, run: seq<Event>, t: Table, t': Table, r: Ref, b: Backend, id: int)
    requires Sourced(cfg, run, t) && r in t.tx.recs && IssuedFor(cfg, run, r, t.tx.recs[r].key, b, id)
    requires t'.sp == t.sp && t'.tx.ix.startMsgs == t.tx.ix.startMsgs
    requires r in t'.tx.recs && t'.tx.recs == t.tx.recs[r := t'.tx.recs[r]]
    requires t'.tx.recs[r].key == t.tx.recs[r].key && t'.tx.recs[r].backendIds == t.tx.recs[r].backendIds[b := id]
    ensures Sourced(cfg, run, t')
  {
    assert IdsSourced(cfg, run, r, t.tx.recs[r]);
    assert IdsSourced(cfg, run, r, t'.tx.recs[r]);
  }

  lemma LearnSourced(cfg: Config, run: seq<Event>, t: Table, r: Ref, b: Backend, frame: Frame)
    requires Sourced(cfg, run, t) && (frame.Result? || frame.Error?) && Find(t.tx.ix.startMsgs, frame.id) == Some(r)
    requires AnswersNow(cfg, run, t.tx, b, frame)
    ensures Sourced(cfg, run, t.(tx := Learn(t.tx, r, b, frame)))
  {
    var t1 := t.(tx := LearnId(t.tx, r, b, frame));
    if frame.Result? && frame.conf.tx.Some? {
      assert IssuedFor(cfg, run, r, t.tx.recs[r].key, b, frame.conf.tx.value);
      NewIdSourced(cfg, run, t, t1, r, b, frame.conf.tx.value);
    } else {
      PutBringsNothing(t.tx, r, t1.tx.recs[r]);
      SourcedKept(cfg, run, t, t1);
    }
    CollectBringsNothing(t1.tx, r);
    SourcedKept(cfg, run, t1, t1.(tx := Collect(t1.tx, r)));
  }

  lemma OpenSourced(cfg: Config, run: seq<Event>, t: Table, r: Ref, leader: Backend, issued: int, conf: Conf, now: Time)
    requires Sourced(cfg, run, t) && r in t.tx.recs && IssuedFor(cfg, run, r, t.tx.recs[r].key, leader, issued)
    ensures Sourced(cfg, run, t.(tx := OpenRecord(t.tx, r, leader, issued, conf, now)))
  {
    NewIdSourced(cfg, run, t, t.(tx := OpenRecord(t.tx, r, leader, issued, conf, now)), r, leader, issued);
  }

  lemma AttemptSourced(cfg: Config, run: seq<Event>, t: Table, known: Option<Ref>, key: StartKey, msg: MsgId, now: Time)
    requires WF(t.tx) && Sourced(cfg, run, t) && Started(run, msg, key)
    requires known.Some? ==> known.value in t.tx.recs && t.tx.recs[known.value].key == key
    ensures Sourced(cfg, run, t.(tx := Attempt(cfg, t.tx, known, key, msg, now).0))
  {
    var (tx1, r) := Attempt(cfg, t.tx, known, key, msg, now);
    assert r in t.tx.recs ==> IdsSourced(cfg, run, r, t.tx.recs[r]);
    assert IdsSourced(cfg, run, r, tx1.recs[r]);
  }

  lemma ChargerStartSourced(cfg: Config, run: seq<Event>, t: Table, frame: Frame, leader: Backend, followers: seq<Follower>, now: Time)
    requires WF(t.tx) && Sourced(cfg, run, t) && IsStart(frame) && Started(run, frame.id, frame.payload.start)
    ensures Sourced(cfg, run, ChargerStart(cfg, t, frame, leader, followers, now).0)
  {
    var key := frame.payload.start;
    StartCaseOk(cfg, t.tx, leader, key, now);
    match StartCaseOf(cfg, t.tx, leader, key, now)
    case Again(r) =>
    case Numbered(r) =>
      assert IdsSourced(cfg, run, r, t.tx.recs[r]);
      OpenSourced(cfg, run, t, r, leader, t.tx.recs[r].backendIds[leader], t.tx.recs[r].confs[leader], now);
    case Copied(r) =>
      var t1 := AwaitCopy(t.tx, r, leader, now);
      PutBringsNothing(t.tx, r, t1.recs[r]);
      PutBringsNothing(t1, r, Park(t1, r, frame.id).recs[r]);
      NoNewIdsTransitive(t.tx, t1, Park(t1, r, frame.id));
      SourcedKept(cfg, run, t, t.(tx := Park(t1, r, frame.id)));
    case Busy(r) =>
      PutBringsNothing(t.tx, r, Park(t.tx, r, frame.id).recs[r]);
      SourcedKept(cfg, run, t, t.(tx := Park(t.tx, r, frame.id)));
    case Forwarded(known) =>
      ForwardedSourced(cfg, run, t, known, frame, leader, followers, now);
  }

  lemma ForwardedSourced(cfg: Config, run: seq<Event>, t: Table, known: Option<Ref>, frame: Frame, leader: Backend, followers: seq<Follower>, now: Time)
    requires WF(t.tx) && Sourced(cfg, run, t) && IsStart(frame) && Started(run, frame.id, frame.payload.start)
    requires known.Some? ==> IsHeld(t.tx, known.value) && t.tx.recs[known.value].key == frame.payload.start
    requires known.None? && cfg.dedupe ==> frame.payload.start !in t.tx.ix.byStart
    ensures var (tx1, r) := Attempt(cfg, t.tx, known, frame.payload.start, frame.id, now);
      Sourced(cfg, run, CopyStartToAll(cfg, Table(tx1, StartFrame(t.sp, leader, frame, true, now).0), r, known.None?, frame, followers, now).0)
  {
    var key := frame.payload.start;
    AttemptKeeps(cfg, t.tx, known, key, frame.id, now);
    AttemptSourced(cfg, run, t, known, key, frame.id, now);
    var (tx1, r) := Attempt(cfg, t.tx, known, key, frame.id, now);
    StartFrameSame(t.sp, leader, frame, true, now);
    var t1 := Table(tx1, StartFrame(t.sp, leader, frame, true, now).0);
    SourcedKept(cfg, run, t.(tx := tx1), t1);
    CopyStartToAllServes(cfg, t1, r, known.None?, frame, followers, now);
    var t2 := CopyStartToAll(cfg, t1, r, known.None?, frame, followers, now).0;
    ServesBringsNothing(t1, t2, KeysOf(followers));
    SourcedKept(cfg, run, t1, t2);
  }

  lemma ChargerCallSourced(cfg: Config, run: seq<Event>, t: Table, frame: Frame, leader: Backend, followers: seq<Follower>, now: Time)
    requires WF(t.tx) && Sourced(cfg, run, t) && frame.Call? && !IsStart(frame)
    ensures Sourced(cfg, run, ChargerCall(cfg, t, frame, leader, followers, now).0)
  {
    if QuotesTx(frame) {
      var found := Find(t.tx.ix.byTx, frame.payload.tx.value);
      QuotedKeeps(t.tx, frame, leader, found, now);
      QuotedBringsNothing(t.tx, frame, leader, found, now);
      var t1 := t.(tx := Quoted(t.tx, frame, leader, found, now));
      SourcedKept(cfg, run, t, t1);
      CopiesSourced(cfg, run, t1, IdCopy(found, frame), followers, now);
    } else {
      CopiesSourced(cfg, run, t, PlainCopy(frame), followers, now);
    }
  }

  lemma CopiesSourced(cfg: Config, run: seq<Event>, t: Table, item: Queued, followers: seq<Follower>, now: Time)
    requires WF(t.tx) && Sourced(cfg, run, t) && ItemOk(t.tx, item)
    ensures Sourced(cfg, run, CopyToAll(cfg, t, item, followers, now).0)
  {
    CopyToAllServes(cfg, t, item, followers, now);
    ServesBringsNothing(t, CopyToAll(cfg, t, item, followers, now).0, KeysOf(followers));
    SourcedKept(cfg, run, t, CopyToAll(cfg, t, item, followers, now).0);
  }

  lemma FromChargerSourced(cfg: Config, run: seq<Event>, t: Table, frame: Frame, leader: Backend, followers: seq<Follower>, now: Time, wall: Time)
    requires WF(t.tx) && Sourced(cfg, run, t) && (IsStart(frame) ==> Started(run, frame.id, frame.payload.start))
    ensures Sourced(cfg, run, FromCharger(cfg, t, frame, leader, followers, now, wall).0)
  {
    ForgetKeeps(t.tx, Expired(cfg, t.tx, now));
    PruneBringsNothing(cfg, t, now, wall);
    var t1 := Prune(cfg, t, now, wall);
    SourcedKept(cfg, run, t, t1);
    if IsStart(frame) {
      ChargerStartSourced(cfg, run, t1, frame, leader, followers, now);
    } else if frame.Call? {
      ChargerCallSourced(cfg, run, t1, frame, leader, followers, now);
    } else if !frame.Odd? {
      SourcedKept(cfg, run, t1, t1.(sp := SettleReply(t1.sp, frame)));
    }
  }

  lemma LeaderAnswerSourced(cfg: Config, run: seq<Event>, t: Table, leader: Backend, frame: Frame, now: Time)
    requires WF(t.tx) && Sourced(cfg, run, t) && (frame.Result? || frame.Error?) && AnswersNow(cfg, run, t.tx, leader, frame)
    ensures Sourced(cfg, run, t.(tx := LeaderAnswer(t.tx, leader, frame, now).0))
  {
    hide Learn, OwedAnswer, Sourced;
    if IsOwed(t.tx, frame.id) {
      OwedAnswerSourced(cfg, run, t, t.tx.ix.startMsgs[frame.id], leader, frame, now);
    } else {
      var t1 := if AnswersCopy(t.tx, leader, frame.id) then t.(tx := Learn(t.tx, t.tx.ix.startMsgs[frame.id], leader, frame)) else t;
      if AnswersCopy(t.tx, leader, frame.id) {
        LearnSourced(cfg, run, t, t.tx.ix.startMsgs[frame.id], leader, frame);
      }
      SourcedKept(cfg, run, t1, t.(tx := LeaderAnswer(t.tx, leader, frame, now).0));
    }
  }

  lemma SameNumbers(sp: Spaces)
    ensures NoNewNumbers(sp, sp)
  {
  }

  lemma OwedAnswerSourced(cfg: Config, run: seq<Event>, t: Table, r: Ref, leader: Backend, frame: Frame, now: Time)
    requires WF(t.tx) && Sourced(cfg, run, t) && (frame.Result? || frame.Error?) && AnswersNow(cfg, run, t.tx, leader, frame)
    requires Find(t.tx.ix.startMsgs, frame.id) == Some(r)
    ensures Sourced(cfg, run, t.(tx := OwedAnswer(t.tx, r, leader, frame, now).0))
  {
    hide Sourced, Collect, NoNewIds, NoNewNumbers;
    var rec := t.tx.recs[r];
    if rec.state.Pending? && frame.Result? && frame.conf.tx.Some? {
      StartedSourced(cfg, run, t, r, leader, frame, now);
    } else if rec.state.Pending? {
      PutCollectBringsNothing(t.tx, r, DropAttempt(t.tx, r, frame.id).recs[r]);
      SameNumbers(t.sp);
      SourcedKept(cfg, run, t, t.(tx := Collect(DropAttempt(t.tx, r, frame.id), r)));
    } else {
      PutCollectBringsNothing(t.tx, r, WithoutAttempt(rec, frame.id));
      SameNumbers(t.sp);
      SourcedKept(cfg, run, t, t.(tx := Collect(Put(t.tx, r, WithoutAttempt(rec, frame.id)), r)));
    }
  }

  lemma StartedSourced(cfg: Config, run: seq<Event>, t: Table, r: Ref, leader: Backend, frame: Frame, now: Time)
    requires Sourced(cfg, run, t) && frame.Result? && frame.conf.tx.Some? && AnswersNow(cfg, run, t.tx, leader, frame)
    requires Find(t.tx.ix.startMsgs, frame.id) == Some(r)
    ensures Sourced(cfg, run, t.(tx := LeaderStarted(t.tx, r, leader, frame, now).0))
  {
    assert IssuedFor(cfg, run, r, t.tx.recs[r].key, leader, frame.conf.tx.value);
    OpenSourced(cfg, run, t, r, leader, frame.conf.tx.value, frame.conf, now);
    var t1 := t.(tx := OpenRecord(t.tx, r, leader, frame.conf.tx.value, frame.conf, now));
    var rec1 := t1.tx.recs[r];
    PutCollectBringsNothing(t1.tx, r, WithoutRetries(rec1, frame.id));
    SourcedKept(cfg, run, t1, t.(tx := LeaderStarted(t.tx, r, leader, frame, now).0));
  }

  lemma LeaderCallSourced(cfg: Config, run: seq<Event>, t: Table, leader: Backend, frame: Frame, now: Time)
    requires Sourced(cfg, run, t) && frame.Call?
    requires frame.action.ReserveNow? && frame.payload.obj.Some? ==> Reserved(run, leader, frame.payload.obj.value)
    ensures Sourced(cfg, run, LeaderCall(t, leader, frame, now).0)
  {
    var t1 := LeaderCall(t, leader, frame, now).0;
    assert t1.tx == t.tx;
    forall k | k in t1.sp.objs ensures NumbersSourced(run, t1.sp.objs[k]) {
      assert k in t.sp.objs ==> NumbersSourced(run, t.sp.objs[k]);
    }
  }

  lemma FromFollowerSourced(cfg: Config, run: seq<Event>, t: Table, follower: Backend, frame: Frame, now: Time)
    requires WF(t.tx) && Sourced(cfg, run, t) && AnswersNow(cfg, run, t.tx, follower, frame)
    ensures Sourced(cfg, run, FromFollower(cfg, t, follower, frame, now).0)
  {
    hide WF, IsHeld, Sourced, Learn, Drain;
    if frame.Result? || frame.Error? {
      var t1 := t.(tx := t.tx.(copied := Without(t.tx.copied, Copy(follower, frame.id))));
      CopiedKeeps(t.tx, t1.tx.copied);
      SourcedKept(cfg, run, t, t1);
      if frame.id in t1.tx.ix.startMsgs {
        TrackedHeld(t1.tx, frame.id);
        var r := t1.tx.ix.startMsgs[frame.id];
        LearnSourced(cfg, run, t1, r, follower, frame);
        LearnKeeps(t1.tx, r, follower, frame);
        var t2 := t1.(tx := Learn(t1.tx, r, follower, frame));
        DrainServes(cfg, t2, follower, now);
        ServesBringsNothing(t2, Drain(cfg, t2, follower, now).0, {follower});
        SourcedKept(cfg, run, t2, Drain(cfg, t2, follower, now).0);
      }
    }
  }

  lemma {:induction false} ExpireHoldsServes(cfg: Config, t: Table, order: seq<Backend>, now: Time)
    requires WF(t.tx)
    ensures Serves(t, ExpireHolds(cfg, t, order, now).0, (set b | b in order))
  {
    var F := set b | b in order;
    if order == [] {
      ServesSelf(t);
    } else {
      var rest, last := order[..|order| - 1], order[|order| - 1];
      assert order == rest + [last];
      ExpireHoldsServes(cfg, t, rest, now);
      ExpireHoldsKeeps(cfg, t, rest, now);
      var t1 := ExpireHolds(cfg, t, rest, now).0;
      ServesMore(t, t1, (set b | b in rest), F);
      DrainServes(cfg, t1, last, now);
      ServesMore(t1, Drain(cfg, t1, last, now).0, {last}, F);
      ServesTransitive(t, t1, Drain(cfg, t1, last, now).0, F);
    }
  }

  lemma AnsweredNow(cfg: Config, run: seq<Event>, e: Event, b: Backend, frame: Frame)
    requires e.input == LeaderFrameIn(b, frame) || e.input == FollowerFrame(b, frame)
    ensures AnswersNow(cfg, run + [e], After(cfg, run).tx, b, frame)
  {
    hide After, LedTo;
    assert (run + [e])[|run|] == e;
    var t := After(cfg, run).tx;
    if frame.Result? && frame.conf.tx.Some? && frame.id in t.ix.startMsgs {
      LedToLater(cfg, run, e, |run|, frame.id, t.ix.startMsgs[frame.id]);
      assert Answers((run + [e])[|run|].input, b, frame.id, frame.conf.tx.value);
    }
  }

  lemma StepSourced(cfg: Config, run: seq<Event>, t: Table, e: Event)
    requires WF(t.tx) && SpacesOk(t.sp) && Sourced(cfg, run, t) && t == After(cfg, run)
    ensures Sourced(cfg, run + [e], Step(cfg, t, e).0)
  {
    hide After, Answered, WF, SpacesOk, Sourced, FromCharger, FromLeader, FromFollower, LeaderChanged, ExpireHolds, StartFailed, NoteCommand, Prune, NoNewIds, NoNewNumbers;
    var run' := run + [e];
    SourcedLater(cfg, run, e, t);
    assert run'[|run|] == e;
    match e.input
    case ChargerFrame(frame, leader, followers) =>
      FromChargerSourced(cfg, run', t, frame, leader, followers, e.now, e.wall);
    case LeaderFrameIn(leader, frame) =>
      AnsweredNow(cfg, run, e, leader, frame);
      FromLeaderSourced(cfg, run', t, leader, frame, e.now);
    case FollowerFrame(follower, frame) =>
      AnsweredNow(cfg, run, e, follower, frame);
      FromFollowerSourced(cfg, run', t, follower, frame, e.now);
    case Promotion(newLeader) =>
      LeaderChangedBringsNothing(t.tx, newLeader);
      SourcedKept(cfg, run', t, t.(tx := LeaderChanged(t.tx, newLeader)));
    case HoldTimer(order) =>
      ExpireHoldsSourced(cfg, run', t, order, e.now);
    case BrokerRefused(msg) =>
      StartFailedSourced(cfg, run', t, msg);
    case RestCommand(action, payload) =>
      NoteCommandSourced(cfg, run', t, action, payload, e.now);
    case IdleCheck =>
      PruneBringsNothing(cfg, t, e.now, e.wall);
      SourcedKept(cfg, run', t, Prune(cfg, t, e.now, e.wall));
  }

  lemma FromLeaderSourced(cfg: Config, run: seq<Event>, t: Table, leader: Backend, frame: Frame, now: Time)
    requires WF(t.tx) && Sourced(cfg, run, t) && AnswersNow(cfg, run, t.tx, leader, frame)
    requires frame.Call? && frame.action.ReserveNow? && frame.payload.obj.Some? ==> Reserved(run, leader, frame.payload.obj.value)
    ensures Sourced(cfg, run, FromLeader(t, leader, frame, now).0)
  {
    if frame.Call? {
      LeaderCallSourced(cfg, run, t, leader, frame, now);
    } else if !frame.Odd? {
      LeaderAnswerSourced(cfg, run, t, leader, frame, now);
    }
  }

  lemma NoteCommandSourced(cfg: Config, run: seq<Event>, t: Table, action: Action, payload: Payload, now: Time)
    requires Sourced(cfg, run, t) && SpacesOk(t.sp)
    ensures Sourced(cfg, run, t.(sp := NoteCommand(t.sp, action, payload, now)))
  {
    NoteCommandBringsNothing(t.sp, action, payload, now);
    SourcedKept(cfg, run, t, t.(sp := NoteCommand(t.sp, action, payload, now)));
  }

  lemma NoteCommandBringsNothing(sp: Spaces, action: Action, payload: Payload, now: Time)
    requires SpacesOk(sp)
    ensures NoNewNumbers(sp, NoteCommand(sp, action, payload, now))
  {
    var spec := SpaceOf(action);
    if spec.Some? && payload.obj.Some? {
      var id := SpaceId(spec.value.0, payload.obj.value);
      assert id in sp.records ==> RecordedOk(sp, id);
    }
  }

  lemma ExpireHoldsSourced(cfg: Config, run: seq<Event>, t: Table, order: seq<Backend>, now: Time)
    requires WF(t.tx) && Sourced(cfg, run, t)
    ensures Sourced(cfg, run, ExpireHolds(cfg, t, order, now).0)
  {
    ExpireHoldsServes(cfg, t, order, now);
    ServesBringsNothing(t, ExpireHolds(cfg, t, order, now).0, (set b | b in order));
    SourcedKept(cfg, run, t, ExpireHolds(cfg, t, order, now).0);
  }

  lemma StartFailedSourced(cfg: Config, run: seq<Event>, t: Table, msg: MsgId)
    requires WF(t.tx) && Sourced(cfg, run, t)
    ensures Sourced(cfg, run, t.(tx := StartFailed(t.tx, msg).0))
  {
    hide Sourced, Collect, NoNewIds, NoNewNumbers;
    SameNumbers(t.sp);
    if IsOwed(t.tx, msg) {
      var r := t.tx.ix.startMsgs[msg];
      PutCollectBringsNothing(t.tx, r, DropAttempt(t.tx, r, msg).recs[r]);
      SourcedKept(cfg, run, t, t.(tx := StartFailed(t.tx, msg).0));
    }
  }

  /** In every run, every id the table holds for a backend was issued by that backend, for that start or reservation. */
  lemma {:induction false} RunSourced(cfg: Config, run: seq<Event>)
    ensures Sourced(cfg, run, After(cfg, run))
  {
    if run != [] {
      var before := run[..|run| - 1];
      RunSourced(cfg, before);
      RunKeeps(cfg, before);
      RunSpacesOk(cfg, before);
      StepSourced(cfg, before, After(cfg, before), run[|run| - 1]);
      assert run == before + [run[|run| - 1]];
    }
  }

  // ------------------------------------------------------------------
  // The copies one follower gets over a whole run
  // ------------------------------------------------------------------

  /** The copy that a charger CALL adds to `f`'s queue (at most one). */
  function AcceptedCall(cfg: Config, t: Tx, frame: Frame, leader: Backend, followers: seq<Follower>, now: Time, f: Backend): seq<Queued>
    requires frame.Call?
  {
    if IsQuote(frame) then AcceptedBy(cfg, t, IdCopy(Find(t.ix.byTx, frame.payload.tx.value), frame), followers, f)
    else if !IsStart(frame) then AcceptedBy(cfg, t, PlainCopy(frame), followers, f)
    else
      match StartCaseOf(cfg, t, leader, frame.payload.start, now)
      case Forwarded(known) =>
        var (t1, r) := Attempt(cfg, t, known, frame.payload.start, frame.id, now);
        AcceptedStart(cfg, t1, r, known.None?, frame, followers, f)
      case _ => []
  }

  /** The copy that an event adds to `f`'s queue. */
  function Accepted(cfg: Config, t: Table, e: Event, f: Backend): seq<Queued> {
    if e.input.ChargerFrame? && e.input.frame.Call?
    then AcceptedCall(cfg, Prune(cfg, t, e.now, e.wall).tx, e.input.frame, e.input.leader, e.input.followers, e.now, f)
    else []
  }

  /** The followers of an event are a dictionary: no key occurs twice. */
  predicate ProperEvent(e: Event) {
    e.input.ChargerFrame? ==> DistinctKeys(e.input.followers)
  }

  predicate ProperRun(run: seq<Event>) {
    forall i :: 0 <= i < |run| ==> ProperEvent(run[i])
  }

  lemma ChargerCallCopies(cfg: Config, t: Table, frame: Frame, leader: Backend, followers: seq<Follower>, now: Time, f: Backend)
    returns (fates: seq<Fate>)
    requires WF(t.tx) && DistinctKeys(followers) && frame.Call? && !IsStart(frame)
    ensures var (t', plan) := ChargerCall(cfg, t, frame, leader, followers, now);
      && Passed(t, t', f, AcceptedCall(cfg, t.tx, frame, leader, followers, now, f), fates, FramesTo(plan.toFollowers, f))
      && MaySkipAll(cfg, t.tx, f, fates, now) && AllLeaveWaiting(cfg, t'.tx, f, fates, now)
  {
    if QuotesTx(frame) {
      var found := Find(t.tx.ix.byTx, frame.payload.tx.value);
      QuotedKeeps(t.tx, frame, leader, found, now);
      QuotedLeavesQueues(t.tx, frame, leader, found, now);
      QuotedWaits(cfg, t.tx, frame, leader, found, now, f);
      var t1 := t.(tx := Quoted(t.tx, frame, leader, found, now));
      fates := CopyToAllSettles(cfg, t1, IdCopy(found, frame), followers, now, f);
      InTimeFrom(cfg, t.tx, t1.tx, CopyToAll(cfg, t1, IdCopy(found, frame), followers, now).0.tx, f, fates, now);
    } else {
      fates := CopyToAllSettles(cfg, t, PlainCopy(frame), followers, now, f);
    }
  }

  lemma QuotedLeavesQueues(t: Tx, frame: Frame, leader: Backend, found: Option<Ref>, now: Time)
    requires WF(t) && QuotesTx(frame) && found == Find(t.ix.byTx, frame.payload.tx.value)
    ensures Quoted(t, frame, leader, found, now).held == t.held
  {
    if found.Some? {
      HeldUnder(t, frame.payload.tx.value);
      QuotedIsMarked(t, frame, leader, found.value, now);
    }
  }

  lemma QuotedWaits(cfg: Config, t: Tx, frame: Frame, leader: Backend, found: Option<Ref>, now: Time, f: Backend)
    requires WF(t) && QuotesTx(frame) && found == Find(t.ix.byTx, frame.payload.tx.value)
    ensures StillWaits(cfg, t, Quoted(t, frame, leader, found, now), f, now)
  {
    var t' := Quoted(t, frame, leader, found, now);
    if found.Some? {
      var r := found.value;
      HeldUnder(t, frame.payload.tx.value);
      QuotedIsMarked(t, frame, leader, r, now);
      hide Quoted, Collect, WF, WaitsFor;
      CollectShape(ClosedRecord(Marked(t, leader, r, now), r, now), r);
      MarkedWaits(t, t', leader, r, now, f);
    }
    UntouchedWaits(cfg, t, t', f, now);
  }

  lemma MarkedWaits(t: Tx, t': Tx, leader: Backend, r: Ref, now: Time, f: Backend)
    requires r in t.recs && r in t'.recs && t'.recs == t.recs[r := t'.recs[r]]
    requires t'.recs[r].flags == Marked(t, leader, r, now).recs[r].flags
    ensures forall x :: x in t.recs ==> x in t'.recs && SameWait(t.recs[x], t'.recs[x], f)
  {
  }

  lemma StartCopies(cfg: Config, t: Table, frame: Frame, leader: Backend, followers: seq<Follower>, now: Time, f: Backend)
    returns (fates: seq<Fate>)
    requires WF(t.tx) && DistinctKeys(followers) && IsStart(frame)
    ensures var (t', plan) := ChargerStart(cfg, t, frame, leader, followers, now);
      && Passed(t, t', f, AcceptedCall(cfg, t.tx, frame, leader, followers, now, f), fates, FramesTo(plan.toFollowers, f))
      && MaySkipAll(cfg, t.tx, f, fates, now) && AllLeaveWaiting(cfg, t'.tx, f, fates, now)
  {
    hide WF, StartCaseOf, CopyStartToAll, IsHeld;
    var key := frame.payload.start;
    StartCaseOk(cfg, t.tx, leader, key, now);
    fates := [];
    var case_ := StartCaseOf(cfg, t.tx, leader, key, now);
    if case_.Forwarded? {
      fates := ForwardedCopies(cfg, t, case_.known, frame, leader, followers, now, f);
    }
  }

  /** Whatever is skipped could be. */
  ghost predicate MaySkipAll(cfg: Config, t: Tx, f: Backend, fates: seq<Fate>, now: Time) {
    forall i :: 0 <= i < |fates| && fates[i].out.None? ==> MaySkip(cfg, t, f, fates[i].item, now)
  }

  lemma AttemptWaits(cfg: Config, t: Tx, known: Option<Ref>, key: StartKey, msg: MsgId, now: Time, f: Backend)
    requires WF(t) && (known.Some? ==> known.value in t.recs)
    ensures StillWaits(cfg, t, Attempt(cfg, t, known, key, msg, now).0, f, now)
  {
    assert t.next !in t.recs;
    UntouchedWaits(cfg, t, Attempt(cfg, t, known, key, msg, now).0, f, now);
  }

  lemma ForwardedCopies(cfg: Config, t: Table, known: Option<Ref>, frame: Frame, leader: Backend, followers: seq<Follower>, now: Time, f: Backend)
    returns (fates: seq<Fate>)
    requires WF(t.tx) && DistinctKeys(followers) && IsStart(frame)
    requires known.Some? ==> IsHeld(t.tx, known.value) && t.tx.recs[known.value].key == frame.payload.start
    requires known.None? && cfg.dedupe ==> frame.payload.start !in t.tx.ix.byStart
    ensures var (tx1, r) := Attempt(cfg, t.tx, known, frame.payload.start, frame.id, now);
      var (t', sent) := CopyStartToAll(cfg, Table(tx1, StartFrame(t.sp, leader, frame, true, now).0), r, known.None?, frame, followers, now);
      && Passed(t, t', f, AcceptedStart(cfg, tx1, r, known.None?, frame, followers, f), fates, FramesTo(sent, f))
      && MaySkipAll(cfg, t.tx, f, fates, now) && AllLeaveWaiting(cfg, t'.tx, f, fates, now)
  {
    hide WF, CopyStartToAll, AcceptedStart;
    AttemptKeeps(cfg, t.tx, known, frame.payload.start, frame.id, now);
    var (tx1, r) := Attempt(cfg, t.tx, known, frame.payload.start, frame.id, now);
    var t1 := Table(tx1, StartFrame(t.sp, leader, frame, true, now).0);
    fates := CopyStartToAllSettles(cfg, t1, r, known.None?, frame, followers, now, f);
    AttemptWaits(cfg, t.tx, known, frame.payload.start, frame.id, now, f);
    InTimeFrom(cfg, t.tx, tx1, CopyStartToAll(cfg, t1, r, known.None?, frame, followers, now).0.tx, f, fates, now);
  }

  /** What is given up on when the follower is promoted. */
  function GivenUp(q: seq<Queued>): (fates: seq<Fate>)
    ensures ItemsOf(fates) == q && FramesOf(fates) == []
  {
    if q == [] then [] else
      assert q == [q[0]] + q[1..];
      [Fate(q[0], None)] + GivenUp(q[1..])
  }

  /** `f` answers the start of the record `r` itself. */
  predicate IsOwnAnswer(t: Tx, input: Input, f: Backend, r: Ref) {
    input.FollowerFrame? && input.follower == f && (input.frame.Result? || input.frame.Error?) && Find(t.ix.startMsgs, input.frame.id) == Some(r)
  }

  /** Why `f` is not sent the copy: it quotes a transaction, and if the record waited for `f` and not for too long, then `f` has
      just answered. */
  predicate HasReason(cfg: Config, t: Tx, input: Input, f: Backend, item: Queued, now: Time) {
    item.IdCopy? && (item.rec.Some? && WaitsFor(cfg, t, item.rec.value, f, now) ==> IsOwnAnswer(t, input, f, item.rec.value))
  }

  ghost predicate AllReasoned(cfg: Config, t: Tx, input: Input, f: Backend, fates: seq<Fate>, now: Time) {
    forall i :: 0 <= i < |fates| && fates[i].out.None? ==> HasReason(cfg, t, input, f, fates[i].item, now)
  }

  /** What could be skipped anyway needs no other reason. */
  lemma Reasoned(cfg: Config, t: Tx, t1: Tx, input: Input, f: Backend, fates: seq<Fate>, now: Time)
    requires MaySkipAll(cfg, t1, f, fates, now) && t1.recs == t.recs
    ensures AllReasoned(cfg, t, input, f, fates, now)
  {
  }

  lemma LearnWaits(cfg: Config, t: Tx, t1: Tx, r: Ref, g: Backend, frame: Frame, f: Backend, now: Time)
    requires r in t.recs && t1 == t.(copied := t1.copied)
    ensures forall x: Ref :: WaitsFor(cfg, t, x, f, now) && (x != r || f != g) ==> WaitsFor(cfg, Learn(t1, r, g, frame), x, f, now)
  {
    CollectShape(LearnId(t1, r, g, frame), r);
  }

  lemma FollowerCopies(cfg: Config, t: Table, follower: Backend, frame: Frame, now: Time, f: Backend) returns (fates: seq<Fate>)
    requires WF(t.tx)
    ensures var (t', sent) := FromFollower(cfg, t, follower, frame, now);
      && Passed(t, t', f, [], fates, FramesTo(sent, f))
      && AllReasoned(cfg, t.tx, FollowerFrame(follower, frame), f, fates, now) && AllLeaveWaiting(cfg, t'.tx, f, fates, now)
  {
    hide WF, IsHeld, Learn, Drain, WaitsFor;
    fates := [];
    if frame.Result? || frame.Error? {
      var t1 := t.(tx := t.tx.(copied := Without(t.tx.copied, Copy(follower, frame.id))));
      CopiedKeeps(t.tx, t1.tx.copied);
      if frame.id in t1.tx.ix.startMsgs {
        TrackedHeld(t1.tx, frame.id);
        var r := t1.tx.ix.startMsgs[frame.id];
        if !(follower !in Rec(t1.tx, r).flags.awaiting && follower in Rec(t1.tx, r).backendIds) {
          LearnKeeps(t1.tx, r, follower, frame);
          fates := DrainCopies(cfg, t1.(tx := Learn(t1.tx, r, follower, frame)), follower, now, f);
          LearnWaits(cfg, t.tx, t1.tx, r, follower, frame, f, now);
        }
      }
    }
  }

  /** Serving one follower, seen by any follower. */
  lemma DrainCopies(cfg: Config, t: Table, g: Backend, now: Time, f: Backend) returns (fates: seq<Fate>)
    requires WF(t.tx)
    ensures var (t', frames) := Drain(cfg, t, g, now); Passed(t, t', f, [], fates, FramesTo(AllTo(g, frames), f)) && InTime(cfg, t.tx, t'.tx, f, fates, now)
  {
    hide InTime;
    var (t', frames) := Drain(cfg, t, g, now);
    FramesToAll(g, frames, f);
    if g == f {
      fates := DrainSettles(cfg, t, f, now);
    } else {
      fates := [];
      DrainServes(cfg, t, g, now);
      PassedThenOthers(t, t, t', f, {g}, [], [], []);
      OthersInTime(cfg, t, t', {g}, f, now);
    }
  }

  lemma {:induction false} ExpireHoldsCopies(cfg: Config, t: Table, order: seq<Backend>, now: Time, f: Backend) returns (fates: seq<Fate>)
    requires WF(t.tx)
    ensures var (t', sent) := ExpireHolds(cfg, t, order, now);
      Passed(t, t', f, [], fates, FramesTo(sent, f)) && InTime(cfg, t.tx, t'.tx, f, fates, now) && MaySkipAll(cfg, t.tx, f, fates, now) && AllLeaveWaiting(cfg, t'.tx, f, fates, now)
  {
    hide InTime;
    if order == [] {
      fates := [];
      UntouchedWaits(cfg, t.tx, t.tx, f, now);
    } else {
      var rest, last := order[..|order| - 1], order[|order| - 1];
      var first := ExpireHoldsCopies(cfg, t, rest, now, f);
      ExpireHoldsKeeps(cfg, t, rest, now);
      var (t1, sent) := ExpireHolds(cfg, t, rest, now);
      var (t2, frames) := Drain(cfg, t1, last, now);
      var more := DrainCopies(cfg, t1, last, now, f);
      DrainKeepsSettled(cfg, t1, last, now, f, first);
      fates := first + more;
      FramesToConcat(sent, AllTo(last, frames), f);
      PassedTwice(t, t1, t2, f, first, FramesTo(sent, f), more, FramesTo(AllTo(last, frames), f));
      InTimeTwice(cfg, t.tx, t1.tx, t2.tx, f, first, more, now);
    }
    InTimeMay(cfg, t.tx, ExpireHolds(cfg, t, order, now).0.tx, f, fates, now);
  }

  lemma InTimeMay(cfg: Config, t: Tx, t': Tx, f: Backend, fates: seq<Fate>, now: Time)
    requires InTime(cfg, t, t', f, fates, now)
    ensures MaySkipAll(cfg, t, f, fates, now) && AllLeaveWaiting(cfg, t', f, fates, now)
  {
  }

  lemma NoneSkipped(cfg: Config, t: Tx, t': Tx, input: Input, f: Backend, now: Time)
    ensures AllReasoned(cfg, t, input, f, [], now) && AllLeaveWaiting(cfg, t', f, [], now)
  {
  }

  lemma PassedTwice(t: Table, t1: Table, t2: Table, f: Backend, first: seq<Fate>, a: seq<Frame>, more: seq<Fate>, b: seq<Frame>)
    requires Passed(t, t1, f, [], first, a) && AllSettled(t2, f, first) && Passed(t1, t2, f, [], more, b)
    ensures Passed(t, t2, f, [], first + more, a + b)
  {
    hide Settled, Queue, ItemsOf, FramesOf;
    ItemsConcat(first, more);
    FramesConcat(first, more);
    TwoPrefixes(Queue(t.tx, f), ItemsOf(first), Queue(t1.tx, f), ItemsOf(more), Queue(t2.tx, f));
  }

  lemma TwoPrefixes(q: seq<Queued>, a: seq<Queued>, q1: seq<Queued>, b: seq<Queued>, q2: seq<Queued>)
    requires q + [] == a + q1 && q1 + [] == b + q2
    ensures q + [] == (a + b) + q2
  {
    assert q1 == q1 + [];
  }

  lemma DrainKeepsSettled(cfg: Config, t: Table, g: Backend, now: Time, f: Backend, fates: seq<Fate>)
    requires WF(t.tx) && AllSettled(t, f, fates)
    ensures AllSettled(Drain(cfg, t, g, now).0, f, fates)
  {
    var t' := Drain(cfg, t, g, now).0;
    if g == f {
      var more := DrainSettles(cfg, t, f, now);
    } else {
      DrainServes(cfg, t, g, now);
      forall r | r in t.tx.recs ensures SameIds(t.tx.recs[r], t'.tx.recs[r], f) {
        assert OnlyFlags(t.tx.recs[r], t'.tx.recs[r], {g}) && SameFlags(t.tx.recs[r], t'.tx.recs[r], f);
      }
    }
    AllSettledKeeps(t, t', f, fates);
  }

  /** A promotion sends nothing, and gives up only what the promoted follower itself waits for. */
  ghost predicate GivenUpAt(t: Tx, e: Event, f: Backend, fates: seq<Fate>) {
    FramesOf(fates) == [] && ItemsOf(fates) <= Queue(t, f) && (e.input == Promotion(Some(f)) || fates == [])
  }

  lemma PromotionCopies(t: Tx, newLeader: Option<Backend>, f: Backend) returns (fates: seq<Fate>)
    requires WF(t)
    ensures Queue(t, f) == ItemsOf(fates) + Queue(LeaderChanged(t, newLeader), f)
    ensures FramesOf(fates) == [] && ItemsOf(fates) <= Queue(t, f) && (newLeader == Some(f) || fates == [])
  {
    fates := if newLeader == Some(f) then GivenUp(Queue(t, f)) else [];
  }

  /** One step settles a prefix of what `f`'s queue held and was given, in order, and keeps the rest. */
  lemma StepCopies(cfg: Config, t: Table, e: Event, f: Backend) returns (fates: seq<Fate>)
    requires WF(t.tx) && ProperEvent(e)
    ensures var (t', out) := Step(cfg, t, e);
      && Queue(t.tx, f) + Accepted(cfg, t, e, f) == ItemsOf(fates) + Queue(t'.tx, f)
      && FramesTo(out.toFollowers, f) == FramesOf(fates)
      && (if e.input.Promotion? then GivenUpAt(t.tx, e, f, fates) else AllSettled(t', f, fates) && AllReasoned(cfg, t.tx, e.input, f, fates, e.now) && AllLeaveWaiting(cfg, t'.tx, f, fates, e.now))
  {
    hide MaySkipAll, AllReasoned, AllLeaveWaiting, WaitsFor, StillWaits, WF, StartCaseOf, ChargerStart, ChargerCall, FromLeader, FromFollower, LeaderChanged, ExpireHolds, StartFailed, NoteCommand, Settled, Expired, Lapsed;
    fates := [];
    NoneSkipped(cfg, t.tx, Step(cfg, t, e).0.tx, e.input, f, e.now);
    match e.input
    case ChargerFrame(frame, leader, followers) =>
      ForgetKeeps(t.tx, Expired(cfg, t.tx, e.now));
      var t1 := Prune(cfg, t, e.now, e.wall);
      if IsStart(frame) {
        fates := StartCopies(cfg, t1, frame, leader, followers, e.now, f);
        Reasoned(cfg, t.tx, t1.tx, e.input, f, fates, e.now);
      } else if frame.Call? {
        fates := ChargerCallCopies(cfg, t1, frame, leader, followers, e.now, f);
        Reasoned(cfg, t.tx, t1.tx, e.input, f, fates, e.now);
      }
    case LeaderFrameIn(leader, frame) =>
    case FollowerFrame(follower, frame) =>
      fates := FollowerCopies(cfg, t, follower, frame, e.now, f);
    case Promotion(newLeader) =>
      fates := PromotionCopies(t.tx, newLeader, f);
    case HoldTimer(order) =>
      fates := ExpireHoldsCopies(cfg, t, order, e.now, f);
      Reasoned(cfg, t.tx, t.tx, e.input, f, fates, e.now);
    case BrokerRefused(msg) =>
    case RestCommand(action, payload) =>
    case IdleCheck =>
  }

  /** All copies added to `f`'s queue over a run, in order. */
  ghost function AcceptedOver(cfg: Config, run: seq<Event>, f: Backend): seq<Queued> {
    if run == [] then []
    else AcceptedOver(cfg, run[..|run| - 1], f) + Accepted(cfg, After(cfg, run[..|run| - 1]), run[|run| - 1], f)
  }

  /** All frames sent to `f` as copies over a run, in order. */
  ghost function SentOver(cfg: Config, run: seq<Event>, f: Backend): seq<Frame> {
    if run == [] then []
    else SentOver(cfg, run[..|run| - 1], f) + FramesTo(Step(cfg, After(cfg, run[..|run| - 1]), run[|run| - 1]).1.toFollowers, f)
  }

  /** `out` is the charger's frame in `f`'s own numbers: a quoted transaction id is one `f` issued for the start of the
      very record the charger quoted, a reservation id is one `f` chose itself, and nothing else differs. */
  ghost predicate InOwnIds(cfg: Config, run: seq<Event>, t: Tx, f: Backend, item: Queued, out: Frame) {
    out.Call? &&
    match item
    case PlainCopy(frame) => out == frame && !IsQuote(frame) && !frame.action.StartTransaction?
    case StartCopy(r, frame) =>
      frame.Call? && frame.action.StartTransaction? && out == frame.(payload := frame.payload.(obj := out.payload.obj)) &&
      (out.payload.obj.Some? ==> Reserved(run, f, out.payload.obj.value))
    case IdCopy(found, frame) =>
      IsQuote(frame) && out.payload.tx.Some? && out == WithTx(frame, out.payload.tx.value) &&
      found.Some? && found.value in t.recs && t.recs[found.value].txId == frame.payload.tx &&
      IssuedFor(cfg, run, found.value, t.recs[found.value].key, f, out.payload.tx.value)
  }

  ghost predicate AllInOwnIds(cfg: Config, run: seq<Event>, t: Tx, f: Backend, fates: seq<Fate>) {
    forall i :: 0 <= i < |fates| && fates[i].out.Some? ==> InOwnIds(cfg, run, t, f, fates[i].item, fates[i].out.value)
  }

  lemma SpokenInOwnIds(cfg: Config, run: seq<Event>, t: Table, f: Backend, item: Queued, out: Frame)
    requires Sourced(cfg, run, t) && SpacesOk(t.sp) && Speaks(t, f, item, out)
    ensures InOwnIds(cfg, run, t.tx, f, item, out)
  {
    match item
    case PlainCopy(frame) =>
    case StartCopy(r, frame) =>
      if out.payload.obj.Some? {
        var id := SpaceId(Reservation, frame.payload.obj.value);
        assert RecordedOk(t.sp, id) && NumbersSourced(run, t.sp.objs[t.sp.records[id]]);
      }
    case IdCopy(found, frame) =>
      assert IdsSourced(cfg, run, found.value, t.tx.recs[found.value]);
  }

  lemma InOwnIdsLater(cfg: Config, run: seq<Event>, e: Event, t: Tx, t': Tx, f: Backend, item: Queued, out: Frame)
    requires InOwnIds(cfg, run, t, f, item, out) && Grows(t, t')
    ensures InOwnIds(cfg, run + [e], t', f, item, out)
  {
    match item
    case PlainCopy(frame) =>
    case StartCopy(r, frame) =>
      if out.payload.obj.Some? {
        ReservedLater(run, e, f, out.payload.obj.value);
      }
    case IdCopy(found, frame) =>
      IssuedLater(cfg, run, e, found.value, t.recs[found.value].key, f, out.payload.tx.value);
  }

  /** The `k`th event settled the copy: it was sent in the numbers `f` went by then; or skipped, because the table does not know
      the transaction, or `f` has no number for it and is given up on (`Skips`), and only when `f` was not, or no longer,
      waited for (`HasReason`); the wait for `f` begins with the start copy that is sent and ends with a copy that is skipped
      (`LeavesWaiting`); or it still waited when `f` became the leader. */
  ghost predicate SettledAt(cfg: Config, run: seq<Event>, k: nat, f: Backend, fate: Fate)
    requires k < |run|
  {
    if run[k].input.Promotion?
    then run[k].input == Promotion(Some(f)) && fate.out.None? && fate.item in Queue(After(cfg, run[..k]).tx, f)
    else Settled(After(cfg, run[..k + 1]), f, fate) && LeavesWaiting(cfg, After(cfg, run[..k + 1]).tx, f, fate, run[k].now)
         && (fate.out.None? ==> HasReason(cfg, After(cfg, run[..k]).tx, run[k].input, f, fate.item, run[k].now))
  }

  ghost predicate SettledOnce(cfg: Config, run: seq<Event>, f: Backend, fate: Fate) {
    exists k: nat :: k < |run| && SettledAt(cfg, run, k, f, fate)
  }

  ghost predicate SettledDuring(cfg: Config, run: seq<Event>, f: Backend, fates: seq<Fate>) {
    forall i :: 0 <= i < |fates| ==> SettledOnce(cfg, run, f, fates[i])
  }

  lemma SettledLater(cfg: Config, run: seq<Event>, e: Event, f: Backend, fate: Fate)
    requires SettledOnce(cfg, run, f, fate)
    ensures SettledOnce(cfg, run + [e], f, fate)
  {
    hide After, Settled, HasReason, LeavesWaiting;
    var k: nat :| k < |run| && SettledAt(cfg, run, k, f, fate);
    assert (run + [e])[..k] == run[..k] && (run + [e])[..k + 1] == run[..k + 1];
    assert SettledAt(cfg, run + [e], k, f, fate);
  }

  lemma NothingYet(cfg: Config, run: seq<Event>, f: Backend)
    ensures SettledDuring(cfg, run, f, []) && AllInOwnIds(cfg, run, After(cfg, run).tx, f, [])
  {
  }

  lemma StepSettledDuring(cfg: Config, run: seq<Event>, e: Event, f: Backend, first: seq<Fate>, more: seq<Fate>)
    requires SettledDuring(cfg, run, f, first)
    requires if e.input.Promotion? then GivenUpAt(After(cfg, run).tx, e, f, more)
             else AllSettled(After(cfg, run + [e]), f, more) && AllReasoned(cfg, After(cfg, run).tx, e.input, f, more, e.now) && AllLeaveWaiting(cfg, After(cfg, run + [e]).tx, f, more, e.now)
    ensures SettledDuring(cfg, run + [e], f, first + more)
  {
    hide After, Settled, Step, HasReason, LeavesWaiting;
    assert (run + [e])[..|run|] == run && (run + [e])[..|run| + 1] == run + [e];
    forall i | 0 <= i < |first + more| ensures SettledOnce(cfg, run + [e], f, (first + more)[i]) {
      if i < |first| {
        SettledLater(cfg, run, e, f, first[i]);
      } else {
        if e.input.Promotion? {
          NothingSent(more, i - |first|);
          assert ItemsOf(more)[i - |first|] in Queue(After(cfg, run).tx, f);
        }
        assert SettledAt(cfg, run + [e], |run|, f, more[i - |first|]);
      }
    }
  }

  /** MAIN RESULT. Over any run, the copies accepted for a follower are partitioned, in order, into those settled (sent or
      skipped) and those still held, which are the tail; the frames sent are exactly those of the settled ones, in order;
      each of them speaks to the follower only in numbers this follower itself issued, for that very transaction; and each
      copy that was skipped had a reason at the event that skipped it. */
  lemma {:induction false} FollowersGetTheirOwnIdsInOrder(cfg: Config, run: seq<Event>, f: Backend) returns (fates: seq<Fate>)
    requires ProperRun(run)
    ensures AcceptedOver(cfg, run, f) == ItemsOf(fates) + Queue(After(cfg, run).tx, f)
    ensures SentOver(cfg, run, f) == FramesOf(fates)
    ensures AllInOwnIds(cfg, run, After(cfg, run).tx, f, fates)
    ensures SettledDuring(cfg, run, f, fates)
  {
    hide Step, Accepted, AllInOwnIds, SettledDuring, AllSettled, AllReasoned, AllLeaveWaiting, GivenUpAt;
    if run == [] {
      fates := [];
      NothingYet(cfg, run, f);
    } else {
      var before, e := run[..|run| - 1], run[|run| - 1];
      var t := After(cfg, before);
      RunKeeps(cfg, before);
      var first := FollowersGetTheirOwnIdsInOrder(cfg, before, f);
      assert ProperEvent(run[|run| - 1]);
      var more := StepCopies(cfg, t, e, f);
      fates := first + more;
      Joined(first, Queue(t.tx, f), Accepted(cfg, t, e, f), more, Queue(After(cfg, run).tx, f));
      StepInOwnIds(cfg, before, e, f, first, more);
      assert run == before + [e];
      StepSettledDuring(cfg, before, e, f, first, more);
    }
  }

  lemma Joined(first: seq<Fate>, held: seq<Queued>, accepted: seq<Queued>, more: seq<Fate>, left: seq<Queued>)
    requires held + accepted == ItemsOf(more) + left
    ensures (ItemsOf(first) + held) + accepted == ItemsOf(first + more) + left
    ensures FramesOf(first + more) == FramesOf(first) + FramesOf(more)
  {
    ItemsConcat(first, more);
    FramesConcat(first, more);
    assert (ItemsOf(first) + held) + accepted == ItemsOf(first) + (held + accepted);
  }

  lemma StepInOwnIds(cfg: Config, before: seq<Event>, e: Event, f: Backend, first: seq<Fate>, more: seq<Fate>)
    requires AllInOwnIds(cfg, before, After(cfg, before).tx, f, first)
    requires if e.input.Promotion? then GivenUpAt(After(cfg, before).tx, e, f, more) else AllSettled(Step(cfg, After(cfg, before), e).0, f, more)
    ensures AllInOwnIds(cfg, before + [e], Step(cfg, After(cfg, before), e).0.tx, f, first + more)
  {
    var t := After(cfg, before);
    var t' := Step(cfg, t, e).0;
    RunKeeps(cfg, before);
    RunSpacesOk(cfg, before);
    RunSourced(cfg, before);
    StepKeeps(cfg, t, e);
    StepSpacesOk(cfg, t, e);
    StepSourced(cfg, before, t, e);
    forall i | 0 <= i < |first + more| && (first + more)[i].out.Some?
      ensures InOwnIds(cfg, before + [e], t'.tx, f, (first + more)[i].item, (first + more)[i].out.value)
    {
      if i < |first| {
        InOwnIdsLater(cfg, before, e, t.tx, t'.tx, f, first[i].item, first[i].out.value);
      } else if e.input.Promotion? {
        NothingSent(more, i - |first|);
      } else {
        assert Settled(t', f, more[i - |first|]);
        SpokenInOwnIds(cfg, before + [e], t', f, more[i - |first|].item, more[i - |first|].out.value);
      }
    }
  }

  lemma {:induction false} NothingSent(fates: seq<Fate>, i: nat)
    requires FramesOf(fates) == [] && i < |fates|
    ensures fates[i].out.None?
  {
    if i > 0 {
      NothingSent(fates[1..], i - 1);
    }
  }
}
