/** What the charger is told of reservations, charging profiles and transactions in a leader's command, in terms of the records alone;
    what the broker's own commands do; and when an object is forgotten. */
module ObjectRules {
  import opened Ocpp
  import opened TableState
  import opened TableSteps
  import opened TableInvariant
  import opened TableCopies
  import opened IdSpaces

  // ------------------------------------------------------------------
  // What the commands mean to a charger
  // ------------------------------------------------------------------

  /** The kind of object the command makes (or replaces) under the id it names. */
  function MakesIn(action: Action): Option<Space> {
    if action.ReserveNow? then Some(Reservation)
    else if action.SetChargingProfile? || action.RemoteStartTransaction? then Some(Profile)
    else None
  }

  /** The kind of object the command removes. */
  function RemovesIn(action: Action): Option<Space> {
    if action.CancelReservation? then Some(Reservation) else if action.ClearChargingProfile? then Some(Profile) else None
  }

  /** The command names a transaction. */
  predicate NamesTransaction(action: Action) {
    action.RemoteStopTransaction? || action.SetChargingProfile? || action.RemoteStartTransaction?
  }

  // ------------------------------------------------------------------
  // The leader's commands
  // ------------------------------------------------------------------

  /** The charger's id for the transaction that the leader calls `n`, if the table knows it. */
  function HeldFor(t: Tx, leader: Backend, n: int): Option<int> {
    var key := BackendTx(leader, n);
    if key in t.ix.byBackend && t.ix.byBackend[key] in t.recs then t.recs[t.ix.byBackend[key]].txId else None
  }

  /** The object that is made is the leader's own by that number, or a new one, under its number if that is free. */
  ghost predicate MadeAs(sp: Spaces, sp': Spaces, space: Space, leader: Backend, sent: Frame, cid: int, now: Time)
    requires sent.Call? && sent.payload.obj.Some?
  {
    var key := SpaceKey(space, leader, sent.payload.obj.value);
    && key in sp'.index && sp'.index[key] in sp'.objs &&
    var r := sp'.index[key]; var o := sp'.objs[r];
    && o.space == space && o.cid == cid && o.touched == now && leader in o.backendIds && o.backendIds[leader] == key.bid
    && Find(sp'.records, SpaceId(space, cid)) == Some(r)
    && (if key in sp.index then
          sp.index[key] == r && r in sp.objs && sp.objs[r].cid == cid && sp'.next == sp.next
          && o.expires == (if sent.action.ReserveNow? && sent.payload.expiry.Some? then sent.payload.expiry else sp.objs[r].expires)
        else
          && (if SpaceId(space, key.bid) in sp.records then SpaceId(space, cid) !in sp.records && IsInventedIn(sp, space, cid) else cid == key.bid)
          && r == sp.next && o.backendIds == map[leader := key.bid] && o.expires == (if sent.action.ReserveNow? then sent.payload.expiry else None))
    && IsAwaited(sp', Expected(sent.id, r, Assign, key !in sp.index))
  }

  /** The charger's answer to the command is waited for. */
  ghost predicate IsAwaited(sp: Spaces, e: Expected) {
    e in sp.expected
  }

  /** `got` is the leader's command `sent` in the charger's ids. */
  ghost predicate CommandTold(t: Table, t': Table, leader: Backend, sent: Frame, got: Frame, now: Time)
    requires sent.Call?
  {
    && got.Call? && got == sent.(payload := sent.payload.(tx := got.payload.tx, obj := got.payload.obj))
    && got.payload.tx == (if NamesTransaction(sent.action) && sent.payload.tx.Some? && HeldFor(t.tx, leader, sent.payload.tx.value).Some?
                          then HeldFor(t.tx, leader, sent.payload.tx.value) else sent.payload.tx)
    && (if sent.payload.obj.None? then got.payload.obj.None? && t'.sp == t.sp
        else if MakesIn(sent.action).Some? then
          got.payload.obj.Some? && MadeAs(t.sp, t'.sp, MakesIn(sent.action).value, leader, sent, got.payload.obj.value, now)
        else if RemovesIn(sent.action).Some? && SpaceKey(RemovesIn(sent.action).value, leader, sent.payload.obj.value) in t.sp.index then
          var r := t.sp.index[SpaceKey(RemovesIn(sent.action).value, leader, sent.payload.obj.value)];
          r in t.sp.objs && got.payload.obj == Some(t.sp.objs[r].cid) && IsAwaited(t'.sp, Expected(sent.id, r, Release, false))
        else got.payload.obj == sent.payload.obj && t'.sp == t.sp)
  }

  lemma {:induction false} NotedIn(log: seq<Expected>, e: Expected)
    ensures e in Noted(log, e) && |Noted(log, e)| <= |log| + 1 && (|Noted(log, e)| == |log| + 1 ==> Noted(log, e) == log + [e])
  {
    if log != [] && log[0].msg != e.msg {
      NotedIn(log[1..], e);
      assert log == [log[0]] + log[1..];
    }
  }

  lemma Logged(sp: Spaces, e: Expected)
    requires |sp.expected| <= REPLY_LOG
    ensures IsAwaited(ExpectReply(sp, e), e) && ExpectReply(sp, e) == sp.(expected := ExpectReply(sp, e).expected)
  {
    NotedIn(sp.expected, e);
    var log := Noted(sp.expected, e);
    if |log| > REPLY_LOG {
      assert log[|log| - REPLY_LOG..][REPLY_LOG - 1] == e;
    }
  }

  lemma AssignedAs(sp: Spaces, space: Space, leader: Backend, sent: Frame, now: Time)
    requires SpacesOk(sp) && sent.Call? && sent.payload.obj.Some? && MakesIn(sent.action) == Some(space) && |sp.expected| <= REPLY_LOG
    ensures var n := sent.payload.obj.value;
      var (sp1, r, made) := SpaceAssign(sp, space, leader, n, ExpiryOf(sent.action, sent.payload), now);
      MadeAs(sp, ExpectReply(sp1, Expected(sent.id, r, Assign, made)), space, leader, sent, Obj(sp1, r).cid, now)
  {
    hide SpaceFresh, ExpectReply, IsInventedIn;
    FreshUnused(sp, space);
    var key := SpaceKey(space, leader, sent.payload.obj.value);
    var (sp1, r, made) := SpaceAssign(sp, space, leader, key.bid, ExpiryOf(sent.action, sent.payload), now);
    SpaceAssignOk(sp, space, leader, key.bid, ExpiryOf(sent.action, sent.payload), now);
    Logged(sp1, Expected(sent.id, r, Assign, made));
    assert IndexedOk(sp1, key);
    assert key in sp.index ==> IndexedOk(sp, key);
  }

  /** MAIN RESULT. What the charger reads of a leader's command, in every reachable state: the transaction it names, in
      RemoteStopTransaction, SetChargingProfile and RemoteStartTransaction, under the charger's id if the table knows it;
      the object it makes or removes, under the charger's id for the leader's own object of that number; a new object under
      the leader's number if the charger holds none under it, and otherwise under an id the charger does not hold; and
      everything else as it is. */
  lemma CommandsReachTheCharger(cfg: Config, run: seq<Event>, e: Event)
    requires e.input.LeaderFrameIn? && e.input.frame.Call?
    ensures var t := After(cfg, run); var (t', out) := Step(cfg, t, e);
      |out.toCharger| == 1 && CommandTold(t, t', e.input.leader, e.input.frame, out.toCharger[0], e.now) && out.toLeader.None? && out.toFollowers == [] && t'.tx == t.tx
  {
    hide After, WF, SpacesOk;
    RunKeeps(cfg, run);
    RunSpacesOk(cfg, run);
    RunLog(cfg, run);
    CommandTranslated(After(cfg, run), e.input.leader, e.input.frame, e.now);
  }

  lemma CommandTranslated(t: Table, leader: Backend, sent: Frame, now: Time)
    requires WF(t.tx) && SpacesOk(t.sp) && sent.Call? && |t.sp.expected| <= REPLY_LOG
    ensures CommandTold(t, LeaderCall(t, leader, sent, now).0, leader, sent, LeaderCall(t, leader, sent, now).1, now)
  {
    hide SpaceAssign, ExpectReply, MadeAs, WF, SpacesOk, ReverseId, HeldFor;
    var spec := SpaceOf(sent.action);
    if sent.payload.tx.Some? {
      NumberHeld(t.tx, leader, sent.payload.tx.value);
    }
    if spec.Some? && sent.payload.obj.Some? {
      var (space, mode) := spec.value;
      var key := SpaceKey(space, leader, sent.payload.obj.value);
      if mode.Assign? {
        AssignedAs(t.sp, space, leader, sent, now);
        var (sp1, r, made) := SpaceAssign(t.sp, space, leader, key.bid, ExpiryOf(sent.action, sent.payload), now);
        OnlyLog(sp1, Expected(sent.id, r, Assign, made));
      } else if key in t.sp.index {
        KnownObject(t.sp, key);
        Logged(t.sp, Expected(sent.id, t.sp.index[key], Release, false));
      }
    }
  }

  lemma KnownObject(sp: Spaces, key: SpaceKey)
    requires SpacesOk(sp) && key in sp.index
    ensures sp.index[key] in sp.objs
  {
    assert IndexedOk(sp, key);
  }

  lemma NumberHeld(t: Tx, leader: Backend, n: int)
    requires WF(t)
    ensures ReverseId(t, leader, n) == HeldFor(t, leader, n)
  {
    hide RecordsOk, QueuesOk;
    assert BackendTx(leader, n) in t.ix.byBackend ==> IsHeld(t, t.ix.byBackend[BackendTx(leader, n)]);
  }

  // ------------------------------------------------------------------
  // When an object is forgotten
  // ------------------------------------------------------------------

  /** A reservation that ended long ago; one without an end, or a profile, that was not used for very long. */
  predicate IsOld(cfg: Config, o: IdRecord, now: Time, wall: Time) {
    match o.space
    case Reservation => if o.expires.Some? then wall - o.expires.value > cfg.retainClosed else now - o.touched > cfg.retainClosed
    case Profile => now - o.touched > cfg.retainOpen
  }

  /** The charger's answer `frame` frees the object `r`: it refused to make it, or agreed to remove it. */
  ghost predicate Frees(sp: Spaces, frame: Frame, r: Ref) {
    (frame.Result? || frame.Error?) &&
    exists e :: e in sp.expected && e.msg == IdOf(frame) && e.ref == r &&
      if frame.Result? && frame.conf.accepted then e.mode.Release? else e.mode.Assign? && e.made
  }

  /** Why the object `r` under the charger's id `id` is forgotten. */
  ghost predicate IsForgotten(cfg: Config, sp: Spaces, e: Event, id: SpaceId, r: Ref)
    requires r in sp.objs
  {
    match e.input
    case ChargerFrame(frame, _, _) => IsOld(cfg, sp.objs[r], e.now, e.wall) || Frees(sp, frame, r)
    case IdleCheck => IsOld(cfg, sp.objs[r], e.now, e.wall)
    case RestCommand(action, payload) => RemovesIn(action) == Some(id.space) && payload.obj == Some(id.cid)
    case _ => false
  }

  predicate DistinctMsgs(log: seq<Expected>) {
    forall i, j :: 0 <= i < j < |log| ==> log[i].msg != log[j].msg
  }

  lemma {:induction false} NotedDistinct(log: seq<Expected>, e: Expected)
    requires DistinctMsgs(log)
    ensures DistinctMsgs(Noted(log, e)) && forall x :: x in Noted(log, e) ==> x == e || x in log
  {
    if log != [] && log[0].msg != e.msg {
      NotedDistinct(log[1..], e);
      var rest := Noted(log[1..], e);
      forall j | 0 <= j < |rest| ensures rest[j].msg != log[0].msg {
        assert rest[j] in rest;
      }
    }
  }

  lemma {:induction false} ExpectedIs(log: seq<Expected>, msg: MsgId)
    requires DistinctMsgs(log)
    ensures ExpectedFor(log, msg).None? ==> forall e :: e in log ==> e.msg != msg
    ensures ExpectedFor(log, msg).Some? ==> ExpectedFor(log, msg).value in log && ExpectedFor(log, msg).value.msg == msg
    ensures forall e :: e in log && e.msg == msg ==> ExpectedFor(log, msg) == Some(e)
    ensures DistinctMsgs(DropExpected(log, msg)) && forall e :: e in DropExpected(log, msg) <==> e in log && e.msg != msg
  {
    if log != [] {
      assert forall e :: e in log <==> e == log[0] || e in log[1..];
      assert DistinctMsgs(log[1..]) && forall e :: e in log[1..] ==> e.msg != log[0].msg;
      hide DistinctMsgs;
      ExpectedIs(log[1..], msg);
      if log[0].msg != msg {
        OneInFront(log[0], DropExpected(log[1..], msg));
      }
    }
  }

  lemma OneInFront(e: Expected, log: seq<Expected>)
    requires DistinctMsgs(log) && forall x :: x in log ==> x.msg != e.msg
    ensures DistinctMsgs([e] + log) && forall x :: x in [e] + log <==> x == e || x in log
  {
    forall j | 0 <= j < |log| ensures log[j].msg != e.msg {
      assert log[j] in log;
    }
  }

  lemma StepLog(cfg: Config, t: Table, e: Event)
    requires WF(t.tx) && DistinctMsgs(t.sp.expected) && |t.sp.expected| <= REPLY_LOG
    ensures var log := Step(cfg, t, e).0.sp.expected; DistinctMsgs(log) && |log| <= REPLY_LOG
  {
    hide WF, ForgetAll, Expired, Lapsed, ChargerStart, ChargerCall, LeaderAnswer, FromFollower, ExpireHolds, StartFailed, LeaderChanged, DistinctMsgs, SpaceAssign, Noted, DropExpected, ExpectedFor;
    match e.input
    case ChargerFrame(frame, leader, followers) =>
      ForgetKeeps(t.tx, Expired(cfg, t.tx, e.now));
      var p := Prune(cfg, t, e.now, e.wall);
      if frame.Call? {
        ChargerFrameSame(cfg, p, frame, leader, followers, e.now);
      } else if !frame.Odd? {
        ExpectedIs(t.sp.expected, IdOf(frame));
        DropShorter(t.sp.expected, IdOf(frame));
      }
    case LeaderFrameIn(leader, frame) =>
      if frame.Call? {
        CommandLog(t, leader, frame, e.now);
      }
    case FollowerFrame(follower, frame) =>
      FollowerSame(cfg, t, follower, frame, e.now);
    case Promotion(newLeader) =>
    case HoldTimer(order) =>
      HoldsSame(cfg, t, order, e.now);
    case BrokerRefused(msg) =>
    case RestCommand(action, payload) =>
    case IdleCheck =>
  }

  lemma {:induction false} DropShorter(log: seq<Expected>, msg: MsgId)
    ensures |DropExpected(log, msg)| <= |log|
  {
    if log != [] && log[0].msg != msg {
      DropShorter(log[1..], msg);
    }
  }

  lemma ExpectLog(sp: Spaces, e: Expected)
    requires DistinctMsgs(sp.expected)
    ensures var log := ExpectReply(sp, e).expected; DistinctMsgs(log) && |log| <= REPLY_LOG
  {
    NotedDistinct(sp.expected, e);
  }

  lemma CommandLog(t: Table, leader: Backend, frame: Frame, now: Time)
    requires frame.Call? && DistinctMsgs(t.sp.expected) && |t.sp.expected| <= REPLY_LOG
    ensures var log := LeaderCall(t, leader, frame, now).0.sp.expected; DistinctMsgs(log) && |log| <= REPLY_LOG
  {
    hide SpaceFresh, ExpectReply, DistinctMsgs, ReverseId;
    var spec := SpaceOf(frame.action);
    if spec.Some? && frame.payload.obj.Some? {
      var key := SpaceKey(spec.value.0, leader, frame.payload.obj.value);
      if spec.value.1.Assign? {
        var (sp1, r, made) := SpaceAssign(t.sp, key.space, leader, key.bid, ExpiryOf(frame.action, frame.payload), now);
        ExpectLog(sp1, Expected(frame.id, r, Assign, made));
      } else if key in t.sp.index {
        ExpectLog(t.sp, Expected(frame.id, t.sp.index[key], Release, false));
      }
    }
  }

  lemma {:induction false} RunLog(cfg: Config, run: seq<Event>)
    ensures DistinctMsgs(After(cfg, run).sp.expected) && |After(cfg, run).sp.expected| <= REPLY_LOG
  {
    hide Step, WF, DistinctMsgs;
    if run == [] {
      EmptyLog();
    } else {
      var before := run[..|run| - 1];
      RunLog(cfg, before);
      RunKeeps(cfg, before);
      StepLog(cfg, After(cfg, before), run[|run| - 1]);
    }
  }

  lemma EmptyLog()
    ensures DistinctMsgs(EmptyTable.sp.expected)
  {
  }

  lemma LapsedIsOld(cfg: Config, sp: Spaces, id: SpaceId, now: Time, wall: Time)
    requires SpacesOk(sp) && id in sp.records
    ensures sp.records[id] in sp.objs && (sp.records[id] in Lapsed(cfg, sp, now, wall) <==> IsOld(cfg, sp.objs[sp.records[id]], now, wall))
  {
    assert RecordedOk(sp, id);
  }

  lemma LeadsOn(sp: Spaces, gone: set<Ref>, id: SpaceId)
    requires id in sp.records
    ensures Find(ReleaseAll(sp, gone).records, id) == if sp.records[id] in gone then None else Some(sp.records[id])
  {
  }

  lemma SettledAs(sp: Spaces, frame: Frame, id: SpaceId)
    requires DistinctMsgs(sp.expected) && id in sp.records && (frame.Result? || frame.Error?)
    ensures Find(SettleReply(sp, frame).records, id) == if Frees(sp, frame, sp.records[id]) then None else Some(sp.records[id])
  {
    hide DistinctMsgs, DropExpected, ExpectedFor, ReleaseAll;
    ExpectedIs(sp.expected, IdOf(frame));
    var e := ExpectedFor(sp.expected, IdOf(frame));
    if e.Some? {
      LeadsOn(sp.(expected := DropExpected(sp.expected, IdOf(frame))), {e.value.ref}, id);
    }
  }

  lemma CommandLeadsOn(t: Table, leader: Backend, frame: Frame, now: Time, id: SpaceId)
    requires SpacesOk(t.sp) && frame.Call? && id in t.sp.records
    ensures Find(LeaderCall(t, leader, frame, now).0.sp.records, id) == Some(t.sp.records[id])
  {
    hide ReverseId, SpaceFresh, ExpectReply;
    var spec := SpaceOf(frame.action);
    if spec.Some? && frame.payload.obj.Some? {
      var key := SpaceKey(spec.value.0, leader, frame.payload.obj.value);
      if spec.value.1.Assign? {
        FreshUnused(t.sp, key.space);
        var (sp1, r, made) := SpaceAssign(t.sp, key.space, leader, key.bid, ExpiryOf(frame.action, frame.payload), now);
        OnlyLog(sp1, Expected(frame.id, r, Assign, made));
      } else if key in t.sp.index {
        OnlyLog(t.sp, Expected(frame.id, t.sp.index[key], Release, false));
      }
    }
  }

  lemma OnlyLog(sp: Spaces, e: Expected)
    ensures ExpectReply(sp, e).records == sp.records && ExpectReply(sp, e).index == sp.index && ExpectReply(sp, e).objs == sp.objs
  {
  }

  /** MAIN RESULT. In every reachable state, what the charger's id for a reservation or profile leads to stays known after an
      event, unless the event is one of these: a frame or a check that finds it too old, the charger's answer to the command
      that made it (refused) or removes it (accepted), or the broker's own command that removes it. Then it is forgotten. */
  lemma ObjectsForgottenExactly(cfg: Config, run: seq<Event>, e: Event, id: SpaceId)
    requires id in After(cfg, run).sp.records
    ensures var sp := After(cfg, run).sp; var r := sp.records[id];
      r in sp.objs && (Find(Step(cfg, After(cfg, run), e).0.sp.records, id) == Some(r) <==> !IsForgotten(cfg, sp, e, id, r))
  {
    hide After, WF, SpacesOk, DistinctMsgs;
    RunKeeps(cfg, run);
    RunSpacesOk(cfg, run);
    RunLog(cfg, run);
    LapsedIsOld(cfg, After(cfg, run).sp, id, e.now, e.wall);
    StepForgets(cfg, After(cfg, run), e, id);
  }

  lemma StepForgets(cfg: Config, t: Table, e: Event, id: SpaceId)
    requires WF(t.tx) && SpacesOk(t.sp) && DistinctMsgs(t.sp.expected) && id in t.sp.records && t.sp.records[id] in t.sp.objs
    ensures Find(Step(cfg, t, e).0.sp.records, id) == Some(t.sp.records[id]) <==> !IsForgotten(cfg, t.sp, e, id, t.sp.records[id])
  {
    hide WF, SpacesOk, DistinctMsgs, ForgetAll, Expired, Lapsed, ReleaseAll, ChargerStart, ChargerCall, LeaderAnswer, LeaderCall, FromFollower, ExpireHolds, StartFailed, LeaderChanged,
      SettleReply, Frees, IsOld;
    match e.input
    case ChargerFrame(frame, leader, followers) =>
      FrameForgets(cfg, t, frame, leader, followers, e.now, e.wall, id);
    case LeaderFrameIn(leader, frame) =>
      if frame.Call? {
        CommandLeadsOn(t, leader, frame, e.now, id);
      }
    case FollowerFrame(follower, frame) =>
      FollowerSame(cfg, t, follower, frame, e.now);
    case Promotion(newLeader) =>
    case HoldTimer(order) =>
      HoldsSame(cfg, t, order, e.now);
    case BrokerRefused(msg) =>
    case RestCommand(action, payload) =>
      BrokerForgets(t.sp, action, payload, e.now, id);
    case IdleCheck =>
      LapsedIsOld(cfg, t.sp, id, e.now, e.wall);
      LeadsOn(t.sp, Lapsed(cfg, t.sp, e.now, e.wall), id);
  }

  lemma FrameForgets(cfg: Config, t: Table, frame: Frame, leader: Backend, followers: seq<Follower>, now: Time, wall: Time, id: SpaceId)
    requires WF(t.tx) && SpacesOk(t.sp) && DistinctMsgs(t.sp.expected) && id in t.sp.records && t.sp.records[id] in t.sp.objs
    ensures Find(FromCharger(cfg, t, frame, leader, followers, now, wall).0.sp.records, id) == Some(t.sp.records[id]) <==>
            !(IsOld(cfg, t.sp.objs[t.sp.records[id]], now, wall) || Frees(t.sp, frame, t.sp.records[id]))
  {
    hide WF, SpacesOk, DistinctMsgs, ForgetAll, Expired, Lapsed, ReleaseAll, ChargerStart, ChargerCall, SettleReply, IsOld;
    var r := t.sp.records[id];
    LapsedIsOld(cfg, t.sp, id, now, wall);
    LeadsOn(t.sp, Lapsed(cfg, t.sp, now, wall), id);
    ForgetKeeps(t.tx, Expired(cfg, t.tx, now));
    OnlyEntries(t.sp, Lapsed(cfg, t.sp, now, wall));
    var p := Prune(cfg, t, now, wall);
    if frame.Call? {
      ChargerFrameSame(cfg, p, frame, leader, followers, now);
    } else if !frame.Odd? {
      if id in p.sp.records {
        SettledAs(p.sp, frame, id);
      } else {
        NothingComesBack(p.sp, frame, id);
      }
    }
  }

  lemma OnlyEntries(sp: Spaces, gone: set<Ref>)
    ensures ReleaseAll(sp, gone).expected == sp.expected && ReleaseAll(sp, gone).objs == sp.objs
  {
  }

  lemma NothingComesBack(sp: Spaces, frame: Frame, id: SpaceId)
    requires id !in sp.records
    ensures id !in SettleReply(sp, frame).records
  {
  }

  lemma BrokerForgets(sp: Spaces, action: Action, payload: Payload, now: Time, id: SpaceId)
    requires SpacesOk(sp) && id in sp.records
    ensures Find(NoteCommand(sp, action, payload, now).records, id) == Some(sp.records[id]) <==> !(RemovesIn(action) == Some(id.space) && payload.obj == Some(id.cid))
  {
    var spec := SpaceOf(action);
    if spec.Some? && payload.obj.Some? {
      var x := SpaceId(spec.value.0, payload.obj.value);
      assert RecordedOk(sp, id) && (x in sp.records ==> RecordedOk(sp, x));
    }
  }

  /** MAIN RESULT. After a command of the broker's own that makes an object, the id it names is taken in that space. */
  lemma BrokerTakesItsId(cfg: Config, run: seq<Event>, e: Event, space: Space, n: int)
    requires e.input.RestCommand? && MakesIn(e.input.action) == Some(space) && e.input.payload.obj == Some(n)
    ensures var t := After(cfg, run); var t' := Step(cfg, t, e).0; var id := SpaceId(space, n);
      && id in t'.sp.records && t'.sp.records[id] in t'.sp.objs && t'.tx == t.tx
      && t'.sp.objs[t'.sp.records[id]].touched == e.now
      && (id in t.sp.records ==> t'.sp.records[id] == t.sp.records[id])
      && (id !in t.sp.records ==> t'.sp.objs[t'.sp.records[id]].backendIds == map[])
      && t'.sp.objs[t'.sp.records[id]].expires == (if e.input.action.ReserveNow? && e.input.payload.expiry.Some? then e.input.payload.expiry
                                                   else if id in t.sp.records then Obj(t.sp, t.sp.records[id]).expires else None)
  {
    hide After;
    RunSpacesOk(cfg, run);
    var sp, id := After(cfg, run).sp, SpaceId(space, n);
    assert id in sp.records ==> RecordedOk(sp, id);
  }

  /** As long as an id is taken, no command of a leader makes an object under it that the table does not know as this leader's. */
  lemma TakenIdsAreAvoided(cfg: Config, run: seq<Event>, e: Event, space: Space, n: int)
    requires e.input.LeaderFrameIn? && e.input.frame.Call? && MakesIn(e.input.frame.action) == Some(space) && e.input.frame.payload.obj.Some?
    requires SpaceId(space, n) in After(cfg, run).sp.records && SpaceKey(space, e.input.leader, e.input.frame.payload.obj.value) !in After(cfg, run).sp.index
    ensures var out := Step(cfg, After(cfg, run), e).1.toCharger; |out| == 1 && out[0].Call? && out[0].payload.obj.Some? && out[0].payload.obj != Some(n)
  {
    hide After, Step;
    CommandsReachTheCharger(cfg, run, e);
  }
}
