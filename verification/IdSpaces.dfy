/** Reservations and charging profiles: the table's two dictionaries stay one-to-one. */
module IdSpaces {
  import opened Ocpp
  import opened TableState
  import opened TableSteps
  import opened TableInvariant
  import opened TableCopies

  // ------------------------------------------------------------------
  // One-to-one
  // ------------------------------------------------------------------

  /** The charger's id `id` leads to an object with that id, and every backend number of the object leads to it. */
  ghost predicate RecordedOk(sp: Spaces, id: SpaceId) {
    id in sp.records && sp.records[id] in sp.objs &&
    var o := sp.objs[sp.records[id]];
    o.space == id.space && o.cid == id.cid &&
    forall b :: b in o.backendIds ==> SpaceKey(id.space, b, o.backendIds[b]) in sp.index && sp.index[SpaceKey(id.space, b, o.backendIds[b])] == sp.records[id]
  }

  /** A backend's number leads to an object that backend calls so, and that the charger's id leads to. */
  ghost predicate IndexedOk(sp: Spaces, key: SpaceKey) {
    key in sp.index && sp.index[key] in sp.objs &&
    var o := sp.objs[sp.index[key]];
    o.space == key.space && key.backend in o.backendIds && o.backendIds[key.backend] == key.bid &&
    SpaceId(o.space, o.cid) in sp.records && sp.records[SpaceId(o.space, o.cid)] == sp.index[key]
  }

  ghost predicate SpacesOk(sp: Spaces) {
    && (forall r :: r in sp.objs ==> r < sp.next)
    && (forall id :: id in sp.records ==> RecordedOk(sp, id))
    && (forall key :: key in sp.index ==> IndexedOk(sp, key))
  }

  lemma SameObjectsOk(sp: Spaces, sp': Spaces)
    requires SpacesOk(sp) && SameObjects(sp, sp')
    ensures SpacesOk(sp')
  {
    forall id | id in sp'.records ensures RecordedOk(sp', id) {
      assert RecordedOk(sp, id);
    }
    forall key | key in sp'.index ensures IndexedOk(sp', key) {
      assert IndexedOk(sp, key);
    }
  }

  /** An object was used: nothing but its times changed. */
  lemma LaterOk(sp: Spaces, r: Ref, expires: Option<Time>, now: Time)
    requires SpacesOk(sp) && r in sp.objs
    ensures SpacesOk(sp.(objs := sp.objs[r := Later(expires, sp.objs[r], now)]))
  {
    var sp' := sp.(objs := sp.objs[r := Later(expires, sp.objs[r], now)]);
    forall id | id in sp'.records ensures RecordedOk(sp', id) {
      assert RecordedOk(sp, id);
    }
    forall key | key in sp'.index ensures IndexedOk(sp', key) {
      assert IndexedOk(sp, key);
    }
  }

  lemma SpaceAssignOk(sp: Spaces, space: Space, backend: Backend, bid: int, expires: Option<Time>, now: Time)
    requires SpacesOk(sp)
    ensures var (sp', r, made) := SpaceAssign(sp, space, backend, bid, expires, now);
      && SpacesOk(sp') && SpaceKey(space, backend, bid) in sp'.index && sp'.index[SpaceKey(space, backend, bid)] == r
      && (made <==> SpaceKey(space, backend, bid) !in sp.index)
      && (made ==> SpaceId(space, sp'.objs[r].cid) !in sp.records)
  {
    var key := SpaceKey(space, backend, bid);
    var (sp', r, made) := SpaceAssign(sp, space, backend, bid, expires, now);
    if key in sp.index {
      assert IndexedOk(sp, key);
      LaterOk(sp, r, expires, now);
    } else {
      FreshUnused(sp, space);
      forall id | id in sp'.records ensures RecordedOk(sp', id) {
        assert id in sp.records ==> RecordedOk(sp, id);
      }
      forall k | k in sp'.index ensures IndexedOk(sp', k) {
        assert k in sp.index ==> IndexedOk(sp, k);
      }
    }
  }

  /** The one next to the largest of the charger's ids and the backends' numbers in that space (next to 0 without any); when that
      leaves 31 bits, the smallest positive one that the charger does not hold. */
  ghost predicate IsInventedIn(sp: Spaces, space: Space, id: int) {
    if forall k: int :: IsInUseIn(sp, space, k) ==> k < MAX_INT32 then
      (IsInUseIn(sp, space, id - 1) || (id == 1 && forall k: int :: !IsInUseIn(sp, space, k))) && forall k: int :: IsInUseIn(sp, space, k) ==> k < id
    else id >= 1 && SpaceId(space, id) !in sp.records && forall j :: 1 <= j < id ==> SpaceId(space, j) in sp.records
  }

  /** The charger holds an object under `k`, or a backend calls one so. */
  ghost predicate IsInUseIn(sp: Spaces, space: Space, k: int) {
    SpaceId(space, k) in sp.records || exists b: Backend :: SpaceKey(space, b, k) in sp.index
  }

  /** An invented number is never one the charger already holds in that space. */
  lemma FreshUnused(sp: Spaces, space: Space)
    ensures SpaceId(space, SpaceFresh(sp, space)) !in sp.records && IsInventedIn(sp, space, SpaceFresh(sp, space))
  {
    var taken := TakenIds(sp, space);
    forall k: int ensures (k in taken <==> SpaceId(space, k) in sp.records) && (IsInUseIn(sp, space, k) <==> k in KnownNumbers(sp, space)) {
      InUseIn(sp, space, k);
    }
    hide IsInUseIn, KnownNumbers, TakenIds;
    assert SpaceFresh(sp, space) !in taken;
  }

  lemma InUseIn(sp: Spaces, space: Space, k: int)
    ensures k in TakenIds(sp, space) <==> SpaceId(space, k) in sp.records
    ensures IsInUseIn(sp, space, k) <==> k in KnownNumbers(sp, space)
    ensures k in TakenIds(sp, space) ==> k in KnownNumbers(sp, space)
  {
    if k in TakenIds(sp, space) {
      var id :| id in sp.records && id.space == space && id.cid == k;
      assert id == SpaceId(space, k);
    }
    if k in KnownNumbers(sp, space) && k !in TakenIds(sp, space) {
      var key :| key in sp.index && key.space == space && key.bid == k;
      assert SpaceKey(space, key.backend, k) in sp.index;
    }
  }

  lemma SpaceOccupyOk(sp: Spaces, space: Space, cid: int, expires: Option<Time>, now: Time)
    requires SpacesOk(sp)
    ensures SpacesOk(SpaceOccupy(sp, space, cid, expires, now))
  {
    var sp' := SpaceOccupy(sp, space, cid, expires, now);
    var id := SpaceId(space, cid);
    if id in sp.records {
      assert RecordedOk(sp, id);
      LaterOk(sp, sp.records[id], expires, now);
    } else {
      forall id | id in sp'.records ensures RecordedOk(sp', id) {
        assert id in sp.records ==> RecordedOk(sp, id);
      }
      forall k | k in sp'.index ensures IndexedOk(sp', k) {
        assert IndexedOk(sp, k);
      }
    }
  }

  /** However late a release arrives, it takes away only what leads to the released object itself. */
  lemma ReleaseOk(sp: Spaces, gone: set<Ref>)
    requires SpacesOk(sp)
    ensures SpacesOk(ReleaseAll(sp, gone))
    ensures forall id :: id in sp.records && sp.records[id] !in gone ==> id in ReleaseAll(sp, gone).records && ReleaseAll(sp, gone).records[id] == sp.records[id]
    ensures forall key :: key in sp.index && sp.index[key] !in gone ==> key in ReleaseAll(sp, gone).index && ReleaseAll(sp, gone).index[key] == sp.index[key]
    ensures forall id :: id in ReleaseAll(sp, gone).records ==> sp.records[id] !in gone
    ensures forall key :: key in ReleaseAll(sp, gone).index ==> sp.index[key] !in gone
  {
    var sp' := ReleaseAll(sp, gone);
    forall id | id in sp'.records ensures RecordedOk(sp', id) {
      assert RecordedOk(sp, id);
    }
    forall k | k in sp'.index ensures IndexedOk(sp', k) {
      assert IndexedOk(sp, k);
    }
  }

  lemma ExpectedOk(sp: Spaces, log: seq<Expected>)
    requires SpacesOk(sp)
    ensures SpacesOk(sp.(expected := log))
  {
    SameObjectsOkLog(sp, sp.(expected := log));
  }

  lemma SameObjectsOkLog(sp: Spaces, sp': Spaces)
    requires SpacesOk(sp) && sp' == sp.(expected := sp'.expected)
    ensures SpacesOk(sp')
  {
    forall id | id in sp'.records ensures RecordedOk(sp', id) {
      assert RecordedOk(sp, id);
    }
    forall key | key in sp'.index ensures IndexedOk(sp', key) {
      assert IndexedOk(sp, key);
    }
  }

  lemma SettleReplyOk(sp: Spaces, frame: Frame)
    requires SpacesOk(sp)
    ensures SpacesOk(SettleReply(sp, frame))
  {
    var log := DropExpected(sp.expected, IdOf(frame));
    ExpectedOk(sp, log);
    var e := ExpectedFor(sp.expected, IdOf(frame));
    if e.Some? {
      ReleaseOk(sp.(expected := log), {e.value.ref});
    }
  }

  lemma LeaderCallOk(t: Table, leader: Backend, frame: Frame, now: Time)
    requires SpacesOk(t.sp) && frame.Call?
    ensures SpacesOk(LeaderCall(t, leader, frame, now).0.sp)
  {
    var spec := SpaceOf(frame.action);
    if spec.Some? && frame.payload.obj.Some? {
      var (space, mode) := spec.value;
      var value := frame.payload.obj.value;
      if mode.Assign? {
        SpaceAssignOk(t.sp, space, leader, value, ExpiryOf(frame.action, frame.payload), now);
        var (sp1, r, made) := SpaceAssign(t.sp, space, leader, value, ExpiryOf(frame.action, frame.payload), now);
        ExpectedOk(sp1, ExpectReply(sp1, Expected(frame.id, r, Assign, made)).expected);
      } else if SpaceKey(space, leader, value) in t.sp.index {
        ExpectedOk(t.sp, ExpectReply(t.sp, Expected(frame.id, t.sp.index[SpaceKey(space, leader, value)], Release, false)).expected);
      }
    }
  }

  lemma FromChargerOk(cfg: Config, t: Table, frame: Frame, leader: Backend, followers: seq<Follower>, now: Time, wall: Time)
    requires WF(t.tx) && SpacesOk(t.sp)
    ensures SpacesOk(FromCharger(cfg, t, frame, leader, followers, now, wall).0.sp)
  {
    ReleaseOk(t.sp, Lapsed(cfg, t.sp, now, wall));
    ForgetKeeps(t.tx, Expired(cfg, t.tx, now));
    var t1 := Prune(cfg, t, now, wall);
    if frame.Call? {
      ChargerFrameSame(cfg, t1, frame, leader, followers, now);
      SameObjectsOk(t1.sp, FromCharger(cfg, t, frame, leader, followers, now, wall).0.sp);
    } else if !frame.Odd? {
      SettleReplyOk(t1.sp, frame);
    }
  }

  /** A charger CALL does not change which reservations and profiles are known. */
  lemma ChargerFrameSame(cfg: Config, t: Table, frame: Frame, leader: Backend, followers: seq<Follower>, now: Time)
    requires WF(t.tx) && frame.Call?
    ensures IsStart(frame) ==> SameObjects(t.sp, ChargerStart(cfg, t, frame, leader, followers, now).0.sp)
    ensures !IsStart(frame) ==> SameObjects(t.sp, ChargerCall(cfg, t, frame, leader, followers, now).0.sp)
  {
    if IsStart(frame) {
      StartCaseOk(cfg, t.tx, leader, frame.payload.start, now);
      var case_ := StartCaseOf(cfg, t.tx, leader, frame.payload.start, now);
      if case_.Forwarded? {
        AttemptKeeps(cfg, t.tx, case_.known, frame.payload.start, frame.id, now);
        var (tx1, r) := Attempt(cfg, t.tx, case_.known, frame.payload.start, frame.id, now);
        StartFrameSame(t.sp, leader, frame, true, now);
        CopyStartToAllServes(cfg, Table(tx1, StartFrame(t.sp, leader, frame, true, now).0), r, case_.known.None?, frame, followers, now);
      }
    } else {
      CallSame(cfg, t, frame, leader, followers, now);
    }
  }

  lemma CallSame(cfg: Config, t: Table, frame: Frame, leader: Backend, followers: seq<Follower>, now: Time)
    requires WF(t.tx) && frame.Call? && !IsStart(frame)
    ensures SameObjects(t.sp, ChargerCall(cfg, t, frame, leader, followers, now).0.sp)
  {
    if QuotesTx(frame) {
      var found := Find(t.tx.ix.byTx, frame.payload.tx.value);
      QuotedKeeps(t.tx, frame, leader, found, now);
      CopyToAllServes(cfg, t.(tx := Quoted(t.tx, frame, leader, found, now)), IdCopy(found, frame), followers, now);
    } else {
      CopyToAllServes(cfg, t, PlainCopy(frame), followers, now);
    }
  }

  lemma StepSpacesOk(cfg: Config, t: Table, e: Event)
    requires WF(t.tx) && SpacesOk(t.sp)
    ensures SpacesOk(Step(cfg, t, e).0.sp)
  {
    hide WF, SpacesOk, FromCharger, FromFollower, ExpireHolds, NoteCommand, SameObjects;
    match e.input
    case ChargerFrame(frame, leader, followers) =>
      FromChargerOk(cfg, t, frame, leader, followers, e.now, e.wall);
    case LeaderFrameIn(leader, frame) =>
      if frame.Call? {
        LeaderCallOk(t, leader, frame, e.now);
      }
    case FollowerFrame(follower, frame) =>
      FollowerSame(cfg, t, follower, frame, e.now);
      SameObjectsOk(t.sp, FromFollower(cfg, t, follower, frame, e.now).0.sp);
    case Promotion(newLeader) =>
    case HoldTimer(order) =>
      HoldsSame(cfg, t, order, e.now);
      SameObjectsOk(t.sp, ExpireHolds(cfg, t, order, e.now).0.sp);
    case BrokerRefused(msg) =>
    case RestCommand(action, payload) =>
      NoteCommandOk(t.sp, action, payload, e.now);
    case IdleCheck =>
      ReleaseOk(t.sp, Lapsed(cfg, t.sp, e.now, e.wall));
  }

  lemma NoteCommandOk(sp: Spaces, action: Action, payload: Payload, now: Time)
    requires SpacesOk(sp)
    ensures SpacesOk(NoteCommand(sp, action, payload, now))
  {
    var spec := SpaceOf(action);
    if spec.Some? && payload.obj.Some? {
      var id := SpaceId(spec.value.0, payload.obj.value);
      if spec.value.1.Assign? {
        SpaceOccupyOk(sp, id.space, id.cid, ExpiryOf(action, payload), now);
      } else if id in sp.records {
        ReleaseOk(sp, {sp.records[id]});
      }
    }
  }

  lemma FollowerSame(cfg: Config, t: Table, follower: Backend, frame: Frame, now: Time)
    requires WF(t.tx)
    ensures SameObjects(t.sp, FromFollower(cfg, t, follower, frame, now).0.sp)
  {
    hide WF, IsHeld, Learn, Drain;
    if frame.Result? || frame.Error? {
      var t1 := t.(tx := t.tx.(copied := Without(t.tx.copied, Copy(follower, frame.id))));
      CopiedKeeps(t.tx, t1.tx.copied);
      if frame.id in t1.tx.ix.startMsgs {
        TrackedHeld(t1.tx, frame.id);
        var r := t1.tx.ix.startMsgs[frame.id];
        LearnKeeps(t1.tx, r, follower, frame);
        DrainServes(cfg, t1.(tx := Learn(t1.tx, r, follower, frame)), follower, now);
      }
    }
  }

  lemma {:induction false} HoldsSame(cfg: Config, t: Table, order: seq<Backend>, now: Time)
    requires WF(t.tx)
    ensures SameObjects(t.sp, ExpireHolds(cfg, t, order, now).0.sp)
  {
    if order != [] {
      HoldsSame(cfg, t, order[..|order| - 1], now);
      ExpireHoldsKeeps(cfg, t, order[..|order| - 1], now);
      DrainServes(cfg, ExpireHolds(cfg, t, order[..|order| - 1], now).0, order[|order| - 1], now);
    }
  }

  /** In every reachable state the dictionaries of each space are one-to-one. */
  lemma {:induction false} RunSpacesOk(cfg: Config, run: seq<Event>)
    ensures SpacesOk(After(cfg, run).sp)
  {
    hide Step;
    if run != [] {
      var before := run[..|run| - 1];
      RunSpacesOk(cfg, before);
      RunKeeps(cfg, before);
      StepSpacesOk(cfg, After(cfg, before), run[|run| - 1]);
    }
  }
}
