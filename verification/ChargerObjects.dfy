/** The table together with the charger behind it: no backend's command ever replaces an object of another backend. */
module ChargerObjects {
  import opened Ocpp
  import opened TableState
  import opened TableSteps
  import opened TableInvariant
  import opened TableCopies
  import opened IdSpaces
  import opened ObjectRules

  // ------------------------------------------------------------------
  // The charger
  // ------------------------------------------------------------------

  /** Who made an object last: a backend, which has its own number for it, or the broker itself. */
  datatype Owner = Owner(backend: Backend, bid: int) | Broker

  /** What the charger does of its own accord before an event: it drops objects (reservations that were used or ran out); and whether
      it does what the broker itself asks for in the event. */
  datatype Deed = Deed(drops: set<SpaceId>, accepts: bool)

  /** A command the charger has not answered yet: the object it names (as the charger reads it), and whose object is meant. */
  datatype Command = Command(msg: MsgId, target: Option<SpaceId>, mode: Mode, owner: Owner)

  datatype Charger = Charger(held: map<SpaceId, Owner>, pending: Option<Command>)

  const NewCharger := Charger(map[], None)

  /** The charger got the command `got`, which the leader sent as `sent`. */
  function Commanded(c: Charger, leader: Backend, sent: Frame, got: Frame): Charger
    requires sent.Call? && got.Call?
  {
    var (makes, removes) := (MakesIn(got.action), RemovesIn(got.action));
    if got.payload.obj.Some? && sent.payload.obj.Some? && (makes.Some? || removes.Some?) then
      var space := if makes.Some? then makes.value else removes.value;
      c.(pending := Some(Command(got.id, Some(SpaceId(space, got.payload.obj.value)), if makes.Some? then Assign else Release, Owner(leader, sent.payload.obj.value))))
    else c.(pending := Some(Command(got.id, None, Assign, Owner(leader, 0))))
  }

  /** The broker itself asks the charger to make or remove an object. */
  function Ordered(c: Charger, action: Action, payload: Payload, accepts: bool): Charger {
    if !accepts || payload.obj.None? then c
    else if MakesIn(action).Some? then c.(held := c.held[SpaceId(MakesIn(action).value, payload.obj.value) := Broker])
    else if RemovesIn(action).Some? then c.(held := c.held - {SpaceId(RemovesIn(action).value, payload.obj.value)})
    else c
  }

  predicate Accepts(frame: Frame) {
    frame.Result? && frame.conf.accepted
  }

  /** The charger answers: an accepted assignment creates or replaces the object, an accepted release removes it. */
  function Answering(c: Charger, frame: Frame): Charger {
    if !(frame.Result? || frame.Error?) || c.pending.None? || c.pending.value.msg != IdOf(frame) then c
    else
      var p := c.pending.value;
      var held := if !Accepts(frame) || p.target.None? then c.held
                  else if p.mode.Assign? then c.held[p.target.value := p.owner]
                  else c.held - {p.target.value};
      Charger(held, None)
  }

  /** What an event, and the table's output for it, does to the charger. */
  function ChargerStep(c: Charger, deed: Deed, input: Input, out: Output): Charger {
    var c1 := Dropping(c, deed);
    match input
    case ChargerFrame(frame, _, _) => Answering(c1, frame)
    case LeaderFrameIn(leader, frame) => if frame.Call? && |out.toCharger| == 1 && out.toCharger[0].Call? then Commanded(c1, leader, frame, out.toCharger[0]) else c1
    case RestCommand(action, payload) => Ordered(c1, action, payload, deed.accepts)
    case _ => c1
  }

  function Dropping(c: Charger, deed: Deed): Charger {
    c.(held := c.held - deed.drops)
  }

  // ------------------------------------------------------------------
  // What holds throughout
  // ------------------------------------------------------------------

  /** The charger's id `id` is taken, and recorded as `owner`'s object if a backend made it. */
  predicate KnownAs(sp: Spaces, id: SpaceId, owner: Owner) {
    id in sp.records && (owner.Owner? ==> Obj(sp, sp.records[id]).backendIds == map[owner.backend := owner.bid])
  }

  /** Every object belongs to one backend at most. */
  predicate OneOwner(sp: Spaces) {
    forall r :: r in sp.objs ==> forall b, b' :: b in sp.objs[r].backendIds && b' in sp.objs[r].backendIds ==> b == b'
  }

  predicate HeldKnown(sp: Spaces, c: Charger) {
    forall id :: id in c.held ==> KnownAs(sp, id, c.held[id])
  }

  /** The table waits for the answer to the outstanding command, and for no other. */
  predicate ExpectsOnly(sp: Spaces, c: Charger) {
    if sp.expected == [] then c.pending.Some? && c.pending.value.mode.Assign? ==> c.pending.value.target.None?
    else |sp.expected| == 1 && c.pending.Some? && ExpectsIt(sp, sp.expected[0], c.held, c.pending.value)
  }

  predicate ExpectsIt(sp: Spaces, e: Expected, held: map<SpaceId, Owner>, p: Command) {
    && e.msg == p.msg && e.mode == p.mode && p.target.Some? && p.target.value in sp.records && sp.records[p.target.value] == e.ref
    && (p.mode.Assign? ==> p.owner.Owner? && KnownAs(sp, p.target.value, p.owner))
    && (e.made && p.mode.Assign? ==> p.target.value !in held)
  }

  ghost predicate InStep(sp: Spaces, c: Charger) {
    SpacesOk(sp) && OneOwner(sp) && HeldKnown(sp, c) && ExpectsOnly(sp, c)
  }

  lemma SameObjectsInStep(sp: Spaces, sp': Spaces, c: Charger)
    requires InStep(sp, c) && SameObjects(sp, sp')
    ensures InStep(sp', c)
  {
    SameObjectsOk(sp, sp');
    forall id | id in c.held ensures KnownAs(sp', id, c.held[id]) {
      assert KnownAs(sp, id, c.held[id]) && RecordedOk(sp, id);
    }
    if sp.expected != [] {
      assert RecordedOk(sp, c.pending.value.target.value);
    }
  }

  lemma DropsInStep(sp: Spaces, c: Charger, deed: Deed)
    requires InStep(sp, c)
    ensures InStep(sp, Dropping(c, deed))
  {
  }

  /** Releasing the one object behind `id` leaves every other object known. */
  lemma ReleasedKnown(sp: Spaces, id: SpaceId, x: SpaceId, owner: Owner)
    requires SpacesOk(sp) && id in sp.records && KnownAs(sp, x, owner) && x != id
    ensures KnownAs(ReleaseAll(sp, {sp.records[id]}), x, owner)
  {
    assert RecordedOk(sp, id) && RecordedOk(sp, x);
  }

  lemma AnsweredInStep(sp: Spaces, c: Charger, frame: Frame)
    requires InStep(sp, c) && (frame.Result? || frame.Error?)
    ensures InStep(SettleReply(sp, frame), Answering(c, frame))
  {
    hide SpacesOk;
    SettleReplyOk(sp, frame);
    if sp.expected != [] {
      var e, p := sp.expected[0], c.pending.value;
      assert sp.expected == [e] && sp.expected[1..] == [];
      if e.msg == IdOf(frame) {
        SettledInStep(sp, c, frame);
      } else {
        assert ExpectedFor(sp.expected, IdOf(frame)).None?;
      }
    } else {
      UnexpectedInStep(sp, c, frame);
    }
  }

  /** An answer to a command that does not concern the table: at most the charger dropped an object. */
  lemma UnexpectedInStep(sp: Spaces, c: Charger, frame: Frame)
    requires InStep(sp, c) && (frame.Result? || frame.Error?) && sp.expected == []
    ensures SettleReply(sp, frame) == sp && InStep(sp, Answering(c, frame))
  {
    hide SpacesOk;
  }

  lemma SettledInStep(sp: Spaces, c: Charger, frame: Frame)
    requires InStep(sp, c) && (frame.Result? || frame.Error?) && |sp.expected| == 1 && sp.expected[0].msg == IdOf(frame)
    ensures InStep(SettleReply(sp, frame), Answering(c, frame))
  {
    hide SpacesOk;
    var e, p := sp.expected[0], c.pending.value;
    SettleReplyOk(sp, frame);
    assert sp.expected == [e] && sp.expected[1..] == [];
    var sp1 := sp.(expected := []);
    ExpectedOk(sp, []);
    var sp', c' := SettleReply(sp, frame), Answering(c, frame);
    forall id | id in c'.held ensures KnownAs(sp', id, c'.held[id]) {
      if id in c.held {
        assert KnownAs(sp, id, c.held[id]);
      }
      if id != p.target.value && sp' != sp1 {
        ReleasedKnown(sp1, p.target.value, id, c.held[id]);
      }
    }
  }

  // ------------------------------------------------------------------
  // Commands
  // ------------------------------------------------------------------

  lemma AssignKnows(sp: Spaces, c: Charger, space: Space, leader: Backend, bid: int, expires: Option<Time>, now: Time)
    requires SpacesOk(sp) && HeldKnown(sp, c)
    ensures HeldKnown(SpaceAssign(sp, space, leader, bid, expires, now).0, c)
  {
    hide SpaceFresh;
    SpaceAssignOk(sp, space, leader, bid, expires, now);
    var sp' := SpaceAssign(sp, space, leader, bid, expires, now).0;
    forall x | x in c.held ensures KnownAs(sp', x, c.held[x]) {
      assert KnownAs(sp, x, c.held[x]) && RecordedOk(sp, x);
    }
  }

  /** An assignment names the backend's own object: the one it made under this number, or one the charger does not hold. */
  lemma AssignsOwn(sp: Spaces, c: Charger, space: Space, leader: Backend, bid: int, expires: Option<Time>, now: Time)
    requires SpacesOk(sp) && OneOwner(sp) && HeldKnown(sp, c)
    ensures var (sp', r, made) := SpaceAssign(sp, space, leader, bid, expires, now);
      var id := SpaceId(space, Obj(sp', r).cid);
      && SpacesOk(sp') && OneOwner(sp') && HeldKnown(sp', c) && id in sp'.records && sp'.records[id] == r && KnownAs(sp', id, Owner(leader, bid))
      && (id in c.held ==> c.held[id] == Owner(leader, bid) || (c.held[id].Broker? && !made)) && (made ==> id !in c.held) && sp'.expected == sp.expected
      && (made <==> SpaceKey(space, leader, bid) !in sp.index)
  {
    hide SpaceFresh;
    SpaceAssignOk(sp, space, leader, bid, expires, now);
    var key := SpaceKey(space, leader, bid);
    var (sp', r, made) := SpaceAssign(sp, space, leader, bid, expires, now);
    assert IndexedOk(sp', key);
    var id := SpaceId(space, Obj(sp', r).cid);
    if !made {
      assert IndexedOk(sp, key);
      OwnersAre(sp, r, leader, bid);
    }
    AssignKnows(sp, c, space, leader, bid, expires, now);
    OwnersAre(sp', r, leader, bid);
    if id in c.held {
      assert KnownAs(sp, id, c.held[id]) && KnownAs(sp', id, c.held[id]);
      assert c.held[id].Owner? ==> c.held[id].backend in Obj(sp', r).backendIds;
    }
  }

  lemma OwnersAre(sp: Spaces, r: Ref, b: Backend, bid: int)
    requires OneOwner(sp) && r in sp.objs && b in sp.objs[r].backendIds && sp.objs[r].backendIds[b] == bid
    ensures sp.objs[r].backendIds == map[b := bid]
  {
  }

  lemma CommandInStep(t: Table, c: Charger, leader: Backend, frame: Frame, now: Time)
    requires InStep(t.sp, c) && c.pending.None? && frame.Call?
    ensures var (t', got) := LeaderCall(t, leader, frame, now); got.Call? && InStep(t'.sp, Commanded(c, leader, frame, got))
    ensures var (t', got) := LeaderCall(t, leader, frame, now); LandsOnOwn(t.sp, c, leader, frame, got)
  {
    hide SpacesOk, SpaceAssign, ReverseId, OneOwner, HeldKnown;
    var spec := SpaceOf(frame.action);
    var (t', got) := LeaderCall(t, leader, frame, now);
    if spec.Some? && frame.payload.obj.Some? {
      var (space, mode) := spec.value;
      var value := frame.payload.obj.value;
      if mode.Assign? {
        AssignsOwn(t.sp, c, space, leader, value, ExpiryOf(frame.action, frame.payload), now);
        var (sp1, r, made) := SpaceAssign(t.sp, space, leader, value, ExpiryOf(frame.action, frame.payload), now);
        ExpectsOne(sp1, c, Expected(frame.id, r, Assign, made), Commanded(c, leader, frame, got).pending.value);
      } else if SpaceKey(space, leader, value) in t.sp.index {
        var r := t.sp.index[SpaceKey(space, leader, value)];
        IndexedRecord(t.sp, SpaceKey(space, leader, value));
        ExpectsOne(t.sp, c, Expected(frame.id, r, Release, false), Commanded(c, leader, frame, got).pending.value);
      } else {
        NothingExpected(t.sp, c, Commanded(c, leader, frame, got));
      }
    } else {
      NothingExpected(t.sp, c, Commanded(c, leader, frame, got));
    }
  }

  lemma NothingExpected(sp: Spaces, c: Charger, c': Charger)
    requires InStep(sp, c) && c.pending.None? && c'.held == c.held && c'.pending.Some?
    requires c'.pending.value.mode.Assign? ==> c'.pending.value.target.None?
    ensures InStep(sp, c')
  {
  }

  lemma IndexedRecord(sp: Spaces, key: SpaceKey)
    requires SpacesOk(sp) && key in sp.index
    ensures var id := SpaceId(key.space, Obj(sp, sp.index[key]).cid); id in sp.records && sp.records[id] == sp.index[key]
  {
    assert IndexedOk(sp, key);
  }

  lemma ExpectsOne(sp: Spaces, c: Charger, e: Expected, p: Command)
    requires SpacesOk(sp) && OneOwner(sp) && HeldKnown(sp, c) && sp.expected == []
    requires ExpectsIt(sp, e, c.held, p)
    ensures ExpectReply(sp, e) == sp.(expected := [e]) && InStep(ExpectReply(sp, e), c.(pending := Some(p)))
  {
    ExpectedOk(sp, [e]);
    var sp' := sp.(expected := [e]);
    forall id | id in c.held ensures KnownAs(sp', id, c.held[id]) {
      assert KnownAs(sp, id, c.held[id]);
    }
  }

  /** If the command makes an object, then whatever the charger holds under the id it reads is the sender's own object by that
      number, or one that the broker itself put in its place. */
  predicate LandsOnOwn(sp: Spaces, c: Charger, leader: Backend, sent: Frame, got: Frame)
    requires sent.Call? && got.Call?
  {
    MakesIn(sent.action).Some? && sent.payload.obj.Some? ==>
      got.payload.obj.Some? &&
      var (id, key) := (SpaceId(MakesIn(sent.action).value, got.payload.obj.value), SpaceKey(MakesIn(sent.action).value, leader, sent.payload.obj.value));
      id in c.held ==> c.held[id] == Owner(leader, key.bid) || (c.held[id].Broker? && key in sp.index)
  }

  // ------------------------------------------------------------------
  // Releases
  // ------------------------------------------------------------------

  /** If the command removes an object: when the table knows an object of the sender by that number, then whatever the charger
      holds under the id it reads is that very object, or one that the broker put in its place; when it does not, the command is
      passed on as it is, and what the charger holds under the id is not the sender's object by that number. */
  predicate ReleasesOwnExactly(sp: Spaces, c: Charger, leader: Backend, sent: Frame, got: Frame)
    requires sent.Call? && got.Call?
  {
    RemovesIn(sent.action).Some? && sent.payload.obj.Some? ==>
      got.payload.obj.Some? &&
      var (id, key) := (SpaceId(RemovesIn(sent.action).value, got.payload.obj.value), SpaceKey(RemovesIn(sent.action).value, leader, sent.payload.obj.value));
      if key in sp.index then id in c.held ==> c.held[id] == Owner(leader, key.bid) || c.held[id].Broker?
      else got == sent && (id in c.held ==> c.held[id] != Owner(leader, key.bid))
  }

  lemma OneMaker(sp: Spaces, id: SpaceId, owner: Owner, key: SpaceKey)
    requires SpacesOk(sp) && KnownAs(sp, id, owner) && key in sp.index && sp.records[id] == sp.index[key]
    ensures owner == Owner(key.backend, key.bid) || owner.Broker?
  {
    assert IndexedOk(sp, key);
    if owner.Owner? {
      assert sp.objs[sp.index[key]].backendIds == map[owner.backend := owner.bid];
      assert key.backend in map[owner.backend := owner.bid];
    }
  }

  lemma MakerIsKnown(sp: Spaces, id: SpaceId, owner: Owner)
    requires SpacesOk(sp) && KnownAs(sp, id, owner) && owner.Owner?
    ensures SpaceKey(id.space, owner.backend, owner.bid) in sp.index
  {
    assert RecordedOk(sp, id);
    assert owner.backend in map[owner.backend := owner.bid];
  }

  lemma ReleaseLands(t: Table, c: Charger, leader: Backend, frame: Frame, now: Time)
    requires SpacesOk(t.sp) && HeldKnown(t.sp, c) && frame.Call?
    ensures LeaderCall(t, leader, frame, now).1.Call? && ReleasesOwnExactly(t.sp, c, leader, frame, LeaderCall(t, leader, frame, now).1)
  {
    hide SpaceAssign, ReverseId, KnownAs, ExpectReply;
    var spec := SpaceOf(frame.action);
    if spec.Some? && spec.value.1.Release? && frame.payload.obj.Some? {
      var key := SpaceKey(spec.value.0, leader, frame.payload.obj.value);
      if key in t.sp.index {
        assert IndexedOk(t.sp, key);
        var id := SpaceId(key.space, Obj(t.sp, t.sp.index[key]).cid);
        OnlyLog(t.sp, Expected(frame.id, t.sp.index[key], Release, false));
        if id in c.held {
          OneMaker(t.sp, id, c.held[id], key);
        }
      } else {
        var id := SpaceId(key.space, key.bid);
        if id in c.held && c.held[id].Owner? {
          MakerIsKnown(t.sp, id, c.held[id]);
        }
      }
    }
  }

  // ------------------------------------------------------------------
  // One step, and whole runs
  // ------------------------------------------------------------------

  /** The charger refuses to remove an object that it holds, though the broker itself asks for it. */
  predicate KeepsRemoved(c: Charger, deed: Deed, action: Action, payload: Payload) {
    RemovesIn(action).Some? && payload.obj.Some? && !deed.accepts && SpaceId(RemovesIn(action).value, payload.obj.value) in Dropping(c, deed).held
  }

  /** One command is outstanding at a time (section 4.1.1 of OCPP-J 1.6), the charger does not keep what the broker itself asks it to
      remove, and nothing it may still hold is old enough to be forgotten. */
  predicate CommandsInTurn(cfg: Config, t: Table, c: Charger, deed: Deed, e: Event) {
    match e.input
    case ChargerFrame(_, _, _) => Lapsed(cfg, t.sp, e.now, e.wall) == {}
    case IdleCheck => Lapsed(cfg, t.sp, e.now, e.wall) == {}
    case LeaderFrameIn(_, frame) => frame.Call? ==> c.pending.None?
    case RestCommand(action, payload) => c.pending.None? && !KeepsRemoved(c, deed, action, payload)
    case _ => true
  }

  lemma OrderedInStep(sp: Spaces, c: Charger, action: Action, payload: Payload, accepts: bool, now: Time)
    requires InStep(sp, c) && c.pending.None?
    requires RemovesIn(action).Some? && payload.obj.Some? && SpaceId(RemovesIn(action).value, payload.obj.value) in c.held ==> accepts
    ensures InStep(NoteCommand(sp, action, payload, now), Ordered(c, action, payload, accepts))
  {
    NoteCommandOk(sp, action, payload, now);
    var sp', c' := NoteCommand(sp, action, payload, now), Ordered(c, action, payload, accepts);
    assert sp'.expected == sp.expected == [];
    forall x | x in c'.held ensures KnownAs(sp', x, c'.held[x]) {
      OrderedKnown(sp, c, action, payload, accepts, now, x);
    }
    OrderedOwners(sp, action, payload, now);
  }

  lemma OrderedOwners(sp: Spaces, action: Action, payload: Payload, now: Time)
    requires SpacesOk(sp) && OneOwner(sp)
    ensures OneOwner(NoteCommand(sp, action, payload, now))
  {
    var spec := SpaceOf(action);
    if spec.Some? && payload.obj.Some? {
      var id := SpaceId(spec.value.0, payload.obj.value);
      assert id in sp.records ==> RecordedOk(sp, id);
    }
  }

  lemma OrderedKnown(sp: Spaces, c: Charger, action: Action, payload: Payload, accepts: bool, now: Time, x: SpaceId)
    requires SpacesOk(sp) && HeldKnown(sp, c) && x in Ordered(c, action, payload, accepts).held
    requires RemovesIn(action).Some? && payload.obj.Some? && SpaceId(RemovesIn(action).value, payload.obj.value) in c.held ==> accepts
    ensures KnownAs(NoteCommand(sp, action, payload, now), x, Ordered(c, action, payload, accepts).held[x])
  {
    assert x in c.held ==> KnownAs(sp, x, c.held[x]);
    hide HeldKnown;
    var spec := SpaceOf(action);
    if spec.Some? && payload.obj.Some? {
      var id := SpaceId(spec.value.0, payload.obj.value);
      if spec.value.1.Assign? {
        OccupyKnown(sp, id, x, if x in c.held then c.held[x] else Broker, ExpiryOf(action, payload), now);
      } else {
        assert x in sp.records ==> RecordedOk(sp, x);
        assert id in sp.records ==> RecordedOk(sp, id);
        hide SpacesOk;
      }
    }
  }

  lemma OccupyKnown(sp: Spaces, id: SpaceId, x: SpaceId, owner: Owner, expires: Option<Time>, now: Time)
    requires SpacesOk(sp) && (x != id ==> KnownAs(sp, x, owner))
    ensures KnownAs(SpaceOccupy(sp, id.space, id.cid, expires, now), x, if x == id then Broker else owner)
    ensures KnownAs(sp, x, owner) ==> KnownAs(SpaceOccupy(sp, id.space, id.cid, expires, now), x, owner)
  {
    assert x in sp.records ==> RecordedOk(sp, x);
    assert id in sp.records ==> RecordedOk(sp, id);
    hide SpacesOk;
  }

  /** MAIN RESULT. After a command of the broker's own, the objects the charger holds are still recorded as their makers' if and
      only if the charger did not refuse to remove one that it holds: its id is free for the table at once. */
  lemma BrokersCommandExactly(cfg: Config, t: Table, c: Charger, deed: Deed, e: Event)
    requires InStep(t.sp, c) && c.pending.None? && e.input.RestCommand?
    ensures HeldKnown(Step(cfg, t, e).0.sp, ChargerStep(c, deed, e.input, Step(cfg, t, e).1)) <==> !KeepsRemoved(c, deed, e.input.action, e.input.payload)
  {
    hide SpacesOk, OneOwner;
    DropsInStep(t.sp, c, deed);
    if KeepsRemoved(c, deed, e.input.action, e.input.payload) {
      var id := SpaceId(RemovesIn(e.input.action).value, e.input.payload.obj.value);
      assert KnownAs(t.sp, id, c.held[id]);
      assert !KnownAs(Step(cfg, t, e).0.sp, id, Dropping(c, deed).held[id]);
    } else {
      OrderedInStep(t.sp, Dropping(c, deed), e.input.action, e.input.payload, deed.accepts, e.now);
    }
  }

  lemma NothingReleased(sp: Spaces)
    ensures ReleaseAll(sp, {}) == sp
  {
    assert ReleaseAll(sp, {}).records == sp.records && ReleaseAll(sp, {}).index == sp.index;
  }

  lemma StepInStep(cfg: Config, t: Table, c: Charger, deed: Deed, e: Event)
    requires WF(t.tx) && InStep(t.sp, c) && CommandsInTurn(cfg, t, c, deed, e)
    ensures var (t', out) := Step(cfg, t, e);
      && InStep(t'.sp, ChargerStep(c, deed, e.input, out))
      && (e.input.LeaderFrameIn? && e.input.frame.Call? ==>
            |out.toCharger| == 1 && out.toCharger[0].Call? && LandsOnOwn(t.sp, Dropping(c, deed), e.input.leader, e.input.frame, out.toCharger[0]))
  {
    hide WF, InStep, SameObjects, ForgetAll, Expired, Lapsed, ReleaseAll, SettleReply, ChargerStart, ChargerCall, LeaderAnswer, LeaderCall,
      FromFollower, ExpireHolds, AttemptFailed, LeaderChanged, Commanded, LandsOnOwn, Ordered, NoteCommand;
    var c1 := Dropping(c, deed);
    DropsInStep(t.sp, c, deed);
    match e.input
    case ChargerFrame(frame, leader, followers) =>
      ForgetKeeps(t.tx, Expired(cfg, t.tx, e.now));
      NothingReleased(t.sp);
      var t1 := Prune(cfg, t, e.now, e.wall);
      if frame.Call? {
        ChargerFrameSame(cfg, t1, frame, leader, followers, e.now);
        SameObjectsInStep(t1.sp, Step(cfg, t, e).0.sp, c1);
      } else if !frame.Odd? {
        AnsweredInStep(t1.sp, c1, frame);
      }
    case LeaderFrameIn(leader, frame) =>
      if frame.Call? {
        CommandInStep(t, c1, leader, frame, e.now);
      }
    case FollowerFrame(follower, frame) =>
      FollowerSame(cfg, t, follower, frame, e.now);
      SameObjectsInStep(t.sp, Step(cfg, t, e).0.sp, c1);
    case Promotion(newLeader) =>
    case HoldTimer(order) =>
      HoldsSame(cfg, t, order, e.now);
      SameObjectsInStep(t.sp, Step(cfg, t, e).0.sp, c1);
    case BrokerRefused(msg) =>
    case RestCommand(action, payload) =>
      OrderedInStep(t.sp, c1, action, payload, deed.accepts, e.now);
    case IdleCheck =>
      NothingReleased(t.sp);
  }

  /** The charger after a run; `deeds` says what it did of its own accord. */
  ghost function ChargerAfter(cfg: Config, run: seq<Event>, deeds: seq<Deed>): Charger
    requires |deeds| == |run|
  {
    if run == [] then NewCharger
    else
      var n := |run| - 1;
      ChargerStep(ChargerAfter(cfg, run[..n], deeds[..n]), deeds[n], run[n].input, Step(cfg, After(cfg, run[..n]), run[n]).1)
  }

  ghost predicate InTurn(cfg: Config, run: seq<Event>, deeds: seq<Deed>)
    requires |deeds| == |run|
  {
    forall i :: 0 <= i < |run| ==> CommandsInTurn(cfg, After(cfg, run[..i]), ChargerAfter(cfg, run[..i], deeds[..i]), deeds[i], run[i])
  }

  lemma {:induction false} RunInStep(cfg: Config, run: seq<Event>, deeds: seq<Deed>, n: nat)
    requires |deeds| == |run| && InTurn(cfg, run, deeds) && n <= |run|
    ensures InStep(After(cfg, run[..n]).sp, ChargerAfter(cfg, run[..n], deeds[..n]))
  {
    hide WF, InStep, Step, CommandsInTurn, ChargerStep;
    if n == 0 {
      NothingMade();
    } else {
      RunInStep(cfg, run, deeds, n - 1);
      RunKeeps(cfg, run[..n - 1]);
      assert run[..n][..n - 1] == run[..n - 1] && deeds[..n][..n - 1] == deeds[..n - 1];
      StepInStep(cfg, After(cfg, run[..n - 1]), ChargerAfter(cfg, run[..n - 1], deeds[..n - 1]), deeds[n - 1], run[n - 1]);
    }
  }

  lemma NothingMade()
    ensures InStep(EmptyTable.sp, NewCharger)
  {
  }

  /** MAIN RESULT. With one command outstanding at a time, nothing forgotten as too old, and no object kept that the broker itself
      asked the charger to remove: every object the charger holds has its id taken in the table, and is recorded as an object
      of the backend that made it; so a command of a leader that makes an object never lands on an object of another backend,
      nor on another object of its own, nor on one of the broker's, unless that one took the place of its own. */
  lemma NoObjectIsOverwritten(cfg: Config, run: seq<Event>, deeds: seq<Deed>, i: nat)
    requires |deeds| == |run| && InTurn(cfg, run, deeds) && i < |run|
    ensures HeldKnown(After(cfg, run[..i]).sp, ChargerAfter(cfg, run[..i], deeds[..i]))
    ensures var (input, out) := (run[i].input, Emitted(cfg, run, i));
      input.LeaderFrameIn? && input.frame.Call? ==>
        |out.toCharger| == 1 && out.toCharger[0].Call? &&
        LandsOnOwn(After(cfg, run[..i]).sp, Dropping(ChargerAfter(cfg, run[..i], deeds[..i]), deeds[i]), input.leader, input.frame, out.toCharger[0])
  {
    hide WF, Step, After, ChargerAfter, CommandsInTurn, LandsOnOwn;
    RunInStep(cfg, run, deeds, i);
    RunKeeps(cfg, run[..i]);
    StepInStep(cfg, After(cfg, run[..i]), ChargerAfter(cfg, run[..i], deeds[..i]), deeds[i], run[i]);
  }

  /** MAIN RESULT. Under the same conditions: a command of a leader that releases an object lands on its own object by that
      number (or on one that the broker put in its place), or on nothing, exactly if the table knows such an object; otherwise the charger reads the
      number as it is, and what it holds under that id is not the sender's object by that number. */
  lemma ReleasesLandExactly(cfg: Config, run: seq<Event>, deeds: seq<Deed>, i: nat)
    requires |deeds| == |run| && InTurn(cfg, run, deeds) && i < |run| && run[i].input.LeaderFrameIn? && run[i].input.frame.Call?
    ensures var (t, out, c) := (After(cfg, run[..i]), Emitted(cfg, run, i).toCharger, ChargerAfter(cfg, run[..i], deeds[..i]));
      |out| == 1 && out[0].Call? && ReleasesOwnExactly(t.sp, Dropping(c, deeds[i]), run[i].input.leader, run[i].input.frame, out[0])
  {
    hide After, ChargerAfter, CommandsInTurn, ReleasesOwnExactly, SpacesOk, OneOwner, HeldKnown, ExpectsOnly, LeaderCall;
    RunInStep(cfg, run, deeds, i);
    var t, c := After(cfg, run[..i]), ChargerAfter(cfg, run[..i], deeds[..i]);
    DropsInStep(t.sp, c, deeds[i]);
    ReleaseLands(t, Dropping(c, deeds[i]), run[i].input.leader, run[i].input.frame, run[i].now);
  }

  /** The charger drops nothing, and does what it is asked. */
  const Idle := Deed({}, true)

  /** The command of `leader` about the reservation it calls `n`. */
  function About(leader: Backend, action: Action, msg: MsgId, n: int): Event {
    Event(LeaderFrameIn(leader, Call(msg, action, Payload(None, Some(n), None, NoKey, ""))), 0.0, 0.0)
  }

  function Accepted(msg: MsgId, leader: Backend): Event {
    Event(ChargerFrame(Result(msg, Conf(None, true, "")), leader, []), 0.0, 0.0)
  }

  function Promotes(b: Backend): Event {
    Event(Promotion(Some(b)), 0.0, 0.0)
  }

  /** `a` made the reservation `n`, and the charger holds it under that id. */
  function Made(a: Backend, n: int, expected: seq<Expected>): Table {
    Table(EmptyTable.tx, Spaces(map[0 := IdRecord(Reservation, n, 0, map[a := n], None, 0.0, 0.0)], 1,
                                map[SpaceId(Reservation, n) := 0], map[SpaceKey(Reservation, a, n) := 0], expected))
  }

  /** It happens: `a` makes a reservation, `b` becomes the leader and cancels a reservation that the table does not know, and
      that has the same number. The charger gives up `a`'s. */
  lemma AReleaseCanHitAnother(cfg: Config, a: Backend, b: Backend, m1: MsgId, m2: MsgId, n: int)
    requires a != b && cfg.retainClosed >= 0.0
    ensures var run, deeds := [About(a, ReserveNow, m1, n), Accepted(m1, a), Promotes(b), About(b, CancelReservation, m2, n), Accepted(m2, b)], [Idle, Idle, Idle, Idle, Idle];
      && InTurn(cfg, run, deeds)
      && ChargerAfter(cfg, run[..4], deeds[..4]).held == map[SpaceId(Reservation, n) := Owner(a, n)]
      && Emitted(cfg, run, 3).toCharger == [run[3].input.frame]
      && ChargerAfter(cfg, run, deeds).held == map[]
  {
    hide After, ChargerAfter, Emitted, Step, ChargerStep, About, Accepted, Promotes, Made, CommandsInTurn;
    var run: seq<Event>, deeds: seq<Deed> :=
      [About(a, ReserveNow, m1, n), Accepted(m1, a), Promotes(b), About(b, CancelReservation, m2, n), Accepted(m2, b)], [Idle, Idle, Idle, Idle, Idle];
    Nothing(cfg);
    assert run[..0] == [] && deeds[..0] == [] && run[..5] == run && deeds[..5] == deeds;
    OneOn(cfg, run, deeds, 0);
    Reserves(cfg, a, m1, n);
    OneOn(cfg, run, deeds, 1);
    Holds(cfg, a, m1, n);
    OneOn(cfg, run, deeds, 2);
    Changes(cfg, a, b, n);
    OneOn(cfg, run, deeds, 3);
    Cancels(cfg, a, b, m2, n);
    OneOn(cfg, run, deeds, 4);
    GivesUp(cfg, a, b, m2, n);
  }

  lemma Nothing(cfg: Config)
    ensures After(cfg, []) == EmptyTable && ChargerAfter(cfg, [], []) == NewCharger
  {
  }

  lemma OneOn(cfg: Config, run: seq<Event>, deeds: seq<Deed>, k: nat)
    requires |deeds| == |run| && k < |run|
    ensures After(cfg, run[..k + 1]) == Step(cfg, After(cfg, run[..k]), run[k]).0 && Emitted(cfg, run, k) == Step(cfg, After(cfg, run[..k]), run[k]).1
    ensures ChargerAfter(cfg, run[..k + 1], deeds[..k + 1]) == ChargerStep(ChargerAfter(cfg, run[..k], deeds[..k]), deeds[k], run[k].input, Emitted(cfg, run, k))
  {
    hide Step, ChargerStep;
    assert run[..k + 1][..k] == run[..k] && deeds[..k + 1][..k] == deeds[..k];
  }

  function Outstanding(msg: MsgId, mode: Mode, owner: Owner): Command
    requires owner.Owner?
  {
    Command(msg, Some(SpaceId(Reservation, owner.bid)), mode, owner)
  }

  lemma Reserves(cfg: Config, a: Backend, m1: MsgId, n: int)
    ensures var e := About(a, ReserveNow, m1, n); var (t', out) := Step(cfg, EmptyTable, e);
      && t' == Made(a, n, [Expected(m1, 0, Assign, true)]) && CommandsInTurn(cfg, EmptyTable, NewCharger, Idle, e)
      && ChargerStep(NewCharger, Idle, e.input, out) == Charger(map[], Some(Outstanding(m1, Assign, Owner(a, n))))
  {
  }

  lemma NothingForgotten(cfg: Config, a: Backend, n: int, expected: seq<Expected>)
    requires cfg.retainClosed >= 0.0
    ensures Lapsed(cfg, Made(a, n, expected).sp, 0.0, 0.0) == {} && Prune(cfg, Made(a, n, expected), 0.0, 0.0) == Made(a, n, expected)
  {
    NothingReleased(Made(a, n, expected).sp);
    assert Lapsed(cfg, Made(a, n, expected).sp, 0.0, 0.0) == {};
    assert ForgetAll(EmptyTable.tx, Expired(cfg, EmptyTable.tx, 0.0)) == EmptyTable.tx;
  }

  lemma Holds(cfg: Config, a: Backend, m1: MsgId, n: int)
    requires cfg.retainClosed >= 0.0
    ensures var c := Charger(map[], Some(Outstanding(m1, Assign, Owner(a, n)))); var (t, e) := (Made(a, n, [Expected(m1, 0, Assign, true)]), Accepted(m1, a));
      && Step(cfg, t, e).0 == Made(a, n, []) && CommandsInTurn(cfg, t, c, Idle, e)
      && ChargerStep(c, Idle, e.input, Step(cfg, t, e).1) == Charger(map[SpaceId(Reservation, n) := Owner(a, n)], None)
  {
    NothingForgotten(cfg, a, n, [Expected(m1, 0, Assign, true)]);
    hide Prune, Lapsed;
  }

  lemma Changes(cfg: Config, a: Backend, b: Backend, n: int)
    ensures var c := Charger(map[SpaceId(Reservation, n) := Owner(a, n)], None);
      && Step(cfg, Made(a, n, []), Promotes(b)).0 == Made(a, n, []) && CommandsInTurn(cfg, Made(a, n, []), c, Idle, Promotes(b))
      && ChargerStep(c, Idle, Promotes(b).input, Step(cfg, Made(a, n, []), Promotes(b)).1) == c
  {
    assert LeaderChanged(EmptyTable.tx, Some(b)) == EmptyTable.tx;
  }

  lemma Cancels(cfg: Config, a: Backend, b: Backend, m2: MsgId, n: int)
    requires a != b
    ensures var c := Charger(map[SpaceId(Reservation, n) := Owner(a, n)], None); var (t, e) := (Made(a, n, []), About(b, CancelReservation, m2, n));
      && Step(cfg, t, e).0 == t && Step(cfg, t, e).1.toCharger == [e.input.frame] && CommandsInTurn(cfg, t, c, Idle, e)
      && ChargerStep(c, Idle, e.input, Step(cfg, t, e).1) == c.(pending := Some(Outstanding(m2, Release, Owner(b, n))))
  {
  }

  lemma GivesUp(cfg: Config, a: Backend, b: Backend, m2: MsgId, n: int)
    requires cfg.retainClosed >= 0.0
    ensures var c := Charger(map[SpaceId(Reservation, n) := Owner(a, n)], Some(Outstanding(m2, Release, Owner(b, n)))); var (t, e) := (Made(a, n, []), Accepted(m2, b));
      CommandsInTurn(cfg, t, c, Idle, e) && ChargerStep(c, Idle, e.input, Step(cfg, t, e).1).held == map[]
  {
    NothingForgotten(cfg, a, n, []);
  }

  /** The broker itself cancels the reservation, and the charger refuses. */
  function Cancelled(n: int): Event {
    Event(RestCommand(CancelReservation, Payload(None, Some(n), None, NoKey, "")), 0.0, 0.0)
  }

  const Refusing := Deed({}, false)

  /** The record of `a`'s reservation, which nothing leads to any more. */
  function Freed(a: Backend, n: int): Table {
    Made(a, n, []).(sp := Made(a, n, []).sp.(records := map[], index := map[]))
  }

  /** The condition is needed: `a` makes a reservation, the broker itself cancels it, and the charger refuses. `b` becomes the
      leader and makes one by the same number; it reaches the charger under that number, where `a`'s still is. */
  lemma ARefusedRemovalFreesTheId(cfg: Config, a: Backend, b: Backend, m1: MsgId, m2: MsgId, n: int)
    requires a != b && cfg.retainClosed >= 0.0
    ensures var run, deeds := [About(a, ReserveNow, m1, n), Accepted(m1, a), Cancelled(n), Promotes(b), About(b, ReserveNow, m2, n)], [Idle, Idle, Refusing, Idle, Idle];
      && ChargerAfter(cfg, run[..4], deeds[..4]) == Charger(map[SpaceId(Reservation, n) := Owner(a, n)], None)
      && Emitted(cfg, run, 4).toCharger == [run[4].input.frame]
  {
    hide After, ChargerAfter, Emitted, Step, ChargerStep, About, Accepted, Promotes, Cancelled, Made, Freed;
    var run: seq<Event>, deeds: seq<Deed> :=
      [About(a, ReserveNow, m1, n), Accepted(m1, a), Cancelled(n), Promotes(b), About(b, ReserveNow, m2, n)], [Idle, Idle, Refusing, Idle, Idle];
    Nothing(cfg);
    assert run[..0] == [] && deeds[..0] == [];
    OneOn(cfg, run, deeds, 0);
    Reserves(cfg, a, m1, n);
    OneOn(cfg, run, deeds, 1);
    Holds(cfg, a, m1, n);
    OneOn(cfg, run, deeds, 2);
    Refuses(cfg, a, n);
    OneOn(cfg, run, deeds, 3);
    ChangesFreed(cfg, a, b, n);
    OneOn(cfg, run, deeds, 4);
    ReservesAgain(cfg, a, b, m2, n);
  }

  lemma Refuses(cfg: Config, a: Backend, n: int)
    ensures var c := Charger(map[SpaceId(Reservation, n) := Owner(a, n)], None);
      && Step(cfg, Made(a, n, []), Cancelled(n)).0 == Freed(a, n)
      && ChargerStep(c, Refusing, Cancelled(n).input, Step(cfg, Made(a, n, []), Cancelled(n)).1) == c
  {
    var sp := Made(a, n, []).sp;
    assert ReleaseAll(sp, {0}).records == map[] && ReleaseAll(sp, {0}).index == map[];
  }

  lemma ChangesFreed(cfg: Config, a: Backend, b: Backend, n: int)
    ensures var c := Charger(map[SpaceId(Reservation, n) := Owner(a, n)], None);
      Step(cfg, Freed(a, n), Promotes(b)).0 == Freed(a, n) && ChargerStep(c, Idle, Promotes(b).input, Step(cfg, Freed(a, n), Promotes(b)).1) == c
  {
    assert LeaderChanged(EmptyTable.tx, Some(b)) == EmptyTable.tx;
  }

  lemma ReservesAgain(cfg: Config, a: Backend, b: Backend, m2: MsgId, n: int)
    ensures Step(cfg, Freed(a, n), About(b, ReserveNow, m2, n)).1.toCharger == [About(b, ReserveNow, m2, n).input.frame]
  {
  }
}
