/** What each operation of the transaction id table does to its state, and what it sends. */
module TableSteps {
  import opened Ocpp
  import opened TableState

  /** A follower, and whether its link is ready. */
  datatype Follower = Follower(key: Backend, ready: bool)

  /** A frame for one follower. */
  datatype Sent = Sent(to: Backend, frame: Frame)

  datatype ChargerPlan = ChargerPlan(toLeader: Option<Frame>, toFollowers: seq<Sent>, reply: Option<Frame>)

  /** `frame` None: swallow it, it answers an observer copy. */
  datatype LeaderPlan = LeaderPlan(frame: Option<Frame>, extra: seq<Frame>)

  // ------------------------------------------------------------------
  // Translation
  // ------------------------------------------------------------------

  /** A MeterValues/StopTransaction frame in the leader's own transaction id. */
  function LeaderFrame(t: Tx, leader: Backend, frame: Frame, found: Option<Ref>): (Tx, Frame) {
    if found.None? then (t, frame)
    else
      var r := found.value;
      var rec := Rec(t, r);
      if leader !in rec.backendIds then (Put(t, r, Degraded(rec, leader)), frame)
      else (t, InIdOf(rec, leader, frame))
  }

  /** The frame with the backend's own id for the transaction. */
  function InIdOf(rec: TxRecord, backend: Backend, frame: Frame): Frame
    requires backend in rec.backendIds
  {
    var issued := rec.backendIds[backend];
    if rec.txId == Some(issued) then frame else WithTx(frame, issued)
  }

  /** From the leader's number to the charger's id, if the number is known. */
  function ReverseId(t: Tx, leader: Backend, issued: int): Option<int> {
    var key := BackendTx(leader, issued);
    if key in t.ix.byBackend then Rec(t, t.ix.byBackend[key]).txId else None
  }

  /** A StartTransaction in the backend's own reservation id, or without one the backend did not make. */
  function StartFrame(sp: Spaces, backend: Backend, frame: Frame, isLeader: bool, now: Time): (Spaces, Frame) {
    if !frame.Call? || frame.payload.obj.None? then (sp, frame)
    else
      var heldId := frame.payload.obj.value;
      var key := SpaceId(Reservation, heldId);
      if key !in sp.records then (sp, if isLeader then frame else WithObj(frame, None))
      else
        var r := sp.records[key];
        var o := Obj(sp, r);
        var sp1 := if r in sp.objs then sp.(objs := sp.objs[r := o.(touched := now)]) else sp;
        if backend !in o.backendIds then (sp1, WithObj(frame, None))
        else if o.backendIds[backend] == heldId then (sp1, frame)
        else (sp1, WithObj(frame, Some(o.backendIds[backend])))
  }

  // ------------------------------------------------------------------
  // Per-follower ordered queue
  // ------------------------------------------------------------------

  /** What becomes of the head of a follower's queue: it waits, or it leaves (sent, or skipped). */
  datatype Head = Blocked | Leaves(t: Table, out: Option<Frame>)

  function HeadStep(cfg: Config, t: Table, f: Backend, item: Queued, now: Time): Head {
    match item
    case PlainCopy(frame) =>
      Leaves(t.(tx := NoteCopy(t.tx, f, IdOf(frame))), Some(frame))
    case StartCopy(r, frame) =>
      var rec := Rec(t.tx, r);
      var tx1 := Put(t.tx, r, StartWentTo(rec, f, IdOf(frame), now));
      var (sp1, out) := StartFrame(t.sp, f, frame, false, now);
      Leaves(Table(NoteCopy(tx1, f, IdOf(frame)), sp1), Some(out))
    case IdCopy(found, frame) =>
      if found.None? then Leaves(t, None)
      else
        var r := found.value;
        var rec := Rec(t.tx, r);
        if f in rec.backendIds then
          Leaves(t.(tx := NoteCopy(t.tx, f, IdOf(frame))), Some(InIdOf(rec, f, frame)))
        else if f in rec.flags.awaiting && (f in rec.flags.since ==> now - rec.flags.since[f] < cfg.followerWait) && (f !in rec.flags.since ==> 0.0 < cfg.followerWait) then
          Blocked
        else
          Leaves(t.(tx := Put(t.tx, r, GivenUpOn(rec, f))), None)
  }

  function Listed(out: Option<Frame>): seq<Frame> {
    if out.Some? then [out.value] else []
  }

  /** Serve the queue up to the first copy that has to wait. */
  function Drain(cfg: Config, t: Table, f: Backend, now: Time): (Table, seq<Frame>)
    decreases |Queue(t.tx, f)|
  {
    var q := Queue(t.tx, f);
    if q == [] then (t, [])
    else
      match HeadStep(cfg, t, f, q[0], now)
      case Blocked => (t, [])
      case Leaves(t1, out) =>
        var (t2, rest) := Drain(cfg, t1.(tx := SetQueue(t1.tx, f, q[1..])), f, now);
        (t2, Listed(out) + rest)
  }

  function Overflowed(t: Tx, f: Backend, item: Queued): Tx {
    if !ConcernsTx(item) then t
    else
      var rec := Rec(t, RefOf(item));
      Put(t, RefOf(item), Refused(rec, f))
  }

  function Enqueue(cfg: Config, t: Table, f: Backend, item: Queued, now: Time): (Table, seq<Frame>) {
    var q := Queue(t.tx, f);
    if |q| >= cfg.maxHeld then (t.(tx := Overflowed(SetQueue(t.tx, f, q), f, item)), [])
    else Drain(cfg, t.(tx := SetQueue(t.tx, f, q + [item])), f, now)
  }

  function AllTo(f: Backend, frames: seq<Frame>): (sent: seq<Sent>)
    ensures |sent| == |frames|
    ensures forall i :: 0 <= i < |sent| ==> sent[i] == Sent(f, frames[i])
  {
    if frames == [] then [] else [Sent(f, frames[0])] + AllTo(f, frames[1..])
  }

  /** A copy of one item for every follower that can be written to. */
  function CopyToAll(cfg: Config, t: Table, item: Queued, followers: seq<Follower>, now: Time): (Table, seq<Sent>) {
    if followers == [] then (t, [])
    else
      var rest := followers[..|followers| - 1];
      var last := followers[|followers| - 1];
      var (t1, sent) := CopyToAll(cfg, t, item, rest, now);
      if !last.ready then (t1, sent)
      else
        var (t2, frames) := Enqueue(cfg, t1, last.key, item, now);
        (t2, sent + AllTo(last.key, frames))
  }

  /** A follower that is not sent the start once more. */
  predicate HasStart(rec: TxRecord, f: Backend) {
    f in rec.backendIds || f in rec.flags.awaiting || f in rec.flags.degraded
  }

  /** The copy of a start for one follower. */
  function CopyStart(cfg: Config, t: Table, r: Ref, isNew: bool, frame: Frame, follower: Follower, now: Time): (Table, seq<Frame>) {
    var rec := Rec(t.tx, r);
    if !isNew && HasStart(rec, follower.key) then (t, [])
    else if !follower.ready then (t.(tx := Put(t.tx, r, Degraded(rec, follower.key))), [])
    else Enqueue(cfg, t.(tx := Put(t.tx, r, QueuedAt(rec, follower.key))), follower.key, StartCopy(r, frame), now)
  }

  function CopyStartToAll(cfg: Config, t: Table, r: Ref, isNew: bool, frame: Frame, followers: seq<Follower>, now: Time): (Table, seq<Sent>) {
    if followers == [] then (t, [])
    else
      var last := followers[|followers| - 1];
      var (t1, sent) := CopyStartToAll(cfg, t, r, isNew, frame, followers[..|followers| - 1], now);
      var (t2, frames) := CopyStart(cfg, t1, r, isNew, frame, last, now);
      (t2, sent + AllTo(last.key, frames))
  }

  // ------------------------------------------------------------------
  // Frames from the charger
  // ------------------------------------------------------------------

  function Prune(cfg: Config, t: Table, now: Time, wall: Time): Table {
    Table(ForgetAll(t.tx, Expired(cfg, t.tx, now)), ReleaseAll(t.sp, Lapsed(cfg, t.sp, now, wall)))
  }

  /** How the table takes a StartTransaction. */
  datatype StartCase =
    | Again(ref: Ref)     // the leader already answered it: repeat the answer
    | Numbered(ref: Ref)  // the leader answered it while it was a follower: open it with that number
    | Copied(ref: Ref)    // the leader has only its observer copy, not yet answered: wait for that answer
    | Busy(ref: Ref)      // an attempt is outstanding, and not for long: share its answer
    | Forwarded(known: Option<Ref>)

  function StartCaseOf(cfg: Config, t: Tx, leader: Backend, key: StartKey, now: Time): StartCase {
    if !cfg.dedupe || key !in t.ix.byStart then Forwarded(None)
    else
      var r := t.ix.byStart[key];
      var rec := Rec(t, r);
      if rec.state.Open? && rec.conf.Some? then Again(r)
      else if rec.state.Pending? && rec.tries.sent == {} && leader in rec.backendIds && leader in rec.confs then Numbered(r)
      else if rec.state.Pending? && rec.tries.sent == {} && leader in rec.flags.awaiting && leader in rec.flags.copyMsgs then Copied(r)
      else if rec.tries.sent != {} && now - rec.tries.sentAt < cfg.staleStart then Busy(r)
      else Forwarded(Some(r))
  }

  /** A retry waits for an answer the leader still owes. */
  function Park(t: Tx, r: Ref, msg: MsgId): Tx {
    var rec := Rec(t, r);
    Put(t, r, Parked(rec, msg))
  }

  function AwaitCopy(t: Tx, r: Ref, leader: Backend, now: Time): Tx {
    var rec := Rec(t, r);
    Put(t, r, Owing(rec, if leader in rec.flags.copyMsgs then {rec.flags.copyMsgs[leader]} else {}, now))
  }

  /** Register one more attempt at a start, on a new record or on a known one. */
  function Attempt(cfg: Config, t: Tx, known: Option<Ref>, key: StartKey, msg: MsgId, now: Time): (Tx, Ref) {
    var r := if known.Some? then known.value else t.next;
    var rec := if known.Some? then Rec(t, r) else NewRecord(key, r, now);
    var t1 := if known.Some? then t else t.(next := t.next + 1, ix := t.ix.(byStart := if cfg.dedupe then t.ix.byStart[key := r] else t.ix.byStart));
    (Put(t1, r, Tried(rec, msg, now)).(ix := t1.ix.(startMsgs := t1.ix.startMsgs[msg := r])), r)
  }

  ghost function ChargerStart(cfg: Config, t: Table, frame: Frame, leader: Backend, followers: seq<Follower>, now: Time): (Table, ChargerPlan)
    requires IsStart(frame)
  {
    var key := frame.payload.start;
    match StartCaseOf(cfg, t.tx, leader, key, now)
    case Again(r) =>
      (t, ChargerPlan(None, [], Some(Result(frame.id, ConfOf(Rec(t.tx, r))))))
    case Numbered(r) =>
      var rec := Rec(t.tx, r);
      var tx1 := if leader in rec.backendIds && leader in rec.confs then OpenRecord(t.tx, r, leader, rec.backendIds[leader], rec.confs[leader], now) else t.tx;
      (t.(tx := tx1), ChargerPlan(None, [], Some(Result(frame.id, ConfOf(Rec(tx1, r))))))
    case Copied(r) =>
      (t.(tx := Park(AwaitCopy(t.tx, r, leader, now), r, frame.id)), ChargerPlan(None, [], None))
    case Busy(r) =>
      (t.(tx := Park(t.tx, r, frame.id)), ChargerPlan(None, [], None))
    case Forwarded(known) =>
      var (tx1, r) := Attempt(cfg, t.tx, known, key, frame.id, now);
      var (sp1, out) := StartFrame(t.sp, leader, frame, true, now);
      var (t2, sent) := CopyStartToAll(cfg, Table(tx1, sp1), r, known.None?, frame, followers, now);
      (t2, ChargerPlan(Some(out), sent, None))
  }

  /** A record's one answer, once it has one. */
  function ConfOf(rec: TxRecord): Conf {
    if rec.conf.Some? then rec.conf.value else Conf(None, false, "")
  }

  function Touch(t: Tx, found: Option<Ref>, now: Time): Tx {
    if found.None? then t else Put(t, found.value, Rec(t, found.value).(touched := now))
  }

  /** A charger CALL other than StartTransaction. */
  function ChargerCall(cfg: Config, t: Table, frame: Frame, leader: Backend, followers: seq<Follower>, now: Time): (Table, ChargerPlan)
    requires frame.Call?
  {
    if QuotesTx(frame) then
      var found := Find(t.tx.ix.byTx, frame.payload.tx.value);
      var (tx1, out) := LeaderFrame(Touch(t.tx, found, now), leader, frame, found);
      var tx2 := if frame.action.StopTransaction? && found.Some? && !Rec(tx1, found.value).state.Closed?
                 then CloseRecord(tx1, found.value, now) else tx1;
      var (t3, sent) := CopyToAll(cfg, t.(tx := tx2), IdCopy(found, frame), followers, now);
      (t3, ChargerPlan(Some(out), sent, None))
    else
      var (t1, sent) := CopyToAll(cfg, t, PlainCopy(frame), followers, now);
      (t1, ChargerPlan(Some(frame), sent, None))
  }

  ghost function FromCharger(cfg: Config, t: Table, frame: Frame, leader: Backend, followers: seq<Follower>, now: Time, wall: Time): (Table, ChargerPlan) {
    var t1 := Prune(cfg, t, now, wall);
    match frame
    case Odd(_) => (t1, ChargerPlan(Some(frame), [], None))
    case Result(_, _) => (t1.(sp := SettleReply(t1.sp, frame)), ChargerPlan(Some(frame), [], None))
    case Error(_, _) => (t1.(sp := SettleReply(t1.sp, frame)), ChargerPlan(Some(frame), [], None))
    case Call(_, action, _) =>
      if action.StartTransaction? then ChargerStart(cfg, t1, frame, leader, followers, now)
      else ChargerCall(cfg, t1, frame, leader, followers, now)
  }

  // ------------------------------------------------------------------
  // Frames from the leader
  // ------------------------------------------------------------------

  /** A command of the leader, in the ids the charger knows. */
  ghost function LeaderCall(t: Table, leader: Backend, frame: Frame, now: Time): (res: (Table, Frame))
    requires frame.Call?
    ensures res.0.tx == t.tx
  {
    var action := frame.action;
    var held := if BackendQuotesTx(action) && frame.payload.tx.Some? then ReverseId(t.tx, leader, frame.payload.tx.value) else None;
    var f1 := if held.Some? then WithTx(frame, held.value) else frame;
    var spec := SpaceOf(action);
    if spec.None? || frame.payload.obj.None? then (t, f1)
    else
      var (space, mode) := spec.value;
      var value := frame.payload.obj.value;
      if mode.Assign? then
        var (sp1, r, made) := SpaceAssign(t.sp, space, leader, value, ExpiryOf(action, frame.payload), now);
        var sp2 := ExpectReply(sp1, Expected(frame.id, r, Assign, made));
        (t.(sp := sp2), WithObj(f1, Some(Obj(sp2, r).cid)))
      else
        var key := SpaceKey(space, leader, value);
        if key !in t.sp.index then (t, f1)
        else
          var r := t.sp.index[key];
          var sp1 := ExpectReply(t.sp, Expected(frame.id, r, Release, false));
          (t.(sp := sp1), WithObj(f1, Some(Obj(sp1, r).cid)))
  }

  const NO_ID := "InternalError: Backend sent no transaction id"
  const UNAVAILABLE := "InternalError: Backend unavailable, please retry"

  /** The leader answered a start it was asked for. */
  ghost function LeaderStarted(t: Tx, r: Ref, leader: Backend, frame: Frame, now: Time): (res: (Tx, LeaderPlan))
    requires frame.Result?
    ensures res.0.held == t.held
  {
    if frame.conf.tx.None? then
      // the frames for waiting retries are not sent in this case
      (AttemptFailed(t, r, frame.id, NO_ID).0, LeaderPlan(Some(frame), []))
    else
      var t1 := OpenRecord(t, r, leader, frame.conf.tx.value, frame.conf, now);
      var rec := Rec(t1, r);
      var conf := ConfOf(rec);
      var t2 := Put(t1, r, WithoutRetries(rec, frame.id));
      (Collect(t2, r), LeaderPlan(Some(Result(frame.id, conf)), ResultsFor(rec.tries.aliases, conf)))
  }

  /** The leader answers an attempt at a start that it was sent and had not answered yet. */
  ghost function OwedAnswer(t: Tx, r: Ref, leader: Backend, frame: Frame, now: Time): (res: (Tx, LeaderPlan))
    requires frame.Result? || frame.Error?
    ensures res.0.held == t.held
  {
    var rec := Rec(t, r);
    if rec.state.Pending? then
      if frame.Result? then LeaderStarted(t, r, leader, frame, now)
      else
        var (t1, extra) := AttemptFailed(t, r, frame.id, frame.detail);
        (t1, LeaderPlan(Some(frame), extra))
    else
      // the transaction exists by now: repeat its answer
      var t1 := Collect(Put(t, r, WithoutAttempt(rec, frame.id)), r);
      (t1, LeaderPlan(Some(if frame.Result? && rec.conf.Some? then Result(frame.id, rec.conf.value) else frame), []))
  }

  /** Any other answer of the leader: to a copy from when it followed (swallowed), or untracked. */
  function StrayAnswer(t: Tx, leader: Backend, frame: Frame): (res: (Tx, LeaderPlan))
    requires frame.Result? || frame.Error?
    ensures res.0.held == t.held
  {
    var log := Without(t.copied, Copy(leader, frame.id));
    if AnswersCopy(t, leader, frame.id) then
      // the promoted follower finally answers its observer copy: only the table reads it
      (Learn(t, t.ix.startMsgs[frame.id], leader, frame).(copied := log), LeaderPlan(None, []))
    else if Copy(leader, frame.id) in t.copied then (t.(copied := log), LeaderPlan(None, []))
    else (t, LeaderPlan(Some(frame), []))
  }

  /** `msg` is the start copy `backend` got as a follower, and its id for that start is still unknown. */
  predicate AnswersCopy(t: Tx, backend: Backend, msg: MsgId)
    ensures AnswersCopy(t, backend, msg) ==> msg in t.ix.startMsgs
  {
    msg in t.ix.startMsgs &&
    var rec := Rec(t, t.ix.startMsgs[msg]);
    backend in rec.flags.copyMsgs && rec.flags.copyMsgs[backend] == msg && backend !in rec.backendIds
  }

  /** The leader still owes an answer to `msg`. */
  predicate IsOwed(t: Tx, msg: MsgId)
    ensures IsOwed(t, msg) ==> msg in t.ix.startMsgs
  {
    msg in t.ix.startMsgs && msg in Rec(t, t.ix.startMsgs[msg]).tries.sent
  }

  ghost function LeaderAnswer(t: Tx, leader: Backend, frame: Frame, now: Time): (res: (Tx, LeaderPlan))
    requires frame.Result? || frame.Error?
    ensures res.0.held == t.held
  {
    if IsOwed(t, frame.id) then OwedAnswer(t, t.ix.startMsgs[frame.id], leader, frame, now)
    else StrayAnswer(t, leader, frame)
  }

  ghost function FromLeader(t: Table, leader: Backend, frame: Frame, now: Time): (res: (Table, LeaderPlan))
    ensures res.0.tx.held == t.tx.held
  {
    match frame
    case Odd(_) => (t, LeaderPlan(Some(frame), []))
    case Call(_, _, _) =>
      var (t1, out) := LeaderCall(t, leader, frame, now);
      (t1, LeaderPlan(Some(out), []))
    case _ =>
      var (tx1, plan) := LeaderAnswer(t.tx, leader, frame, now);
      (t.(tx := tx1), plan)
  }

  /** The broker itself refused a start: what the retries that shared the attempt are told. */
  function StartFailed(t: Tx, msg: MsgId): (res: (Tx, seq<Frame>))
    ensures res.0.held == t.held
  {
    if IsOwed(t, msg) then AttemptFailed(t, t.ix.startMsgs[msg], msg, UNAVAILABLE)
    else (t, [])
  }

  // ------------------------------------------------------------------
  // Followers, leader changes, the broker's own commands
  // ------------------------------------------------------------------

  /** A follower answered; its answer is never forwarded. The frames that are now free for it. */
  function FromFollower(cfg: Config, t: Table, follower: Backend, frame: Frame, now: Time): (Table, seq<Sent>) {
    if !(frame.Result? || frame.Error?) then (t, [])
    else
      var tx1 := t.tx.(copied := Without(t.tx.copied, Copy(follower, frame.id)));
      if frame.id !in tx1.ix.startMsgs then (t.(tx := tx1), [])
      else
        var r := tx1.ix.startMsgs[frame.id];
        if follower !in Rec(tx1, r).flags.awaiting && follower in Rec(tx1, r).backendIds then (t.(tx := tx1), [])
        else
          var (t2, frames) := Drain(cfg, t.(tx := Learn(tx1, r, follower, frame)), follower, now);
          (t2, AllTo(follower, frames))
  }

  /** The hold timer fires: every queue is served, in the order given. */
  function ExpireHolds(cfg: Config, t: Table, order: seq<Backend>, now: Time): (Table, seq<Sent>) {
    if order == [] then (t, [])
    else
      var last := order[|order| - 1];
      var (t1, sent) := ExpireHolds(cfg, t, order[..|order| - 1], now);
      var (t2, frames) := Drain(cfg, t1, last, now);
      (t2, sent + AllTo(last, frames))
  }

  /** Another backend leads now: outstanding starts are void, and the new leader has no queue any more. */
  function LeaderChanged(t: Tx, newLeader: Option<Backend>): Tx {
    var t1 := GiveUpAll(t, Waiting(t));
    if newLeader.None? then t1 else DropQueue(t1, newLeader.value)
  }

  /** A command through the broker's own interface: no backend's, but its ids count. */
  function NoteCommand(sp: Spaces, action: Action, payload: Payload, now: Time): Spaces {
    var spec := SpaceOf(action);
    if spec.None? || payload.obj.None? then sp
    else
      var id := SpaceId(spec.value.0, payload.obj.value);
      if spec.value.1.Assign? then SpaceOccupy(sp, id.space, id.cid, ExpiryOf(action, payload), now)
      else if id in sp.records then ReleaseAll(sp, {sp.records[id]})
      else sp
  }

  // ------------------------------------------------------------------
  // One step
  // ------------------------------------------------------------------

  datatype Input =
    | ChargerFrame(frame: Frame, leader: Backend, followers: seq<Follower>)
    | LeaderFrameIn(leader: Backend, frame: Frame)
    | FollowerFrame(follower: Backend, frame: Frame)
    | Promotion(newLeader: Option<Backend>)
    | HoldTimer(order: seq<Backend>)
    | BrokerRefused(msg: MsgId)
    | RestCommand(action: Action, payload: Payload)
    | IdleCheck

  datatype Event = Event(input: Input, now: Time, wall: Time)

  datatype Output = Output(toLeader: Option<Frame>, toFollowers: seq<Sent>, toCharger: seq<Frame>)

  ghost function Step(cfg: Config, t: Table, e: Event): (Table, Output) {
    match e.input
    case ChargerFrame(frame, leader, followers) =>
      var (t1, plan) := FromCharger(cfg, t, frame, leader, followers, e.now, e.wall);
      (t1, Output(plan.toLeader, plan.toFollowers, Listed(plan.reply)))
    case LeaderFrameIn(leader, frame) =>
      var (t1, plan) := FromLeader(t, leader, frame, e.now);
      (t1, Output(None, [], Listed(plan.frame) + plan.extra))
    case FollowerFrame(follower, frame) =>
      var (t1, sent) := FromFollower(cfg, t, follower, frame, e.now);
      (t1, Output(None, sent, []))
    case Promotion(newLeader) =>
      (t.(tx := LeaderChanged(t.tx, newLeader)), Output(None, [], []))
    case HoldTimer(order) =>
      var (t1, sent) := ExpireHolds(cfg, t, order, e.now);
      (t1, Output(None, sent, []))
    case BrokerRefused(msg) =>
      var (tx1, frames) := StartFailed(t.tx, msg);
      (t.(tx := tx1), Output(None, [], frames))
    case RestCommand(action, payload) =>
      (t.(sp := NoteCommand(t.sp, action, payload, e.now)), Output(None, [], []))
    case IdleCheck =>
      (Prune(cfg, t, e.now, e.wall), Output(None, [], []))
  }

  /** The state after a whole run, from an empty table. */
  ghost function After(cfg: Config, run: seq<Event>): Table {
    if run == [] then EmptyTable
    else Step(cfg, After(cfg, run[..|run| - 1]), run[|run| - 1]).0
  }

  /** What the last event of a run made the table send. */
  ghost function Emitted(cfg: Config, run: seq<Event>, i: nat): Output
    requires i < |run|
  {
    Step(cfg, After(cfg, run[..i]), run[i]).1
  }
}
