/** The state of the transaction id table of one charger, and the small changes its operations are made of. */
module TableState {
  import opened Ocpp

  const MAX_INT32 := 0x7fff_ffff
  const COPY_LOG := 4096
  const REPLY_LOG := 1024

  /** Python's record objects are shared by several dictionaries; here a record is named by a reference and lives in `recs`
      (`objs` for reservations and profiles), so every dictionary that holds the reference sees the same record. A record
      nobody refers to any more simply stays there, as an object does until it is collected. */
  type Ref = nat

  datatype Config = Config(
    followerWait: Time, dedupe: bool, retainClosed: Time, retainOpen: Time, staleStart: Time, maxHeld: int)

  datatype State = Pending | Open | Closed

  /** What a record notes about the followers that get copies. */
  datatype Flags = Flags(
    queued: set<Backend>,                 // their queue holds a copy of the start
    awaiting: set<Backend>,               // were sent the start, and owe an answer
    since: map<Backend, Time>,            // since when
    degraded: set<Backend>,               // without a number of their own for it, for good
    copyMsgs: map<Backend, MsgId>)        // under which message they were sent the start

  /** What a record notes about the attempts at its start. */
  datatype Tries = Tries(
    sent: set<MsgId>,                     // attempts the leader owes an answer to
    sentAt: Time,                         // time of the last attempt
    aliases: seq<MsgId>,                  // repeated starts that share the next answer
    msgs: set<MsgId>)                     // every start message registered for this record

  /** A charging session: its start, everybody's number for it, and how far it has come. */
  datatype TxRecord = TxRecord(
    key: StartKey,
    uid: nat,                             // its name where records are stored
    txId: Option<int>,                    // the id the charger holds
    backendIds: map<Backend, int>,        // each backend's own id
    state: State,
    confs: map<Backend, Conf>,            // each observing backend's own start result
    conf: Option<Conf>,                   // the result the charger received
    flags: Flags,
    tries: Tries,
    created: Time,
    closedAt: Option<Time>,
    touched: Time)

  datatype BackendTx = BackendTx(backend: Backend, id: int)
  datatype Copy = Copy(backend: Backend, msg: MsgId)

  /** A copy waiting for a follower: of a start, of a frame that quotes a transaction, or of anything else. */
  datatype Queued =
    | StartCopy(ref: Ref, frame: Frame)
    | IdCopy(rec: Option<Ref>, frame: Frame)
    | PlainCopy(frame: Frame)

  /** How records are found: by the charger's id, a backend's id, the start they stand for, a start message. */
  datatype Indexes = Indexes(
    byTx: map<int, Ref>,
    byBackend: map<BackendTx, Ref>,
    byStart: map<StartKey, Ref>,
    startMsgs: map<MsgId, Ref>)

  datatype Tx = Tx(
    recs: map<Ref, TxRecord>,
    next: Ref,
    ix: Indexes,
    held: map<Backend, seq<Queued>>,      // each follower's copy queue
    copied: seq<Copy>)                    // copies not yet answered, oldest first

  datatype Space = Reservation | Profile
  datatype Mode = Assign | Release

  /** A reservation or profile: the charger's id for it and the backends' numbers. */
  datatype IdRecord = IdRecord(
    space: Space, cid: int, uid: nat, backendIds: map<Backend, int>, expires: Option<Time>, created: Time, touched: Time)

  datatype SpaceId = SpaceId(space: Space, cid: int)
  datatype SpaceKey = SpaceKey(space: Space, backend: Backend, bid: int)

  /** A command passed on in the charger's terms; only an accepted one changes anything. */
  datatype Expected = Expected(msg: MsgId, ref: Ref, mode: Mode, made: bool)

  datatype Spaces = Spaces(
    objs: map<Ref, IdRecord>,
    next: Ref,
    records: map<SpaceId, Ref>,
    index: map<SpaceKey, Ref>,
    expected: seq<Expected>)

  datatype Table = Table(tx: Tx, sp: Spaces)

  const EmptyTable := Table(Tx(map[], 0, Indexes(map[], map[], map[], map[]), map[], []), Spaces(map[], 0, map[], map[], []))

  const NoKey := StartKey("", "", "", "")

  function NewRecord(key: StartKey, uid: nat, now: Time): TxRecord {
    TxRecord(key, uid, None, map[], Pending, map[], None, Flags({}, {}, map[], {}, map[]), Tries({}, 0.0, [], {}), now, None, 0.0)
  }

  const Blank := NewRecord(NoKey, 0, 0.0)
  const BlankObj := IdRecord(Reservation, 0, 0, map[], None, 0.0, 0.0)

  // ------------------------------------------------------------------
  // Looking things up
  // ------------------------------------------------------------------

  /** The record `r` refers to. (References always resolve; the default only keeps the function total.) */
  function Rec(t: Tx, r: Ref): TxRecord {
    if r in t.recs then t.recs[r] else Blank
  }

  function Obj(sp: Spaces, r: Ref): IdRecord {
    if r in sp.objs then sp.objs[r] else BlankObj
  }

  function Put(t: Tx, r: Ref, rec: TxRecord): Tx {
    t.(recs := t.recs[r := rec])
  }

  function Queue(t: Tx, f: Backend): seq<Queued> {
    if f in t.held then t.held[f] else []
  }

  function SetQueue(t: Tx, f: Backend, q: seq<Queued>): Tx {
    t.(held := t.held[f := q])
  }

  function Find<K, V>(m: map<K, V>, k: K): Option<V> {
    if k in m then Some(m[k]) else None
  }

  /** The largest element, or 0 if there is none. */
  ghost function MaxOrZero(s: set<int>): (m: int)
    ensures s == {} ==> m == 0
    ensures s != {} ==> m in s
    ensures forall x :: x in s ==> x <= m
  {
    if s == {} then 0 else (MaxExists(s); var m :| m in s && forall x :: x in s ==> x <= m; m)
  }

  lemma Pick<T>(s: set<T>) returns (x: T)
    requires s != {}
    ensures x in s
  {
    x :| x in s;
  }

  lemma {:induction false} MaxExists(s: set<int>)
    requires s != {}
    ensures exists m :: m in s && forall x :: x in s ==> x <= m
  {
    var y := Pick(s);
    if s != {y} {
      MaxExists(s - {y});
      var m :| m in s - {y} && forall x :: x in s - {y} ==> x <= m;
      assert forall x :: x in s ==> x == y || x in s - {y};
      assert (if y > m then y else m) in s;
    }
  }

  /** The smallest number from 1 up that is not in `s`. */
  ghost function FirstFree(s: set<int>): (i: int)
    ensures 1 <= i <= |s| + 1 && i !in s && forall j :: 1 <= j < i ==> j in s
  {
    FreeExists(s, 1);
    var i :| 1 <= i <= |s| + 1 && i !in s && forall j :: 1 <= j < i ==> j in s;
    i
  }

  /** Pigeonhole: 1 .. |s|+1 cannot all be in `s`. */
  lemma {:induction false} FreeExists(s: set<int>, from: int)
    requires 1 <= from <= |s| + 1
    requires forall j :: 1 <= j < from ==> j in s
    ensures exists i :: 1 <= i <= |s| + 1 && i !in s && forall j :: 1 <= j < i ==> j in s
    decreases |s| + 1 - from
  {
    if from in s {
      RangeSize(s, from);
      FreeExists(s, from + 1);
    }
  }

  lemma {:induction false} RangeSize(s: set<int>, n: nat)
    requires forall j :: 1 <= j <= n ==> j in s
    ensures n <= |s|
  {
    if n > 0 {
      var rest := s - {n};
      assert forall j :: 1 <= j <= n - 1 ==> j in rest;
      RangeSize(rest, n - 1);
      assert s == rest + {n};
    }
  }

  // ------------------------------------------------------------------
  // What a record notes
  // ------------------------------------------------------------------

  /** The start copy `msg` went out to `f`. */
  function StartWentTo(rec: TxRecord, f: Backend, msg: MsgId, now: Time): TxRecord {
    rec.(flags := Flags(rec.flags.queued - {f}, rec.flags.awaiting + {f}, rec.flags.since[f := now], rec.flags.degraded, rec.flags.copyMsgs[f := msg]))
  }

  /** A start copy waits in `f`'s queue. */
  function QueuedAt(rec: TxRecord, f: Backend): TxRecord {
    rec.(flags := rec.flags.(queued := rec.flags.queued + {f}))
  }

  /** `f`'s queue was full. */
  function Refused(rec: TxRecord, f: Backend): TxRecord {
    rec.(flags := rec.flags.(queued := rec.flags.queued - {f}, degraded := rec.flags.degraded + {f}))
  }

  /** No number is to be expected from `b`. */
  function Degraded(rec: TxRecord, b: Backend): TxRecord {
    rec.(flags := rec.flags.(degraded := rec.flags.degraded + {b}))
  }

  /** `f` took too long. */
  function GivenUpOn(rec: TxRecord, f: Backend): TxRecord {
    rec.(flags := rec.flags.(awaiting := rec.flags.awaiting - {f}, degraded := rec.flags.degraded + {f}))
  }

  /** One more attempt went to the leader. */
  function Tried(rec: TxRecord, msg: MsgId, now: Time): TxRecord {
    rec.(tries := Tries(rec.tries.sent + {msg}, now, rec.tries.aliases, rec.tries.msgs + {msg}))
  }

  /** The leader's copy `msgs` counts as an attempt. */
  function Owing(rec: TxRecord, msgs: set<MsgId>, now: Time): TxRecord {
    rec.(tries := rec.tries.(sent := rec.tries.sent + msgs, sentAt := now))
  }

  /** A retry waits for the same answer. */
  function Parked(rec: TxRecord, msg: MsgId): TxRecord {
    rec.(tries := rec.tries.(aliases := rec.tries.aliases + [msg]))
  }

  /** The attempt `msg` was answered. */
  function WithoutAttempt(rec: TxRecord, msg: MsgId): TxRecord {
    rec.(tries := rec.tries.(sent := rec.tries.sent - {msg}))
  }

  /** The attempt `msg` was answered, and so were all retries that waited. */
  function WithoutRetries(rec: TxRecord, msg: MsgId): TxRecord {
    rec.(tries := rec.tries.(sent := rec.tries.sent - {msg}, aliases := []))
  }

  // ------------------------------------------------------------------
  // Transactions
  // ------------------------------------------------------------------

  /** Every number in use: the ids the charger holds and the numbers backends issued. */
  ghost function KnownIds(t: Tx): set<int> {
    t.ix.byTx.Keys + (set p | p in t.ix.byBackend :: p.id)
  }

  ghost function Fresh(t: Tx): int {
    var candidate := MaxOrZero(KnownIds(t)) + 1;
    if candidate > MAX_INT32 then FirstFree(t.ix.byTx.Keys) else candidate
  }

  /** What the charger is told instead of the leader's number `issued`. */
  ghost function Choose(t: Tx, issued: int): int {
    if issued !in t.ix.byTx then issued else Fresh(t)
  }

  /** `index` without the messages `msgs` where they lead to `r`. */
  function Untracked(index: map<MsgId, Ref>, msgs: set<MsgId>, r: Ref): map<MsgId, Ref> {
    map m | m in index && !(m in msgs && index[m] == r) :: index[m]
  }

  predicate Quiet(rec: TxRecord) {
    rec.tries.sent == {} && rec.flags.awaiting == {} && rec.flags.queued == {}
  }

  /** The record with no registered messages. */
  function Unregistered(rec: TxRecord): TxRecord {
    rec.(tries := rec.tries.(msgs := {}))
  }

  /** Once no answer is outstanding, a record's messages are dropped; a start that came to nothing is no longer found. */
  function Collect(t: Tx, r: Ref): (t': Tx)
    ensures t'.held == t.held && t'.ix.byTx == t.ix.byTx && t'.ix.byBackend == t.ix.byBackend && t'.next == t.next && t'.copied == t.copied
  {
    var rec := Rec(t, r);
    if !Quiet(rec) then t
    else
      var dead := rec.state.Pending? && rec.backendIds == map[] && rec.key in t.ix.byStart && t.ix.byStart[rec.key] == r;
      Put(t, r, Unregistered(rec)).(ix := t.ix.(startMsgs := Untracked(t.ix.startMsgs, rec.tries.msgs, r),
                                                byStart := if dead then t.ix.byStart - {rec.key} else t.ix.byStart))
  }

  /** `b` is no longer waited for, and not given up on. */
  function Heard(flags: Flags, b: Backend): Flags {
    flags.(awaiting := flags.awaiting - {b}, since := flags.since - {b}, degraded := flags.degraded - {b})
  }

  /** `b` gave no id. */
  function Failed(flags: Flags, b: Backend): Flags {
    flags.(awaiting := flags.awaiting - {b}, since := flags.since - {b}, degraded := flags.degraded + {b})
  }

  /** The record opens: the charger's id is chosen, and the leader's number and answer are kept. */
  ghost function OpenRecord(t: Tx, r: Ref, leader: Backend, issued: int, conf: Conf, now: Time): Tx {
    var rec := Rec(t, r);
    var id := Choose(t, issued);
    var rec1 := rec.(txId := Some(id), state := Open, conf := Some(conf.(tx := Some(id))), touched := now,
                     backendIds := rec.backendIds[leader := issued], flags := Heard(rec.flags, leader));
    Put(t, r, rec1).(ix := t.ix.(byTx := t.ix.byTx[id := r], byBackend := t.ix.byBackend[BackendTx(leader, issued) := r]))
  }

  /** What a CALLRESULT or CALLERROR says about the id its sender issued. */
  function IssuedBy(frame: Frame): Option<int> {
    if frame.Result? then frame.conf.tx else None
  }

  /** An observer's answer to its copy of the start: keep its number, or note that it has none. */
  function LearnId(t: Tx, r: Ref, backend: Backend, frame: Frame): (t': Tx)
    ensures t'.held == t.held && t'.ix.byTx == t.ix.byTx && t'.next == t.next && t'.copied == t.copied
  {
    var rec := Rec(t, r);
    if frame.Result? && frame.conf.tx.Some? then
      var id := frame.conf.tx.value;
      Put(t, r, rec.(backendIds := rec.backendIds[backend := id], confs := rec.confs[backend := frame.conf], flags := Heard(rec.flags, backend)))
      .(ix := t.ix.(byBackend := t.ix.byBackend[BackendTx(backend, id) := r]))
    else
      Put(t, r, rec.(flags := Failed(rec.flags, backend)))
  }

  function Learn(t: Tx, r: Ref, backend: Backend, frame: Frame): (t': Tx)
    ensures t'.held == t.held && t'.ix.byTx == t.ix.byTx && t'.next == t.next && t'.copied == t.copied
  {
    Collect(LearnId(t, r, backend, frame), r)
  }

  function ErrorsFor(aliases: seq<MsgId>, detail: string): (frames: seq<Frame>)
    ensures |frames| == |aliases|
    ensures forall i :: 0 <= i < |frames| ==> frames[i] == Error(aliases[i], detail)
  {
    if aliases == [] then [] else [Error(aliases[0], detail)] + ErrorsFor(aliases[1..], detail)
  }

  function ResultsFor(aliases: seq<MsgId>, conf: Conf): (frames: seq<Frame>)
    ensures |frames| == |aliases|
    ensures forall i :: 0 <= i < |frames| ==> frames[i] == Result(aliases[i], conf)
  {
    if aliases == [] then [] else [Result(aliases[0], conf)] + ResultsFor(aliases[1..], conf)
  }

  /** An attempt failed. If it was the last one outstanding, every retry that waits is given the error. */
  function DropAttempt(t: Tx, r: Ref, msg: MsgId): Tx {
    var rec := Rec(t, r);
    Put(t, r, if rec.tries.sent - {msg} == {} then WithoutRetries(rec, msg) else WithoutAttempt(rec, msg))
  }

  function AttemptFailed(t: Tx, r: Ref, msg: MsgId, detail: string): (res: (Tx, seq<Frame>))
    ensures res.0.held == t.held && res.0.ix.byTx == t.ix.byTx
  {
    var rec := Rec(t, r);
    (Collect(DropAttempt(t, r, msg), r), if rec.tries.sent - {msg} == {} then ErrorsFor(rec.tries.aliases, detail) else [])
  }

  function ClosedRecord(t: Tx, r: Ref, now: Time): Tx {
    var rec := Rec(t, r);
    Put(t, r, rec.(state := Closed, closedAt := Some(now))).(ix := t.ix.(byStart := t.ix.byStart - {rec.key}))
  }

  /** The charger stopped the transaction. */
  function CloseRecord(t: Tx, r: Ref, now: Time): (t': Tx)
    ensures t'.held == t.held && t'.ix.byTx == t.ix.byTx && t'.ix.byBackend == t.ix.byBackend
  {
    Collect(ClosedRecord(t, r, now), r)
  }

  /** Take the records of `dead` out of every index. */
  function ForgetAll(t: Tx, dead: set<Ref>): Tx {
    t.(ix := Indexes(
         map k | k in t.ix.byTx && t.ix.byTx[k] !in dead :: t.ix.byTx[k],
         map k | k in t.ix.byBackend && t.ix.byBackend[k] !in dead :: t.ix.byBackend[k],
         map k | k in t.ix.byStart && t.ix.byStart[k] !in dead :: t.ix.byStart[k],
         map k | k in t.ix.startMsgs && t.ix.startMsgs[k] !in dead :: t.ix.startMsgs[k]))
  }

  /** Records kept long enough: stopped ones, ones idle for very long, starts nobody answered. */
  function Expired(cfg: Config, t: Tx, now: Time): set<Ref> {
    (set k | k in t.ix.byTx && TooOld(cfg, Rec(t, t.ix.byTx[k]), now) :: t.ix.byTx[k]) +
    (set k | k in t.ix.byStart && NeverAnswered(cfg, Rec(t, t.ix.byStart[k]), now) :: t.ix.byStart[k])
  }

  predicate TooOld(cfg: Config, rec: TxRecord, now: Time) {
    || (rec.state.Closed? && rec.closedAt.Some? && now - rec.closedAt.value > cfg.retainClosed)
    || (rec.state.Open? && now - rec.touched > cfg.retainOpen)
  }

  function StalePending(cfg: Config): Time {
    if cfg.staleStart * 5.0 > 300.0 then cfg.staleStart * 5.0 else 300.0
  }

  predicate NeverAnswered(cfg: Config, rec: TxRecord, now: Time) {
    rec.state.Pending? && now - rec.created > StalePending(cfg)
  }

  /** Starts still waiting for the leader. */
  function Waiting(t: Tx): set<Ref> {
    set k | k in t.ix.byStart && Rec(t, t.ix.byStart[k]).state.Pending? && Rec(t, t.ix.byStart[k]).tries.sent != {} :: t.ix.byStart[k]
  }

  /** The leader changed: every outstanding attempt of the records `rs` is void; the charger will retry. */
  function GiveUpAll(t: Tx, rs: set<Ref>): Tx {
    t.(recs := map r | r in t.recs :: if r in rs then GaveUp(t.recs[r]) else t.recs[r],
       ix := t.ix.(
         startMsgs := map m | m in t.ix.startMsgs && !(t.ix.startMsgs[m] in rs && Dropped(Rec(t, t.ix.startMsgs[m]), m)) :: t.ix.startMsgs[m],
         byStart := map k | k in t.ix.byStart && !(t.ix.byStart[k] in rs && Dead(Rec(t, t.ix.byStart[k]))) :: t.ix.byStart[k]))
  }

  /** With no attempt outstanding, nobody is waiting for `msg` any more. */
  predicate Dropped(rec: TxRecord, msg: MsgId) {
    Unheard(rec) && msg in rec.tries.msgs
  }

  /** With no attempt outstanding, the record stands for nothing. */
  predicate Dead(rec: TxRecord) {
    Unheard(rec) && rec.backendIds == map[]
  }

  predicate Unheard(rec: TxRecord) {
    rec.flags.awaiting == {} && rec.flags.queued == {}
  }

  function GaveUp(rec: TxRecord): TxRecord {
    rec.(tries := Tries({}, rec.tries.sentAt, [], if Unheard(rec) then {} else rec.tries.msgs))
  }

  predicate ConcernsTx(item: Queued) {
    item.StartCopy? || (item.IdCopy? && item.rec.Some?)
  }

  function RefOf(item: Queued): Ref
    requires ConcernsTx(item)
  {
    if item.StartCopy? then item.ref else item.rec.value
  }

  function RefsIn(q: seq<Queued>): set<Ref> {
    set i | 0 <= i < |q| && ConcernsTx(q[i]) :: RefOf(q[i])
  }

  /** The queue of `b`, which leads now, is dropped, and its records marked. */
  function DropQueue(t: Tx, b: Backend): Tx {
    var refs := RefsIn(Queue(t, b));
    t.(recs := map r | r in t.recs :: if r in refs then Demoted(t.recs[r], b) else t.recs[r], held := t.held - {b})
  }

  function Demoted(rec: TxRecord, b: Backend): TxRecord {
    var flags := rec.flags;
    rec.(flags := flags.(degraded := flags.degraded + {b}, awaiting := flags.awaiting - {b}, queued := flags.queued - {b}))
  }

  /** Log that `f` was sent a copy under `msg`: an answer it gives as the leader is then not meant for the charger. */
  function NoteCopy(t: Tx, f: Backend, msg: MsgId): Tx {
    var log := if Copy(f, msg) in t.copied then t.copied else t.copied + [Copy(f, msg)];
    t.(copied := if |log| > COPY_LOG then log[|log| - COPY_LOG..] else log)
  }

  /** `s` without `x` (which occurs at most once). */
  function Without<T(==)>(s: seq<T>, x: T): seq<T> {
    if s == [] then [] else if s[0] == x then s[1..] else [s[0]] + Without(s[1..], x)
  }

  // ------------------------------------------------------------------
  // Reservations and charging profiles
  // ------------------------------------------------------------------

  function TakenIds(sp: Spaces, space: Space): set<int> {
    set k | k in sp.records && k.space == space :: k.cid
  }

  /** Every number in use in the space. */
  function KnownNumbers(sp: Spaces, space: Space): set<int> {
    TakenIds(sp, space) + (set k | k in sp.index && k.space == space :: k.bid)
  }

  ghost function SpaceFresh(sp: Spaces, space: Space): int {
    var candidate := MaxOrZero(KnownNumbers(sp, space)) + 1;
    if candidate > MAX_INT32 then FirstFree(TakenIds(sp, space)) else candidate
  }

  function Later(expires: Option<Time>, rec: IdRecord, now: Time): IdRecord {
    rec.(touched := now, expires := if expires.Some? then expires else rec.expires)
  }

  /** The object `backend` numbers `bid`: the known one, or a new one (then the last part is true). */
  ghost function SpaceAssign(sp: Spaces, space: Space, backend: Backend, bid: int, expires: Option<Time>, now: Time): (Spaces, Ref, bool) {
    var key := SpaceKey(space, backend, bid);
    if key in sp.index then
      var r := sp.index[key];
      (sp.(objs := sp.objs[r := Later(expires, Obj(sp, r), now)]), r, false)
    else
      var cid := if SpaceId(space, bid) in sp.records then SpaceFresh(sp, space) else bid;
      var r := sp.next;
      (sp.(objs := sp.objs[r := IdRecord(space, cid, r, map[backend := bid], expires, now, now)], next := r + 1,
           records := sp.records[SpaceId(space, cid) := r], index := sp.index[key := r]), r, true)
  }

  /** An object of nobody's: its id is taken, whatever numbers the backends use. */
  function SpaceOccupy(sp: Spaces, space: Space, cid: int, expires: Option<Time>, now: Time): Spaces {
    var id := SpaceId(space, cid);
    if id in sp.records then
      sp.(objs := sp.objs[sp.records[id] := Later(expires, Obj(sp, sp.records[id]), now)])
    else
      sp.(objs := sp.objs[sp.next := IdRecord(space, cid, sp.next, map[], expires, now, now)], next := sp.next + 1,
          records := sp.records[id := sp.next])
  }

  /** Take the objects of `gone` out of both dictionaries. */
  function ReleaseAll(sp: Spaces, gone: set<Ref>): Spaces {
    sp.(records := map k | k in sp.records && sp.records[k] !in gone :: sp.records[k],
        index := map k | k in sp.index && sp.index[k] !in gone :: sp.index[k])
  }

  function Lapsed(cfg: Config, sp: Spaces, now: Time, wall: Time): set<Ref> {
    set k | k in sp.records && IsLapsed(cfg, Obj(sp, sp.records[k]), now, wall) :: sp.records[k]
  }

  predicate IsLapsed(cfg: Config, o: IdRecord, now: Time, wall: Time) {
    if o.space.Reservation? && o.expires.Some? then wall > o.expires.value + cfg.retainClosed
    else now - o.touched > (if o.space.Reservation? then cfg.retainClosed else cfg.retainOpen)
  }

  function ExpectReply(sp: Spaces, e: Expected): Spaces {
    var log := Noted(sp.expected, e);
    sp.(expected := if |log| > REPLY_LOG then log[|log| - REPLY_LOG..] else log)
  }

  /** An insertion-ordered dictionary's `d[e.msg] = e`. */
  function Noted(log: seq<Expected>, e: Expected): seq<Expected> {
    if log == [] then [e] else if log[0].msg == e.msg then [e] + log[1..] else [log[0]] + Noted(log[1..], e)
  }

  function ExpectedFor(log: seq<Expected>, msg: MsgId): Option<Expected> {
    if log == [] then None else if log[0].msg == msg then Some(log[0]) else ExpectedFor(log[1..], msg)
  }

  function DropExpected(log: seq<Expected>, msg: MsgId): seq<Expected> {
    if log == [] then [] else if log[0].msg == msg then log[1..] else [log[0]] + DropExpected(log[1..], msg)
  }

  /** An answer to a logged command: a new object that was refused goes, and so does one whose release was accepted. */
  function SettleReply(sp: Spaces, frame: Frame): Spaces {
    var e := ExpectedFor(sp.expected, IdOf(frame));
    if e.None? then sp
    else
      var accepted := frame.Result? && frame.conf.accepted;
      var sp1 := sp.(expected := DropExpected(sp.expected, IdOf(frame)));
      if (e.value.mode.Assign? && e.value.made && !accepted) || (e.value.mode.Release? && accepted)
      then ReleaseAll(sp1, {e.value.ref}) else sp1
  }

  /** Which space an action's object id belongs to, and what the message does with the object. */
  function SpaceOf(action: Action): Option<(Space, Mode)> {
    match action
    case ReserveNow => Some((Reservation, Assign))
    case CancelReservation => Some((Reservation, Release))
    case SetChargingProfile => Some((Profile, Assign))
    case RemoteStartTransaction => Some((Profile, Assign))
    case ClearChargingProfile => Some((Profile, Release))
    case _ => None
  }

  /** Commands in which the leader names a transaction. */
  predicate BackendQuotesTx(action: Action) {
    action in {RemoteStopTransaction, SetChargingProfile, RemoteStartTransaction}
  }

  function ExpiryOf(action: Action, payload: Payload): Option<Time> {
    if action.ReserveNow? then payload.expiry else None
  }
}
