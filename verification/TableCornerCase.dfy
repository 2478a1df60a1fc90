/** A run in which a retry does wait for a copy that is no longer tracked, and is stranded: a follower's queue overflowed
    while the first copy of the same start was still waiting in it. It exists for every queue limit from two on, and however
    long a retry waits for a slow leader. */
module TableCornerCase {
  import opened Ocpp
  import opened TableState
  import opened TableSteps
  import opened TableInvariant
  import opened TableCopies
  import opened TableMoves
  import opened TableRuns
  import opened TableTranslation
  import opened TableRetries

  /** Retries are recognised, two copies or more may wait per follower, and a copy waits for a while. */
  predicate Fits(cfg: Config) {
    cfg.dedupe && cfg.maxHeld >= 2 && cfg.followerWait > 0.0 && cfg.retainOpen >= 0.0
  }

  /** The names that occur in the run: the leader and two followers, four start messages, the messages of the
      readings that fill the queue, and two starts. */
  datatype Names = Names(l: Backend, f: Backend, g: Backend, m0: MsgId, m1: MsgId, m2: MsgId, m3: MsgId, vs: seq<MsgId>, k0: StartKey, k1: StartKey)

  /** With the second start's copy behind them, the readings fill a follower's queue. */
  predicate Fills(cfg: Config, n: Names) {
    |n.vs| == cfg.maxHeld - 1
  }

  predicate Differ(n: Names) {
    && n.l != n.f && n.l != n.g && n.f != n.g && n.k0 != n.k1
    && n.m0 != n.m1 && n.m0 != n.m2 && n.m0 != n.m3 && n.m1 != n.m2 && n.m1 != n.m3 && n.m2 != n.m3
  }

  function Start(key: StartKey, msg: MsgId): Frame {
    Call(msg, StartTransaction, Payload(None, None, None, key, ""))
  }

  function Reading(v: MsgId): Frame {
    Call(v, MeterValues, Payload(Some(1), None, None, NoKey, ""))
  }

  function Number(id: int): Conf {
    Conf(Some(id), true, "")
  }

  function At(input: Input): Event {
    Event(input, 0.0, 0.0)
  }

  function F(n: Names): Follower { Follower(n.f, true) }
  function G(n: Names): Follower { Follower(n.g, true) }

  function E1(n: Names): Event { At(ChargerFrame(Start(n.k0, n.m0), n.l, [F(n)])) }
  function E2(n: Names): Event { At(LeaderFrameIn(n.l, Result(n.m0, Number(1)))) }
  function E3(n: Names, v: MsgId): Event { At(ChargerFrame(Reading(v), n.l, [F(n)])) }       // waits for f's answer to m0
  function E4(n: Names): Event { At(ChargerFrame(Start(n.k1, n.m1), n.l, [F(n), G(n)])) }   // waits behind the readings for f
  function E5(n: Names): Event { At(FollowerFrame(n.g, Result(n.m1, Number(5)))) }
  function E6(n: Names): Event { At(LeaderFrameIn(n.l, Error(n.m1, ""))) }                  // the leader refuses; the charger tries again
  function E7(n: Names): Event { At(ChargerFrame(Start(n.k1, n.m2), n.l, [F(n), G(n)])) }   // f's queue is full
  function E8(n: Names): Event { At(Promotion(Some(n.g))) }
  function E9(n: Names): Event { At(FollowerFrame(n.f, Error(n.m0, ""))) }                  // the copy of m1 goes out now
  function E10(n: Names): Event { At(Promotion(Some(n.f))) }
  function E11(n: Names): Event { At(ChargerFrame(Start(n.k1, n.m3), n.f, [])) }            // told to wait for f's answer to m1

  function First1(n: Names): TxRecord {
    TxRecord(n.k0, 0, None, map[], Pending, map[], None, Flags({}, {n.f}, map[n.f := 0.0], {}, map[n.f := n.m0]), Tries({n.m0}, 0.0, [], {n.m0}), 0.0, None, 0.0)
  }
  function First2(n: Names): TxRecord {
    First1(n).(txId := Some(1), backendIds := map[n.l := 1], state := Open, conf := Some(Number(1)), tries := Tries({}, 0.0, [], {n.m0}))
  }
  function First9(n: Names): TxRecord {
    First2(n).(flags := Flags({}, {}, map[], {n.f}, map[n.f := n.m0]), tries := Tries({}, 0.0, [], {}))
  }

  function Second4(n: Names): TxRecord {
    TxRecord(n.k1, 1, None, map[], Pending, map[], None, Flags({n.f}, {n.g}, map[n.g := 0.0], {}, map[n.g := n.m1]), Tries({n.m1}, 0.0, [], {n.m1}), 0.0, None, 0.0)
  }
  function Second5(n: Names): TxRecord {
    Second4(n).(backendIds := map[n.g := 5], confs := map[n.g := Number(5)], flags := Flags({n.f}, {}, map[], {}, map[n.g := n.m1]))
  }
  function Second6(n: Names): TxRecord {
    Second5(n).(tries := Tries({}, 0.0, [], {n.m1}))
  }
  function Second7(n: Names): TxRecord {
    Second6(n).(flags := Flags({}, {}, map[], {n.f}, map[n.g := n.m1]), tries := Tries({n.m2}, 0.0, [], {n.m1, n.m2}))
  }
  function Second8(n: Names): TxRecord {
    Second7(n).(tries := Tries({}, 0.0, [], {}))
  }
  function Second9(n: Names): TxRecord {
    Second8(n).(flags := Flags({}, {n.f}, map[n.f := 0.0], {n.f}, map[n.g := n.m1, n.f := n.m1]))
  }

  const NoSpaces := EmptyTable.sp

  function WaitsForF(v: MsgId): Queued {
    IdCopy(Some(0), Reading(v))
  }

  function Fill(vs: seq<MsgId>): (q: seq<Queued>)
    ensures |q| == |vs| && forall i :: 0 <= i < |vs| ==> q[i] == WaitsForF(vs[i])
  {
    seq(|vs|, i requires 0 <= i < |vs| => WaitsForF(vs[i]))
  }

  function T1(n: Names): Table {
    Table(Tx(map[0 := First1(n)], 1, Indexes(map[], map[], map[n.k0 := 0], map[n.m0 := 0]), map[n.f := []], [Copy(n.f, n.m0)]), NoSpaces)
  }
  function T2(n: Names): Table {
    Table(Tx(map[0 := First2(n)], 1, Indexes(map[1 := 0], map[BackendTx(n.l, 1) := 0], map[n.k0 := 0], map[n.m0 := 0]), map[n.f := []], [Copy(n.f, n.m0)]), NoSpaces)
  }
  function T3(n: Names, vs: seq<MsgId>): Table {
    T2(n).(tx := T2(n).tx.(held := map[n.f := Fill(vs)]))
  }
  function T4(n: Names): Table {
    Table(Tx(map[0 := First2(n), 1 := Second4(n)], 2, Indexes(map[1 := 0], map[BackendTx(n.l, 1) := 0], map[n.k0 := 0, n.k1 := 1], map[n.m0 := 0, n.m1 := 1]),
             map[n.f := Fill(n.vs) + [StartCopy(1, Start(n.k1, n.m1))], n.g := []], [Copy(n.f, n.m0), Copy(n.g, n.m1)]), NoSpaces)
  }
  function T5(n: Names): Table {
    var x := T4(n).tx;
    Table(x.(recs := map[0 := First2(n), 1 := Second5(n)], copied := [Copy(n.f, n.m0)],
             ix := x.ix.(byBackend := map[BackendTx(n.l, 1) := 0, BackendTx(n.g, 5) := 1])), NoSpaces)
  }
  function T6(n: Names): Table {
    T5(n).(tx := T5(n).tx.(recs := map[0 := First2(n), 1 := Second6(n)]))
  }
  function T7(n: Names): Table {
    var x := T6(n).tx;
    Table(x.(recs := map[0 := First2(n), 1 := Second7(n)], ix := x.ix.(startMsgs := map[n.m0 := 0, n.m1 := 1, n.m2 := 1])), NoSpaces)
  }
  function T8(n: Names): Table {
    var x := T7(n).tx;
    Table(x.(recs := map[0 := First2(n), 1 := Second8(n)], ix := x.ix.(startMsgs := map[n.m0 := 0]),
             held := map[n.f := Fill(n.vs) + [StartCopy(1, Start(n.k1, n.m1))]]), NoSpaces)
  }
  function T9(n: Names): Table {
    var x := T8(n).tx;
    Table(x.(recs := map[0 := First9(n), 1 := Second9(n)], ix := x.ix.(startMsgs := map[]), held := map[n.f := []], copied := [Copy(n.f, n.m1)]), NoSpaces)
  }
  function T10(n: Names): Table {
    T9(n).(tx := T9(n).tx.(held := map[]))
  }

  lemma SameTx(a: Tx, b: Tx)
    requires a.recs == b.recs && a.next == b.next && a.held == b.held && a.copied == b.copied
    requires a.ix.byTx == b.ix.byTx && a.ix.byBackend == b.ix.byBackend && a.ix.byStart == b.ix.byStart && a.ix.startMsgs == b.ix.startMsgs
    ensures a == b
  {
  }

  lemma SameRec(a: TxRecord, b: TxRecord)
    requires a.(flags := b.flags, tries := b.tries, backendIds := b.backendIds, confs := b.confs) == b
    requires a.backendIds == b.backendIds && a.confs == b.confs
    requires a.flags.queued == b.flags.queued && a.flags.awaiting == b.flags.awaiting && a.flags.since == b.flags.since
    requires a.flags.degraded == b.flags.degraded && a.flags.copyMsgs == b.flags.copyMsgs
    requires a.tries.sent == b.tries.sent && a.tries.sentAt == b.tries.sentAt && a.tries.aliases == b.tries.aliases && a.tries.msgs == b.tries.msgs
    ensures a == b
  {
  }

  /** Nothing is old enough to be forgotten. */
  lemma NothingForgotten(cfg: Config, t: Table)
    requires cfg.retainOpen >= 0.0 && t.sp == NoSpaces && forall r :: r in t.tx.recs ==> t.tx.recs[r].closedAt.None? && t.tx.recs[r].touched == 0.0 && t.tx.recs[r].created == 0.0
    requires forall k :: k in t.tx.ix.byTx ==> t.tx.ix.byTx[k] in t.tx.recs
    requires forall k :: k in t.tx.ix.byStart ==> t.tx.ix.byStart[k] in t.tx.recs
    ensures Prune(cfg, t, 0.0, 0.0) == t
    ensures ForgetAll(t.tx, Expired(cfg, t.tx, 0.0)) == t.tx
  {
    assert Expired(cfg, t.tx, 0.0) == {};
    SameTx(ForgetAll(t.tx, {}), t.tx);
    assert Lapsed(cfg, t.sp, 0.0, 0.0) == {};
    assert ReleaseAll(t.sp, {}).records == t.sp.records && ReleaseAll(t.sp, {}).index == t.sp.index;
  }

  lemma DrainOne(cfg: Config, t: Table, f: Backend, item: Queued)
    requires Queue(t.tx, f) == [item] && HeadStep(cfg, t, f, item, 0.0).Leaves?
    ensures var h := HeadStep(cfg, t, f, item, 0.0); Drain(cfg, t, f, 0.0).0 == h.t.(tx := SetQueue(h.t.tx, f, []))
  {
    assert [item][1..] == [];
  }

  lemma CopyOne(cfg: Config, t: Table, r: Ref, isNew: bool, frame: Frame, x: Follower)
    ensures CopyStartToAll(cfg, t, r, isNew, frame, [x], 0.0).0 == CopyStart(cfg, t, r, isNew, frame, x, 0.0).0
  {
    assert [x][..0] == [];
  }

  lemma CopyTwo(cfg: Config, t: Table, r: Ref, isNew: bool, frame: Frame, x: Follower, y: Follower)
    ensures CopyStartToAll(cfg, t, r, isNew, frame, [x, y], 0.0).0 ==
            CopyStart(cfg, CopyStart(cfg, t, r, isNew, frame, x, 0.0).0, r, isNew, frame, y, 0.0).0
  {
    assert [x, y][..1] == [x];
    CopyOne(cfg, t, r, isNew, frame, x);
  }

  /** A start that is forwarded: one more attempt, and a copy for each follower. */
  lemma Forwards(cfg: Config, t: Table, frame: Frame, leader: Backend, followers: seq<Follower>, known: Option<Ref>)
    requires IsStart(frame) && frame.payload.obj.None? && Prune(cfg, t, 0.0, 0.0) == t
    requires StartCaseOf(cfg, t.tx, leader, frame.payload.start, 0.0) == Forwarded(known)
    ensures var (tx1, r) := Attempt(cfg, t.tx, known, frame.payload.start, frame.id, 0.0);
      Step(cfg, t, At(ChargerFrame(frame, leader, followers))).0 == CopyStartToAll(cfg, t.(tx := tx1), r, known.None?, frame, followers, 0.0).0
  {
    hide CopyStartToAll, StartCaseOf, Attempt, Prune;
  }

  /** The copy of a start that goes out at once. */
  lemma Copies(cfg: Config, t: Table, r: Ref, isNew: bool, frame: Frame, f: Backend)
    requires Fits(cfg) && frame.Call? && frame.payload.obj.None? && Queue(t.tx, f) == [] && r in t.tx.recs && (isNew || !HasStart(t.tx.recs[r], f))
    ensures CopyStart(cfg, t, r, isNew, frame, Follower(f, true), 0.0).0 ==
            t.(tx := NoteCopy(t.tx.(recs := t.tx.recs[r := StartWentTo(t.tx.recs[r], f, frame.id, 0.0)], held := t.tx.held[f := []]), f, frame.id))
  {
    hide Drain, HasStart;
    var t1 := QueuedFor(t, r, f);
    var t2 := t1.(tx := SetQueue(t1.tx, f, [StartCopy(r, frame)]));
    assert [] + [StartCopy(r, frame)] == [StartCopy(r, frame)];
    DrainOne(cfg, t2, f, StartCopy(r, frame));
    assert t1.tx.recs[r].flags.queued - {f} == t.tx.recs[r].flags.queued - {f};
    assert t1.tx.recs[r := StartWentTo(t1.tx.recs[r], f, frame.id, 0.0)] == t.tx.recs[r := StartWentTo(t.tx.recs[r], f, frame.id, 0.0)];
    assert t.tx.held[f := [StartCopy(r, frame)]][f := []] == t.tx.held[f := []];
  }

  lemma Step1(cfg: Config, n: Names)
    requires Fits(cfg) && Differ(n)
    ensures Step(cfg, EmptyTable, E1(n)).0 == T1(n)
  {
    hide CopyStartToAll, CopyStart, Prune, Step;
    NothingForgotten(cfg, EmptyTable);
    var frame := Start(n.k0, n.m0);
    Forwards(cfg, EmptyTable, frame, n.l, [F(n)], None);
    var t1 := EmptyTable.(tx := Attempt(cfg, EmptyTable.tx, None, n.k0, n.m0, 0.0).0);
    CopyOne(cfg, t1, 0, true, frame, F(n));
    Copies(cfg, t1, 0, true, frame, n.f);
    SameRec(Step(cfg, EmptyTable, E1(n)).0.tx.recs[0], First1(n));
    SameTx(Step(cfg, EmptyTable, E1(n)).0.tx, T1(n).tx);
  }

  lemma Step2(cfg: Config, n: Names)
    requires Differ(n)
    ensures Step(cfg, T1(n), E2(n)).0 == T2(n)
  {
    var t' := Step(cfg, T1(n), E2(n)).0;
    assert Rec(T1(n).tx, 0) == First1(n) && IsOwed(T1(n).tx, n.m0);
    var numbered := OpenRecord(T1(n).tx, 0, n.l, 1, Number(1), 0.0);
    assert Choose(T1(n).tx, 1) == 1;
    assert n.f in Rec(numbered, 0).flags.awaiting;
    assert !Quiet(WithoutRetries(Rec(numbered, 0), n.m0));
    SameRec(t'.tx.recs[0], First2(n));
    SameTx(t'.tx, T2(n).tx);
  }

  lemma Step3(cfg: Config, n: Names, vs: seq<MsgId>, v: MsgId)
    requires Fits(cfg) && Differ(n) && |vs| < cfg.maxHeld
    ensures Step(cfg, T3(n, vs), E3(n, v)).0 == T3(n, vs + [v])
  {
    hide Prune, Quoted, CopyToAll, Fill;
    NothingForgotten(cfg, T3(n, vs));
    Quoted3(n, vs, v);
    QuotedIs(cfg, T3(n, vs), Reading(v), n.l, [F(n)], 0.0);
    Held3(cfg, n, vs, v);
  }

  lemma Quoted3(n: Names, vs: seq<MsgId>, v: MsgId)
    requires Differ(n)
    ensures Quoted(T3(n, vs).tx, Reading(v), n.l, Some(0), 0.0) == T3(n, vs).tx
  {
    hide Quoted, Fill;
    var t := T3(n, vs).tx;
    QuotedIsMarked(t, Reading(v), n.l, 0, 0.0);
    SameRec(Marked(t, n.l, 0, 0.0).recs[0], First2(n));
    SameTx(Quoted(t, Reading(v), n.l, Some(0), 0.0), t);
  }

  lemma Held3(cfg: Config, n: Names, vs: seq<MsgId>, v: MsgId)
    requires Fits(cfg) && Differ(n) && |vs| < cfg.maxHeld
    ensures CopyToAll(cfg, T3(n, vs), WaitsForF(v), [F(n)], 0.0).0 == T3(n, vs + [v])
  {
    hide Fill;
    assert Fill(vs) + [WaitsForF(v)] == Fill(vs + [v]);
    assert [F(n)][..0] == [];
    var t1 := T3(n, vs).(tx := SetQueue(T3(n, vs).tx, n.f, Fill(vs + [v])));
    assert HeadStep(cfg, t1, n.f, Fill(vs + [v])[0], 0.0) == Blocked;
    SameTx(t1.tx, T3(n, vs + [v]).tx);
  }

  lemma Step4(cfg: Config, n: Names)
    requires Fits(cfg) && Differ(n) && Fills(cfg, n)
    ensures Step(cfg, T3(n, n.vs), E4(n)).0 == T4(n)
  {
    hide CopyStartToAll, Prune, Step, Attempt;
    NothingForgotten(cfg, T3(n, n.vs));
    assert StartCaseOf(cfg, T3(n, n.vs).tx, n.l, n.k1, 0.0) == Forwarded(None);
    Forwards(cfg, T3(n, n.vs), Start(n.k1, n.m1), n.l, [F(n), G(n)], None);
    Copied4(cfg, n);
  }

  lemma Copied4(cfg: Config, n: Names)
    requires Fits(cfg) && Differ(n) && Fills(cfg, n)
    ensures var (tx1, r) := Attempt(cfg, T3(n, n.vs).tx, None, n.k1, n.m1, 0.0);
      CopyStartToAll(cfg, T3(n, n.vs).(tx := tx1), r, true, Start(n.k1, n.m1), [F(n), G(n)], 0.0).0 == T4(n)
  {
    hide CopyStartToAll, CopyStart;
    var frame := Start(n.k1, n.m1);
    var t1 := T3(n, n.vs).(tx := Attempt(cfg, T3(n, n.vs).tx, None, n.k1, n.m1, 0.0).0);
    CopyTwo(cfg, t1, 1, true, frame, F(n), G(n));
    Waits(cfg, n, t1, 1, frame);
    var t2 := CopyStart(cfg, t1, 1, true, frame, F(n), 0.0).0;
    Copies(cfg, t2, 1, true, frame, n.g);
    var t3 := CopyStart(cfg, t2, 1, true, frame, G(n), 0.0).0;
    SameRec(t3.tx.recs[1], Second4(n));
    SameTx(t3.tx, T4(n).tx);
  }

  /** F's copy queues up behind the readings that wait. */
  lemma Waits(cfg: Config, n: Names, t: Table, r: Ref, frame: Frame)
    requires Fits(cfg) && Differ(n) && Fills(cfg, n) && Queue(t.tx, n.f) == Fill(n.vs) && 0 in t.tx.recs && t.tx.recs[0] == First2(n) && r in t.tx.recs && r != 0
    ensures CopyStart(cfg, t, r, true, frame, F(n), 0.0).0 ==
            t.(tx := t.tx.(recs := t.tx.recs[r := QueuedAt(t.tx.recs[r], n.f)], held := t.tx.held[n.f := Fill(n.vs) + [StartCopy(r, frame)]]))
  {
    hide Fill;
    var t1 := QueuedFor(t, r, n.f);
    var q := Fill(n.vs) + [StartCopy(r, frame)];
    assert Rec(t1.tx, 0) == First2(n) && q[0] == WaitsForF(n.vs[0]);
    assert HeadStep(cfg, t1.(tx := SetQueue(t1.tx, n.f, q)), n.f, q[0], 0.0) == Blocked;
  }

  lemma Step5(cfg: Config, n: Names)
    requires Differ(n)
    ensures Step(cfg, T4(n), E5(n)).0 == T5(n)
  {
    hide Learn;
    var t := T4(n).tx;
    Second(Copy(n.f, n.m0), Copy(n.g, n.m1));
    Learned5(n);
    assert Queue(T5(n).tx, n.g) == [];
  }

  lemma Second(a: Copy, b: Copy)
    requires a != b
    ensures Without([a, b], b) == [a]
  {
    assert [a, b][1..] == [b] && [b][1..] == [];
  }

  lemma Learned5(n: Names)
    requires Differ(n)
    ensures Learn(T4(n).tx.(copied := [Copy(n.f, n.m0)]), 1, n.g, Result(n.m1, Number(5))) == T5(n).tx
  {
    var t := T4(n).tx.(copied := [Copy(n.f, n.m0)]);
    var t' := LearnId(t, 1, n.g, Result(n.m1, Number(5)));
    assert n.f in Rec(t', 1).flags.queued;
    SameRec(t'.recs[1], Second5(n));
    SameTx(t', T5(n).tx);
  }

  lemma Step6(cfg: Config, n: Names)
    requires Differ(n)
    ensures Step(cfg, T5(n), E6(n)).0 == T6(n)
  {
    var t := T5(n).tx;
    assert Rec(t, 1) == Second5(n) && IsOwed(t, n.m1) && n.f in Second5(n).flags.queued;
    var t1 := DropAttempt(t, 1, n.m1);
    SameRec(t1.recs[1], Second6(n));
    assert !Quiet(t1.recs[1]);
    SameTx(t1, T6(n).tx);
  }

  lemma Step7(cfg: Config, n: Names)
    requires Fits(cfg) && Differ(n) && Fills(cfg, n)
    ensures Step(cfg, T6(n), E7(n)).0 == T7(n)
  {
    hide CopyStartToAll, Prune, Step, Attempt;
    NothingForgotten(cfg, T6(n));
    assert StartCaseOf(cfg, T6(n).tx, n.l, n.k1, 0.0) == Forwarded(Some(1));
    Forwards(cfg, T6(n), Start(n.k1, n.m2), n.l, [F(n), G(n)], Some(1));
    Refused7(cfg, n);
  }

  lemma Refused7(cfg: Config, n: Names)
    requires Fits(cfg) && Differ(n) && Fills(cfg, n)
    ensures var (tx1, r) := Attempt(cfg, T6(n).tx, Some(1), n.k1, n.m2, 0.0);
      CopyStartToAll(cfg, T6(n).(tx := tx1), r, false, Start(n.k1, n.m2), [F(n), G(n)], 0.0).0 == T7(n)
  {
    hide CopyStartToAll, Drain;
    var frame := Start(n.k1, n.m2);
    var t1 := T6(n).(tx := Attempt(cfg, T6(n).tx, Some(1), n.k1, n.m2, 0.0).0);
    CopyTwo(cfg, t1, 1, false, frame, F(n), G(n));
    var t2 := CopyStart(cfg, t1, 1, false, frame, F(n), 0.0).0;
    assert |Queue(t1.tx, n.f)| == cfg.maxHeld;
    assert !HasStart(Rec(t1.tx, 1), n.f);
    SameRec(t2.tx.recs[1], Second7(n));
    assert HasStart(Rec(t2.tx, 1), n.g);
    SameTx(t2.tx, T7(n).tx);
  }

  lemma Step8(cfg: Config, n: Names)
    requires Fits(cfg) && Differ(n)
    ensures Step(cfg, T7(n), E8(n)).0 == T8(n)
  {
    hide GiveUpAll, Waiting, DropQueue;
    GivenUp8(n);
    var t1 := GiveUpAll(T7(n).tx, Waiting(T7(n).tx));
    EmptyDropped(t1, n.g);
    SameTx(LeaderChanged(T7(n).tx, Some(n.g)), T8(n).tx);
  }

  lemma GivenUp8(n: Names)
    requires Differ(n)
    ensures GiveUpAll(T7(n).tx, Waiting(T7(n).tx)) == T8(n).tx.(held := T7(n).tx.held)
  {
    var t := T7(n).tx;
    assert n.m2 in Rec(t, 1).tries.sent;
    assert Find(t.ix.byStart, n.k1) == Some(1);
    assert Waiting(t) == {1};
    GivenUpSecond(n);
  }

  lemma GivenUpSecond(n: Names)
    requires Differ(n)
    ensures GiveUpAll(T7(n).tx, {1}) == T8(n).tx.(held := T7(n).tx.held)
  {
    hide GaveUp;
    var t1 := GiveUpAll(T7(n).tx, {1});
    SecondGaveUp(n);
    assert Rec(T7(n).tx, 1) == Second7(n);
    SameTx(t1, T8(n).tx.(held := T7(n).tx.held));
  }

  lemma SecondGaveUp(n: Names)
    ensures GaveUp(Second7(n)) == Second8(n)
    ensures !Dead(Second7(n)) && Dropped(Second7(n), n.m1) && Dropped(Second7(n), n.m2)
  {
    assert n.g in Second7(n).backendIds;
    SameRec(GaveUp(Second7(n)), Second8(n));
  }

  /** The promoted follower's queue was empty. */
  lemma EmptyDropped(t: Tx, b: Backend)
    requires Queue(t, b) == []
    ensures DropQueue(t, b) == t.(held := t.held - {b})
  {
    assert RefsIn(Queue(t, b)) == {};
    assert DropQueue(t, b).recs == t.recs;
  }

  lemma Step10(cfg: Config, n: Names)
    requires Fits(cfg) && Differ(n)
    ensures Step(cfg, T9(n), E10(n)).0 == T10(n)
  {
    hide GiveUpAll, Waiting, DropQueue;
    NobodyGivenUp(T9(n).tx);
    EmptyDropped(T9(n).tx, n.f);
    SameTx(LeaderChanged(T9(n).tx, Some(n.f)), T10(n).tx);
  }

  lemma NobodyGivenUp(t: Tx)
    requires forall r :: r in t.recs ==> t.recs[r].tries.sent == {}
    ensures GiveUpAll(t, Waiting(t)) == t
  {
    assert Waiting(t) == {};
    SameTx(GiveUpAll(t, {}), t);
  }

  lemma Step9(cfg: Config, n: Names)
    requires Fits(cfg) && Differ(n)
    ensures Step(cfg, T8(n), E9(n)).0 == T9(n)
  {
    hide Drain, Learn;
    var t := T8(n);
    assert Without(t.tx.copied, Copy(n.f, n.m0)) == [];
    var t1 := t.(tx := Learn(t.tx.(copied := []), 0, n.f, Error(n.m0, "")));
    Learned9(n);
    Drained9(cfg, n);
  }

  lemma Learned9(n: Names)
    requires Differ(n)
    ensures Learn(T8(n).tx.(copied := []), 0, n.f, Error(n.m0, "")) == Middle9(n).tx
  {
    hide LearnId, Collect;
    Failed9(n);
    Collected9(n);
  }

  lemma Collected9(n: Names)
    requires Differ(n)
    ensures Collect(T8(n).tx.(copied := [], recs := map[0 := First2(n).(flags := First9(n).flags), 1 := Second8(n)]), 0) == Middle9(n).tx
  {
    hide Quiet, Unregistered;
    var rec := First2(n).(flags := First9(n).flags);
    FirstQuiet(n);
    var t := T8(n).tx.(copied := [], recs := map[0 := rec, 1 := Second8(n)]);
    assert Rec(t, 0) == rec && Untracked(t.ix.startMsgs, rec.tries.msgs, 0) == map[];
    assert !rec.state.Pending?;
    hide First2, First9, Second8;
    SameTx(Collect(t, 0), Middle9(n).tx);
  }

  lemma FirstQuiet(n: Names)
    ensures Quiet(First2(n).(flags := First9(n).flags)) && Unregistered(First2(n).(flags := First9(n).flags)) == First9(n)
  {
    SameRec(Unregistered(First2(n).(flags := First9(n).flags)), First9(n));
  }

  lemma Failed9(n: Names)
    requires Differ(n)
    ensures LearnId(T8(n).tx.(copied := []), 0, n.f, Error(n.m0, "")) ==
            T8(n).tx.(copied := [], recs := map[0 := First2(n).(flags := First9(n).flags), 1 := Second8(n)])
  {
    var t' := LearnId(T8(n).tx.(copied := []), 0, n.f, Error(n.m0, ""));
    assert Rec(T8(n).tx, 0) == First2(n);
    SameRec(t'.recs[0], First2(n).(flags := First9(n).flags));
    SameTx(t', T8(n).tx.(copied := [], recs := map[0 := First2(n).(flags := First9(n).flags), 1 := Second8(n)]));
  }

  function Middle9(n: Names): Table {
    var x := T8(n).tx;
    Table(x.(recs := map[0 := First9(n), 1 := Second8(n)], ix := x.ix.(startMsgs := map[]), copied := []), NoSpaces)
  }

  lemma Drained9(cfg: Config, n: Names)
    requires Fits(cfg) && Differ(n)
    ensures Drain(cfg, Middle9(n), n.f, 0.0).0 == T9(n)
  {
    hide Drain, Fill;
    var t := Middle9(n);
    var copy := StartCopy(1, Start(n.k1, n.m1));
    SkipsReadings(cfg, n, t.tx, n.vs, [copy]);
    SameTx(SetQueue(t.tx, n.f, Fill(n.vs) + [copy]), t.tx);
    var t1 := t.(tx := SetQueue(t.tx, n.f, [copy]));
    DrainOne(cfg, t1, n.f, copy);
    var t2 := Drain(cfg, t1, n.f, 0.0).0;
    SameRec(t2.tx.recs[1], Second9(n));
    SameTx(t2.tx, T9(n).tx);
  }

  /** The readings in front are skipped: f has no number for that transaction, and none is to come. */
  lemma {:induction false} SkipsReadings(cfg: Config, n: Names, t: Tx, vs: seq<MsgId>, tail: seq<Queued>)
    requires Fits(cfg) && Differ(n) && 0 in t.recs && t.recs[0] == First9(n)
    ensures Drain(cfg, Table(SetQueue(t, n.f, Fill(vs) + tail), NoSpaces), n.f, 0.0).0 == Drain(cfg, Table(SetQueue(t, n.f, tail), NoSpaces), n.f, 0.0).0
  {
    hide Fill;
    if vs == [] {
      assert Fill(vs) + tail == tail;
    } else {
      var q, rest := Fill(vs) + tail, Fill(vs[1..]) + tail;
      assert q[0] == WaitsForF(vs[0]) && q[1..] == rest;
      SkipsReadings(cfg, n, t, vs[1..], tail);
      var t1 := Table(SetQueue(t, n.f, q), NoSpaces);
      FirstSkipped(cfg, n, t1, vs[0]);
      SameTx(SetQueue(t1.tx, n.f, rest), SetQueue(t, n.f, rest));
    }
  }

  lemma FirstSkipped(cfg: Config, n: Names, t: Table, v: MsgId)
    requires Differ(n) && 0 in t.tx.recs && t.tx.recs[0] == First9(n)
    ensures HeadStep(cfg, t, n.f, WaitsForF(v), 0.0) == Leaves(t, None)
  {
    SameRec(GivenUpOn(First9(n), n.f), First9(n));
    assert t.tx.recs[0 := First9(n)] == t.tx.recs;
    SameTx(Put(t.tx, 0, First9(n)), t.tx);
  }

  /** The readings, one after another. */
  function Readings(n: Names, vs: seq<MsgId>): (run: seq<Event>)
    ensures |run| == |vs| && forall i :: 0 <= i < |vs| ==> run[i] == E3(n, vs[i])
  {
    seq(|vs|, i requires 0 <= i < |vs| => E3(n, vs[i]))
  }

  function Beginning(n: Names): seq<Event> {
    [E1(n), E2(n)]
  }

  function Ending(n: Names): seq<Event> {
    [E4(n), E5(n), E6(n), E7(n), E8(n), E9(n), E10(n)]
  }

  function Before(n: Names): seq<Event> {
    Beginning(n) + Readings(n, n.vs) + Ending(n)
  }

  lemma Extend(cfg: Config, run: seq<Event>, e: Event)
    ensures After(cfg, run + [e]) == Step(cfg, After(cfg, run), e).0
  {
    assert (run + [e])[..|run|] == run;
  }

  lemma AfterBeginning(cfg: Config, n: Names)
    requires Fits(cfg) && Differ(n)
    ensures After(cfg, Beginning(n)) == T3(n, [])
  {
    hide After, Step, T1, T2, E1, E2;
    AfterNothing(cfg);
    Step1(cfg, n);
    Step2(cfg, n);
    Extend(cfg, [], E1(n));
    Extend(cfg, [E1(n)], E2(n));
    assert [] + [E1(n)] == [E1(n)] && [E1(n)] + [E2(n)] == Beginning(n);
    NoReadingYet(n);
  }

  lemma NoReadingYet(n: Names)
    ensures T2(n) == T3(n, [])
  {
    SameTx(T2(n).tx, T3(n, []).tx);
  }

  lemma {:induction false} AfterReadings(cfg: Config, n: Names, vs: seq<MsgId>)
    requires Fits(cfg) && Differ(n) && |vs| <= cfg.maxHeld
    ensures After(cfg, Beginning(n) + Readings(n, vs)) == T3(n, vs)
  {
    hide After, Step, T3, Beginning, E3;
    if vs == [] {
      AfterBeginning(cfg, n);
      assert Beginning(n) + Readings(n, vs) == Beginning(n);
    } else {
      var init, v := vs[..|vs| - 1], vs[|vs| - 1];
      assert init + [v] == vs;
      AfterReadings(cfg, n, init);
      Step3(cfg, n, init, v);
      Extend(cfg, Beginning(n) + Readings(n, init), E3(n, v));
      assert Beginning(n) + Readings(n, init) + [E3(n, v)] == Beginning(n) + Readings(n, vs);
    }
  }

  lemma AfterAll(cfg: Config, n: Names)
    requires Fits(cfg) && Differ(n) && Fills(cfg, n)
    ensures After(cfg, Before(n)) == T10(n)
  {
    hide After, Step, T3, T4, T5, T6, T7, T8, T9, T10, E4, E5, E6, E7, E8, E9, E10, Beginning, Readings;
    AfterReadings(cfg, n, n.vs);
    Step4(cfg, n); Step5(cfg, n); Step6(cfg, n); Step7(cfg, n); Step8(cfg, n); Step9(cfg, n); Step10(cfg, n);
    var run := Beginning(n) + Readings(n, n.vs);
    Extend(cfg, run, E4(n)); run := run + [E4(n)];
    Extend(cfg, run, E5(n)); run := run + [E5(n)];
    Extend(cfg, run, E6(n)); run := run + [E6(n)];
    Extend(cfg, run, E7(n)); run := run + [E7(n)];
    Extend(cfg, run, E8(n)); run := run + [E8(n)];
    Extend(cfg, run, E9(n)); run := run + [E9(n)];
    Extend(cfg, run, E10(n)); run := run + [E10(n)];
    assert run == Before(n);
  }

  /** At most four events of the run bring a start, each with a message of its own. */
  lemma RunIsProper(n: Names)
    requires Differ(n)
    ensures var run := Before(n) + [E11(n)]; ProperRun(run) && UniqueStarts(run)
  {
    var run, m := Before(n) + [E11(n)], |n.vs|;
    forall i | 0 <= i < |run| ensures ProperEvent(run[i]) && (IsStartInput(run[i].input) ==> StartedAt(n, m, i, run[i].input.frame.id)) {
      if 2 <= i < 2 + m {
        assert run[i] == E3(n, n.vs[i - 2]);
      }
    }
  }

  predicate IsStartInput(input: Input) {
    input.ChargerFrame? && IsStart(input.frame)
  }

  /** The `i`th event, when it brings a start, brings it as this message. */
  predicate StartedAt(n: Names, m: nat, i: int, msg: MsgId) {
    (i == 0 && msg == n.m0) || (i == 2 + m && msg == n.m1) || (i == 5 + m && msg == n.m2) || (i == 9 + m && msg == n.m3)
  }

  lemma AfterNothing(cfg: Config)
    ensures After(cfg, []) == EmptyTable
  {
  }

  /** After these events a retry of the second start waits for an answer the table will not recognise: when the new
      leader gives it, nobody is told, and the retry still waits. However many copies a follower's queue holds, the readings
      fill it. */
  lemma ARetryCanBeStranded(cfg: Config, n: Names)
    requires Fits(cfg) && Differ(n) && Fills(cfg, n)
    ensures var run := Before(n) + [E11(n)];
      && ProperRun(run) && UniqueStarts(run) && ParksUntracked(cfg, After(cfg, Before(n)).tx, E11(n))
      && WaitingOn(After(cfg, run).tx, 1) == [n.m3]
      && var (t', out) := Step(cfg, After(cfg, run), At(LeaderFrameIn(n.f, Result(n.m1, Number(7)))));
         out.toCharger == [] && WaitingOn(t'.tx, 1) == [n.m3]
  {
    hide After, Step, ParksUntracked, Before, ProperRun, UniqueStarts;
    AfterAll(cfg, n);
    RunIsProper(n);
    Extend(cfg, Before(n), E11(n));
    Strands(cfg, n);
  }

  lemma Strands(cfg: Config, n: Names)
    requires Fits(cfg) && Differ(n)
    ensures ParksUntracked(cfg, T10(n).tx, E11(n))
    ensures var t := Step(cfg, T10(n), E11(n)).0;
      && WaitingOn(t.tx, 1) == [n.m3]
      && var (t', out) := Step(cfg, t, At(LeaderFrameIn(n.f, Result(n.m1, Number(7)))));
         out.toCharger == [] && WaitingOn(t'.tx, 1) == [n.m3]
  {
    hide Prune, StartCaseOf, Step, T10;
    Case11(cfg, n);
    Parks11(cfg, n);
    Waits11(n);
    Unpruned11(cfg, n);
    Swallowed(cfg, n, Step(cfg, T10(n), E11(n)).0);
  }

  lemma Waits11(n: Names)
    requires Differ(n)
    ensures Rec(T10(n).tx, 1) == Second9(n) && !Tracks(T10(n).tx, n.m1, 1)
    ensures var t' := Park(AwaitCopy(T10(n).tx, 1, n.f, 0.0), 1, n.m3); WaitingOn(t', 1) == [n.m3] && t'.ix.startMsgs == map[] && t'.copied == [Copy(n.f, n.m1)]
  {
    ParkIsPut(T10(n).tx, 1, n.f, n.m3, 0.0);
  }

  lemma Case11(cfg: Config, n: Names)
    requires Fits(cfg) && Differ(n)
    ensures StartCaseOf(cfg, T10(n).tx, n.f, n.k1, 0.0) == Copied(1)
  {
    assert Rec(T10(n).tx, 1) == Second9(n);
  }

  lemma Parks11(cfg: Config, n: Names)
    requires Fits(cfg) && Differ(n)
    ensures Step(cfg, T10(n), E11(n)).0 == T10(n).(tx := Park(AwaitCopy(T10(n).tx, 1, n.f, 0.0), 1, n.m3))
  {
    hide Prune, StartCaseOf, T10;
    Case11(cfg, n);
    Unpruned11(cfg, n);
  }

  lemma Unpruned11(cfg: Config, n: Names)
    requires Fits(cfg)
    ensures Prune(cfg, T10(n), 0.0, 0.0) == T10(n) && ForgetAll(T10(n).tx, Expired(cfg, T10(n).tx, 0.0)) == T10(n).tx
  {
    NothingForgotten(cfg, T10(n));
  }

  lemma Swallowed(cfg: Config, n: Names, t: Table)
    requires t.tx.ix.startMsgs == map[] && t.tx.copied == [Copy(n.f, n.m1)]
    ensures var (t', out) := Step(cfg, t, At(LeaderFrameIn(n.f, Result(n.m1, Number(7)))));
      out.toCharger == [] && WaitingOn(t'.tx, 1) == WaitingOn(t.tx, 1)
  {
  }
}
