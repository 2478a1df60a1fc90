/** A run in which a retry is dropped unanswered: the leader's result for the attempt it waits on has no usable id. */
module TableDroppedRetry {
  import opened Ocpp
  import opened TableState
  import opened TableSteps
  import opened TableRuns
  import opened TableRetries
  import opened TableCornerCase

  /** A retry of a start waits for the leader, for a while. */
  predicate Waits(cfg: Config) {
    cfg.dedupe && cfg.staleStart > 0.0
  }

  function Started(key: StartKey, msg: MsgId, waiting: seq<MsgId>): Table {
    var rec := TxRecord(key, 0, None, map[], Pending, map[], None, Flags({}, {}, map[], {}, map[]), Tries({msg}, 0.0, waiting, {msg}), 0.0, None, 0.0);
    Table(Tx(map[0 := rec], 1, Indexes(map[], map[], map[key := 0], map[msg := 0]), map[], []), NoSpaces)
  }

  lemma NothingOld(cfg: Config, t: Table)
    requires t == EmptyTable || exists key, msg, waiting :: t == Started(key, msg, waiting)
    ensures Prune(cfg, t, 0.0, 0.0) == t
  {
    assert Expired(cfg, t.tx, 0.0) == {};
    SameTx(ForgetAll(t.tx, {}), t.tx);
    assert Lapsed(cfg, t.sp, 0.0, 0.0) == {};
    assert ReleaseAll(t.sp, {}).records == t.sp.records && ReleaseAll(t.sp, {}).index == t.sp.index;
  }

  /** The start goes to the leader. */
  lemma FirstTry(cfg: Config, l: Backend, key: StartKey, msg: MsgId)
    requires Waits(cfg)
    ensures Step(cfg, EmptyTable, At(ChargerFrame(Start(key, msg), l, []))).0 == Started(key, msg, [])
  {
    NothingOld(cfg, EmptyTable);
    hide Prune;
    assert StartCaseOf(cfg, EmptyTable.tx, l, key, 0.0) == Forwarded(None);
    var (tx1, r) := Attempt(cfg, EmptyTable.tx, None, key, msg, 0.0);
    SameRec(tx1.recs[0], Started(key, msg, []).tx.recs[0]);
    assert tx1.recs == Started(key, msg, []).tx.recs && tx1.ix.byStart == map[key := 0] && tx1.ix.startMsgs == map[msg := 0];
    SameTx(tx1, Started(key, msg, []).tx);
  }

  /** The same start again, under a new message: it waits. */
  lemma SecondTry(cfg: Config, l: Backend, key: StartKey, msg: MsgId, again: MsgId)
    requires Waits(cfg)
    ensures Step(cfg, Started(key, msg, []), At(ChargerFrame(Start(key, again), l, []))).0 == Started(key, msg, [again])
  {
    NothingOld(cfg, Started(key, msg, []));
    hide Prune;
    var t := Started(key, msg, []).tx;
    assert Rec(t, 0).tries.sent == {msg} && msg in Rec(t, 0).tries.sent;
    assert StartCaseOf(cfg, t, l, key, 0.0) == Busy(0);
    SameRec(Park(t, 0, again).recs[0], Started(key, msg, [again]).tx.recs[0]);
    assert Park(t, 0, again).recs == Started(key, msg, [again]).tx.recs;
  }

  /** The leader answers without a number. */
  lemma NoNumber(cfg: Config, l: Backend, key: StartKey, msg: MsgId, again: MsgId, conf: Conf)
    requires conf.tx.None?
    ensures var (t', out) := Step(cfg, Started(key, msg, [again]), At(LeaderFrameIn(l, Result(msg, conf))));
      out.toCharger == [Result(msg, conf)] && WaitingOn(t'.tx, 0) == [] && key !in t'.tx.ix.byStart && DropsRetries(Started(key, msg, [again]).tx, LeaderFrameIn(l, Result(msg, conf)), 0)
  {
    assert IsOwed(Started(key, msg, [again]).tx, msg);
    assert Rec(Started(key, msg, [again]).tx, 0).tries.sent - {msg} == {};
  }

  /** After these two events the retry `again` waits; the leader's result, which has no usable id, is passed on as the answer to
      `msg`, and the retry neither waits any more nor is it told anything. */
  lemma ARetryCanBeDropped(cfg: Config, l: Backend, key: StartKey, msg: MsgId, again: MsgId, conf: Conf)
    requires Waits(cfg) && msg != again && conf.tx.None?
    ensures var run := [At(ChargerFrame(Start(key, msg), l, [])), At(ChargerFrame(Start(key, again), l, []))];
      && ProperRun(run) && UniqueStarts(run) && NeverParksUntracked(cfg, run, 2) && WaitingOn(After(cfg, run).tx, 0) == [again]
      && var (t', out) := Step(cfg, After(cfg, run), At(LeaderFrameIn(l, Result(msg, conf))));
         out.toCharger == [Result(msg, conf)] && WaitingOn(t'.tx, 0) == []
  {
    hide Step, Started, ParksUntracked, WaitingOn, ProperRun, UniqueStarts, After, Prune, Start;
    var e1, e2 := At(ChargerFrame(Start(key, msg), l, [])), At(ChargerFrame(Start(key, again), l, []));
    FirstTry(cfg, l, key, msg);
    SecondTry(cfg, l, key, msg, again);
    NoNumber(cfg, l, key, msg, again, conf);
    NeitherUntracked(cfg, l, key, msg, again);
    StillWaits(key, msg, again);
    AfterTwo(cfg, e1, e2);
    TwoStarts(l, key, msg, again);
  }

  lemma AfterTwo(cfg: Config, e1: Event, e2: Event)
    ensures After(cfg, [e1, e2][..0]) == EmptyTable && After(cfg, [e1, e2][..1]) == Step(cfg, EmptyTable, e1).0
    ensures After(cfg, [e1, e2]) == Step(cfg, Step(cfg, EmptyTable, e1).0, e2).0
  {
    hide Step;
    assert [e1, e2][..1] == [e1] && [e1][..0] == [] && [e1, e2][..0] == [];
  }

  lemma TwoStarts(l: Backend, key: StartKey, msg: MsgId, again: MsgId)
    requires msg != again
    ensures var run := [At(ChargerFrame(Start(key, msg), l, [])), At(ChargerFrame(Start(key, again), l, []))]; ProperRun(run) && UniqueStarts(run)
  {
  }

  lemma StillWaits(key: StartKey, msg: MsgId, again: MsgId)
    ensures WaitingOn(Started(key, msg, [again]).tx, 0) == [again]
  {
  }

  lemma NeitherUntracked(cfg: Config, l: Backend, key: StartKey, msg: MsgId, again: MsgId)
    requires Waits(cfg)
    ensures !ParksUntracked(cfg, EmptyTable.tx, At(ChargerFrame(Start(key, msg), l, [])))
    ensures !ParksUntracked(cfg, Started(key, msg, []).tx, At(ChargerFrame(Start(key, again), l, [])))
  {
    NothingOld(cfg, EmptyTable);
    NothingOld(cfg, Started(key, msg, []));
    hide ForgetAll;
    assert StartCaseOf(cfg, Started(key, msg, []).tx, l, key, 0.0) == Busy(0);
  }
}
