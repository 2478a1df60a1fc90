/** A run in which the charger hears one id for two transactions: a leader that was replaced leads again, and answers late. */
module TableLateAnswer {
  import opened Ocpp
  import opened TableState
  import opened TableSteps
  import opened TableRuns
  import opened TableRetries
  import opened TableAnswers
  import opened TableCornerCase

  predicate Recognises(cfg: Config) {
    cfg.dedupe && cfg.retainOpen >= 0.0
  }

  /** The first start, which nobody answered and a promotion made void. */
  function Void(key: StartKey): TxRecord {
    NewRecord(key, 0, 0.0)
  }

  /** The second start; the new leader numbered it 7. */
  function Opened(g: Backend, key: StartKey): TxRecord {
    NewRecord(key, 1, 0.0).(txId := Some(7), backendIds := map[g := 7], state := Open, conf := Some(Number(7)))
  }

  function Sent(rec: TxRecord, msg: MsgId): TxRecord {
    rec.(tries := Tries({msg}, 0.0, [], {msg}))
  }

  function One(key: StartKey, msg: MsgId): Table {
    Table(Tx(map[0 := Sent(Void(key), msg)], 1, Indexes(map[], map[], map[key := 0], map[msg := 0]), map[], []), NoSpaces)
  }

  function Nobody(key: StartKey): Table {
    Table(Tx(map[0 := Void(key)], 1, Indexes(map[], map[], map[], map[]), map[], []), NoSpaces)
  }

  function Two(k0: StartKey, k1: StartKey, m1: MsgId): Table {
    Table(Tx(map[0 := Void(k0), 1 := Sent(NewRecord(k1, 1, 0.0), m1)], 2, Indexes(map[], map[], map[k1 := 1], map[m1 := 1]), map[], []), NoSpaces)
  }

  function Numbered7(g: Backend, k0: StartKey, k1: StartKey): Table {
    Table(Tx(map[0 := Void(k0), 1 := Opened(g, k1)], 2, Indexes(map[7 := 1], map[BackendTx(g, 7) := 1], map[k1 := 1], map[]), map[], []), NoSpaces)
  }

  lemma Sends(cfg: Config, t: Table, leader: Backend, key: StartKey, msg: MsgId)
    requires Recognises(cfg) && Prune(cfg, t, 0.0, 0.0) == t && key !in t.tx.ix.byStart
    ensures Step(cfg, t, At(ChargerFrame(Start(key, msg), leader, []))).0 == t.(tx := Attempt(cfg, t.tx, None, key, msg, 0.0).0)
  {
    hide Attempt, Prune;
    assert StartCaseOf(cfg, t.tx, leader, key, 0.0) == Forwarded(None);
  }

  lemma First(cfg: Config, l: Backend, k0: StartKey, m0: MsgId)
    requires Recognises(cfg)
    ensures Step(cfg, EmptyTable, At(ChargerFrame(Start(k0, m0), l, []))).0 == One(k0, m0)
  {
    NothingForgotten(cfg, EmptyTable);
    hide Prune, Step;
    Sends(cfg, EmptyTable, l, k0, m0);
    var t' := Attempt(cfg, EmptyTable.tx, None, k0, m0, 0.0).0;
    SameRec(t'.recs[0], Sent(Void(k0), m0));
    SameTx(t', One(k0, m0).tx);
  }

  lemma Voids(cfg: Config, g: Backend, k0: StartKey, m0: MsgId)
    ensures Step(cfg, One(k0, m0), At(Promotion(Some(g)))).0 == Nobody(k0)
  {
    hide GaveUp;
    var t := One(k0, m0).tx;
    assert m0 in Rec(t, 0).tries.sent && Find(t.ix.byStart, k0) == Some(0);
    assert Waiting(t) == {0};
    GaveUpIs(k0, m0);
    SameTx(GiveUpAll(t, {0}), Nobody(k0).tx);
    NoQueue(Nobody(k0).tx, g);
  }

  lemma GaveUpIs(k0: StartKey, m0: MsgId)
    ensures GaveUp(Sent(Void(k0), m0)) == Void(k0) && Dropped(Sent(Void(k0), m0), m0) && Dead(Sent(Void(k0), m0))
  {
    SameRec(GaveUp(Sent(Void(k0), m0)), Void(k0));
  }

  lemma NoQueue(t: Tx, b: Backend)
    requires t.held == map[]
    ensures DropQueue(t, b) == t
  {
    assert RefsIn(Queue(t, b)) == {};
    SameTx(DropQueue(t, b), t);
  }

  lemma Second(cfg: Config, g: Backend, k0: StartKey, k1: StartKey, m1: MsgId)
    requires Recognises(cfg)
    ensures Step(cfg, Nobody(k0), At(ChargerFrame(Start(k1, m1), g, []))).0 == Two(k0, k1, m1)
  {
    NothingForgotten(cfg, Nobody(k0));
    hide Prune, Step;
    Sends(cfg, Nobody(k0), g, k1, m1);
    var t' := Attempt(cfg, Nobody(k0).tx, None, k1, m1, 0.0).0;
    SameRec(t'.recs[1], Sent(NewRecord(k1, 1, 0.0), m1));
    SameTx(t', Two(k0, k1, m1).tx);
  }

  lemma Answers7(cfg: Config, g: Backend, k0: StartKey, k1: StartKey, m1: MsgId)
    ensures Step(cfg, Two(k0, k1, m1), At(LeaderFrameIn(g, Result(m1, Number(7))))).0 == Numbered7(g, k0, k1)
  {
    var t := Two(k0, k1, m1).tx;
    assert Rec(t, 1) == Sent(NewRecord(k1, 1, 0.0), m1) && IsOwed(t, m1);
    assert Choose(t, 7) == 7;
    var t1 := OpenRecord(t, 1, g, 7, Number(7), 0.0);
    var rec := WithoutRetries(Rec(t1, 1), m1);
    assert Quiet(rec);
    SameRec(Unregistered(rec), Opened(g, k1));
    SameTx(Collect(Put(t1, 1, rec), 1), Numbered7(g, k0, k1).tx);
  }

  lemma LeadsAgain(cfg: Config, l: Backend, g: Backend, k0: StartKey, k1: StartKey)
    ensures Step(cfg, Numbered7(g, k0, k1), At(Promotion(Some(l)))).0 == Numbered7(g, k0, k1)
  {
    var t := Numbered7(g, k0, k1).tx;
    NobodyGivenUp(t);
    NoQueue(t, l);
  }

  lemma Late(cfg: Config, l: Backend, g: Backend, k0: StartKey, k1: StartKey, m0: MsgId)
    ensures var t := Numbered7(g, k0, k1);
      && Step(cfg, t, At(LeaderFrameIn(l, Result(m0, Number(7))))).1.toCharger == [Result(m0, Number(7))]
      && IsForeign(t.tx, Result(m0, Number(7))) && Rec(t.tx, 1).key == k1 && Rec(t.tx, 1).txId == Some(7)
  {
  }

  /** The five events: a start that `l` does not answer, `g` becomes the leader, another start, which `g` numbers 7, and `l` leads
      again. */
  function Replaced(l: Backend, g: Backend, k0: StartKey, k1: StartKey, m0: MsgId, m1: MsgId): seq<Event> {
    [At(ChargerFrame(Start(k0, m0), l, [])), At(Promotion(Some(g))), At(ChargerFrame(Start(k1, m1), g, [])),
     At(LeaderFrameIn(g, Result(m1, Number(7)))), At(Promotion(Some(l)))]
  }

  /** It happens: after these events `l`'s late answer to the first start, with a 7 of its own, is passed on as it came, though the
      charger holds 7 for the second. */
  lemma ALateAnswerCanRepeatAnId(cfg: Config, l: Backend, g: Backend, k0: StartKey, k1: StartKey, m0: MsgId, m1: MsgId)
    requires Recognises(cfg) && l != g && k0 != k1 && m0 != m1
    ensures var run := Replaced(l, g, k0, k1, m0, m1); var t := After(cfg, run);
      && ProperRun(run) && UniqueStarts(run)
      && Step(cfg, t, At(LeaderFrameIn(l, Result(m0, Number(7))))).1.toCharger == [Result(m0, Number(7))]
      && IsForeign(t.tx, Result(m0, Number(7))) && Rec(t.tx, 1).key == k1 && Rec(t.tx, 1).txId == Some(7)
  {
    hide After, Step, Replaced, Numbered7, IsForeign, ProperRun, UniqueStarts;
    AfterFive(cfg, l, g, k0, k1, m0, m1);
    ReplacedProper(l, g, k0, k1, m0, m1);
    Late(cfg, l, g, k0, k1, m0);
  }

  lemma ReplacedProper(l: Backend, g: Backend, k0: StartKey, k1: StartKey, m0: MsgId, m1: MsgId)
    requires m0 != m1
    ensures var run := Replaced(l, g, k0, k1, m0, m1); ProperRun(run) && UniqueStarts(run)
  {
  }

  lemma AfterFive(cfg: Config, l: Backend, g: Backend, k0: StartKey, k1: StartKey, m0: MsgId, m1: MsgId)
    requires Recognises(cfg) && k0 != k1
    ensures After(cfg, Replaced(l, g, k0, k1, m0, m1)) == Numbered7(g, k0, k1)
  {
    hide After, Step, One, Nobody, Two, Numbered7, Start;
    First(cfg, l, k0, m0);
    Voids(cfg, g, k0, m0);
    Second(cfg, g, k0, k1, m1);
    Answers7(cfg, g, k0, k1, m1);
    LeadsAgain(cfg, l, g, k0, k1);
    AfterNothing(cfg);
    var run: seq<Event> := [];
    var e1, e2, e3 := At(ChargerFrame(Start(k0, m0), l, [])), At(Promotion(Some(g))), At(ChargerFrame(Start(k1, m1), g, []));
    var e4, e5 := At(LeaderFrameIn(g, Result(m1, Number(7)))), At(Promotion(Some(l)));
    Extend(cfg, run, e1); run := run + [e1];
    Extend(cfg, run, e2); run := run + [e2];
    Extend(cfg, run, e3); run := run + [e3];
    Extend(cfg, run, e4); run := run + [e4];
    Extend(cfg, run, e5); run := run + [e5];
    assert run == Replaced(l, g, k0, k1, m0, m1);
  }
}
