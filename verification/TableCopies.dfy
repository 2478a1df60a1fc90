/** The copy queues of the followers: what serving one follower can change, and what it sends and to whom.

    A copy that leaves its queue was sent or skipped (`Fate`); serving a queue settles a prefix of it. Serving one
    follower changes the records' notes about that follower only, and nobody else's queue. The results are put together
    over whole runs in `TableRuns`. */
module TableCopies {
  import opened Ocpp
  import opened TableState
  import opened TableSteps
  import opened TableInvariant

  // ------------------------------------------------------------------
  // Serving a follower changes nothing that concerns anybody else
  // ------------------------------------------------------------------

  /** The records differ at most in what they note about the followers `F`. */
  ghost predicate OnlyFlags(a: TxRecord, b: TxRecord, F: set<Backend>) {
    && b == a.(flags := a.flags.(queued := b.flags.queued, awaiting := b.flags.awaiting, since := b.flags.since, degraded := b.flags.degraded, copyMsgs := b.flags.copyMsgs))
    && forall g :: g !in F ==> SameFlags(a, b, g)
  }

  ghost predicate SameFlags(a: TxRecord, b: TxRecord, g: Backend) {
    && (g in b.flags.queued <==> g in a.flags.queued) && (g in b.flags.awaiting <==> g in a.flags.awaiting) && (g in b.flags.degraded <==> g in a.flags.degraded)
    && (g in b.flags.since <==> g in a.flags.since) && (g in a.flags.since ==> b.flags.since[g] == a.flags.since[g])
    && (g in b.flags.copyMsgs <==> g in a.flags.copyMsgs) && (g in a.flags.copyMsgs ==> b.flags.copyMsgs[g] == a.flags.copyMsgs[g])
  }

  ghost predicate RecordsOnlyFlags(t: Tx, t': Tx, F: set<Backend>) {
    t'.recs.Keys == t.recs.Keys && forall r :: r in t.recs ==> OnlyFlags(t.recs[r], t'.recs[r], F)
  }

  /** Only the queues of `F` and what records note about `F` changed. */
  ghost predicate OnlyCopies(t: Tx, t': Tx, F: set<Backend>) {
    && t' == t.(recs := t'.recs, held := t'.held, copied := t'.copied)
    && RecordsOnlyFlags(t, t', F)
    && forall g :: g !in F ==> Queue(t', g) == Queue(t, g)
  }

  /** The charger's reservations and profiles are the same; at most it was noted when they were last used. */
  ghost predicate SameObjects(sp: Spaces, sp': Spaces) {
    && sp' == sp.(objs := sp'.objs)
    && sp'.objs.Keys == sp.objs.Keys
    && (forall r :: r in sp.objs ==> sp'.objs[r] == sp.objs[r].(touched := sp'.objs[r].touched))
  }

  ghost predicate Serves(t: Table, t': Table, F: set<Backend>) {
    OnlyCopies(t.tx, t'.tx, F) && SameObjects(t.sp, t'.sp)
  }

  lemma OnlyFlagsTransitive(a: TxRecord, b: TxRecord, c: TxRecord, F: set<Backend>)
    requires OnlyFlags(a, b, F) && OnlyFlags(b, c, F)
    ensures OnlyFlags(a, c, F)
  {
    forall g | g !in F ensures SameFlags(a, c, g) {
      assert SameFlags(a, b, g) && SameFlags(b, c, g);
    }
  }

  lemma ServesTransitive(t0: Table, t1: Table, t2: Table, F: set<Backend>)
    requires Serves(t0, t1, F) && Serves(t1, t2, F)
    ensures Serves(t0, t2, F)
  {
    forall r | r in t0.tx.recs ensures OnlyFlags(t0.tx.recs[r], t2.tx.recs[r], F) {
      OnlyFlagsTransitive(t0.tx.recs[r], t1.tx.recs[r], t2.tx.recs[r], F);
    }
  }

  lemma ServesMore(t: Table, t': Table, F: set<Backend>, G: set<Backend>)
    requires Serves(t, t', F) && F <= G
    ensures Serves(t, t', G)
  {
    forall r | r in t.tx.recs ensures OnlyFlags(t.tx.recs[r], t'.tx.recs[r], G) {
      assert OnlyFlags(t.tx.recs[r], t'.tx.recs[r], F);
    }
  }

  lemma SetFlagsServes(t: Table, r: Ref, rec: TxRecord, f: Backend)
    requires r in t.tx.recs && OnlyFlags(t.tx.recs[r], rec, {f})
    ensures Serves(t, t.(tx := Put(t.tx, r, rec)), {f})
  {
  }

  lemma SetQueueServes(t: Table, f: Backend, q: seq<Queued>)
    ensures Serves(t, t.(tx := SetQueue(t.tx, f, q)), {f})
  {
  }

  lemma StartFrameSame(sp: Spaces, backend: Backend, frame: Frame, isLeader: bool, now: Time)
    ensures SameObjects(sp, StartFrame(sp, backend, frame, isLeader, now).0)
  {
  }

  lemma NoteCopyServes(t: Table, f: Backend, msg: MsgId)
    ensures Serves(t, t.(tx := NoteCopy(t.tx, f, msg)), {f})
  {
  }

  lemma HeadStepServes(cfg: Config, t: Table, f: Backend, item: Queued, now: Time)
    requires ItemOk(t.tx, item)
    ensures var h := HeadStep(cfg, t, f, item, now);
      h.Leaves? ==> Serves(t, h.t, {f}) && h.t.tx.held == t.tx.held
  {
    match item
    case PlainCopy(frame) =>
      NoteCopyServes(t, f, IdOf(frame));
    case StartCopy(r, frame) =>
      var rec := t.tx.recs[r];
      var rec1 := StartWentTo(rec, f, IdOf(frame), now);
      var t1 := t.(tx := Put(t.tx, r, rec1));
      SetFlagsServes(t, r, rec1, f);
      NoteCopyServes(t1, f, IdOf(frame));
      var t2 := t1.(tx := NoteCopy(t1.tx, f, IdOf(frame)));
      ServesTransitive(t, t1, t2, {f});
      StartFrameSame(t.sp, f, frame, false, now);
    case IdCopy(found, frame) =>
      NoteCopyServes(t, f, IdOf(frame));
      if found.Some? {
        var rec := t.tx.recs[found.value];
        SetFlagsServes(t, found.value, GivenUpOn(rec, f), f);
      }
  }

  // ------------------------------------------------------------------
  // First in, first out, in the follower's own ids
  // ------------------------------------------------------------------

  /** What became of an accepted copy: the frame that was sent for it, or None if it was skipped. */
  datatype Fate = Fate(item: Queued, out: Option<Frame>)

  function ItemsOf(fates: seq<Fate>): (items: seq<Queued>)
    ensures |items| == |fates|
    ensures forall i :: 0 <= i < |fates| ==> items[i] == fates[i].item
  {
    if fates == [] then [] else [fates[0].item] + ItemsOf(fates[1..])
  }

  /** The frames sent for these copies, in order. */
  function FramesOf(fates: seq<Fate>): seq<Frame> {
    if fates == [] then [] else Listed(fates[0].out) + FramesOf(fates[1..])
  }

  lemma {:induction false} FramesConcat(a: seq<Fate>, b: seq<Fate>)
    ensures FramesOf(a + b) == FramesOf(a) + FramesOf(b)
  {
    if a == [] {
      assert a + b == b;
    } else {
      assert (a + b)[1..] == a[1..] + b;
      FramesConcat(a[1..], b);
    }
  }

  lemma {:induction false} ItemsConcat(a: seq<Fate>, b: seq<Fate>)
    ensures ItemsOf(a + b) == ItemsOf(a) + ItemsOf(b)
  {
    if a == [] {
      assert a + b == b;
    } else {
      assert (a + b)[1..] == a[1..] + b;
      ItemsConcat(a[1..], b);
    }
  }

  /** `told` is the start `frame` for `b`: with the reservation id `b` itself goes by; with none if `b` did not make that
      reservation; and, if the table does not know it, as it is for the leader, and with none for a follower. */
  predicate TellsReservation(sp: Spaces, b: Backend, leads: bool, frame: Frame, told: Frame) {
    frame.Call? && told.Call? && told == frame.(payload := frame.payload.(obj := told.payload.obj)) &&
    if frame.payload.obj.None? then told.payload.obj.None?
    else
      var key := SpaceId(Reservation, frame.payload.obj.value);
      if key !in sp.records then told.payload.obj == (if leads then frame.payload.obj else None)
      else if b in Obj(sp, sp.records[key]).backendIds then told.payload.obj == Some(Obj(sp, sp.records[key]).backendIds[b])
      else told.payload.obj.None?
  }

  lemma ToldReservation(sp: Spaces, b: Backend, frame: Frame, leads: bool, now: Time)
    requires frame.Call?
    ensures var (sp', told) := StartFrame(sp, b, frame, leads, now); TellsReservation(sp', b, leads, frame, told) && sp'.records == sp.records
  {
  }

  /** A frame of the charger that quotes a transaction, in plain words. */
  predicate IsQuote(frame: Frame) {
    frame.Call? && frame.action in {MeterValues, StopTransaction} && frame.payload.tx.Some?
  }

  /** `out` says to `f`, in `f`'s own numbers, what the charger's frame says: a frame that quotes a transaction carries the
      id `f` has for that very record, a start the reservation id `f` itself goes by, and nothing else differs. */
  ghost predicate Speaks(t: Table, f: Backend, item: Queued, out: Frame) {
    out.Call? &&
    match item
    case PlainCopy(frame) => out == frame && !IsQuote(frame) && !frame.action.StartTransaction?
    case StartCopy(r, frame) => TellsReservation(t.sp, f, false, frame, out) && frame.action.StartTransaction?
    case IdCopy(found, frame) =>
      IsQuote(frame) && found.Some? && found.value in t.tx.recs && t.tx.recs[found.value].txId == frame.payload.tx &&
      f in t.tx.recs[found.value].backendIds && out == WithTx(frame, t.tx.recs[found.value].backendIds[f])
  }

  /** A copy is skipped only if it quotes a transaction the table never saw, or one `f` has no id for and is given up on. */
  ghost predicate Skips(t: Table, f: Backend, item: Queued) {
    item.IdCopy? && (item.rec.Some? ==> item.rec.value in t.tx.recs && f !in t.tx.recs[item.rec.value].backendIds && f in t.tx.recs[item.rec.value].flags.degraded)
  }

  /** `f` owes an answer to its copy of the start for `follower_wait` seconds or longer. */
  predicate IsOverdue(cfg: Config, rec: TxRecord, f: Backend, now: Time) {
    cfg.followerWait <= 0.0 || (f in rec.flags.since && now - rec.flags.since[f] >= cfg.followerWait)
  }

  /** The record waits for `f`, and not for too long. */
  predicate WaitsFor(cfg: Config, t: Tx, r: Ref, f: Backend, now: Time) {
    r in t.recs && f in t.recs[r].flags.awaiting && !IsOverdue(cfg, t.recs[r], f, now)
  }

  /** What is skipped quotes a transaction for which `f` is not, or no longer, waited for. */
  predicate MaySkip(cfg: Config, t: Tx, f: Backend, item: Queued, now: Time) {
    item.IdCopy? && (item.rec.Some? ==> !WaitsFor(cfg, t, item.rec.value, f, now))
  }

  /** If `f` is waited for, then since now. */
  predicate FromNow(t: Tx, r: Ref, f: Backend, now: Time) {
    r in t.recs && f in t.recs[r].flags.awaiting ==> f in t.recs[r].flags.since && t.recs[r].flags.since[f] == now
  }

  /** A start copy that was sent begins the wait for `f`; a copy that was skipped ends it (only another start copy may have
      begun it anew). */
  predicate LeavesWaiting(cfg: Config, t: Tx, f: Backend, fate: Fate, now: Time) {
    match fate.item
    case PlainCopy(_) => true
    case StartCopy(r, _) => FromNow(t, r, f, now) && (0.0 < cfg.followerWait ==> WaitsFor(cfg, t, r, f, now))
    case IdCopy(found, _) => fate.out.None? && found.Some? ==> FromNow(t, found.value, f, now)
  }

  /** What was skipped from the table `t` on could be skipped then; whoever is waited for still is; and so is whoever just got
      a start. */
  ghost predicate InTime(cfg: Config, t: Tx, t': Tx, f: Backend, fates: seq<Fate>, now: Time) {
    && (forall i :: 0 <= i < |fates| && fates[i].out.None? ==> MaySkip(cfg, t, f, fates[i].item, now))
    && StillWaits(cfg, t, t', f, now) && AllLeaveWaiting(cfg, t', f, fates, now)
  }

  ghost predicate AllLeaveWaiting(cfg: Config, t: Tx, f: Backend, fates: seq<Fate>, now: Time) {
    forall i :: 0 <= i < |fates| ==> LeavesWaiting(cfg, t, f, fates[i], now)
  }

  /** Whoever is waited for, and not for too long, still is; and whoever is, was so since the same time or is so since now. */
  ghost predicate StillWaits(cfg: Config, t: Tx, t': Tx, f: Backend, now: Time) {
    && (forall r: Ref :: WaitsFor(cfg, t, r, f, now) ==> WaitsFor(cfg, t', r, f, now))
    && (forall r: Ref :: FromNow(t', r, f, now) || SameWaiting(t, t', r, f))
  }

  predicate SameWaiting(t: Tx, t': Tx, r: Ref, f: Backend) {
    r in t.recs && r in t'.recs && SameWait(t.recs[r], t'.recs[r], f)
  }

  lemma InTimeFrom(cfg: Config, t0: Tx, t: Tx, t': Tx, f: Backend, fates: seq<Fate>, now: Time)
    requires StillWaits(cfg, t0, t, f, now) && InTime(cfg, t, t', f, fates, now)
    ensures InTime(cfg, t0, t', f, fates, now)
  {
    StillWaitsTwice(cfg, t0, t, t', f, now);
    hide WaitsFor, LeavesWaiting, FromNow, SameWaiting;
  }

  lemma StillWaitsTwice(cfg: Config, t: Tx, t1: Tx, t2: Tx, f: Backend, now: Time)
    requires StillWaits(cfg, t, t1, f, now) && StillWaits(cfg, t1, t2, f, now)
    ensures StillWaits(cfg, t, t2, f, now)
  {
    hide WaitsFor;
    forall r: Ref ensures FromNow(t2, r, f, now) || SameWaiting(t, t2, r, f) {
      assert (FromNow(t1, r, f, now) || SameWaiting(t, t1, r, f)) && (FromNow(t2, r, f, now) || SameWaiting(t1, t2, r, f));
    }
  }

  lemma InTimeTwice(cfg: Config, t: Tx, t1: Tx, t2: Tx, f: Backend, first: seq<Fate>, more: seq<Fate>, now: Time)
    requires InTime(cfg, t, t1, f, first, now) && InTime(cfg, t1, t2, f, more, now)
    ensures InTime(cfg, t, t2, f, first + more, now)
  {
    StillWaitsTwice(cfg, t, t1, t2, f, now);
    forall i | 0 <= i < |first + more| ensures LeavesWaiting(cfg, t2, f, (first + more)[i], now) {
      if i < |first| {
        WaitsOn(cfg, t1, t2, f, first[i], now);
      }
    }
    hide WaitsFor, LeavesWaiting, FromNow, SameWaiting;
  }

  lemma WaitsOn(cfg: Config, t: Tx, t': Tx, f: Backend, fate: Fate, now: Time)
    requires StillWaits(cfg, t, t', f, now) && LeavesWaiting(cfg, t, f, fate, now)
    ensures LeavesWaiting(cfg, t', f, fate, now)
  {
    hide WaitsFor;
    if fate.item.StartCopy? {
      FromNowOn(cfg, t, t', fate.item.ref, f, now);
    } else if fate.item.IdCopy? && fate.item.rec.Some? {
      FromNowOn(cfg, t, t', fate.item.rec.value, f, now);
    }
  }

  lemma FromNowOn(cfg: Config, t: Tx, t': Tx, r: Ref, f: Backend, now: Time)
    requires StillWaits(cfg, t, t', f, now)
    ensures FromNow(t, r, f, now) ==> FromNow(t', r, f, now)
  {
    hide WaitsFor;
    assert FromNow(t', r, f, now) || SameWaiting(t, t', r, f);
  }

  /** Nothing about `f` changed. */
  lemma UntouchedWaits(cfg: Config, t: Tx, t': Tx, f: Backend, now: Time)
    requires forall r :: r in t.recs ==> r in t'.recs && SameWait(t.recs[r], t'.recs[r], f)
    requires forall r :: r in t'.recs ==> r in t.recs || f !in t'.recs[r].flags.awaiting
    ensures StillWaits(cfg, t, t', f, now) && InTime(cfg, t, t', f, [], now)
  {
  }

  predicate SameWait(a: TxRecord, b: TxRecord, f: Backend) {
    && (f in a.flags.awaiting <==> f in b.flags.awaiting)
    && (f in a.flags.since <==> f in b.flags.since) && (f in a.flags.since ==> b.flags.since[f] == a.flags.since[f])
  }

  lemma OthersInTime(cfg: Config, t: Table, t': Table, G: set<Backend>, f: Backend, now: Time)
    requires Serves(t, t', G) && f !in G
    ensures StillWaits(cfg, t.tx, t'.tx, f, now) && InTime(cfg, t.tx, t'.tx, f, [], now)
  {
    forall r | r in t.tx.recs ensures r in t'.tx.recs && SameWait(t.tx.recs[r], t'.tx.recs[r], f) {
      assert OnlyFlags(t.tx.recs[r], t'.tx.recs[r], G) && SameFlags(t.tx.recs[r], t'.tx.recs[r], f);
    }
    UntouchedWaits(cfg, t.tx, t'.tx, f, now);
  }

  /** The head of the queue leaves in time. */
  lemma HeadInTime(cfg: Config, t: Table, f: Backend, item: Queued, now: Time)
    requires ItemOk(t.tx, item)
    ensures var h := HeadStep(cfg, t, f, item, now); h.Leaves? ==> InTime(cfg, t.tx, h.t.tx, f, [Fate(item, h.out)], now)
  {
    match item
    case PlainCopy(frame) => UntouchedWaits(cfg, t.tx, NoteCopy(t.tx, f, IdOf(frame)), f, now);
    case StartCopy(r, frame) =>
    case IdCopy(found, frame) =>
      if found.Some? && f in t.tx.recs[found.value].backendIds {
        UntouchedWaits(cfg, t.tx, NoteCopy(t.tx, f, IdOf(frame)), f, now);
      }
  }

  ghost predicate Settled(t: Table, f: Backend, fate: Fate) {
    if fate.out.Some? then Speaks(t, f, fate.item, fate.out.value) else Skips(t, f, fate.item)
  }

  ghost predicate AllSettled(t: Table, f: Backend, fates: seq<Fate>) {
    forall i :: 0 <= i < |fates| ==> Settled(t, f, fates[i])
  }

  /** Nothing the table does for a follower unsettles what it settled: ids and reservations stay, degraded stays. */
  ghost predicate Keeps(t: Table, t': Table, f: Backend) {
    && SameObjects(t.sp, t'.sp)
    && (forall r :: r in t.tx.recs ==> r in t'.tx.recs && SameIds(t.tx.recs[r], t'.tx.recs[r], f))
  }

  predicate SameIds(a: TxRecord, b: TxRecord, f: Backend) {
    b.txId == a.txId && b.backendIds == a.backendIds && (f in a.flags.degraded ==> f in b.flags.degraded)
  }

  lemma SettledKeeps(t: Table, t': Table, f: Backend, fate: Fate)
    requires Settled(t, f, fate) && Keeps(t, t', f)
    ensures Settled(t', f, fate)
  {
  }

  lemma HeadStepSettles(cfg: Config, t: Table, f: Backend, item: Queued, now: Time)
    requires ItemOk(t.tx, item)
    ensures var h := HeadStep(cfg, t, f, item, now);
      h.Leaves? ==> Settled(h.t, f, Fate(item, h.out)) && Keeps(t, h.t, f)
  {
    HeadStepServes(cfg, t, f, item, now);
  }

  lemma AllSettledKeeps(t: Table, t': Table, f: Backend, fates: seq<Fate>)
    requires AllSettled(t, f, fates) && Keeps(t, t', f)
    ensures AllSettled(t', f, fates)
  {
    forall i | 0 <= i < |fates| ensures Settled(t', f, fates[i]) {
      SettledKeeps(t, t', f, fates[i]);
    }
  }

  lemma FirstSettled(t: Table, h: Table, t1: Table, t2: Table, f: Backend, first: Fate, rest: seq<Fate>)
    requires Keeps(t, h, f) && Settled(h, f, first)
    requires t1.sp == h.sp && t1.tx.recs == h.tx.recs
    requires Keeps(t1, t2, f) && AllSettled(t2, f, rest)
    ensures Keeps(t, t2, f) && AllSettled(t2, f, [first] + rest)
  {
    KeepsTransitive(t, h, t2, f);
    SettledKeeps(h, t2, f, first);
  }

  lemma KeepsTransitive(t0: Table, t1: Table, t2: Table, f: Backend)
    requires Keeps(t0, t1, f) && Keeps(t1, t2, f)
    ensures Keeps(t0, t2, f)
  {
  }

  /** Serving a queue takes a prefix of it, settles every copy of that prefix in order, and leaves the rest. */
  lemma {:induction false} DrainSettles(cfg: Config, t: Table, f: Backend, now: Time) returns (fates: seq<Fate>)
    requires WF(t.tx)
    ensures var (t', out) := Drain(cfg, t, f, now);
      && Queue(t.tx, f) == ItemsOf(fates) + Queue(t'.tx, f)
      && out == FramesOf(fates) && AllSettled(t', f, fates)
      && Keeps(t, t', f) && InTime(cfg, t.tx, t'.tx, f, fates, now)
    decreases |Queue(t.tx, f)|
  {
    hide WF, Settled, HeadStep, WaitsFor, InTime;
    UntouchedWaits(cfg, t.tx, t.tx, f, now);
    var q := Queue(t.tx, f);
    fates := [];
    if q != [] {
      PopKeeps(cfg, t, f, now);
      var h := HeadStep(cfg, t, f, q[0], now);
      if h.Leaves? {
        HeadStepSettles(cfg, t, f, q[0], now);
        HeadInTime(cfg, t, f, q[0], now);
        var t1 := Popped(h, f, q);
        UntouchedWaits(cfg, h.t.tx, t1.tx, f, now);
        var rest := DrainSettles(cfg, t1, f, now);
        var first := Fate(q[0], h.out);
        FirstSettled(t, h.t, t1, Drain(cfg, t1, f, now).0, f, first, rest);
        InTimeFrom(cfg, h.t.tx, t1.tx, Drain(cfg, t1, f, now).0.tx, f, rest, now);
        InTimeTwice(cfg, t.tx, h.t.tx, Drain(cfg, t1, f, now).0.tx, f, [first], rest, now);
        fates := [first] + rest;
        assert fates[1..] == rest;
      }
    }
  }

  lemma {:induction false} DrainServes(cfg: Config, t: Table, f: Backend, now: Time)
    requires WF(t.tx)
    ensures Serves(t, Drain(cfg, t, f, now).0, {f})
    decreases |Queue(t.tx, f)|
  {
    var q := Queue(t.tx, f);
    if q != [] {
      PopKeeps(cfg, t, f, now);
      var h := HeadStep(cfg, t, f, q[0], now);
      if h.Leaves? {
        HeadStepServes(cfg, t, f, q[0], now);
        SetQueueServes(h.t, f, q[1..]);
        var t1 := Popped(h, f, q);
        ServesTransitive(t, h.t, t1, {f});
        DrainServes(cfg, t1, f, now);
        ServesTransitive(t, t1, Drain(cfg, t1, f, now).0, {f});
      }
    }
  }

  lemma EnqueueServes(cfg: Config, t: Table, f: Backend, item: Queued, now: Time)
    requires WF(t.tx) && ItemOk(t.tx, item)
    ensures Serves(t, Enqueue(cfg, t, f, item, now).0, {f})
  {
    var q := Queue(t.tx, f);
    if |q| >= cfg.maxHeld {
      var t1 := t.(tx := SetQueue(t.tx, f, q));
      SetQueueServes(t, f, q);
      if ConcernsTx(item) {
        var rec := t1.tx.recs[RefOf(item)];
        var rec1 := Refused(rec, f);
        SetFlagsServes(t1, RefOf(item), rec1, f);
        ServesTransitive(t, t1, t1.(tx := Put(t1.tx, RefOf(item), rec1)), {f});
      }
    } else {
      var t1 := t.(tx := SetQueue(t.tx, f, q + [item]));
      SetQueueServes(t, f, q + [item]);
      QueuedMore(t, f, item);
      DrainServes(cfg, t1, f, now);
      ServesTransitive(t, t1, Drain(cfg, t1, f, now).0, {f});
    }
  }

  lemma QueuedMore(t: Table, f: Backend, item: Queued)
    requires WF(t.tx) && ItemOk(t.tx, item)
    ensures WF(SetQueue(t.tx, f, Queue(t.tx, f) + [item]))
  {
    assert QueueOk(t.tx, Queue(t.tx, f) + [item]);
    SetQueueKeeps(t.tx, f, Queue(t.tx, f) + [item]);
  }

  /** `accepted` joined the end of `f`'s queue; the copies of `fates` left its front, in order, and were sent as `frames`. */
  ghost predicate Passed(t: Table, t': Table, f: Backend, accepted: seq<Queued>, fates: seq<Fate>, frames: seq<Frame>) {
    && Queue(t.tx, f) + accepted == ItemsOf(fates) + Queue(t'.tx, f)
    && frames == FramesOf(fates) && AllSettled(t', f, fates)
  }

  lemma EnqueueSettles(cfg: Config, t: Table, f: Backend, item: Queued, now: Time) returns (fates: seq<Fate>)
    requires WF(t.tx) && ItemOk(t.tx, item)
    ensures var (t', out) := Enqueue(cfg, t, f, item, now);
      Passed(t, t', f, if |Queue(t.tx, f)| < cfg.maxHeld then [item] else [], fates, out) && InTime(cfg, t.tx, t'.tx, f, fates, now)
  {
    hide InTime, WF;
    if |Queue(t.tx, f)| >= cfg.maxHeld {
      fates := [];
      UntouchedWaits(cfg, t.tx, Enqueue(cfg, t, f, item, now).0.tx, f, now);
    } else {
      QueuedMore(t, f, item);
      var t1 := t.(tx := SetQueue(t.tx, f, Queue(t.tx, f) + [item]));
      UntouchedWaits(cfg, t.tx, t1.tx, f, now);
      fates := DrainSettles(cfg, t1, f, now);
      InTimeFrom(cfg, t.tx, t1.tx, Drain(cfg, t1, f, now).0.tx, f, fates, now);
    }
  }

  predicate DistinctKeys(followers: seq<Follower>) {
    forall i, j :: 0 <= i < j < |followers| ==> followers[i].key != followers[j].key
  }

  function KeysOf(followers: seq<Follower>): set<Backend> {
    set i | 0 <= i < |followers| :: followers[i].key
  }

  /** The frames of a plan that are for `f`, in order. */
  function FramesTo(sent: seq<Sent>, f: Backend): seq<Frame> {
    if sent == [] then []
    else FramesTo(sent[..|sent| - 1], f) + (if sent[|sent| - 1].to == f then [sent[|sent| - 1].frame] else [])
  }

  lemma {:induction false} FramesToConcat(a: seq<Sent>, b: seq<Sent>, f: Backend)
    ensures FramesTo(a + b, f) == FramesTo(a, f) + FramesTo(b, f)
  {
    if b == [] {
      assert a + b == a;
    } else {
      assert (a + b)[..|a + b| - 1] == a + b[..|b| - 1];
      FramesToConcat(a, b[..|b| - 1], f);
    }
  }

  lemma {:induction false} FramesToAll(g: Backend, frames: seq<Frame>, f: Backend)
    ensures FramesTo(AllTo(g, frames), f) == if g == f then frames else []
  {
    hide AllTo;
    if frames != [] {
      var init := frames[..|frames| - 1];
      assert AllTo(g, frames)[..|frames| - 1] == AllTo(g, init) && frames == init + [frames[|frames| - 1]];
      FramesToAll(g, init, f);
    }
  }

  /** Serving other followers does not disturb what was done for `f`. */
  lemma PassedThenOthers(t: Table, t1: Table, t2: Table, f: Backend, G: set<Backend>, accepted: seq<Queued>, fates: seq<Fate>, frames: seq<Frame>)
    requires Passed(t, t1, f, accepted, fates, frames) && Serves(t1, t2, G) && f !in G
    ensures Passed(t, t2, f, accepted, fates, frames)
  {
    forall r | r in t1.tx.recs ensures SameIds(t1.tx.recs[r], t2.tx.recs[r], f) {
      assert OnlyFlags(t1.tx.recs[r], t2.tx.recs[r], G) && SameFlags(t1.tx.recs[r], t2.tx.recs[r], f);
    }
    AllSettledKeeps(t1, t2, f, fates);
  }

  function AcceptedBy(cfg: Config, t: Tx, item: Queued, followers: seq<Follower>, f: Backend): seq<Queued> {
    if Follower(f, true) in followers && |Queue(t, f)| < cfg.maxHeld then [item] else []
  }

  lemma {:induction false} CopyToAllServes(cfg: Config, t: Table, item: Queued, followers: seq<Follower>, now: Time)
    requires WF(t.tx) && ItemOk(t.tx, item)
    ensures Serves(t, CopyToAll(cfg, t, item, followers, now).0, KeysOf(followers))
  {
    if followers != [] {
      var rest, last := followers[..|followers| - 1], followers[|followers| - 1];
      CopyToAllServes(cfg, t, item, rest, now);
      var t1 := CopyToAll(cfg, t, item, rest, now).0;
      SplitKeys(followers);
      ServesMore(t, t1, KeysOf(rest), KeysOf(followers));
      if last.ready {
        CopyToAllKeeps(cfg, t, item, rest, now);
        ItemGrows(t.tx, t1.tx, item);
        EnqueueServes(cfg, t1, last.key, item, now);
        var t2 := Enqueue(cfg, t1, last.key, item, now).0;
        ServesMore(t1, t2, {last.key}, KeysOf(followers));
        ServesTransitive(t, t1, t2, KeysOf(followers));
      }
    } else {
      ServesSelf(t);
    }
  }

  lemma ServesSelf(t: Table)
    ensures Serves(t, t, {})
  {
  }

  lemma SplitKeys(followers: seq<Follower>)
    requires followers != []
    ensures KeysOf(followers) == KeysOf(followers[..|followers| - 1]) + {followers[|followers| - 1].key}
  {
    var rest := followers[..|followers| - 1];
    forall k | k in KeysOf(followers) ensures k in KeysOf(rest) + {followers[|followers| - 1].key} {
      var i :| 0 <= i < |followers| && followers[i].key == k;
      assert i < |rest| ==> rest[i].key == k;
    }
    forall k | k in KeysOf(rest) ensures k in KeysOf(followers) {
      var i :| 0 <= i < |rest| && rest[i].key == k;
      assert followers[i].key == k;
    }
  }

  lemma {:induction false} CopyToAllSettles(cfg: Config, t: Table, item: Queued, followers: seq<Follower>, now: Time, f: Backend)
    returns (fates: seq<Fate>)
    requires WF(t.tx) && ItemOk(t.tx, item) && DistinctKeys(followers)
    ensures var (t', sent) := CopyToAll(cfg, t, item, followers, now);
      Passed(t, t', f, AcceptedBy(cfg, t.tx, item, followers, f), fates, FramesTo(sent, f)) && InTime(cfg, t.tx, t'.tx, f, fates, now)
  {
    hide Enqueue, WF, ItemOk, InTime;
    if followers == [] {
      fates := [];
      UntouchedWaits(cfg, t.tx, t.tx, f, now);
    } else {
      var rest, last := followers[..|followers| - 1], followers[|followers| - 1];
      CopyToAllKeeps(cfg, t, item, rest, now);
      var (t1, sent) := CopyToAll(cfg, t, item, rest, now);
      ItemGrows(t.tx, t1.tx, item);
      MemberSplit(followers, f);
      if last.key != f || !last.ready {
        fates := CopyToAllSettles(cfg, t, item, rest, now, f);
        if last.ready {
          EnqueueServes(cfg, t1, last.key, item, now);
          ThenAnother(cfg, t, t1, last.key, item, now, f, AcceptedBy(cfg, t.tx, item, rest, f), fates, sent);
        }
      } else {
        NotAmong(rest, f);
        fates := CopyToLast(cfg, t, item, followers, now, f);
      }
    }
  }

  lemma ThenAnother(cfg: Config, t: Table, t1: Table, g: Backend, item: Queued, now: Time, f: Backend, accepted: seq<Queued>, fates: seq<Fate>, sent: seq<Sent>)
    requires f != g && Passed(t, t1, f, accepted, fates, FramesTo(sent, f)) && InTime(cfg, t.tx, t1.tx, f, fates, now)
    requires Serves(t1, Enqueue(cfg, t1, g, item, now).0, {g})
    ensures var (t2, frames) := Enqueue(cfg, t1, g, item, now);
      Passed(t, t2, f, accepted, fates, FramesTo(sent + AllTo(g, frames), f)) && InTime(cfg, t.tx, t2.tx, f, fates, now)
  {
    hide Enqueue, InTime, Passed, Serves;
    var (t2, frames) := Enqueue(cfg, t1, g, item, now);
    PassedThenOthers(t, t1, t2, f, {g}, accepted, fates, FramesTo(sent, f));
    OthersInTime(cfg, t1, t2, {g}, f, now);
    InTimeTwice(cfg, t.tx, t1.tx, t2.tx, f, fates, [], now);
    assert fates + [] == fates;
    FramesToConcat(sent, AllTo(g, frames), f);
    FramesToAll(g, frames, f);
    assert FramesTo(sent, f) + [] == FramesTo(sent, f);
  }

  lemma CopyToLast(cfg: Config, t: Table, item: Queued, followers: seq<Follower>, now: Time, f: Backend) returns (fates: seq<Fate>)
    requires WF(t.tx) && ItemOk(t.tx, item) && followers != [] && followers[|followers| - 1] == Follower(f, true) && f !in KeysOf(followers[..|followers| - 1])
    ensures var (t', sent) := CopyToAll(cfg, t, item, followers, now);
      Passed(t, t', f, if |Queue(t.tx, f)| < cfg.maxHeld then [item] else [], fates, FramesTo(sent, f)) && InTime(cfg, t.tx, t'.tx, f, fates, now)
  {
    hide Enqueue, WF, ItemOk, InTime, FramesTo, KeysOf;
    var rest := followers[..|followers| - 1];
    CopyToAllKeeps(cfg, t, item, rest, now);
    var (t1, sent) := CopyToAll(cfg, t, item, rest, now);
    ItemGrows(t.tx, t1.tx, item);
    CopyToAllServes(cfg, t, item, rest, now);
    NothingFor(cfg, t, item, rest, now, f);
    fates := EnqueueSettles(cfg, t1, f, item, now);
    var (t2, frames) := Enqueue(cfg, t1, f, item, now);
    OthersInTime(cfg, t, t1, KeysOf(rest), f, now);
    InTimeFrom(cfg, t.tx, t1.tx, t2.tx, f, fates, now);
    FramesToConcat(sent, AllTo(f, frames), f);
    FramesToAll(f, frames, f);
  }

  /** A follower that is not served is sent nothing. */
  lemma {:induction false} NothingFor(cfg: Config, t: Table, item: Queued, followers: seq<Follower>, now: Time, f: Backend)
    requires f !in KeysOf(followers)
    ensures FramesTo(CopyToAll(cfg, t, item, followers, now).1, f) == []
  {
    if followers != [] {
      var rest, last := followers[..|followers| - 1], followers[|followers| - 1];
      SplitKeys(followers);
      NothingFor(cfg, t, item, rest, now, f);
      var (t1, sent) := CopyToAll(cfg, t, item, rest, now);
      if last.ready {
        var (t2, frames) := Enqueue(cfg, t1, last.key, item, now);
        FramesToConcat(sent, AllTo(last.key, frames), f);
        FramesToAll(last.key, frames, f);
      }
    }
  }

  lemma MemberSplit(followers: seq<Follower>, f: Backend)
    requires followers != [] && DistinctKeys(followers)
    ensures var rest, last := followers[..|followers| - 1], followers[|followers| - 1];
      && DistinctKeys(rest)
      && (last.key == f ==> f !in KeysOf(rest))
      && (Follower(f, true) in followers <==> Follower(f, true) in rest || last == Follower(f, true))
  {
    var rest := followers[..|followers| - 1];
    assert followers == rest + [followers[|followers| - 1]];
  }

  lemma NotAmong(followers: seq<Follower>, f: Backend)
    requires f !in KeysOf(followers)
    ensures Follower(f, true) !in followers
  {
    assert forall i :: 0 <= i < |followers| ==> followers[i].key in KeysOf(followers);
  }

  // ------------------------------------------------------------------
  // The copies of a start
  // ------------------------------------------------------------------

  /** `f` has not numbered the start, does not owe an answer to it, and is not given up on. */
  predicate Lacks(rec: TxRecord, f: Backend) {
    f !in rec.backendIds && f !in rec.flags.awaiting && f !in rec.flags.degraded
  }

  /** The start copy that joins `f`'s queue: none if `f` has the start already, is not connected, or has a full queue. */
  function AcceptedStart(cfg: Config, t: Tx, r: Ref, isNew: bool, frame: Frame, followers: seq<Follower>, f: Backend): seq<Queued> {
    if Follower(f, true) in followers && (isNew || Lacks(Rec(t, r), f)) && |Queue(t, f)| < cfg.maxHeld then [StartCopy(r, frame)] else []
  }

  /** The record when its start copy is about to be queued for `f`. */
  function QueuedFor(t: Table, r: Ref, f: Backend): Table {
    t.(tx := Put(t.tx, r, QueuedAt(Rec(t.tx, r), f)))
  }

  lemma QueuedForKeeps(t: Table, r: Ref, frame: Frame, f: Backend)
    requires WF(t.tx) && ItemOk(t.tx, StartCopy(r, frame))
    ensures WF(QueuedFor(t, r, f).tx) && ItemOk(QueuedFor(t, r, f).tx, StartCopy(r, frame)) && Serves(t, QueuedFor(t, r, f), {f})
    ensures QueuedFor(t, r, f).tx.held == t.tx.held
  {
    var rec := t.tx.recs[r];
    MarkedOk(rec, f);
    PutKeeps(t.tx, r, QueuedAt(rec, f));
    SetFlagsServes(t, r, QueuedAt(rec, f), f);
    ItemGrows(t.tx, QueuedFor(t, r, f).tx, StartCopy(r, frame));
  }

  lemma CopyStartServes(cfg: Config, t: Table, r: Ref, isNew: bool, frame: Frame, follower: Follower, now: Time)
    requires WF(t.tx) && ItemOk(t.tx, StartCopy(r, frame))
    ensures Serves(t, CopyStart(cfg, t, r, isNew, frame, follower, now).0, {follower.key})
  {
    var f := follower.key;
    var rec := t.tx.recs[r];
    if !isNew && HasStart(rec, f) {
      ServesSelf(t);
      ServesMore(t, t, {}, {f});
    } else if !follower.ready {
      SetFlagsServes(t, r, Degraded(rec, f), f);
    } else {
      var t1 := QueuedFor(t, r, f);
      QueuedForKeeps(t, r, frame, f);
      EnqueueServes(cfg, t1, f, StartCopy(r, frame), now);
      ServesTransitive(t, t1, Enqueue(cfg, t1, f, StartCopy(r, frame), now).0, {f});
    }
  }

  lemma CopyStartSettles(cfg: Config, t: Table, r: Ref, isNew: bool, frame: Frame, follower: Follower, now: Time) returns (fates: seq<Fate>)
    requires WF(t.tx) && ItemOk(t.tx, StartCopy(r, frame))
    ensures var (t', out) := CopyStart(cfg, t, r, isNew, frame, follower, now);
      && Passed(t, t', follower.key, AcceptedStart(cfg, t.tx, r, isNew, frame, [follower], follower.key), fates, out)
      && InTime(cfg, t.tx, t'.tx, follower.key, fates, now)
  {
    hide InTime, WF;
    var f := follower.key;
    fates := [];
    if !(!isNew && HasStart(t.tx.recs[r], f)) && !follower.ready {
      UntouchedWaits(cfg, t.tx, Put(t.tx, r, Degraded(t.tx.recs[r], f)), f, now);
    } else {
      UntouchedWaits(cfg, t.tx, t.tx, f, now);
    }
    assert follower.ready ==> [follower][0] == Follower(f, true);
    if !(!isNew && HasStart(t.tx.recs[r], f)) && follower.ready {
      QueuedForKeeps(t, r, frame, f);
      UntouchedWaits(cfg, t.tx, QueuedFor(t, r, f).tx, f, now);
      fates := EnqueueSettles(cfg, QueuedFor(t, r, f), f, StartCopy(r, frame), now);
      InTimeFrom(cfg, t.tx, QueuedFor(t, r, f).tx, Enqueue(cfg, QueuedFor(t, r, f), f, StartCopy(r, frame), now).0.tx, f, fates, now);
    }
  }

  lemma {:induction false} CopyStartToAllServes(cfg: Config, t: Table, r: Ref, isNew: bool, frame: Frame, followers: seq<Follower>, now: Time)
    requires WF(t.tx) && ItemOk(t.tx, StartCopy(r, frame))
    ensures Serves(t, CopyStartToAll(cfg, t, r, isNew, frame, followers, now).0, KeysOf(followers))
  {
    if followers == [] {
      ServesSelf(t);
    } else {
      var rest, last := followers[..|followers| - 1], followers[|followers| - 1];
      CopyStartToAllServes(cfg, t, r, isNew, frame, rest, now);
      CopyStartToAllKeeps(cfg, t, r, isNew, frame, rest, now);
      var t1 := CopyStartToAll(cfg, t, r, isNew, frame, rest, now).0;
      SplitKeys(followers);
      ServesMore(t, t1, KeysOf(rest), KeysOf(followers));
      CopyStartServes(cfg, t1, r, isNew, frame, last, now);
      var t2 := CopyStart(cfg, t1, r, isNew, frame, last, now).0;
      ServesMore(t1, t2, {last.key}, KeysOf(followers));
      ServesTransitive(t, t1, t2, KeysOf(followers));
    }
  }

  lemma {:induction false} NoStartFor(cfg: Config, t: Table, r: Ref, isNew: bool, frame: Frame, followers: seq<Follower>, now: Time, f: Backend)
    requires f !in KeysOf(followers)
    ensures FramesTo(CopyStartToAll(cfg, t, r, isNew, frame, followers, now).1, f) == []
  {
    if followers != [] {
      var rest, last := followers[..|followers| - 1], followers[|followers| - 1];
      SplitKeys(followers);
      NoStartFor(cfg, t, r, isNew, frame, rest, now, f);
      var (t1, sent) := CopyStartToAll(cfg, t, r, isNew, frame, rest, now);
      var (t2, frames) := CopyStart(cfg, t1, r, isNew, frame, last, now);
      FramesToConcat(sent, AllTo(last.key, frames), f);
      FramesToAll(last.key, frames, f);
    }
  }

  lemma {:induction false} CopyStartToAllSettles(cfg: Config, t: Table, r: Ref, isNew: bool, frame: Frame, followers: seq<Follower>, now: Time, f: Backend)
    returns (fates: seq<Fate>)
    requires WF(t.tx) && ItemOk(t.tx, StartCopy(r, frame)) && DistinctKeys(followers)
    ensures var (t', sent) := CopyStartToAll(cfg, t, r, isNew, frame, followers, now);
      Passed(t, t', f, AcceptedStart(cfg, t.tx, r, isNew, frame, followers, f), fates, FramesTo(sent, f)) && InTime(cfg, t.tx, t'.tx, f, fates, now)
  {
    hide CopyStart, WF, ItemOk, InTime;
    if followers == [] {
      fates := [];
      UntouchedWaits(cfg, t.tx, t.tx, f, now);
    } else {
      var rest, last := followers[..|followers| - 1], followers[|followers| - 1];
      CopyStartToAllKeeps(cfg, t, r, isNew, frame, rest, now);
      var (t1, sent) := CopyStartToAll(cfg, t, r, isNew, frame, rest, now);
      var (t2, frames) := CopyStart(cfg, t1, r, isNew, frame, last, now);
      if last.key != f {
        RestAcceptance(cfg, t.tx, r, isNew, frame, followers, f);
        fates := CopyStartToAllSettles(cfg, t, r, isNew, frame, rest, now, f);
        ItemGrows(t.tx, t1.tx, StartCopy(r, frame));
        CopyStartServes(cfg, t1, r, isNew, frame, last, now);
        ThenOthers(cfg, t, t1, t2, f, last.key, AcceptedStart(cfg, t.tx, r, isNew, frame, rest, f), fates, FramesTo(sent, f), now);
      } else {
        fates := LastStartSettles(cfg, t, r, isNew, frame, followers, now);
      }
      FramesToMore(sent, last.key, frames, f);
    }
  }

  /** What was done for `f` stays done when another follower is served after it. */
  lemma ThenOthers(cfg: Config, t: Table, t1: Table, t2: Table, f: Backend, g: Backend, accepted: seq<Queued>, fates: seq<Fate>, frames: seq<Frame>, now: Time)
    requires Passed(t, t1, f, accepted, fates, frames) && InTime(cfg, t.tx, t1.tx, f, fates, now) && Serves(t1, t2, {g}) && f != g
    ensures Passed(t, t2, f, accepted, fates, frames) && InTime(cfg, t.tx, t2.tx, f, fates, now)
  {
    hide Passed, InTime, Serves;
    PassedThenOthers(t, t1, t2, f, {g}, accepted, fates, frames);
    OthersInTime(cfg, t1, t2, {g}, f, now);
    InTimeTwice(cfg, t.tx, t1.tx, t2.tx, f, fates, [], now);
    assert fates + [] == fates;
  }

  lemma FramesToMore(sent: seq<Sent>, g: Backend, frames: seq<Frame>, f: Backend)
    ensures FramesTo(sent + AllTo(g, frames), f) == FramesTo(sent, f) + (if g == f then frames else [])
  {
    FramesToConcat(sent, AllTo(g, frames), f);
    FramesToAll(g, frames, f);
  }

  lemma RestAcceptance(cfg: Config, t: Tx, r: Ref, isNew: bool, frame: Frame, followers: seq<Follower>, f: Backend)
    requires followers != [] && DistinctKeys(followers) && followers[|followers| - 1].key != f
    ensures DistinctKeys(followers[..|followers| - 1])
    ensures AcceptedStart(cfg, t, r, isNew, frame, followers[..|followers| - 1], f) == AcceptedStart(cfg, t, r, isNew, frame, followers, f)
  {
    MemberSplit(followers, f);
  }

  lemma LastStartSettles(cfg: Config, t: Table, r: Ref, isNew: bool, frame: Frame, followers: seq<Follower>, now: Time) returns (fates: seq<Fate>)
    requires WF(t.tx) && ItemOk(t.tx, StartCopy(r, frame)) && followers != [] && DistinctKeys(followers)
    ensures var rest, last := followers[..|followers| - 1], followers[|followers| - 1];
      var (t1, sent) := CopyStartToAll(cfg, t, r, isNew, frame, rest, now);
      var (t2, frames) := CopyStart(cfg, t1, r, isNew, frame, last, now);
      && Passed(t, t2, last.key, AcceptedStart(cfg, t.tx, r, isNew, frame, followers, last.key), fates, frames) && FramesTo(sent, last.key) == []
      && InTime(cfg, t.tx, t2.tx, last.key, fates, now)
  {
    hide InTime, WF;
    var rest, last := followers[..|followers| - 1], followers[|followers| - 1];
    MemberSplit(followers, last.key);
    NoStartFor(cfg, t, r, isNew, frame, rest, now, last.key);
    CopyStartToAllKeeps(cfg, t, r, isNew, frame, rest, now);
    CopyStartToAllServes(cfg, t, r, isNew, frame, rest, now);
    var t1 := CopyStartToAll(cfg, t, r, isNew, frame, rest, now).0;
    ItemGrows(t.tx, t1.tx, StartCopy(r, frame));
    fates := CopyStartSettles(cfg, t1, r, isNew, frame, last, now);
    SameAcceptance(cfg, t, t1, r, isNew, frame, followers, last.key);
    NotAmong(rest, last.key);
    OthersInTime(cfg, t, t1, KeysOf(rest), last.key, now);
    InTimeFrom(cfg, t.tx, t1.tx, CopyStart(cfg, t1, r, isNew, frame, last, now).0.tx, last.key, fates, now);
  }

  lemma SameAcceptance(cfg: Config, t: Table, t1: Table, r: Ref, isNew: bool, frame: Frame, followers: seq<Follower>, f: Backend)
    requires followers != [] && DistinctKeys(followers) && followers[|followers| - 1].key == f && r in t.tx.recs
    requires Serves(t, t1, KeysOf(followers[..|followers| - 1]))
    ensures Queue(t1.tx, f) == Queue(t.tx, f)
    ensures AcceptedStart(cfg, t1.tx, r, isNew, frame, [followers[|followers| - 1]], f) == AcceptedStart(cfg, t.tx, r, isNew, frame, followers, f)
  {
    var rest, last := followers[..|followers| - 1], followers[|followers| - 1];
    MemberSplit(followers, f);
    NotAmong(rest, f);
    assert OnlyFlags(t.tx.recs[r], t1.tx.recs[r], KeysOf(rest)) && SameFlags(t.tx.recs[r], t1.tx.recs[r], f);
    assert [last][0] == last;
  }
}
