/** What every operation of the table keeps: the indexes agree with the records, and a record's identity, and the id the
    charger holds for it, never change. */
module TableInvariant {
  import opened Ocpp
  import opened TableState
  import opened TableSteps

  /** The record exists and, if the charger holds an id for it, that id leads back to it. */
  ghost predicate IsHeld(t: Tx, r: Ref) {
    r in t.recs && (t.recs[r].txId.Some? ==> t.recs[r].txId.value in t.ix.byTx && t.ix.byTx[t.recs[r].txId.value] == r)
  }

  ghost predicate RecordOk(rec: TxRecord) {
    && (rec.state.Pending? <==> rec.txId.None?)
    && (rec.conf.Some? <==> rec.txId.Some?)
    && (rec.conf.Some? ==> rec.conf.value.tx == rec.txId)
    && rec.flags.awaiting <= rec.flags.since.Keys && rec.flags.awaiting <= rec.flags.copyMsgs.Keys
    && rec.confs.Keys <= rec.backendIds.Keys
  }

  ghost predicate ItemOk(t: Tx, item: Queued) {
    match item
    case StartCopy(r, frame) => r in t.recs && IsStart(frame) && frame.payload.start == t.recs[r].key
    case IdCopy(found, frame) => QuotesTx(frame) && (found.Some? ==> found.value in t.recs && t.recs[found.value].txId == frame.payload.tx)
    case PlainCopy(frame) => frame.Call? && !IsStart(frame) && !QuotesTx(frame)
  }

  ghost predicate QueueOk(t: Tx, q: seq<Queued>) {
    forall i :: 0 <= i < |q| ==> ItemOk(t, q[i])
  }

  /** The indexes agree with the records. */
  ghost predicate IndexesOk(t: Tx) {
    && (forall k :: k in t.ix.byTx ==> IsHeld(t, t.ix.byTx[k]) && t.recs[t.ix.byTx[k]].txId == Some(k))
    && (forall p :: p in t.ix.byBackend ==> IsHeld(t, t.ix.byBackend[p]))
    && (forall k :: k in t.ix.byStart ==> IsHeld(t, t.ix.byStart[k]) && t.recs[t.ix.byStart[k]].key == k && !t.recs[t.ix.byStart[k]].state.Closed?)
    && (forall m :: m in t.ix.startMsgs ==> IsHeld(t, t.ix.startMsgs[m]) && m in t.recs[t.ix.startMsgs[m]].tries.msgs)
  }

  ghost predicate RecordsOk(t: Tx) {
    forall r :: r in t.recs ==> r < t.next && RecordOk(t.recs[r])
  }

  ghost predicate QueuesOk(t: Tx) {
    forall f :: f in t.held ==> QueueOk(t, t.held[f])
  }

  ghost predicate WF(t: Tx) {
    IndexesOk(t) && RecordsOk(t) && QueuesOk(t)
  }

  /** A record keeps its identity, and its charger id and answer once it has them. */
  ghost predicate Follows(old_: TxRecord, new_: TxRecord) {
    && new_.key == old_.key && new_.uid == old_.uid
    && (old_.txId.Some? ==> new_.txId == old_.txId && new_.conf == old_.conf)
  }

  ghost predicate Grows(t: Tx, t': Tx) {
    t.next <= t'.next && forall r :: r in t.recs ==> r in t'.recs && Follows(t.recs[r], t'.recs[r])
  }

  /** An update of a record's bookkeeping: neither its identity, its id nor its registered messages. */
  ghost predicate Bookkeeping(a: TxRecord, b: TxRecord) {
    a.key == b.key && a.uid == b.uid && a.txId == b.txId && a.conf == b.conf && a.state == b.state && a.tries.msgs <= b.tries.msgs
  }

  /** Queued copies keep meaning what they meant. */
  lemma ItemGrows(t: Tx, t': Tx, item: Queued)
    requires ItemOk(t, item) && Grows(t, t')
    ensures ItemOk(t', item)
  {
  }

  lemma QueuesGrow(t: Tx, t': Tx)
    requires QueuesOk(t) && Grows(t, t') && t'.held == t.held
    ensures QueuesOk(t')
  {
    forall f | f in t.held ensures QueueOk(t', t.held[f]) {
      forall i | 0 <= i < |t.held[f]| ensures ItemOk(t', t.held[f][i]) {
        ItemGrows(t, t', t.held[f][i]);
      }
    }
  }

  ghost predicate StaysOpen(a: TxRecord, b: TxRecord) {
    b.state.Closed? ==> a.state.Closed?
  }

  ghost predicate StaysTracked(a: TxRecord, b: TxRecord, msg: MsgId) {
    msg in a.tries.msgs ==> msg in b.tries.msgs
  }

  /** A change that neither numbers nor adds a record, and at most removes entries of the start indexes. */
  lemma IndexesEvolve(t: Tx, t': Tx)
    requires IndexesOk(t) && Grows(t, t') && t'.ix.byTx == t.ix.byTx
    requires forall r :: r in t.recs ==> t'.recs[r].txId == t.recs[r].txId
    requires forall p :: p in t'.ix.byBackend ==> (p in t.ix.byBackend && t'.ix.byBackend[p] == t.ix.byBackend[p]) || IsHeld(t, t'.ix.byBackend[p])
    requires forall k :: k in t'.ix.byStart ==> k in t.ix.byStart && t'.ix.byStart[k] == t.ix.byStart[k]
    requires forall m :: m in t'.ix.startMsgs ==> m in t.ix.startMsgs && t'.ix.startMsgs[m] == t.ix.startMsgs[m]
    requires forall k :: k in t'.ix.byStart ==> StaysOpen(Rec(t, t.ix.byStart[k]), Rec(t', t.ix.byStart[k]))
    requires forall m :: m in t'.ix.startMsgs ==> StaysTracked(Rec(t, t.ix.startMsgs[m]), Rec(t', t.ix.startMsgs[m]), m)
    ensures IndexesOk(t')
  {
  }

  lemma PutGrows(t: Tx, r: Ref, rec: TxRecord)
    requires r in t.recs && Bookkeeping(t.recs[r], rec)
    ensures Grows(t, Put(t, r, rec))
  {
  }

  lemma PutRecords(t: Tx, r: Ref, rec: TxRecord)
    requires RecordsOk(t) && r in t.recs && RecordOk(rec)
    ensures RecordsOk(Put(t, r, rec))
  {
  }

  lemma PutKeeps(t: Tx, r: Ref, rec: TxRecord)
    requires WF(t) && r in t.recs && Bookkeeping(t.recs[r], rec) && RecordOk(rec)
    ensures WF(Put(t, r, rec)) && Grows(t, Put(t, r, rec))
  {
    hide IndexesOk, RecordsOk, QueuesOk;
    PutRecords(t, r, rec);
    PutGrows(t, r, rec);
    IndexesEvolve(t, Put(t, r, rec));
    QueuesGrow(t, Put(t, r, rec));
  }

  lemma GrowsSelf(t: Tx)
    ensures Grows(t, t)
  {
  }

  /** A tracked message leads to a record. */
  lemma TrackedHeld(t: Tx, msg: MsgId)
    requires WF(t) && msg in t.ix.startMsgs
    ensures t.ix.startMsgs[msg] in t.recs && IsHeld(t, t.ix.startMsgs[msg])
  {
  }

  lemma GrowsTransitive(t0: Tx, t1: Tx, t2: Tx)
    requires Grows(t0, t1) && Grows(t1, t2)
    ensures Grows(t0, t2)
  {
  }

  // ------------------------------------------------------------------
  // The small changes keep the invariant
  // ------------------------------------------------------------------

  /** What `Collect` leaves alone, and what it takes away. */
  lemma CollectShape(t: Tx, r: Ref)
    requires r in t.recs
    ensures var t' := Collect(t, r);
      && t'.ix.byTx == t.ix.byTx && t'.ix.byBackend == t.ix.byBackend && t'.held == t.held && t'.next == t.next && t'.copied == t.copied
      && t'.recs == t.recs[r := (if Quiet(t.recs[r]) then Unregistered(t.recs[r]) else t.recs[r])]
      && (forall k :: k in t'.ix.byStart ==> k in t.ix.byStart && t'.ix.byStart[k] == t.ix.byStart[k])
      && (forall m :: m in t'.ix.startMsgs ==> m in t.ix.startMsgs && t'.ix.startMsgs[m] == t.ix.startMsgs[m])
      && (Quiet(t.recs[r]) ==> forall m :: m in t'.ix.startMsgs && t'.ix.startMsgs[m] == r ==> m !in t.recs[r].tries.msgs)
  {
    assert t.recs[r := t.recs[r]] == t.recs;
  }

  lemma CollectKeeps(t: Tx, r: Ref)
    requires WF(t) && r in t.recs
    ensures WF(Collect(t, r)) && Grows(t, Collect(t, r))
  {
    CollectShape(t, r);
    ClearedKeeps(t, Collect(t, r), r);
  }

  lemma ClearedKeeps(t: Tx, t': Tx, r: Ref)
    requires WF(t) && r in t.recs
    requires t'.ix.byTx == t.ix.byTx && t'.ix.byBackend == t.ix.byBackend && t'.held == t.held && t'.next == t.next
    requires t'.recs == t.recs[r := (if Quiet(t.recs[r]) then Unregistered(t.recs[r]) else t.recs[r])]
    requires forall k :: k in t'.ix.byStart ==> k in t.ix.byStart && t'.ix.byStart[k] == t.ix.byStart[k]
    requires forall m :: m in t'.ix.startMsgs ==> m in t.ix.startMsgs && t'.ix.startMsgs[m] == t.ix.startMsgs[m]
    requires Quiet(t.recs[r]) ==> forall m :: m in t'.ix.startMsgs && t'.ix.startMsgs[m] == r ==> m !in t.recs[r].tries.msgs
    ensures WF(t') && Grows(t, t')
  {
    hide IndexesOk, QueuesOk, RecordsOk, Grows;
    ClearedRecords(t, t', r);
    IndexesEvolve(t, t');
    QueuesGrow(t, t');
  }

  lemma ClearedRecords(t: Tx, t': Tx, r: Ref)
    requires RecordsOk(t) && r in t.recs && t'.next == t.next
    requires t'.recs == t.recs[r := (if Quiet(t.recs[r]) then Unregistered(t.recs[r]) else t.recs[r])]
    ensures RecordsOk(t') && Grows(t, t')
  {
    assert RecordOk(t.recs[r]);
  }

  lemma OpenKeeps(t: Tx, r: Ref, leader: Backend, issued: int, conf: Conf, now: Time)
    requires WF(t) && r in t.recs && t.recs[r].state.Pending?
    ensures WF(OpenRecord(t, r, leader, issued, conf, now)) && Grows(t, OpenRecord(t, r, leader, issued, conf, now))
  {
    hide WF, Choose;
    ChooseUnused(t, issued);
    FoundOk(t, r);
    var rec := t.recs[r];
    var id := Choose(t, issued);
    var rec1 := rec.(txId := Some(id), state := Open, conf := Some(conf.(tx := Some(id))), touched := now,
                     backendIds := rec.backendIds[leader := issued], flags := Heard(rec.flags, leader));
    TakeIdKeeps(t, r, id, rec1);
    var t1 := Put(t, r, rec1).(ix := t.ix.(byTx := t.ix.byTx[id := r]));
    NumberKeeps(t1, BackendTx(leader, issued), r);
    GrowsTransitive(t, t1, OpenRecord(t, r, leader, issued, conf, now));
  }

  /** A pending record takes an id the charger does not hold yet. */
  lemma TakeIdKeeps(t: Tx, r: Ref, id: int, rec: TxRecord)
    requires WF(t) && r in t.recs && t.recs[r].state.Pending? && id !in t.ix.byTx
    requires RecordOk(rec) && rec.txId == Some(id) && rec.state.Open?
    requires rec.key == t.recs[r].key && rec.uid == t.recs[r].uid && rec.tries == t.recs[r].tries
    ensures var t' := Put(t, r, rec).(ix := t.ix.(byTx := t.ix.byTx[id := r])); WF(t') && Grows(t, t') && IsHeld(t', r)
  {
    hide IndexesOk, QueuesOk;
    var t' := Put(t, r, rec).(ix := t.ix.(byTx := t.ix.byTx[id := r]));
    assert RecordOk(t.recs[r]);
    TakeIdIndexes(t, r, id, rec);
    QueuesGrow(t, t');
  }

  lemma TakeIdIndexes(t: Tx, r: Ref, id: int, rec: TxRecord)
    requires IndexesOk(t) && r in t.recs && t.recs[r].txId.None? && id !in t.ix.byTx
    requires rec.txId == Some(id) && rec.state.Open? && rec.key == t.recs[r].key && rec.tries == t.recs[r].tries
    ensures IndexesOk(Put(t, r, rec).(ix := t.ix.(byTx := t.ix.byTx[id := r])))
  {
    var t' := Put(t, r, rec).(ix := t.ix.(byTx := t.ix.byTx[id := r]));
    forall x | IsHeld(t, x) ensures IsHeld(t', x) {}
  }

  /** An id the table picks for the charger is never one the charger already holds. */
  lemma ChooseUnused(t: Tx, issued: int)
    ensures Choose(t, issued) !in t.ix.byTx
  {
  }

  /** The one next to the largest of all the charger's ids and backends' numbers; when that leaves 31 bits, the smallest positive one
      that the charger does not hold. */
  ghost predicate IsInvented(t: Tx, id: int) {
    if forall k: int :: IsInUse(t, k) ==> k < MAX_INT32 then IsInUse(t, id - 1) && forall k: int :: IsInUse(t, k) ==> k < id
    else id >= 1 && id !in t.ix.byTx && forall j :: 1 <= j < id ==> j in t.ix.byTx
  }

  /** The charger holds the id `k`, or a backend issued that number. */
  ghost predicate IsInUse(t: Tx, k: int) {
    k in t.ix.byTx || exists b: Backend :: BackendTx(b, k) in t.ix.byBackend
  }

  lemma InventedIs(t: Tx, issued: int)
    requires issued in t.ix.byTx
    ensures IsInvented(t, Choose(t, issued))
  {
    forall k: int ensures IsInUse(t, k) <==> k in KnownIds(t) {
      InUse(t, k);
    }
    hide KnownIds, IsInUse;
    assert issued in KnownIds(t) by {
      InUse(t, issued);
    }
  }

  lemma InUse(t: Tx, k: int)
    ensures IsInUse(t, k) <==> k in KnownIds(t)
    ensures k in t.ix.byTx ==> IsInUse(t, k)
  {
    if k in KnownIds(t) && k !in t.ix.byTx {
      var p :| p in t.ix.byBackend && p.id == k;
      assert BackendTx(p.backend, k) in t.ix.byBackend;
    }
  }

  lemma LearnIdKeeps(t: Tx, r: Ref, b: Backend, frame: Frame)
    requires WF(t) && IsHeld(t, r)
    ensures WF(LearnId(t, r, b, frame)) && Grows(t, LearnId(t, r, b, frame))
  {
    hide WF;
    var rec := t.recs[r];
    FoundOk(t, r);
    if frame.Result? && frame.conf.tx.Some? {
      var id := frame.conf.tx.value;
      var rec1 := rec.(backendIds := rec.backendIds[b := id], confs := rec.confs[b := frame.conf], flags := Heard(rec.flags, b));
      PutKeeps(t, r, rec1);
      NumberKeeps(Put(t, r, rec1), BackendTx(b, id), r);
      GrowsTransitive(t, Put(t, r, rec1), LearnId(t, r, b, frame));
    } else {
      PutKeeps(t, r, rec.(flags := Failed(rec.flags, b)));
    }
  }

  lemma FoundOk(t: Tx, r: Ref)
    requires WF(t) && r in t.recs
    ensures RecordOk(t.recs[r]) && r < t.next
  {
  }

  /** A backend's number now leads to a record the table holds. */
  lemma NumberKeeps(t: Tx, p: BackendTx, r: Ref)
    requires WF(t) && IsHeld(t, r)
    ensures var t' := t.(ix := t.ix.(byBackend := t.ix.byBackend[p := r])); WF(t') && Grows(t, t')
  {
    hide IndexesOk, QueuesOk;
    var t' := t.(ix := t.ix.(byBackend := t.ix.byBackend[p := r]));
    IndexesEvolve(t, t');
    QueuesGrow(t, t');
  }

  lemma LearnKeeps(t: Tx, r: Ref, b: Backend, frame: Frame)
    requires WF(t) && IsHeld(t, r)
    ensures WF(Learn(t, r, b, frame)) && Grows(t, Learn(t, r, b, frame))
  {
    LearnIdKeeps(t, r, b, frame);
    var t1 := LearnId(t, r, b, frame);
    CollectKeeps(t1, r);
    GrowsTransitive(t, t1, Collect(t1, r));
  }

  lemma ForgetKeeps(t: Tx, dead: set<Ref>)
    requires WF(t)
    ensures WF(ForgetAll(t, dead)) && Grows(t, ForgetAll(t, dead))
  {
    hide IndexesOk, QueuesOk, ForgetAll;
    ForgetIndexes(t, dead);
    ForgetShape(t, dead);
    QueuesGrow(t, ForgetAll(t, dead));
  }

  lemma ForgetShape(t: Tx, dead: set<Ref>)
    ensures ForgetAll(t, dead) == t.(ix := ForgetAll(t, dead).ix)
  {
  }

  lemma ForgetIndexes(t: Tx, dead: set<Ref>)
    requires IndexesOk(t)
    ensures IndexesOk(ForgetAll(t, dead))
  {
    var t' := ForgetAll(t, dead);
    forall x | IsHeld(t, x) && x !in dead ensures IsHeld(t', x) {}
  }

  lemma ClosedKeeps(t: Tx, r: Ref, now: Time)
    requires WF(t) && r in t.recs && t.recs[r].txId.Some?
    ensures WF(ClosedRecord(t, r, now)) && Grows(t, ClosedRecord(t, r, now)) && r in ClosedRecord(t, r, now).recs
  {
    hide IndexesOk, QueuesOk;
    var t' := ClosedRecord(t, r, now);
    assert RecordOk(t.recs[r]);
    assert RecordOk(t'.recs[r]);
    assert RecordsOk(t');
    CloseIndexes(t, r, now);
    QueuesGrow(t, t');
  }

  lemma CloseKeeps(t: Tx, r: Ref, now: Time)
    requires WF(t) && r in t.recs && t.recs[r].txId.Some?
    ensures WF(CloseRecord(t, r, now)) && Grows(t, CloseRecord(t, r, now))
  {
    hide WF, ClosedRecord, Collect;
    ClosedKeeps(t, r, now);
    CollectKeeps(ClosedRecord(t, r, now), r);
    GrowsTransitive(t, ClosedRecord(t, r, now), CloseRecord(t, r, now));
  }

  lemma CloseIndexes(t: Tx, r: Ref, now: Time)
    requires IndexesOk(t) && r in t.recs && t.recs[r].txId.Some?
    ensures IndexesOk(ClosedRecord(t, r, now))
  {
    IndexesEvolve(t, ClosedRecord(t, r, now));
  }

  lemma GiveUpKeeps(t: Tx, rs: set<Ref>)
    requires WF(t)
    ensures WF(GiveUpAll(t, rs)) && Grows(t, GiveUpAll(t, rs))
  {
    hide IndexesOk, QueuesOk;
    var t' := GiveUpAll(t, rs);
    assert forall r :: r in t.recs ==> RecordOk(t.recs[r]);
    assert RecordsOk(t');
    GiveUpIndexes(t, rs);
    QueuesGrow(t, t');
  }

  lemma GiveUpIndexes(t: Tx, rs: set<Ref>)
    requires IndexesOk(t)
    ensures IndexesOk(GiveUpAll(t, rs))
  {
    hide IndexesOk;
    IndexesEvolve(t, GiveUpAll(t, rs));
  }

  lemma DemotedRecords(t: Tx, b: Backend)
    requires RecordsOk(t)
    ensures RecordsOk(DropQueue(t, b)) && Grows(t, DropQueue(t, b))
    ensures forall r :: r in t.recs ==> Bookkeeping(t.recs[r], DropQueue(t, b).recs[r])
  {
    assert forall r :: r in t.recs ==> RecordOk(t.recs[r]);
  }

  lemma DropQueueKeeps(t: Tx, b: Backend)
    requires WF(t)
    ensures WF(DropQueue(t, b)) && Grows(t, DropQueue(t, b))
  {
    hide IndexesOk;
    var t' := DropQueue(t, b);
    DemotedRecords(t, b);
    IndexesEvolve(t, t');
    QueuesGrow(t, t.(recs := t'.recs));
  }

  lemma SetQueueKeeps(t: Tx, f: Backend, q: seq<Queued>)
    requires WF(t) && QueueOk(t, q)
    ensures WF(SetQueue(t, f, q)) && Grows(t, SetQueue(t, f, q))
  {
    hide IndexesOk;
    var t' := SetQueue(t, f, q);
    IndexesEvolve(t, t');
    forall g | g in t'.held ensures QueueOk(t', t'.held[g]) {
      var p := t'.held[g];
      assert QueueOk(t, p);
      forall i | 0 <= i < |p| ensures ItemOk(t', p[i]) {
        ItemGrows(t, t', p[i]);
      }
    }
  }

  lemma CopiedKeeps(t: Tx, copied: seq<Copy>)
    requires WF(t)
    ensures WF(t.(copied := copied)) && Grows(t, t.(copied := copied))
  {
    hide IndexesOk, QueuesOk;
    IndexesEvolve(t, t.(copied := copied));
    QueuesGrow(t, t.(copied := copied));
  }

  // ------------------------------------------------------------------
  // The operations keep the invariant
  // ------------------------------------------------------------------

  lemma HeadStepKeeps(cfg: Config, t: Table, f: Backend, item: Queued, now: Time)
    requires WF(t.tx) && ItemOk(t.tx, item)
    ensures var h := HeadStep(cfg, t, f, item, now);
      h.Leaves? ==> WF(h.t.tx) && Grows(t.tx, h.t.tx)
  {
    var h := HeadStep(cfg, t, f, item, now);
    if h.Leaves? {
      match item
      case PlainCopy(frame) =>
        CopiedKeeps(t.tx, h.t.tx.copied);
      case StartCopy(r, frame) =>
        var rec := t.tx.recs[r];
        assert RecordOk(rec);
        var rec1 := StartWentTo(rec, f, IdOf(frame), now);
        PutKeeps(t.tx, r, rec1);
        CopiedKeeps(Put(t.tx, r, rec1), h.t.tx.copied);
      case IdCopy(found, frame) =>
        if found.Some? {
          var rec := t.tx.recs[found.value];
          assert RecordOk(rec);
          if f in rec.backendIds {
            CopiedKeeps(t.tx, h.t.tx.copied);
          } else {
            PutKeeps(t.tx, found.value, GivenUpOn(rec, f));
          }
        }
    }
  }

  /** The table after the head of `f`'s queue left. */
  function Popped(h: Head, f: Backend, q: seq<Queued>): Table
    requires h.Leaves? && q != []
  {
    h.t.(tx := SetQueue(h.t.tx, f, q[1..]))
  }

  lemma PopKeeps(cfg: Config, t: Table, f: Backend, now: Time)
    requires WF(t.tx) && Queue(t.tx, f) != []
    ensures ItemOk(t.tx, Queue(t.tx, f)[0])
    ensures var h := HeadStep(cfg, t, f, Queue(t.tx, f)[0], now);
      h.Leaves? ==> WF(Popped(h, f, Queue(t.tx, f)).tx) && Grows(t.tx, Popped(h, f, Queue(t.tx, f)).tx)
  {
    var q := Queue(t.tx, f);
    assert QueueOk(t.tx, q) && ItemOk(t.tx, q[0]);
    HeadStepKeeps(cfg, t, f, q[0], now);
    var h := HeadStep(cfg, t, f, q[0], now);
    if h.Leaves? {
      assert QueueOk(h.t.tx, q[1..]) by {
        forall i | 0 <= i < |q[1..]| ensures ItemOk(h.t.tx, q[1..][i]) {
          ItemGrows(t.tx, h.t.tx, q[i + 1]);
        }
      }
      SetQueueKeeps(h.t.tx, f, q[1..]);
    }
  }

  lemma {:induction false} DrainKeeps(cfg: Config, t: Table, f: Backend, now: Time)
    requires WF(t.tx)
    ensures WF(Drain(cfg, t, f, now).0.tx) && Grows(t.tx, Drain(cfg, t, f, now).0.tx)
    decreases |Queue(t.tx, f)|
  {
    var q := Queue(t.tx, f);
    if q != [] {
      PopKeeps(cfg, t, f, now);
      var h := HeadStep(cfg, t, f, q[0], now);
      if h.Leaves? {
        DrainKeeps(cfg, Popped(h, f, q), f, now);
      }
    }
  }

  lemma EnqueueKeeps(cfg: Config, t: Table, f: Backend, item: Queued, now: Time)
    requires WF(t.tx) && ItemOk(t.tx, item)
    ensures WF(Enqueue(cfg, t, f, item, now).0.tx) && Grows(t.tx, Enqueue(cfg, t, f, item, now).0.tx)
  {
    hide Drain;
    var q := Queue(t.tx, f);
    if |q| >= cfg.maxHeld {
      SetQueueKeeps(t.tx, f, q);
      var t1 := SetQueue(t.tx, f, q);
      if ConcernsTx(item) {
        var rec := t1.recs[RefOf(item)];
        assert RecordOk(rec);
        PutKeeps(t1, RefOf(item), Refused(rec, f));
      }
    } else {
      assert QueueOk(t.tx, q + [item]);
      SetQueueKeeps(t.tx, f, q + [item]);
      DrainKeeps(cfg, t.(tx := SetQueue(t.tx, f, q + [item])), f, now);
    }
  }

  lemma {:induction false} CopyToAllKeeps(cfg: Config, t: Table, item: Queued, followers: seq<Follower>, now: Time)
    requires WF(t.tx) && ItemOk(t.tx, item)
    ensures WF(CopyToAll(cfg, t, item, followers, now).0.tx) && Grows(t.tx, CopyToAll(cfg, t, item, followers, now).0.tx)
  {
    if followers != [] {
      var rest, last := followers[..|followers| - 1], followers[|followers| - 1];
      CopyToAllKeeps(cfg, t, item, rest, now);
      var t1 := CopyToAll(cfg, t, item, rest, now).0;
      ItemGrows(t.tx, t1.tx, item);
      EnqueueKeeps(cfg, t1, last.key, item, now);
    }
  }

  lemma MarkedOk(rec: TxRecord, f: Backend)
    requires RecordOk(rec)
    ensures RecordOk(Degraded(rec, f)) && RecordOk(QueuedAt(rec, f))
  {
  }

  lemma CopyStartKeeps(cfg: Config, t: Table, r: Ref, isNew: bool, frame: Frame, follower: Follower, now: Time)
    requires WF(t.tx) && ItemOk(t.tx, StartCopy(r, frame))
    ensures WF(CopyStart(cfg, t, r, isNew, frame, follower, now).0.tx)
    ensures Grows(t.tx, CopyStart(cfg, t, r, isNew, frame, follower, now).0.tx)
  {
    var rec := t.tx.recs[r];
    MarkedOk(rec, follower.key);
    if !isNew && HasStart(rec, follower.key) {
    } else if !follower.ready {
      PutKeeps(t.tx, r, Degraded(rec, follower.key));
    } else {
      var rec1 := QueuedAt(rec, follower.key);
      PutKeeps(t.tx, r, rec1);
      var t1 := t.(tx := Put(t.tx, r, rec1));
      ItemGrows(t.tx, t1.tx, StartCopy(r, frame));
      EnqueueKeeps(cfg, t1, follower.key, StartCopy(r, frame), now);
    }
  }

  lemma {:induction false} CopyStartToAllKeeps(cfg: Config, t: Table, r: Ref, isNew: bool, frame: Frame, followers: seq<Follower>, now: Time)
    requires WF(t.tx) && ItemOk(t.tx, StartCopy(r, frame))
    ensures WF(CopyStartToAll(cfg, t, r, isNew, frame, followers, now).0.tx)
    ensures Grows(t.tx, CopyStartToAll(cfg, t, r, isNew, frame, followers, now).0.tx)
  {
    if followers != [] {
      var rest := followers[..|followers| - 1];
      CopyStartToAllKeeps(cfg, t, r, isNew, frame, rest, now);
      var t1 := CopyStartToAll(cfg, t, r, isNew, frame, rest, now).0;
      CopyStartKeeps(cfg, t1, r, isNew, frame, followers[|followers| - 1], now);
    }
  }

  lemma AttemptKeeps(cfg: Config, t: Tx, known: Option<Ref>, key: StartKey, msg: MsgId, now: Time)
    requires WF(t) && (known.Some? ==> IsHeld(t, known.value))
    requires known.None? && cfg.dedupe ==> key !in t.ix.byStart
    ensures var (t', r) := Attempt(cfg, t, known, key, msg, now);
      WF(t') && Grows(t, t') && IsHeld(t', r) && (known.None? ==> t'.recs[r].key == key) && (known.Some? ==> r == known.value)
  {
    hide IndexesOk, QueuesOk;
    var (t', r) := Attempt(cfg, t, known, key, msg, now);
    assert forall x :: x in t.recs ==> RecordOk(t.recs[x]);
    AttemptIndexes(cfg, t, known, key, msg, now);
    QueuesGrow(t, t');
  }

  lemma AttemptIndexes(cfg: Config, t: Tx, known: Option<Ref>, key: StartKey, msg: MsgId, now: Time)
    requires IndexesOk(t) && RecordsOk(t) && (known.Some? ==> IsHeld(t, known.value))
    requires known.None? && cfg.dedupe ==> key !in t.ix.byStart
    ensures var (t', r) := Attempt(cfg, t, known, key, msg, now); IndexesOk(t') && Grows(t, t') && IsHeld(t', r)
  {
    hide IndexesOk;
    var (t', r) := Attempt(cfg, t, known, key, msg, now);
    assert forall x :: x in t.recs ==> x < t.next;
    assert Grows(t, t');
    AttemptEvolves(t, t', r, key, msg);
  }

  lemma AttemptEvolves(t: Tx, t': Tx, r: Ref, key: StartKey, msg: MsgId)
    requires IndexesOk(t) && Grows(t, t') && t'.ix.byTx == t.ix.byTx && t'.ix.byBackend == t.ix.byBackend
    requires forall x :: x in t.recs ==> Bookkeeping(t.recs[x], t'.recs[x])
    requires r in t'.recs && (if r in t.recs then IsHeld(t, r) else t'.recs[r].txId.None? && t'.recs[r].key == key && !t'.recs[r].state.Closed?)
    requires t'.ix.byStart == t.ix.byStart || (r !in t.recs && t'.ix.byStart == t.ix.byStart[key := r])
    requires t'.ix.startMsgs == t.ix.startMsgs[msg := r] && msg in t'.recs[r].tries.msgs
    ensures IndexesOk(t') && IsHeld(t', r)
  {
    forall x | IsHeld(t, x) ensures IsHeld(t', x) {}
  }

  lemma StartCaseOk(cfg: Config, t: Tx, leader: Backend, key: StartKey, now: Time)
    requires WF(t)
    ensures match StartCaseOf(cfg, t, leader, key, now)
      case Forwarded(known) => (known.Some? ==> IsHeld(t, known.value) && t.recs[known.value].key == key && key in t.ix.byStart)
                            && (known.None? && cfg.dedupe ==> key !in t.ix.byStart)
      case Again(r) => IsHeld(t, r) && t.recs[r].txId.Some?
      case Numbered(r) => IsHeld(t, r) && t.recs[r].state.Pending? && leader in t.recs[r].backendIds && leader in t.recs[r].confs
      case Copied(r) => IsHeld(t, r) && t.recs[r].state.Pending? && leader in t.recs[r].flags.copyMsgs
      case Busy(r) => IsHeld(t, r) && t.recs[r].tries.sent != {}
  {
    if cfg.dedupe && key in t.ix.byStart {
      assert RecordOk(t.recs[t.ix.byStart[key]]);
    }
  }

  lemma ChargerStartKeeps(cfg: Config, t: Table, frame: Frame, leader: Backend, followers: seq<Follower>, now: Time)
    requires WF(t.tx) && IsStart(frame)
    ensures WF(ChargerStart(cfg, t, frame, leader, followers, now).0.tx)
    ensures Grows(t.tx, ChargerStart(cfg, t, frame, leader, followers, now).0.tx)
  {
    var key := frame.payload.start;
    StartCaseOk(cfg, t.tx, leader, key, now);
    match StartCaseOf(cfg, t.tx, leader, key, now)
    case Again(r) =>
    case Numbered(r) =>
      OpenKeeps(t.tx, r, leader, t.tx.recs[r].backendIds[leader], t.tx.recs[r].confs[leader], now);
    case Copied(r) =>
      ParkKeeps(t.tx, r, leader, frame.id, now);
    case Busy(r) =>
      ParkKeeps(t.tx, r, leader, frame.id, now);
    case Forwarded(known) =>
      AttemptKeeps(cfg, t.tx, known, key, frame.id, now);
      var (tx1, r) := Attempt(cfg, t.tx, known, key, frame.id, now);
      var t1 := Table(tx1, StartFrame(t.sp, leader, frame, true, now).0);
      CopyStartToAllKeeps(cfg, t1, r, known.None?, frame, followers, now);
      GrowsTransitive(t.tx, tx1, CopyStartToAll(cfg, t1, r, known.None?, frame, followers, now).0.tx);
  }

  lemma ParkKeeps(t: Tx, r: Ref, leader: Backend, msg: MsgId, now: Time)
    requires WF(t) && r in t.recs
    ensures WF(Park(t, r, msg)) && Grows(t, Park(t, r, msg))
    ensures WF(Park(AwaitCopy(t, r, leader, now), r, msg)) && Grows(t, Park(AwaitCopy(t, r, leader, now), r, msg))
  {
    var rec := t.recs[r];
    assert RecordOk(rec);
    PutKeeps(t, r, Park(t, r, msg).recs[r]);
    var t1 := AwaitCopy(t, r, leader, now);
    PutKeeps(t, r, t1.recs[r]);
    PutKeeps(t1, r, Park(t1, r, msg).recs[r]);
    GrowsTransitive(t, t1, Park(t1, r, msg));
  }

  lemma ChargerCallKeeps(cfg: Config, t: Table, frame: Frame, leader: Backend, followers: seq<Follower>, now: Time)
    requires WF(t.tx) && frame.Call? && !IsStart(frame)
    ensures WF(ChargerCall(cfg, t, frame, leader, followers, now).0.tx)
    ensures Grows(t.tx, ChargerCall(cfg, t, frame, leader, followers, now).0.tx)
  {
    if QuotesTx(frame) {
      var found := Find(t.tx.ix.byTx, frame.payload.tx.value);
      QuotedKeeps(t.tx, frame, leader, found, now);
      var tx2 := Quoted(t.tx, frame, leader, found, now);
      CopyToAllKeeps(cfg, t.(tx := tx2), IdCopy(found, frame), followers, now);
      GrowsTransitive(t.tx, tx2, ChargerCall(cfg, t, frame, leader, followers, now).0.tx);
    } else {
      CopyToAllKeeps(cfg, t, PlainCopy(frame), followers, now);
    }
  }

  /** The record part of a charger CALL that quotes a transaction. */
  function Quoted(t: Tx, frame: Frame, leader: Backend, found: Option<Ref>, now: Time): Tx {
    var tx1 := LeaderFrame(Touch(t, found, now), leader, frame, found).0;
    if frame.Call? && frame.action.StopTransaction? && found.Some? && !Rec(tx1, found.value).state.Closed?
    then CloseRecord(tx1, found.value, now) else tx1
  }

  /** An id the charger holds leads to a record with that id. */
  lemma HeldUnder(t: Tx, k: int)
    requires IndexesOk(t) && k in t.ix.byTx
    ensures IsHeld(t, t.ix.byTx[k]) && t.recs[t.ix.byTx[k]].txId == Some(k)
  {
  }

  /** The record after a frame used it: touched, and given up on for a leader that has no id for it. */
  function Marked(t: Tx, leader: Backend, r: Ref, now: Time): Tx {
    var rec := Rec(t, r);
    Put(t, r, rec.(touched := now, flags := rec.flags.(degraded := if leader in rec.backendIds then rec.flags.degraded else rec.flags.degraded + {leader})))
  }

  lemma QuotedIsMarked(t: Tx, frame: Frame, leader: Backend, r: Ref, now: Time)
    requires r in t.recs && QuotesTx(frame)
    ensures Quoted(t, frame, leader, Some(r), now) ==
            if frame.action.StopTransaction? && !t.recs[r].state.Closed? then CloseRecord(Marked(t, leader, r, now), r, now)
            else Marked(t, leader, r, now)
  {
    var t1 := Touch(t, Some(r), now);
    assert LeaderFrame(t1, leader, frame, Some(r)).0 == Marked(t, leader, r, now) by {
      assert t.recs[r := t1.recs[r]][r := Marked(t, leader, r, now).recs[r]] == t.recs[r := Marked(t, leader, r, now).recs[r]];
    }
  }

  lemma QuotedKeeps(t: Tx, frame: Frame, leader: Backend, found: Option<Ref>, now: Time)
    requires WF(t) && QuotesTx(frame) && found == Find(t.ix.byTx, frame.payload.tx.value)
    ensures WF(Quoted(t, frame, leader, found, now)) && Grows(t, Quoted(t, frame, leader, found, now))
    ensures ItemOk(Quoted(t, frame, leader, found, now), IdCopy(found, frame))
  {
    if found.Some? {
      var r := found.value;
      HeldUnder(t, frame.payload.tx.value);
      QuotedIsMarked(t, frame, leader, r, now);
      MarkedKeeps(t, leader, r, now);
      var t1 := Marked(t, leader, r, now);
      if frame.action.StopTransaction? && !t.recs[r].state.Closed? {
        CloseKeeps(t1, r, now);
        GrowsTransitive(t, t1, CloseRecord(t1, r, now));
      }
      ItemGrows(t, Quoted(t, frame, leader, found, now), IdCopy(found, frame));
    }
  }

  lemma MarkedKeeps(t: Tx, leader: Backend, r: Ref, now: Time)
    requires WF(t) && r in t.recs
    ensures WF(Marked(t, leader, r, now)) && Grows(t, Marked(t, leader, r, now))
  {
    assert RecordOk(t.recs[r]);
    PutKeeps(t, r, Marked(t, leader, r, now).recs[r]);
  }

  lemma FromChargerKeeps(cfg: Config, t: Table, frame: Frame, leader: Backend, followers: seq<Follower>, now: Time, wall: Time)
    requires WF(t.tx)
    ensures WF(FromCharger(cfg, t, frame, leader, followers, now, wall).0.tx)
    ensures Grows(t.tx, FromCharger(cfg, t, frame, leader, followers, now, wall).0.tx)
  {
    hide WF, Grows, ForgetAll, ChargerStart, ChargerCall;
    ForgetKeeps(t.tx, Expired(cfg, t.tx, now));
    var t1 := Prune(cfg, t, now, wall);
    if IsStart(frame) {
      ChargerStartKeeps(cfg, t1, frame, leader, followers, now);
      GrowsTransitive(t.tx, t1.tx, ChargerStart(cfg, t1, frame, leader, followers, now).0.tx);
    } else if frame.Call? {
      ChargerCallKeeps(cfg, t1, frame, leader, followers, now);
      GrowsTransitive(t.tx, t1.tx, ChargerCall(cfg, t1, frame, leader, followers, now).0.tx);
    }
  }

  lemma AttemptFailedKeeps(t: Tx, r: Ref, msg: MsgId, detail: string)
    requires WF(t) && r in t.recs
    ensures WF(AttemptFailed(t, r, msg, detail).0) && Grows(t, AttemptFailed(t, r, msg, detail).0)
  {
    assert RecordOk(t.recs[r]);
    var t1 := DropAttempt(t, r, msg);
    PutKeeps(t, r, t1.recs[r]);
    CollectKeeps(t1, r);
    GrowsTransitive(t, t1, Collect(t1, r));
  }

  lemma LeaderStartedKeeps(t: Tx, r: Ref, leader: Backend, frame: Frame, now: Time)
    requires WF(t) && r in t.recs && t.recs[r].state.Pending? && frame.Result?
    ensures WF(LeaderStarted(t, r, leader, frame, now).0) && Grows(t, LeaderStarted(t, r, leader, frame, now).0)
  {
    if frame.conf.tx.None? {
      AttemptFailedKeeps(t, r, frame.id, NO_ID);
    } else {
      OpenKeeps(t, r, leader, frame.conf.tx.value, frame.conf, now);
      var t1 := OpenRecord(t, r, leader, frame.conf.tx.value, frame.conf, now);
      var rec := t1.recs[r];
      AnsweredKeeps(t1, r, frame.id);
      GrowsTransitive(t, t1, Collect(Put(t1, r, WithoutRetries(rec, frame.id)), r));
    }
  }

  lemma AnsweredKeeps(t: Tx, r: Ref, msg: MsgId)
    requires WF(t) && r in t.recs
    ensures var t' := Collect(Put(t, r, WithoutRetries(t.recs[r], msg)), r); WF(t') && Grows(t, t')
    ensures var t' := Collect(Put(t, r, WithoutAttempt(t.recs[r], msg)), r); WF(t') && Grows(t, t')
  {
    var rec := t.recs[r];
    assert RecordOk(rec);
    PutCollectKeeps(t, r, WithoutRetries(rec, msg));
    PutCollectKeeps(t, r, WithoutAttempt(rec, msg));
  }

  lemma PutCollectKeeps(t: Tx, r: Ref, rec: TxRecord)
    requires WF(t) && r in t.recs && Bookkeeping(t.recs[r], rec) && RecordOk(rec)
    ensures WF(Collect(Put(t, r, rec), r)) && Grows(t, Collect(Put(t, r, rec), r))
  {
    PutKeeps(t, r, rec);
    CollectKeeps(Put(t, r, rec), r);
    GrowsTransitive(t, Put(t, r, rec), Collect(Put(t, r, rec), r));
  }

  lemma StrayAnswerKeeps(t: Tx, leader: Backend, frame: Frame)
    requires WF(t) && (frame.Result? || frame.Error?)
    ensures WF(StrayAnswer(t, leader, frame).0) && Grows(t, StrayAnswer(t, leader, frame).0)
  {
    var log := Without(t.copied, Copy(leader, frame.id));
    if AnswersCopy(t, leader, frame.id) {
      var r := t.ix.startMsgs[frame.id];
      LearnKeeps(t, r, leader, frame);
      CopiedKeeps(Learn(t, r, leader, frame), log);
      GrowsTransitive(t, Learn(t, r, leader, frame), Learn(t, r, leader, frame).(copied := log));
    } else {
      CopiedKeeps(t, log);
    }
  }

  lemma OwedAnswerKeeps(t: Tx, r: Ref, leader: Backend, frame: Frame, now: Time)
    requires WF(t) && (frame.Result? || frame.Error?) && IsHeld(t, r)
    ensures WF(OwedAnswer(t, r, leader, frame, now).0) && Grows(t, OwedAnswer(t, r, leader, frame, now).0)
  {
    if !t.recs[r].state.Pending? {
      AnsweredKeeps(t, r, frame.id);
    } else if frame.Result? {
      LeaderStartedKeeps(t, r, leader, frame, now);
    } else {
      AttemptFailedKeeps(t, r, frame.id, frame.detail);
    }
  }

  lemma LeaderAnswerKeeps(t: Tx, leader: Backend, frame: Frame, now: Time)
    requires WF(t) && (frame.Result? || frame.Error?)
    ensures WF(LeaderAnswer(t, leader, frame, now).0) && Grows(t, LeaderAnswer(t, leader, frame, now).0)
  {
    if IsOwed(t, frame.id) {
      OwedAnswerKeeps(t, t.ix.startMsgs[frame.id], leader, frame, now);
    } else {
      StrayAnswerKeeps(t, leader, frame);
    }
  }

  lemma FromFollowerKeeps(cfg: Config, t: Table, follower: Backend, frame: Frame, now: Time)
    requires WF(t.tx)
    ensures WF(FromFollower(cfg, t, follower, frame, now).0.tx) && Grows(t.tx, FromFollower(cfg, t, follower, frame, now).0.tx)
  {
    hide WF, IsHeld, Learn, Drain, Grows;
    GrowsSelf(t.tx);
    if frame.Result? || frame.Error? {
      var tx1 := t.tx.(copied := Without(t.tx.copied, Copy(follower, frame.id)));
      CopiedKeeps(t.tx, tx1.copied);
      if frame.id in tx1.ix.startMsgs {
        TrackedHeld(tx1, frame.id);
        var r := tx1.ix.startMsgs[frame.id];
        LearnKeeps(tx1, r, follower, frame);
        var tx2 := Learn(tx1, r, follower, frame);
        DrainKeeps(cfg, t.(tx := tx2), follower, now);
        GrowsTransitive(t.tx, tx1, tx2);
        GrowsTransitive(t.tx, tx2, Drain(cfg, t.(tx := tx2), follower, now).0.tx);
      }
    }
  }

  lemma {:induction false} ExpireHoldsKeeps(cfg: Config, t: Table, order: seq<Backend>, now: Time)
    requires WF(t.tx)
    ensures WF(ExpireHolds(cfg, t, order, now).0.tx) && Grows(t.tx, ExpireHolds(cfg, t, order, now).0.tx)
  {
    if order != [] {
      ExpireHoldsKeeps(cfg, t, order[..|order| - 1], now);
      var t1 := ExpireHolds(cfg, t, order[..|order| - 1], now).0;
      DrainKeeps(cfg, t1, order[|order| - 1], now);
      GrowsTransitive(t.tx, t1.tx, Drain(cfg, t1, order[|order| - 1], now).0.tx);
    }
  }

  lemma LeaderChangedKeeps(t: Tx, newLeader: Option<Backend>)
    requires WF(t)
    ensures WF(LeaderChanged(t, newLeader)) && Grows(t, LeaderChanged(t, newLeader))
  {
    GiveUpKeeps(t, Waiting(t));
    var t1 := GiveUpAll(t, Waiting(t));
    if newLeader.Some? {
      DropQueueKeeps(t1, newLeader.value);
      GrowsTransitive(t, t1, DropQueue(t1, newLeader.value));
    }
  }

  lemma FromLeaderKeeps(t: Table, leader: Backend, frame: Frame, now: Time)
    requires WF(t.tx)
    ensures WF(FromLeader(t, leader, frame, now).0.tx) && Grows(t.tx, FromLeader(t, leader, frame, now).0.tx)
  {
    hide WF, LeaderCall, LeaderAnswer;
    if frame.Result? || frame.Error? {
      LeaderAnswerKeeps(t.tx, leader, frame, now);
    }
  }

  lemma StartFailedKeeps(t: Tx, msg: MsgId)
    requires WF(t)
    ensures WF(StartFailed(t, msg).0) && Grows(t, StartFailed(t, msg).0)
  {
    if msg in t.ix.startMsgs {
      AttemptFailedKeeps(t, t.ix.startMsgs[msg], msg, UNAVAILABLE);
    }
  }

  /** Every step keeps the invariant, and every record's identity, charger id and answer. */
  lemma StepKeeps(cfg: Config, t: Table, e: Event)
    requires WF(t.tx)
    ensures WF(Step(cfg, t, e).0.tx) && Grows(t.tx, Step(cfg, t, e).0.tx)
  {
    hide WF, Grows, FromCharger, FromLeader, FromFollower, LeaderChanged, ExpireHolds, StartFailed, NoteCommand;
    GrowsSelf(t.tx);
    match e.input
    case ChargerFrame(frame, leader, followers) =>
      FromChargerKeeps(cfg, t, frame, leader, followers, e.now, e.wall);
    case LeaderFrameIn(leader, frame) =>
      FromLeaderKeeps(t, leader, frame, e.now);
    case FollowerFrame(follower, frame) =>
      FromFollowerKeeps(cfg, t, follower, frame, e.now);
    case Promotion(newLeader) =>
      LeaderChangedKeeps(t.tx, newLeader);
    case HoldTimer(order) =>
      ExpireHoldsKeeps(cfg, t, order, e.now);
    case BrokerRefused(msg) =>
      StartFailedKeeps(t.tx, msg);
    case RestCommand(action, payload) =>
    case IdleCheck =>
      ForgetKeeps(t.tx, Expired(cfg, t.tx, e.now));
  }

  /** In every reachable state the indexes agree with the records. */
  lemma {:induction false} RunKeeps(cfg: Config, run: seq<Event>)
    ensures WF(After(cfg, run).tx)
  {
    hide Step;
    if run != [] {
      RunKeeps(cfg, run[..|run| - 1]);
      StepKeeps(cfg, After(cfg, run[..|run| - 1]), run[|run| - 1]);
    }
  }
}
