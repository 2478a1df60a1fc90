/** Saving the records of a table and loading them into an empty one. */
module SaveRestore {
  import opened Ocpp
  import opened TableState
  import opened TableSteps
  import opened TableInvariant
  import opened TableMoves
  import opened TableTranslation
  import opened TableStarts
  import opened IdSpaces

  /** One record as a stored document; its times are wall-clock times. */
  datatype Doc = Doc(
    uid: nat, state: State, txId: Option<int>, key: StartKey, backendIds: map<Backend, int>, confs: map<Backend, Conf>, conf: Option<Conf>,
    degraded: set<Backend>, createdAt: Time, closedAt: Option<Time>, updatedAt: Time)

  /** The two clocks at one moment. */
  datatype Clock = Clock(now: Time, wall: Time)

  function WallOf(mono: Time, at: Clock): Time {
    at.wall - (at.now - mono)
  }

  function MonoOf(wall: Time, at: Clock): Time {
    at.now - (at.wall - wall)
  }

  function Export(rec: TxRecord, at: Clock): Doc {
    Doc(rec.uid, rec.state, rec.txId, rec.key, rec.backendIds, rec.confs, rec.conf, rec.flags.degraded,
        WallOf(rec.created, at), if rec.closedAt.None? then None else Some(WallOf(rec.closedAt.value, at)), at.wall)
  }

  /** A missing time reads as the present one (0 counts as missing). */
  function OrNow(time: Time, at: Clock): Time {
    if time == 0.0 then at.wall else time
  }

  /** The entries of backends that are still configured. */
  function Restrict<V>(m: map<Backend, V>, known: Option<set<Backend>>): map<Backend, V> {
    if known.None? then m else map k | k in m && k in known.value :: m[k]
  }

  function Loaded(doc: Doc, known: Option<set<Backend>>, at: Clock): TxRecord {
    TxRecord(doc.key, doc.uid, doc.txId, Restrict(doc.backendIds, known), doc.state, Restrict(doc.confs, known), doc.conf,
             Flags({}, {}, map[], doc.degraded, map[]), Tries({}, 0.0, [], {}),
             MonoOf(OrNow(doc.createdAt, at), at), if doc.closedAt.None? then None else Some(MonoOf(doc.closedAt.value, at)),
             MonoOf(OrNow(doc.updatedAt, at), at))
  }

  /** The document is skipped: it has expired, or the table already has a record under that id. */
  predicate Skipped(cfg: Config, t: Tx, doc: Doc, at: Clock) {
    || (if doc.state.Closed? then doc.closedAt.Some? && at.wall - doc.closedAt.value > cfg.retainClosed
        else at.wall - OrNow(doc.updatedAt, at) > cfg.retainOpen)
    || (doc.txId.Some? && doc.txId.value in t.ix.byTx)
  }

  /** Where each backend's number for the record leads. */
  function NumbersOf(ids: map<Backend, int>, r: Ref): map<BackendTx, Ref> {
    map b | b in ids :: BackendTx(b, ids[b]) := r
  }

  function Import(cfg: Config, t: Tx, doc: Doc, known: Option<set<Backend>>, at: Clock): Tx {
    if Skipped(cfg, t, doc, at) then t
    else
      var r := t.next;
      var rec := Loaded(doc, known, at);
      t.(recs := t.recs[r := rec], next := r + 1, ix := t.ix.(
           byTx := if doc.txId.Some? then t.ix.byTx[doc.txId.value := r] else t.ix.byTx,
           byBackend := t.ix.byBackend + NumbersOf(rec.backendIds, r),
           byStart := if !doc.state.Closed? && cfg.dedupe then t.ix.byStart[doc.key := r] else t.ix.byStart))
  }

  function Restore(cfg: Config, t: Tx, docs: seq<Doc>, known: Option<set<Backend>>, at: Clock): Tx {
    if docs == [] then t
    else Import(cfg, Restore(cfg, t, docs[..|docs| - 1], known, at), docs[|docs| - 1], known, at)
  }

  // ------------------------------------------------------------------
  // Loading keeps the invariant
  // ------------------------------------------------------------------

  /** A document as the table writes them. */
  predicate DocOk(doc: Doc) {
    && (doc.state.Pending? <==> doc.txId.None?) && (doc.conf.Some? <==> doc.txId.Some?) && (doc.conf.Some? ==> doc.conf.value.tx == doc.txId)
    && doc.confs.Keys <= doc.backendIds.Keys
  }

  lemma ImportKeeps(cfg: Config, t: Tx, doc: Doc, known: Option<set<Backend>>, at: Clock)
    requires WF(t) && DocOk(doc)
    ensures WF(Import(cfg, t, doc, known, at)) && Grows(t, Import(cfg, t, doc, known, at))
  {
    hide IndexesOk, QueuesOk, Skipped;
    if !Skipped(cfg, t, doc, at) {
      var t' := Import(cfg, t, doc, known, at);
      assert t.next !in t.recs;
      LoadedOk(doc, known, at);
      ImportIndexes(cfg, t, doc, known, at);
      QueuesGrow(t, t');
    }
  }

  lemma LoadedOk(doc: Doc, known: Option<set<Backend>>, at: Clock)
    requires DocOk(doc)
    ensures RecordOk(Loaded(doc, known, at))
  {
  }

  lemma ImportIndexes(cfg: Config, t: Tx, doc: Doc, known: Option<set<Backend>>, at: Clock)
    requires IndexesOk(t) && t.next !in t.recs && !Skipped(cfg, t, doc, at)
    ensures IndexesOk(Import(cfg, t, doc, known, at))
  {
    var t' := Import(cfg, t, doc, known, at);
    forall x | IsHeld(t, x) ensures IsHeld(t', x) {}
    assert IsHeld(t', t.next);
  }

  /** Whatever was stored, loading it keeps the table's invariant and every record that was there. */
  lemma {:induction false} RestoreKeeps(cfg: Config, t: Tx, docs: seq<Doc>, known: Option<set<Backend>>, at: Clock)
    requires WF(t) && forall i :: 0 <= i < |docs| ==> DocOk(docs[i])
    ensures WF(Restore(cfg, t, docs, known, at)) && Grows(t, Restore(cfg, t, docs, known, at))
  {
    hide WF, Grows, Import;
    if docs == [] {
      GrowsSelf(t);
    } else {
      var n := |docs| - 1;
      RestoreKeeps(cfg, t, docs[..n], known, at);
      var t1 := Restore(cfg, t, docs[..n], known, at);
      ImportKeeps(cfg, t1, docs[n], known, at);
      GrowsTransitive(t, t1, Import(cfg, t1, docs[n], known, at));
    }
  }

  // ------------------------------------------------------------------
  // Which documents are taken in
  // ------------------------------------------------------------------

  /** A stopped transaction that is still worth keeping, or one not stopped that was saved not too long ago; and the table has none
      under its id. */
  predicate IsWanted(cfg: Config, t: Tx, doc: Doc, at: Clock) {
    && (match doc.state
        case Closed => doc.closedAt.Some? ==> at.wall - doc.closedAt.value <= cfg.retainClosed
        case _ => at.wall - (if doc.updatedAt == 0.0 then at.wall else doc.updatedAt) <= cfg.retainOpen)
    && (doc.txId.Some? ==> doc.txId.value !in t.ix.byTx)
  }

  /** The entries of the backends that are known (None: of all). */
  ghost predicate IsRestricted<V>(all: map<Backend, V>, kept: map<Backend, V>, known: Option<set<Backend>>) {
    forall b :: (b in kept <==> b in all && (known.Some? ==> b in known.value)) && (b in kept ==> kept[b] == all[b])
  }

  /** MAIN RESULT. A document becomes a record exactly when it is wanted: with the numbers and results of the backends that are still
      known, found by the charger's id, by those numbers, and by its start unless it was stopped; and everything else in the
      table stays as it is. */
  lemma TakenInExactly(cfg: Config, t: Tx, doc: Doc, known: Option<set<Backend>>, at: Clock)
    requires WF(t)
    ensures var t' := Import(cfg, t, doc, known, at);
      if !IsWanted(cfg, t, doc, at) then t' == t
      else
        var r := t.next;
        && r !in t.recs && t'.recs.Keys == t.recs.Keys + {r} && (forall x :: x in t.recs ==> t'.recs[x] == t.recs[x]) && t'.held == t.held && t'.copied == t.copied
        && var rec := t'.recs[r];
           && rec.key == doc.key && rec.uid == doc.uid && rec.state == doc.state && rec.txId == doc.txId && rec.conf == doc.conf && rec.flags.degraded == doc.degraded
           && IsRestricted(doc.backendIds, rec.backendIds, known) && IsRestricted(doc.confs, rec.confs, known)
           && rec.tries.sent == {} && rec.tries.aliases == [] && rec.flags.awaiting == {} && rec.flags.queued == {}
           && (doc.closedAt.Some? <==> rec.closedAt.Some?) && (doc.closedAt.Some? ==> at.now - rec.closedAt.value == at.wall - doc.closedAt.value)
           && at.now - rec.touched == (if doc.updatedAt == 0.0 then 0.0 else at.wall - doc.updatedAt)
           && at.now - rec.created == (if doc.createdAt == 0.0 then 0.0 else at.wall - doc.createdAt)
           && (forall k: int :: Find(t'.ix.byTx, k) == if doc.txId == Some(k) then Some(r) else Find(t.ix.byTx, k))
           && (forall b: Backend, n: int :: Find(t'.ix.byBackend, BackendTx(b, n)) == if Find(rec.backendIds, b) == Some(n) then Some(r) else Find(t.ix.byBackend, BackendTx(b, n)))
           && (forall key: StartKey :: Find(t'.ix.byStart, key) == if cfg.dedupe && !doc.state.Closed? && key == doc.key then Some(r) else Find(t.ix.byStart, key))
           && t'.ix.startMsgs == t.ix.startMsgs
  {
    NextIsNew(t);
    hide WF, Import, IsRestricted;
    WantedOnly(cfg, t, doc, known, at);
    if IsWanted(cfg, t, doc, at) {
      RecordTakenIn(cfg, t, doc, known, at);
      IndexTakenIn(cfg, t, doc, known, at);
    }
  }

  lemma WantedOnly(cfg: Config, t: Tx, doc: Doc, known: Option<set<Backend>>, at: Clock)
    ensures !IsWanted(cfg, t, doc, at) ==> Import(cfg, t, doc, known, at) == t
  {
  }

  lemma RecordTakenIn(cfg: Config, t: Tx, doc: Doc, known: Option<set<Backend>>, at: Clock)
    requires IsWanted(cfg, t, doc, at)
    ensures var t' := Import(cfg, t, doc, known, at);
      && t'.recs == t.recs[t.next := Loaded(doc, known, at)] && t'.held == t.held && t'.copied == t.copied && t'.ix.startMsgs == t.ix.startMsgs
      && IsRestricted(doc.backendIds, t'.recs[t.next].backendIds, known) && IsRestricted(doc.confs, t'.recs[t.next].confs, known)
  {
  }

  lemma IndexTakenIn(cfg: Config, t: Tx, doc: Doc, known: Option<set<Backend>>, at: Clock)
    requires IsWanted(cfg, t, doc, at)
    ensures var ix := Import(cfg, t, doc, known, at).ix;
      && (forall k: int :: Find(ix.byTx, k) == if doc.txId == Some(k) then Some(t.next) else Find(t.ix.byTx, k))
      && (forall b: Backend, n: int :: Find(ix.byBackend, BackendTx(b, n)) == if Find(Loaded(doc, known, at).backendIds, b) == Some(n) then Some(t.next) else Find(t.ix.byBackend, BackendTx(b, n)))
      && (forall key: StartKey :: Find(ix.byStart, key) == if cfg.dedupe && !doc.state.Closed? && key == doc.key then Some(t.next) else Find(t.ix.byStart, key))
  {
    hide Loaded;
    assert Loaded(doc, known, at).key == doc.key && Loaded(doc, known, at).txId == doc.txId && Loaded(doc, known, at).state == doc.state by {
      LoadedIs(doc, known, at);
    }
    NumbersLead(Loaded(doc, known, at).backendIds, t.next, t.ix.byBackend);
  }

  lemma LoadedIs(doc: Doc, known: Option<set<Backend>>, at: Clock)
    ensures Loaded(doc, known, at).key == doc.key && Loaded(doc, known, at).txId == doc.txId && Loaded(doc, known, at).state == doc.state
  {
  }

  lemma NextIsNew(t: Tx)
    requires WF(t)
    ensures t.next !in t.recs
  {
  }

  lemma NumbersLead(ids: map<Backend, int>, r: Ref, index: map<BackendTx, Ref>)
    ensures forall b: Backend, n: int :: Find(index + NumbersOf(ids, r), BackendTx(b, n)) == if Find(ids, b) == Some(n) then Some(r) else Find(index, BackendTx(b, n))
  {
    forall b: Backend, n: int ensures Find(index + NumbersOf(ids, r), BackendTx(b, n)) == if Find(ids, b) == Some(n) then Some(r) else Find(index, BackendTx(b, n)) {
      assert BackendTx(b, n) in NumbersOf(ids, r) <==> Find(ids, b) == Some(n);
    }
  }

  // ------------------------------------------------------------------
  // A closed record is skipped exactly when it would have been forgotten
  // ------------------------------------------------------------------

  /** With both clocks advanced by the same time, a closed record is dropped by the restore exactly when pruning would have
      dropped it had the table lived on (the monotonic clock may start anew). */
  lemma SkippedWhenForgotten(cfg: Config, rec: TxRecord, saved: Clock, passed: Time, restarted: Time)
    requires rec.state.Closed?
    ensures var at := Clock(restarted, saved.wall + passed);
      Skipped(cfg, EmptyTable.tx, Export(rec, saved), at) <==> TooOld(cfg, rec, saved.now + passed)
  {
  }

  // ------------------------------------------------------------------
  // Round trip
  // ------------------------------------------------------------------

  /** The record is worth storing. */
  predicate Worth(rec: TxRecord) {
    rec.txId.Some? || rec.backendIds != map[]
  }

  predicate Findable(t: Tx, r: Ref) {
    r in t.recs &&
    (Find(t.ix.byStart, t.recs[r].key) == Some(r) || (t.recs[r].txId.Some? && Find(t.ix.byTx, t.recs[r].txId.value) == Some(r)))
  }

  /** `refs` lists, once each, the records a table can find by an id of the charger or by their start and that are worth storing. */
  ghost predicate Lists(t: Tx, refs: seq<Ref>) {
    && (forall i :: 0 <= i < |refs| ==> Findable(t, refs[i]) && Worth(t.recs[refs[i]]))
    && (forall i, j :: 0 <= i < j < |refs| ==> refs[i] != refs[j])
    && (forall k :: k in t.ix.byTx ==> t.ix.byTx[k] in refs)
    && (forall k :: k in t.ix.byStart && Worth(Rec(t, t.ix.byStart[k])) ==> t.ix.byStart[k] in refs)
  }

  function ExportAll(t: Tx, refs: seq<Ref>, at: Clock): (docs: seq<Doc>)
    ensures |docs| == |refs|
    ensures forall i :: 0 <= i < |refs| ==> docs[i] == Export(Rec(t, refs[i]), at)
  {
    if refs == [] then [] else [Export(Rec(t, refs[0]), at)] + ExportAll(t, refs[1..], at)
  }

  /** No two documents share an id of the charger or a number of a backend, and none has expired. */
  ghost predicate Loadable(cfg: Config, docs: seq<Doc>, at: Clock) {
    && (forall i, j :: 0 <= i < j < |docs| ==> Apart(docs[i], docs[j]))
    && (forall i :: 0 <= i < |docs| ==> !Skipped(cfg, EmptyTable.tx, docs[i], at))
  }

  ghost predicate Apart(a: Doc, b: Doc) {
    && (a.txId.Some? ==> a.txId != b.txId)
    && (forall x :: x in a.backendIds && x in b.backendIds ==> a.backendIds[x] != b.backendIds[x])
  }

  /** Document `i` became record `i`, found by all its numbers. */
  predicate LoadedAt(t: Tx, docs: seq<Doc>, i: nat, at: Clock)
    requires i < |docs|
  {
    && i in t.recs && t.recs[i] == Loaded(docs[i], None, at)
    && (docs[i].txId.Some? ==> Find(t.ix.byTx, docs[i].txId.value) == Some(i))
    && (forall b :: b in docs[i].backendIds ==> Find(t.ix.byBackend, BackendTx(b, docs[i].backendIds[b])) == Some(i))
  }

  lemma {:induction false} AllLoaded(cfg: Config, docs: seq<Doc>, at: Clock)
    requires Loadable(cfg, docs, at)
    ensures var t := Restore(cfg, EmptyTable.tx, docs, None, at);
      && t.next == |docs| && (forall i :: 0 <= i < |docs| ==> LoadedAt(t, docs, i, at))
      && (forall k: int :: k in t.ix.byTx ==> exists i :: 0 <= i < |docs| && docs[i].txId == Some(k))
  {
    hide LoadedAt, Apart;
    if docs != [] {
      var n := |docs| - 1;
      var before := docs[..n];
      AllLoaded(cfg, before, at);
      var t := Restore(cfg, EmptyTable.tx, before, None, at);
      var t' := Import(cfg, t, docs[n], None, at);
      if docs[n].txId.Some? {
        NotYetLoaded(t, docs, n, docs[n].txId.value);
      }
      assert !Skipped(cfg, t, docs[n], at);
      forall i | 0 <= i < |docs| ensures LoadedAt(t', docs, i, at) {
        if i < n {
          StillLoaded(cfg, t, docs, i, at);
        } else {
          NewlyLoaded(cfg, t, docs, at);
        }
      }
      forall k: int | k in t'.ix.byTx ensures exists i :: 0 <= i < |docs| && docs[i].txId == Some(k) {
        if docs[n].txId == Some(k) {
        } else {
          var i :| 0 <= i < n && before[i].txId == Some(k);
          assert docs[i].txId == Some(k);
        }
      }
    }
  }

  lemma StillLoaded(cfg: Config, t: Tx, docs: seq<Doc>, i: nat, at: Clock)
    requires i < |docs| - 1 && t.next == |docs| - 1 && LoadedAt(t, docs[..|docs| - 1], i, at) && Apart(docs[i], docs[|docs| - 1])
    requires !Skipped(cfg, t, docs[|docs| - 1], at)
    ensures LoadedAt(Import(cfg, t, docs[|docs| - 1], None, at), docs, i, at)
  {
    assert docs[..|docs| - 1][i] == docs[i];
  }

  lemma NewlyLoaded(cfg: Config, t: Tx, docs: seq<Doc>, at: Clock)
    requires docs != [] && t.next == |docs| - 1 && !Skipped(cfg, t, docs[|docs| - 1], at)
    ensures LoadedAt(Import(cfg, t, docs[|docs| - 1], None, at), docs, |docs| - 1, at)
  {
  }

  lemma NotYetLoaded(t: Tx, docs: seq<Doc>, n: nat, k: int)
    requires n < |docs| && docs[n].txId == Some(k) && forall i :: 0 <= i < n ==> Apart(docs[i], docs[n])
    requires forall x: int :: x in t.ix.byTx ==> exists i :: 0 <= i < n && docs[..n][i].txId == Some(x)
    ensures k !in t.ix.byTx
  {
    forall i | 0 <= i < n ensures docs[..n][i].txId != Some(k) {
      assert Apart(docs[i], docs[n]);
    }
  }

  /** What survives: everything a record says about ids and answers, how old it is, and for how long it has been closed; it counts
      as used when it was saved. (A wall-clock time of exactly 0 counts as missing.) */
  predicate Preserved(a: TxRecord, b: TxRecord, saved: Clock, at: Clock) {
    && b.key == a.key && b.uid == a.uid && b.txId == a.txId && b.backendIds == a.backendIds && b.confs == a.confs && b.conf == a.conf
    && b.state == a.state && b.flags.degraded == a.flags.degraded
    && (a.closedAt.Some? <==> b.closedAt.Some?)
    && (a.closedAt.Some? ==> at.now - b.closedAt.value == (saved.now - a.closedAt.value) + (at.wall - saved.wall))
    && (saved.wall != 0.0 ==> at.now - b.touched == at.wall - saved.wall)
    && (WallOf(a.created, saved) != 0.0 ==> at.now - b.created == (saved.now - a.created) + (at.wall - saved.wall))
  }

  /** No listed record has expired when it is loaded. */
  predicate NothingExpired(cfg: Config, t: Tx, refs: seq<Ref>, saved: Clock, at: Clock) {
    && at.wall - saved.wall <= cfg.retainOpen && 0.0 <= cfg.retainOpen
    && forall i :: 0 <= i < |refs| ==> !(Rec(t, refs[i]).state.Closed? && TooOld(cfg, Rec(t, refs[i]), saved.now + (at.wall - saved.wall)))
  }

  lemma DocsLoadable(cfg: Config, t: Tx, refs: seq<Ref>, saved: Clock, at: Clock)
    requires WF(t) && AllRegistered(t) && Lists(t, refs) && NothingExpired(cfg, t, refs, saved, at)
    ensures Loadable(cfg, ExportAll(t, refs, saved), at)
  {
    hide WF;
    var docs := ExportAll(t, refs, saved);
    forall i, j | 0 <= i < j < |docs| ensures Apart(docs[i], docs[j]) {
      ListedOk(t, refs, i);
      ListedOk(t, refs, j);
      Distinct(t, refs[i], refs[j], saved);
    }
    forall i | 0 <= i < |docs| ensures !Skipped(cfg, EmptyTable.tx, docs[i], at) {
      var rec := Rec(t, refs[i]);
      if rec.state.Closed? {
        SkippedWhenForgotten(cfg, rec, saved, at.wall - saved.wall, at.now);
      }
    }
  }

  lemma ListedOk(t: Tx, refs: seq<Ref>, i: nat)
    requires WF(t) && AllRegistered(t) && Lists(t, refs) && i < |refs|
    ensures Registered(t, refs[i]) && IsHeld(t, refs[i])
  {
    var rec := t.recs[refs[i]];
    if Find(t.ix.byStart, rec.key) == Some(refs[i]) {
      RegisteredByStart(t, refs[i]);
    } else {
      RegisteredUnder(t, rec.txId.value);
      HeldUnder(t, rec.txId.value);
    }
  }

  lemma Distinct(t: Tx, r: Ref, q: Ref, at: Clock)
    requires Registered(t, r) && IsHeld(t, r) && Registered(t, q) && IsHeld(t, q) && r != q
    ensures Apart(Export(Rec(t, r), at), Export(Rec(t, q), at))
  {
    forall x | x in t.recs[r].backendIds && x in t.recs[q].backendIds ensures t.recs[r].backendIds[x] != t.recs[q].backendIds[x] {
      assert Find(t.ix.byBackend, BackendTx(x, t.recs[r].backendIds[x])) == Some(r);
      assert Find(t.ix.byBackend, BackendTx(x, t.recs[q].backendIds[x])) == Some(q);
    }
  }

  /** Documents of transactions that were not stopped stand for different starts. */
  ghost predicate StartsApart(docs: seq<Doc>) {
    forall i, j :: 0 <= i < j < |docs| && !docs[i].state.Closed? && !docs[j].state.Closed? ==> docs[i].key != docs[j].key
  }

  lemma {:induction false} StartsLoaded(cfg: Config, docs: seq<Doc>, at: Clock)
    requires Loadable(cfg, docs, at) && cfg.dedupe && StartsApart(docs)
    ensures forall i :: 0 <= i < |docs| && !docs[i].state.Closed? ==> Find(Restore(cfg, EmptyTable.tx, docs, None, at).ix.byStart, docs[i].key) == Some(i)
  {
    hide LoadedAt, Apart, Import;
    if docs != [] {
      var n := |docs| - 1;
      StartsLoaded(cfg, docs[..n], at);
      AllLoaded(cfg, docs[..n], at);
      var t := Restore(cfg, EmptyTable.tx, docs[..n], None, at);
      if docs[n].txId.Some? {
        NotYetLoaded(t, docs, n, docs[n].txId.value);
      }
      NextStartLoaded(cfg, t, docs, at);
    }
  }

  lemma NextStartLoaded(cfg: Config, t: Tx, docs: seq<Doc>, at: Clock)
    requires docs != [] && t.next == |docs| - 1 && IsWanted(cfg, t, docs[|docs| - 1], at) && cfg.dedupe && StartsApart(docs)
    requires forall i :: 0 <= i < |docs| - 1 && !docs[i].state.Closed? ==> Find(t.ix.byStart, docs[i].key) == Some(i)
    ensures forall i :: 0 <= i < |docs| && !docs[i].state.Closed? ==> Find(Import(cfg, t, docs[|docs| - 1], None, at).ix.byStart, docs[i].key) == Some(i)
  {
    hide IsWanted, Import, Loaded;
    IndexTakenIn(cfg, t, docs[|docs| - 1], None, at);
  }

  lemma ListedStart(t: Tx, refs: seq<Ref>, i: nat)
    requires WF(t) && StartsFound(t) && Lists(t, refs) && i < |refs| && !Rec(t, refs[i]).state.Closed?
    ensures Find(t.ix.byStart, Rec(t, refs[i]).key) == Some(refs[i])
  {
    assert StartFound(t, refs[i]) && Findable(t, refs[i]);
  }

  lemma DocsStartApart(t: Tx, refs: seq<Ref>, saved: Clock)
    requires WF(t) && StartsFound(t) && Lists(t, refs)
    ensures StartsApart(ExportAll(t, refs, saved))
  {
    hide WF, StartsFound;
    var docs := ExportAll(t, refs, saved);
    forall i, j | 0 <= i < j < |docs| && !docs[i].state.Closed? && !docs[j].state.Closed? ensures docs[i].key != docs[j].key {
      ListedStart(t, refs, i);
      ListedStart(t, refs, j);
    }
  }

  /** MAIN RESULT. A start that is repeated after the restore, under whichever leader and message, is answered from the restored
      record of its open transaction: with the answer the charger was given before, and without asking any backend. */
  lemma RepeatedAfterRestore(cfg: Config, t: Tx, refs: seq<Ref>, saved: Clock, at: Clock, i: nat, sp: Spaces, start: Frame, leader: Backend, followers: seq<Follower>, now: Time)
    requires WF(t) && AllRegistered(t) && StartsFound(t) && Lists(t, refs) && NothingExpired(cfg, t, refs, saved, at) && cfg.dedupe
    requires i < |refs| && Rec(t, refs[i]).state.Open? && IsStart(start) && start.payload.start == Rec(t, refs[i]).key
    ensures var t' := Restore(cfg, EmptyTable.tx, ExportAll(t, refs, saved), None, at);
      && Rec(t, refs[i]).conf.Some?
      && ChargerStart(cfg, Table(t', sp), start, leader, followers, now).1 == ChargerPlan(None, [], Some(Result(start.id, Rec(t, refs[i]).conf.value)))
  {
    hide WF, AllRegistered, StartsFound, Restore, NothingExpired, Loadable, Lists;
    var docs := ExportAll(t, refs, saved);
    DocsLoadable(cfg, t, refs, saved, at);
    DocsStartApart(t, refs, saved);
    AllLoaded(cfg, docs, at);
    StartsLoaded(cfg, docs, at);
    OpenAnswered(t, refs, i);
    var t' := Restore(cfg, EmptyTable.tx, docs, None, at);
    LoadedPreserves(t', docs, i, Rec(t, refs[i]), saved, at);
    AnswersAgain(cfg, Table(t', sp), start, leader, followers, now, i);
  }

  lemma AnswersAgain(cfg: Config, t: Table, start: Frame, leader: Backend, followers: seq<Follower>, now: Time, r: Ref)
    requires IsStart(start) && cfg.dedupe && Find(t.tx.ix.byStart, start.payload.start) == Some(r) && r in t.tx.recs
    requires t.tx.recs[r].state.Open? && t.tx.recs[r].conf.Some?
    ensures ChargerStart(cfg, t, start, leader, followers, now).1 == ChargerPlan(None, [], Some(Result(start.id, t.tx.recs[r].conf.value)))
  {
    hide CopyStartToAll, Attempt;
  }

  lemma OpenAnswered(t: Tx, refs: seq<Ref>, i: nat)
    requires WF(t) && Lists(t, refs) && i < |refs| && Rec(t, refs[i]).state.Open?
    ensures Rec(t, refs[i]).conf.Some?
  {
    assert Findable(t, refs[i]) && RecordOk(t.recs[refs[i]]);
  }

  /** MAIN RESULT. Saving every record worth keeping and loading them into an empty table, before anything expires, preserves
      every record (its ids, answers, state and the time since it was closed), under whichever base the monotonic clock has
      after a restart; and so it preserves both translations: the charger's id `k` is known after it exactly if it was
      before, a frame that quotes it becomes the same frame for every backend, and every backend's number for it leads back; and
      the start of every transaction that was not stopped leads to its record. */
  lemma SaveAndRestore(cfg: Config, t: Tx, refs: seq<Ref>, saved: Clock, at: Clock, k: int, b: Backend, frame: Frame)
    requires WF(t) && AllRegistered(t) && Lists(t, refs) && NothingExpired(cfg, t, refs, saved, at)
    ensures var t' := Restore(cfg, EmptyTable.tx, ExportAll(t, refs, saved), None, at);
      && (forall i :: 0 <= i < |refs| ==> i in t'.recs && Preserved(Rec(t, refs[i]), t'.recs[i], saved, at))
      && (k in t'.ix.byTx <==> k in t.ix.byTx)
      && LeaderFrame(t', b, frame, Find(t'.ix.byTx, k)).1 == LeaderFrame(t, b, frame, Find(t.ix.byTx, k)).1
      && (k in t.ix.byTx && b in Rec(t, t.ix.byTx[k]).backendIds ==> ReverseId(t', b, Rec(t, t.ix.byTx[k]).backendIds[b]) == Some(k))
      && (cfg.dedupe && StartsFound(t) ==> forall i :: 0 <= i < |refs| && !Rec(t, refs[i]).state.Closed? ==> Find(t'.ix.byStart, Rec(t, refs[i]).key) == Some(i))
  {
    hide WF, AllRegistered, StartsFound, NothingExpired, Loadable, Restore, Lists, Preserved, LeaderFrame, ReverseId;
    var docs := ExportAll(t, refs, saved);
    DocsLoadable(cfg, t, refs, saved, at);
    AllLoaded(cfg, docs, at);
    if cfg.dedupe && StartsFound(t) {
      DocsStartApart(t, refs, saved);
      StartsLoaded(cfg, docs, at);
    }
    var t' := Restore(cfg, EmptyTable.tx, docs, None, at);
    forall i | 0 <= i < |refs| ensures i in t'.recs && Preserved(Rec(t, refs[i]), t'.recs[i], saved, at) {
      LoadedPreserves(t', docs, i, Rec(t, refs[i]), saved, at);
    }
    if k in t.ix.byTx {
      HeldUnderWF(t, k);
      ListedUnder(t, refs, k);
      var i :| 0 <= i < |refs| && refs[i] == t.ix.byTx[k];
      SameTranslation(t, t', docs, i, k, b, frame, saved, at);
    } else if k in t'.ix.byTx {
      UnknownStays(t, refs, docs, saved, k);
    } else {
      UnknownFrame(t, t', b, frame);
    }
  }

  lemma UnknownFrame(t: Tx, t': Tx, b: Backend, frame: Frame)
    ensures LeaderFrame(t', b, frame, None).1 == LeaderFrame(t, b, frame, None).1
  {
  }

  lemma LoadedPreserves(t: Tx, docs: seq<Doc>, i: nat, rec: TxRecord, saved: Clock, at: Clock)
    requires i < |docs| && docs[i] == Export(rec, saved) && LoadedAt(t, docs, i, at)
    ensures i in t.recs && Preserved(rec, t.recs[i], saved, at)
  {
  }

  lemma SameTranslation(t: Tx, t': Tx, docs: seq<Doc>, i: nat, k: int, b: Backend, frame: Frame, saved: Clock, at: Clock)
    requires k in t.ix.byTx && Rec(t, t.ix.byTx[k]).txId == Some(k)
    requires i < |docs| && docs[i] == Export(Rec(t, t.ix.byTx[k]), saved) && LoadedAt(t', docs, i, at)
    ensures k in t'.ix.byTx && LeaderFrame(t', b, frame, Find(t'.ix.byTx, k)).1 == LeaderFrame(t, b, frame, Find(t.ix.byTx, k)).1
    ensures b in Rec(t, t.ix.byTx[k]).backendIds ==> ReverseId(t', b, Rec(t, t.ix.byTx[k]).backendIds[b]) == Some(k)
  {
  }

  lemma ListedUnder(t: Tx, refs: seq<Ref>, k: int)
    requires Lists(t, refs) && k in t.ix.byTx
    ensures exists i :: 0 <= i < |refs| && refs[i] == t.ix.byTx[k]
  {
  }

  lemma UnknownStays(t: Tx, refs: seq<Ref>, docs: seq<Doc>, saved: Clock, k: int)
    requires WF(t) && AllRegistered(t) && Lists(t, refs) && docs == ExportAll(t, refs, saved) && k !in t.ix.byTx
    ensures forall i :: 0 <= i < |docs| ==> docs[i].txId != Some(k)
  {
    hide WF, AllRegistered;
    forall i | 0 <= i < |docs| ensures docs[i].txId != Some(k) {
      ListedOk(t, refs, i);
    }
  }

  // ------------------------------------------------------------------
  // Reservations and charging profiles
  // ------------------------------------------------------------------

  datatype ObjDoc = ObjDoc(space: Space, uid: nat, cid: int, backendIds: map<Backend, int>, expires: Option<Time>, updatedAt: Time)

  function ExportObj(o: IdRecord, at: Clock): ObjDoc {
    ObjDoc(o.space, o.uid, o.cid, o.backendIds, o.expires, at.wall)
  }

  predicate SkippedObj(cfg: Config, sp: Spaces, doc: ObjDoc, at: Clock) {
    || (if doc.space.Reservation? then at.wall > (if doc.expires.Some? then doc.expires.value else OrNow(doc.updatedAt, at)) + cfg.retainClosed
        else at.wall - OrNow(doc.updatedAt, at) > cfg.retainOpen)
    || SpaceId(doc.space, doc.cid) in sp.records
  }

  function LoadedObj(doc: ObjDoc, known: Option<set<Backend>>, at: Clock): IdRecord {
    var used := MonoOf(OrNow(doc.updatedAt, at), at);
    IdRecord(doc.space, doc.cid, doc.uid, Restrict(doc.backendIds, known), doc.expires, used, used)
  }

  function KeysFor(space: Space, ids: map<Backend, int>, r: Ref): map<SpaceKey, Ref> {
    map b | b in ids :: SpaceKey(space, b, ids[b]) := r
  }

  function ImportObj(cfg: Config, sp: Spaces, doc: ObjDoc, known: Option<set<Backend>>, at: Clock): Spaces {
    if SkippedObj(cfg, sp, doc, at) then sp
    else
      var r := sp.next;
      var o := LoadedObj(doc, known, at);
      sp.(objs := sp.objs[r := o], next := r + 1, records := sp.records[SpaceId(doc.space, doc.cid) := r],
          index := sp.index + KeysFor(doc.space, o.backendIds, r))
  }

  function RestoreObjs(cfg: Config, sp: Spaces, docs: seq<ObjDoc>, known: Option<set<Backend>>, at: Clock): Spaces {
    if docs == [] then sp
    else ImportObj(cfg, RestoreObjs(cfg, sp, docs[..|docs| - 1], known, at), docs[|docs| - 1], known, at)
  }

  /** No two documents share an id of the charger or a number of a backend. */
  ghost predicate ObjsApart(a: ObjDoc, b: ObjDoc) {
    a.space == b.space ==> a.cid != b.cid && forall x :: x in a.backendIds && x in b.backendIds ==> a.backendIds[x] != b.backendIds[x]
  }

  /** What was loaded is one-to-one, and document `i` became object `i`. */
  ghost predicate ObjsLoaded(sp: Spaces, docs: seq<ObjDoc>, at: Clock) {
    && SpacesOk(sp) && sp.next == |docs|
    && (forall i :: 0 <= i < |docs| ==> i in sp.objs && sp.objs[i] == LoadedObj(docs[i], None, at) && Find(sp.records, SpaceId(docs[i].space, docs[i].cid)) == Some(i))
    && (forall r :: r in sp.objs ==> r < |docs|)
  }

  lemma {:induction false} AllObjsLoaded(cfg: Config, docs: seq<ObjDoc>, at: Clock)
    requires forall i, j :: 0 <= i < j < |docs| ==> ObjsApart(docs[i], docs[j])
    requires forall i :: 0 <= i < |docs| ==> !SkippedObj(cfg, EmptyTable.sp, docs[i], at)
    ensures ObjsLoaded(RestoreObjs(cfg, EmptyTable.sp, docs, None, at), docs, at)
  {
    hide ObjsApart, LoadedObj;
    if docs != [] {
      var n := |docs| - 1;
      AllObjsLoaded(cfg, docs[..n], at);
      NextObjLoaded(cfg, RestoreObjs(cfg, EmptyTable.sp, docs[..n], None, at), docs, at);
    }
  }

  lemma NextObjLoaded(cfg: Config, sp: Spaces, docs: seq<ObjDoc>, at: Clock)
    requires docs != [] && ObjsLoaded(sp, docs[..|docs| - 1], at)
    requires forall i :: 0 <= i < |docs| - 1 ==> ObjsApart(docs[i], docs[|docs| - 1])
    requires !SkippedObj(cfg, EmptyTable.sp, docs[|docs| - 1], at)
    ensures ObjsLoaded(ImportObj(cfg, sp, docs[|docs| - 1], None, at), docs, at)
  {
    hide ObjsLoaded;
    var n := |docs| - 1;
    var sp' := ImportObj(cfg, sp, docs[n], None, at);
    NextIdFree(sp, docs, at);
    forall b | b in docs[n].backendIds ensures SpaceKey(docs[n].space, b, docs[n].backendIds[b]) !in sp.index {
      NextNumbersFree(sp, docs, at, b);
    }
    LoadedOneToOne(sp, docs, at);
    AddedOk(sp, LoadedObj(docs[n], None, at));
    NextPlaces(cfg, sp, docs, at);
  }

  lemma LoadedOneToOne(sp: Spaces, docs: seq<ObjDoc>, at: Clock)
    requires docs != [] && ObjsLoaded(sp, docs[..|docs| - 1], at)
    ensures SpacesOk(sp)
  {
  }

  /** The next document's id is not taken. */
  lemma NextIdFree(sp: Spaces, docs: seq<ObjDoc>, at: Clock)
    requires docs != [] && ObjsLoaded(sp, docs[..|docs| - 1], at)
    requires forall i :: 0 <= i < |docs| - 1 ==> ObjsApart(docs[i], docs[|docs| - 1])
    ensures SpaceId(docs[|docs| - 1].space, docs[|docs| - 1].cid) !in sp.records
  {
    var n := |docs| - 1;
    forall id | id in sp.records ensures id != SpaceId(docs[n].space, docs[n].cid) {
      assert RecordedOk(sp, id);
      var i := sp.records[id];
      assert docs[..n][i] == docs[i] && ObjsApart(docs[i], docs[n]);
    }
  }

  /** ... and neither are its backends' numbers. */
  lemma NextNumbersFree(sp: Spaces, docs: seq<ObjDoc>, at: Clock, b: Backend)
    requires docs != [] && ObjsLoaded(sp, docs[..|docs| - 1], at) && b in docs[|docs| - 1].backendIds
    requires forall i :: 0 <= i < |docs| - 1 ==> ObjsApart(docs[i], docs[|docs| - 1])
    ensures SpaceKey(docs[|docs| - 1].space, b, docs[|docs| - 1].backendIds[b]) !in sp.index
  {
    var n := |docs| - 1;
    forall key | key in sp.index ensures key != SpaceKey(docs[n].space, b, docs[n].backendIds[b]) {
      assert IndexedOk(sp, key);
      var i := sp.index[key];
      assert docs[..n][i] == docs[i] && ObjsApart(docs[i], docs[n]);
    }
  }

  /** A new object under an id and numbers that are free. */
  lemma AddedOk(sp: Spaces, o: IdRecord)
    requires SpacesOk(sp) && SpaceId(o.space, o.cid) !in sp.records
    requires forall b :: b in o.backendIds ==> SpaceKey(o.space, b, o.backendIds[b]) !in sp.index
    ensures SpacesOk(sp.(objs := sp.objs[sp.next := o], next := sp.next + 1, records := sp.records[SpaceId(o.space, o.cid) := sp.next],
                         index := sp.index + KeysFor(o.space, o.backendIds, sp.next)))
  {
    var sp' := sp.(objs := sp.objs[sp.next := o], next := sp.next + 1, records := sp.records[SpaceId(o.space, o.cid) := sp.next],
                   index := sp.index + KeysFor(o.space, o.backendIds, sp.next));
    forall id | id in sp'.records ensures RecordedOk(sp', id) {
      if id in sp.records {
        assert RecordedOk(sp, id);
      }
    }
    forall key | key in sp'.index ensures IndexedOk(sp', key) {
      if key in sp.index {
        assert IndexedOk(sp, key);
      }
    }
  }

  lemma NextPlaces(cfg: Config, sp: Spaces, docs: seq<ObjDoc>, at: Clock)
    requires docs != [] && ObjsLoaded(sp, docs[..|docs| - 1], at) && SpaceId(docs[|docs| - 1].space, docs[|docs| - 1].cid) !in sp.records
    requires !SkippedObj(cfg, sp, docs[|docs| - 1], at) && SpacesOk(ImportObj(cfg, sp, docs[|docs| - 1], None, at))
    ensures ObjsLoaded(ImportObj(cfg, sp, docs[|docs| - 1], None, at), docs, at)
  {
    hide SkippedObj, SpacesOk;
    var n := |docs| - 1;
    assert forall i :: 0 <= i < n ==> docs[..n][i] == docs[i];
  }

  /** The object has not lapsed when it is loaded: a reservation with an end by that end, everything else by when it was saved. */
  predicate IsKept(cfg: Config, o: IdRecord, saved: Clock, at: Clock) {
    match o.space
    case Reservation => if o.expires.Some? then at.wall - o.expires.value <= cfg.retainClosed else at.wall - saved.wall <= cfg.retainClosed
    case Profile => at.wall - saved.wall <= cfg.retainOpen
  }

  lemma KeptIsLoaded(cfg: Config, o: IdRecord, saved: Clock, at: Clock)
    requires IsKept(cfg, o, saved, at) && 0.0 <= cfg.retainClosed && 0.0 <= cfg.retainOpen
    ensures !SkippedObj(cfg, EmptyTable.sp, ExportObj(o, saved), at)
  {
  }

  /** A stored object becomes one of the table's exactly when it has not lapsed and the charger's id for it is free. */
  lemma ObjectTakenInExactly(cfg: Config, sp: Spaces, doc: ObjDoc, known: Option<set<Backend>>, at: Clock)
    requires SpacesOk(sp)
    ensures var sp' := ImportObj(cfg, sp, doc, known, at); var id := SpaceId(doc.space, doc.cid);
      var used := if doc.updatedAt == 0.0 then at.wall else doc.updatedAt;
      var lapsed := match doc.space
                    case Reservation => at.wall - (if doc.expires.Some? then doc.expires.value else used) > cfg.retainClosed
                    case Profile => at.wall - used > cfg.retainOpen;
      if lapsed || id in sp.records then sp' == sp
      else
        && Find(sp'.records, id) == Some(sp.next) && sp.next in sp'.objs
        && var o := sp'.objs[sp.next];
           && o.space == doc.space && o.cid == doc.cid && o.uid == doc.uid && o.expires == doc.expires && at.now - o.touched == at.wall - used
           && IsRestricted(doc.backendIds, o.backendIds, known)
           && (forall b :: b in o.backendIds ==> Find(sp'.index, SpaceKey(doc.space, b, o.backendIds[b])) == Some(sp.next))
           && (forall x :: x in sp.records ==> Find(sp'.records, x) == Some(sp.records[x]))
  {
    hide SpacesOk;
  }

  function ExportObjs(sp: Spaces, ids: seq<SpaceId>, at: Clock): (docs: seq<ObjDoc>)
    requires forall i :: 0 <= i < |ids| ==> ids[i] in sp.records
    ensures |docs| == |ids|
    ensures forall i :: 0 <= i < |ids| ==> docs[i] == ExportObj(Obj(sp, sp.records[ids[i]]), at)
  {
    if ids == [] then [] else [ExportObj(Obj(sp, sp.records[ids[0]]), at)] + ExportObjs(sp, ids[1..], at)
  }

  /** MAIN RESULT. Saving all reservations and profiles (listed once each) and loading them into an empty table, before they
      lapse, gives a one-to-one table in which every object has the id, owner, numbers and end it had: every command a backend
      sends about one of its objects still names that object. */
  lemma ObjectsSurvive(cfg: Config, sp: Spaces, ids: seq<SpaceId>, saved: Clock, at: Clock, i: nat)
    requires SpacesOk(sp) && (forall k :: 0 <= k < |ids| ==> ids[k] in sp.records) && (forall j, k :: 0 <= j < k < |ids| ==> ids[j] != ids[k])
    requires forall k :: 0 <= k < |ids| ==> IsKept(cfg, Obj(sp, sp.records[ids[k]]), saved, at)
    requires i < |ids| && 0.0 <= cfg.retainClosed && 0.0 <= cfg.retainOpen
    ensures var sp' := RestoreObjs(cfg, EmptyTable.sp, ExportObjs(sp, ids, saved), None, at);
      var o := Obj(sp, sp.records[ids[i]]);
      && SpacesOk(sp') && Find(sp'.records, ids[i]) == Some(i)
      && Obj(sp', i) == o.(created := Obj(sp', i).created, touched := Obj(sp', i).touched)
      && (saved.wall != 0.0 ==> at.now - Obj(sp', i).touched == at.wall - saved.wall)
      && (forall b :: b in o.backendIds ==> Find(sp'.index, SpaceKey(ids[i].space, b, o.backendIds[b])) == Some(i))
  {
    hide SpacesOk, SkippedObj, RestoreObjs;
    var docs := ExportObjs(sp, ids, saved);
    forall k | 0 <= k < |docs| ensures !SkippedObj(cfg, EmptyTable.sp, docs[k], at) {
      KeptIsLoaded(cfg, Obj(sp, sp.records[ids[k]]), saved, at);
    }
    forall j, k | 0 <= j < k < |docs| ensures ObjsApart(docs[j], docs[k]) {
      ObjectsApart(sp, ids[j], ids[k], saved);
    }
    AllObjsLoaded(cfg, docs, at);
    var sp' := RestoreObjs(cfg, EmptyTable.sp, docs, None, at);
    RecordedAs(sp, ids[i]);
    RecordedAs(sp', ids[i]);
  }

  lemma RecordedAs(sp: Spaces, id: SpaceId)
    requires SpacesOk(sp) && id in sp.records
    ensures RecordedOk(sp, id)
  {
  }

  lemma ObjectsApart(sp: Spaces, a: SpaceId, b: SpaceId, at: Clock)
    requires SpacesOk(sp) && a in sp.records && b in sp.records && a != b
    ensures ObjsApart(ExportObj(Obj(sp, sp.records[a]), at), ExportObj(Obj(sp, sp.records[b]), at))
  {
    assert RecordedOk(sp, a) && RecordedOk(sp, b);
  }

  // ------------------------------------------------------------------
  // Mixed documents
  // ------------------------------------------------------------------

  /** A stored document: a transaction, or a reservation or profile. */
  datatype Stored = OfTx(doc: Doc) | OfObj(obj: ObjDoc)

  function Load(cfg: Config, t: Table, s: Stored, known: Option<set<Backend>>, at: Clock): Table {
    match s
    case OfTx(doc) => t.(tx := Import(cfg, t.tx, doc, known, at))
    case OfObj(obj) => t.(sp := ImportObj(cfg, t.sp, obj, known, at))
  }

  function LoadAll(cfg: Config, t: Table, docs: seq<Stored>, known: Option<set<Backend>>, at: Clock): Table {
    if docs == [] then t else Load(cfg, LoadAll(cfg, t, docs[..|docs| - 1], known, at), docs[|docs| - 1], known, at)
  }

  function TxDocs(docs: seq<Stored>): seq<Doc> {
    if docs == [] then [] else TxDocs(docs[..|docs| - 1]) + if docs[|docs| - 1].OfTx? then [docs[|docs| - 1].doc] else []
  }

  function ObjDocs(docs: seq<Stored>): seq<ObjDoc> {
    if docs == [] then [] else ObjDocs(docs[..|docs| - 1]) + if docs[|docs| - 1].OfObj? then [docs[|docs| - 1].obj] else []
  }

  /** In whatever order the two kinds of documents are mixed, each kind is loaded as if it came alone. */
  lemma {:induction false} KindsLoadApart(cfg: Config, t: Table, docs: seq<Stored>, known: Option<set<Backend>>, at: Clock)
    ensures LoadAll(cfg, t, docs, known, at) == Table(Restore(cfg, t.tx, TxDocs(docs), known, at), RestoreObjs(cfg, t.sp, ObjDocs(docs), known, at))
  {
    hide Import, ImportObj;
    if docs != [] {
      var before, last := docs[..|docs| - 1], docs[|docs| - 1];
      KindsLoadApart(cfg, t, before, known, at);
      if last.OfTx? {
        assert TxDocs(docs)[..|TxDocs(docs)| - 1] == TxDocs(before);
        assert ObjDocs(docs) == ObjDocs(before);
      } else {
        assert ObjDocs(docs)[..|ObjDocs(docs)| - 1] == ObjDocs(before);
        assert TxDocs(docs) == TxDocs(before);
      }
    }
  }
}
