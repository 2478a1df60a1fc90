/** The transaction store: changes wait in memory, coalesced by record, and are written to a database that may be away. */
module Store {
  datatype Maybe<+T> = Nothing | Just(value: T)

  /** A change `op` to the stored record `uid`. */
  datatype Entry<T> = Entry(uid: string, op: T)

  /** The queue (oldest first), the change being written, failures in a row of the change at the head, and whether
      everything noted so far is done with. */
  datatype State<T> = State(pending: seq<Entry<T>>, taken: Maybe<Entry<T>>, rejected: nat, idle: bool)

  predicate Has<T>(pending: seq<Entry<T>>, uid: string) {
    exists i :: 0 <= i < |pending| && pending[i].uid == uid
  }

  function Without<T>(pending: seq<Entry<T>>, uid: string): seq<Entry<T>> {
    if pending == [] then [] else if pending[0].uid == uid then pending[1..] else [pending[0]] + Without(pending[1..], uid)
  }

  /** The oldest entry of an empty queue would have to make room. */
  predicate NoRoom<T>(pending: seq<Entry<T>>, maxPending: int) {
    pending == [] && maxPending <= 0
  }

  /** The record's waiting change gives way to the new one, which waits last; without one, a full queue loses its oldest entry. */
  function Noted<T>(pending: seq<Entry<T>>, e: Entry<T>, maxPending: int): seq<Entry<T>>
    requires !NoRoom(pending, maxPending)
  {
    if Has(pending, e.uid) then Without(pending, e.uid) + [e]
    else if |pending| >= maxPending then pending[1..] + [e]
    else pending + [e]
  }

  /** A change that was not stored goes first again, unless a newer one superseded it. */
  function PutBack<T>(pending: seq<Entry<T>>, e: Entry<T>): seq<Entry<T>> {
    if Has(pending, e.uid) then pending else [e] + pending
  }

  function Enqueue<T>(s: State<T>, e: Entry<T>, maxPending: int): State<T> {
    if NoRoom(s.pending, maxPending) then s else s.(pending := Noted(s.pending, e, maxPending), idle := false)
  }

  /** The writer is idle exactly while there is nothing to write. */
  predicate Settled<T>(s: State<T>) {
    s.idle <==> s.pending == [] && s.taken.Nothing?
  }

  function Take<T>(s: State<T>): State<T> {
    if s.taken.Just? || s.pending == [] then s else s.(taken := Just(s.pending[0]), pending := s.pending[1..])
  }

  function Succeed<T>(s: State<T>): State<T> {
    if s.taken.Nothing? then s else s.(taken := Nothing, rejected := 0, idle := s.pending == [])
  }

  /** The database is away: wait for it. */
  function Defer<T>(s: State<T>): State<T> {
    if s.taken.Nothing? then s else s.(taken := Nothing, pending := PutBack(s.pending, s.taken.value))
  }

  predicate GivesUp<T>(s: State<T>, maxAttempts: int) {
    s.rejected + 1 >= maxAttempts
  }

  /** The database refuses the change: try again, but not for ever. */
  function Reject<T>(s: State<T>, maxAttempts: int): State<T> {
    if s.taken.Nothing? then s
    else if GivesUp(s, maxAttempts) then s.(taken := Nothing, rejected := 0, idle := s.pending == [])
    else s.(taken := Nothing, rejected := s.rejected + 1, pending := PutBack(s.pending, s.taken.value))
  }

  // ------------------------------------------------------------------
  // The store in place
  // ------------------------------------------------------------------

  class TransactionStore<T(==)> {
    const maxPending: int
    const maxAttempts: int
    var pending: seq<Entry<T>>
    var taken: Maybe<Entry<T>>
    var rejected: nat
    var idle: bool
    var dropped: nat

    constructor (maxPending: int, maxAttempts: int)
      ensures Valid() && View() == State([], Nothing, 0, true) && this.maxPending == maxPending && this.maxAttempts == maxAttempts && dropped == 0
    {
      this.maxPending, this.maxAttempts := maxPending, maxAttempts;
      pending, taken, rejected, idle, dropped := [], Nothing, 0, true, 0;
    }

    ghost function View(): State<T>
      reads this
    {
      State(pending, taken, rejected, idle)
    }

    ghost predicate Valid()
      reads this
    {
      Settled(View())
    }

    /** Where the record's change waits, if it does. */
    method IndexOf(uid: string) returns (found: Maybe<nat>)
      ensures found.Just? ==> found.value < |pending| && pending[found.value].uid == uid && !Has(pending[..found.value], uid)
      ensures found.Nothing? ==> !Has(pending, uid)
    {
      var i := 0;
      while i < |pending|
        invariant 0 <= i <= |pending| && forall j :: 0 <= j < i ==> pending[j].uid != uid
      {
        if pending[i].uid == uid {
          return Just(i);
        }
        i := i + 1;
      }
      found := Nothing;
    }

    /** Note a change; it fails when there is no room and nothing to drop. */
    method Note(uid: string, op: T) returns (failed: bool)
      requires Valid()
      modifies this`pending, this`idle, this`dropped
      ensures Valid() && failed == NoRoom(old(pending), maxPending)
      ensures View() == Enqueue(old(View()), Entry(uid, op), maxPending)
      ensures dropped == old(dropped) + if !failed && !Has(old(pending), uid) && |old(pending)| >= maxPending then 1 else 0
    {
      var at := IndexOf(uid);
      if at.Just? {
        WithoutAt(pending, uid, at.value);
        pending := pending[..at.value] + pending[at.value + 1..];
      } else if |pending| >= maxPending {
        if pending == [] {
          return true;
        }
        pending := pending[1..];
        dropped := dropped + 1;
      }
      pending := pending + [Entry(uid, op)];
      idle := false;
      failed := false;
    }

    /** The writer takes the oldest change. */
    method TakeNext()
      requires Valid() && taken.Nothing? && pending != []
      modifies this`pending, this`taken
      ensures Valid() && View() == Take(old(View()))
    {
      taken, pending := Just(pending[0]), pending[1..];
    }

    method Succeeded()
      requires Valid() && taken.Just?
      modifies this`taken, this`rejected, this`idle
      ensures Valid() && View() == Succeed(old(View()))
    {
      taken, rejected := Nothing, 0;
      idle := pending == [];
    }

    /** Put the change back at the front, unless a newer one superseded it. */
    method Return()
      requires taken.Just?
      modifies this`pending, this`taken
      ensures pending == PutBack(old(pending), old(taken).value) && taken == Nothing
    {
      var at := IndexOf(taken.value.uid);
      if at.Nothing? {
        pending := [taken.value] + pending;
      }
      taken := Nothing;
    }

    method Unreachable()
      requires Valid() && taken.Just?
      modifies this`pending, this`taken
      ensures Valid() && View() == Defer(old(View()))
    {
      Return();
    }

    method Refused()
      requires Valid() && taken.Just?
      modifies this`pending, this`taken, this`rejected, this`idle, this`dropped
      ensures Valid() && View() == Reject(old(View()), maxAttempts)
      ensures dropped == old(dropped) + if GivesUp(old(View()), maxAttempts) then 1 else 0
    {
      rejected := rejected + 1;
      if rejected >= maxAttempts {
        dropped := dropped + 1;
        taken, rejected := Nothing, 0;
        idle := pending == [];
      } else {
        Return();
      }
    }

    /** What `flush` waits for: nothing waits, and nothing is being written. */
    method Flushed() returns (done: bool)
      requires Valid()
      ensures done <==> pending == [] && taken == Nothing
    {
      done := idle;
    }
  }

  lemma {:induction false} WithoutAt<T>(pending: seq<Entry<T>>, uid: string, i: nat)
    requires i < |pending| && pending[i].uid == uid && !Has(pending[..i], uid)
    ensures Has(pending, uid) && Without(pending, uid) == pending[..i] + pending[i + 1..]
  {
    if i > 0 {
      assert pending[..i][0] == pending[0];
      var rest := pending[1..][..i - 1];
      forall j | 0 <= j < |rest| ensures rest[j].uid != uid {
        assert pending[..i][j + 1] == rest[j];
      }
      WithoutAt(pending[1..], uid, i - 1);
    }
  }

  // ------------------------------------------------------------------
  // The store and the database
  // ------------------------------------------------------------------

  datatype Change = Save(document: string, expires: real) | Delete

  /** A change and its place in the order in which all changes were made. */
  datatype Versioned = Versioned(change: Change, version: nat)

  /** The store, what the database has for each record, each record's latest change, the records whose latest change was
      dropped, and how many changes there were. */
  datatype World = World(s: State<Versioned>, db: map<string, Versioned>, latest: map<string, Versioned>, lost: set<string>, count: nat)

  const NewWorld := World(State([], Nothing, 0, true), map[], map[], {}, 0)

  /** A write that failed may have reached the database all the same. */
  datatype Action = Changes(uid: string, change: Change) | Takes | Succeeds | Defers(reached: bool) | Rejects(reached: bool)

  function Stored(w: World, reached: bool): map<string, Versioned> {
    if reached && w.s.taken.Just? then w.db[w.s.taken.value.uid := w.s.taken.value.op] else w.db
  }

  function Act(w: World, a: Action, maxPending: int, maxAttempts: int): World {
    match a
    case Changes(uid, change) =>
      var v := Versioned(change, w.count + 1);
      var full := !Has(w.s.pending, uid) && |w.s.pending| >= maxPending;
      World(Enqueue(w.s, Entry(uid, v), maxPending), w.db, w.latest[uid := v],
            if NoRoom(w.s.pending, maxPending) then w.lost + {uid} else (if full then w.lost + {w.s.pending[0].uid} else w.lost) - {uid}, w.count + 1)
    case Takes => w.(s := Take(w.s))
    case Succeeds => w.(s := Succeed(w.s), db := Stored(w, true))
    case Defers(reached) => w.(s := Defer(w.s), db := Stored(w, reached))
    case Rejects(reached) =>
      var given := w.s.taken.Just? && GivesUp(w.s, maxAttempts) && !Has(w.s.pending, w.s.taken.value.uid);
      w.(s := Reject(w.s, maxAttempts), db := Stored(w, reached), lost := if given then w.lost + {w.s.taken.value.uid} else w.lost)
  }

  function Run(actions: seq<Action>, maxPending: int, maxAttempts: int): World {
    if actions == [] then NewWorld else Act(Run(actions[..|actions| - 1], maxPending, maxAttempts), actions[|actions| - 1], maxPending, maxAttempts)
  }

  /** The change that waits for a record. */
  function Waiting<T>(pending: seq<Entry<T>>, uid: string): Maybe<T> {
    if pending == [] then Nothing else if pending[0].uid == uid then Just(pending[0].op) else Waiting(pending[1..], uid)
  }

  function InFlight(s: State<Versioned>, uid: string): Maybe<Versioned> {
    if s.taken.Just? && s.taken.value.uid == uid then Just(s.taken.value.op) else Nothing
  }

  function InDb(w: World, uid: string): Maybe<Versioned> {
    if uid in w.db then Just(w.db[uid]) else Nothing
  }

  /** What the store will eventually have for a record: what waits, else what is being written, else what is stored. */
  function Eventually(w: World, uid: string): Maybe<Versioned> {
    var waiting := Waiting(w.s.pending, uid);
    if waiting.Just? then waiting else if InFlight(w.s, uid).Just? then InFlight(w.s, uid) else InDb(w, uid)
  }

  predicate Older(a: Maybe<Versioned>, b: Maybe<Versioned>) {
    a.Just? && b.Just? ==> a.value.version <= b.value.version
  }

  /** For one record: the latest change is not lost, and no older change comes after a newer one. */
  predicate RecordOk(w: World, uid: string) {
    && (uid in w.latest && uid !in w.lost ==> Eventually(w, uid) == Just(w.latest[uid]))
    && Older(InDb(w, uid), InFlight(w.s, uid)) && Older(InFlight(w.s, uid), Waiting(w.s.pending, uid)) && Older(InDb(w, uid), Waiting(w.s.pending, uid))
    && (Waiting(w.s.pending, uid).Just? ==> Waiting(w.s.pending, uid).value.version <= w.count)
    && (InFlight(w.s, uid).Just? ==> InFlight(w.s, uid).value.version <= w.count)
    && (InDb(w, uid).Just? ==> InDb(w, uid).value.version <= w.count)
  }

  predicate Distinct<T>(pending: seq<Entry<T>>) {
    forall i, j :: 0 <= i < j < |pending| ==> pending[i].uid != pending[j].uid
  }

  ghost predicate Faithful(w: World, maxPending: int) {
    && Distinct(w.s.pending) && (forall uid: string :: RecordOk(w, uid))
    && |w.s.pending| + (if w.s.taken.Just? then 1 else 0) <= (if maxPending < 0 then 0 else maxPending) + 1
    && Settled(w.s)
  }

  // ------------------------------------------------------------------
  // One change at a time
  // ------------------------------------------------------------------

  lemma {:induction false} WaitingIff<T>(pending: seq<Entry<T>>, uid: string)
    ensures Waiting(pending, uid).Just? <==> Has(pending, uid)
  {
    if pending != [] {
      WaitingIff(pending[1..], uid);
      if pending[0].uid != uid && Has(pending, uid) {
        var i :| 0 <= i < |pending| && pending[i].uid == uid;
        assert pending[1..][i - 1].uid == uid;
      }
      if Has(pending[1..], uid) {
        var i :| 0 <= i < |pending[1..]| && pending[1..][i].uid == uid;
        assert pending[i + 1].uid == uid;
      }
    }
  }

  lemma {:induction false} WaitingAppended<T>(pending: seq<Entry<T>>, e: Entry<T>, uid: string)
    ensures Waiting(pending + [e], uid) == if Waiting(pending, uid).Just? then Waiting(pending, uid) else if e.uid == uid then Just(e.op) else Nothing
  {
    if pending == [] {
      assert pending + [e] == [e] && [e][1..] == [];
    } else {
      assert (pending + [e])[1..] == pending[1..] + [e];
      WaitingAppended(pending[1..], e, uid);
    }
  }

  lemma {:induction false} WaitingWithout<T>(pending: seq<Entry<T>>, gone: string, uid: string)
    requires Distinct(pending)
    ensures Distinct(Without(pending, gone)) && |Without(pending, gone)| == |pending| - (if Has(pending, gone) then 1 else 0)
    ensures forall e :: e in Without(pending, gone) ==> e in pending
    ensures Waiting(Without(pending, gone), uid) == if uid == gone then Nothing else Waiting(pending, uid)
  {
    WaitingIff(pending, gone);
    if pending != [] {
      WaitingIff(pending[1..], gone);
      if pending[0].uid == gone {
        forall i | 0 <= i < |pending[1..]| ensures pending[1..][i].uid != gone {
          assert pending[i + 1].uid != pending[0].uid;
        }
        WaitingIff(pending[1..], uid);
      } else {
        WaitingWithout(pending[1..], gone, uid);
        var rest := Without(pending[1..], gone);
        assert ([pending[0]] + rest)[1..] == rest;
        forall i, j | 0 <= i < j < |[pending[0]] + rest| ensures ([pending[0]] + rest)[i].uid != ([pending[0]] + rest)[j].uid {
          if i == 0 {
            assert rest[j - 1] in pending[1..];
          }
        }
      }
    }
  }

  lemma AppendDistinct<T>(pending: seq<Entry<T>>, e: Entry<T>)
    requires Distinct(pending) && !Has(pending, e.uid)
    ensures Distinct(pending + [e])
  {
  }

  lemma NotedWaits<T>(pending: seq<Entry<T>>, e: Entry<T>, maxPending: int, uid: string)
    requires Distinct(pending) && !NoRoom(pending, maxPending)
    ensures var full := !Has(pending, e.uid) && |pending| >= maxPending;
      && Distinct(Noted(pending, e, maxPending)) && |Noted(pending, e, maxPending)| == |pending| + (if Has(pending, e.uid) || full then 0 else 1)
      && Waiting(Noted(pending, e, maxPending), uid) ==
           if uid == e.uid then Just(e.op) else if full && uid == pending[0].uid then Nothing else Waiting(pending, uid)
  {
    hide Distinct;
    if Has(pending, e.uid) {
      WaitingWithout(pending, e.uid, uid);
      WaitingWithout(pending, e.uid, e.uid);
      WaitingIff(Without(pending, e.uid), e.uid);
      AppendDistinct(Without(pending, e.uid), e);
      WaitingAppended(Without(pending, e.uid), e, uid);
    } else if |pending| >= maxPending {
      TailWaits(pending, uid);
      TailWaits(pending, e.uid);
      WaitingIff(pending, e.uid);
      WaitingIff(pending[1..], e.uid);
      AppendDistinct(pending[1..], e);
      WaitingAppended(pending[1..], e, uid);
    } else {
      WaitingIff(pending, e.uid);
      AppendDistinct(pending, e);
      WaitingAppended(pending, e, uid);
    }
  }

  lemma TailWaits<T>(pending: seq<Entry<T>>, uid: string)
    requires Distinct(pending) && pending != []
    ensures Distinct(pending[1..])
    ensures Waiting(pending[1..], uid) == if uid == pending[0].uid then Nothing else Waiting(pending, uid)
  {
    if uid == pending[0].uid {
      WaitingIff(pending[1..], uid);
      forall i | 0 <= i < |pending[1..]| ensures pending[1..][i].uid != uid {
        assert pending[i + 1].uid != pending[0].uid;
      }
    }
  }

  lemma PutBackWaits<T>(pending: seq<Entry<T>>, e: Entry<T>, uid: string)
    requires Distinct(pending)
    ensures Distinct(PutBack(pending, e)) && |PutBack(pending, e)| <= |pending| + 1 && PutBack(pending, e) != []
    ensures Waiting(PutBack(pending, e), uid) == if Waiting(pending, uid).Just? then Waiting(pending, uid) else if e.uid == uid then Just(e.op) else Nothing
  {
    WaitingIff(pending, uid);
    if !Has(pending, e.uid) {
      assert ([e] + pending)[1..] == pending;
    }
  }

  lemma ChangeFaithful(w: World, uid: string, change: Change, maxPending: int, maxAttempts: int)
    requires Faithful(w, maxPending)
    ensures Faithful(Act(w, Changes(uid, change), maxPending, maxAttempts), maxPending)
  {
    hide Distinct, Noted, Has;
    var w' := Act(w, Changes(uid, change), maxPending, maxAttempts);
    var e := Entry(uid, Versioned(change, w.count + 1));
    if NoRoom(w.s.pending, maxPending) {
      forall x: string ensures RecordOk(w', x) {
        assert RecordOk(w, x);
      }
    } else {
      NotedWaits(w.s.pending, e, maxPending, uid);
      forall x: string ensures RecordOk(w', x) {
        NotedWaits(w.s.pending, e, maxPending, x);
        assert RecordOk(w, x);
      }
    }
  }

  lemma TakeFaithful(w: World, maxPending: int, maxAttempts: int)
    requires Faithful(w, maxPending)
    ensures Faithful(Act(w, Takes, maxPending, maxAttempts), maxPending)
  {
    var w' := Act(w, Takes, maxPending, maxAttempts);
    if w.s.taken.Nothing? && w.s.pending != [] {
      forall x: string ensures RecordOk(w', x) {
        TailWaits(w.s.pending, x);
        assert RecordOk(w, x);
      }
      TailWaits(w.s.pending, w.s.pending[0].uid);
    }
  }

  lemma SucceedFaithful(w: World, maxPending: int, maxAttempts: int)
    requires Faithful(w, maxPending)
    ensures Faithful(Act(w, Succeeds, maxPending, maxAttempts), maxPending)
  {
    var w' := Act(w, Succeeds, maxPending, maxAttempts);
    forall x: string ensures RecordOk(w', x) {
      assert RecordOk(w, x);
    }
  }

  lemma DeferFaithful(w: World, reached: bool, maxPending: int, maxAttempts: int)
    requires Faithful(w, maxPending)
    ensures Faithful(Act(w, Defers(reached), maxPending, maxAttempts), maxPending)
  {
    hide Distinct, PutBack;
    var w' := Act(w, Defers(reached), maxPending, maxAttempts);
    if w.s.taken.Just? {
      PutBackWaits(w.s.pending, w.s.taken.value, w.s.taken.value.uid);
    }
    forall x: string ensures RecordOk(w', x) {
      if w.s.taken.Just? {
        PutBackWaits(w.s.pending, w.s.taken.value, x);
      }
      assert RecordOk(w, x);
    }
  }

  lemma RejectFaithful(w: World, reached: bool, maxPending: int, maxAttempts: int)
    requires Faithful(w, maxPending)
    ensures Faithful(Act(w, Rejects(reached), maxPending, maxAttempts), maxPending)
  {
    hide Distinct, PutBack, Has;
    var w' := Act(w, Rejects(reached), maxPending, maxAttempts);
    if w.s.taken.Just? {
      PutBackWaits(w.s.pending, w.s.taken.value, w.s.taken.value.uid);
    }
    forall x: string ensures RecordOk(w', x) {
      if w.s.taken.Just? {
        PutBackWaits(w.s.pending, w.s.taken.value, x);
        WaitingIff(w.s.pending, x);
      }
      assert RecordOk(w, x);
    }
  }

  /** MAIN RESULT. In every interleaving of changes and writes that succeed, fail or are given up on, for every record whose
      latest change was not dropped: that change is what waits, else what is being written, else what is stored; no older
      change is ever in a later place than a newer one; at most `max_pending` + 1 changes are kept; and the store is
      idle exactly when nothing waits and nothing is being written. */
  lemma {:induction false} LaggingReplica(actions: seq<Action>, maxPending: int, maxAttempts: int)
    ensures Faithful(Run(actions, maxPending, maxAttempts), maxPending)
  {
    hide Act;
    if actions != [] {
      hide Faithful;
      var w := Run(actions[..|actions| - 1], maxPending, maxAttempts);
      LaggingReplica(actions[..|actions| - 1], maxPending, maxAttempts);
      match actions[|actions| - 1]
      case Changes(uid, change) => ChangeFaithful(w, uid, change, maxPending, maxAttempts);
      case Takes => TakeFaithful(w, maxPending, maxAttempts);
      case Succeeds => SucceedFaithful(w, maxPending, maxAttempts);
      case Defers(reached) => DeferFaithful(w, reached, maxPending, maxAttempts);
      case Rejects(reached) => RejectFaithful(w, reached, maxPending, maxAttempts);
    }
  }

  /** MAIN RESULT. A stored record is never overwritten by an older change: whatever happens next, the version the database
      has for it does not go back. */
  lemma NeverOvertaken(actions: seq<Action>, a: Action, maxPending: int, maxAttempts: int, uid: string)
    ensures var w := Run(actions, maxPending, maxAttempts);
      uid in w.db ==> uid in Run(actions + [a], maxPending, maxAttempts).db && w.db[uid].version <= Run(actions + [a], maxPending, maxAttempts).db[uid].version
  {
    assert (actions + [a])[..|actions|] == actions;
    LaggingReplica(actions, maxPending, maxAttempts);
    assert RecordOk(Run(actions, maxPending, maxAttempts), uid);
  }

  lemma {:induction false} LatestCounted(actions: seq<Action>, maxPending: int, maxAttempts: int, uid: string)
    ensures var w := Run(actions, maxPending, maxAttempts); uid in w.latest ==> w.latest[uid].version <= w.count
  {
    if actions != [] {
      LatestCounted(actions[..|actions| - 1], maxPending, maxAttempts, uid);
    }
  }

  lemma LatestNewer(w: World, a: Action, maxPending: int, maxAttempts: int, uid: string)
    requires uid in w.latest ==> w.latest[uid].version <= w.count
    ensures uid in w.latest ==> uid in Act(w, a, maxPending, maxAttempts).latest && w.latest[uid].version <= Act(w, a, maxPending, maxAttempts).latest[uid].version
  {
  }

  /** From the first `n` actions on, a record's latest change only becomes newer, and so does the one stored. */
  lemma {:induction false} OnlyNewer(actions: seq<Action>, n: nat, maxPending: int, maxAttempts: int, uid: string)
    requires n <= |actions|
    ensures var (w, w') := (Run(actions[..n], maxPending, maxAttempts), Run(actions, maxPending, maxAttempts));
      && (uid in w.latest ==> uid in w'.latest && w.latest[uid].version <= w'.latest[uid].version)
      && (uid in w.db ==> uid in w'.db && w.db[uid].version <= w'.db[uid].version)
  {
    hide Act;
    if n == |actions| {
      assert actions[..n] == actions;
    } else {
      var before, a := actions[..|actions| - 1], actions[|actions| - 1];
      assert before[..n] == actions[..n] && before + [a] == actions;
      OnlyNewer(before, n, maxPending, maxAttempts, uid);
      LatestCounted(before, maxPending, maxAttempts, uid);
      LatestNewer(Run(before, maxPending, maxAttempts), a, maxPending, maxAttempts, uid);
      NeverOvertaken(before, a, maxPending, maxAttempts, uid);
    }
  }

  /** MAIN RESULT. When `flush` was called after `called` actions and woken up after `woken`, then whenever it returns, each
      record noted before the call and not dropped by the wake-up is stored as it was noted, or as something newer, even if
      more changes came in between the wake-up and the return. */
  lemma FlushedIsStored(actions: seq<Action>, called: nat, woken: nat, maxPending: int, maxAttempts: int, uid: string)
    requires called <= woken <= |actions| && Run(actions[..woken], maxPending, maxAttempts).s.idle
    requires uid in Run(actions[..called], maxPending, maxAttempts).latest && uid !in Run(actions[..woken], maxPending, maxAttempts).lost
    ensures var w := Run(actions, maxPending, maxAttempts);
      uid in w.db && Run(actions[..called], maxPending, maxAttempts).latest[uid].version <= w.db[uid].version
  {
    hide Run, Distinct;
    assert actions[..woken][..called] == actions[..called];
    OnlyNewer(actions[..woken], called, maxPending, maxAttempts, uid);
    LaggingReplica(actions[..woken], maxPending, maxAttempts);
    assert RecordOk(Run(actions[..woken], maxPending, maxAttempts), uid);
    OnlyNewer(actions, woken, maxPending, maxAttempts, uid);
  }

  /** It needs room for one change: without, every change fails, and nothing is ever stored. */
  lemma {:induction false} NothingWithoutRoom(actions: seq<Action>, maxPending: int, maxAttempts: int, uid: string)
    requires maxPending <= 0
    ensures var w := Run(actions, maxPending, maxAttempts);
      NoRoom(w.s.pending, maxPending) && w.s.taken.Nothing? && w.db == map[] && (uid in w.latest ==> uid in w.lost)
  {
    if actions != [] {
      NothingWithoutRoom(actions[..|actions| - 1], maxPending, maxAttempts, uid);
    }
  }

  // ------------------------------------------------------------------
  // When a change is dropped
  // ------------------------------------------------------------------

  /** How often in a row writes were refused: an outage does not count, and a change that was stored or given up on ends it. */
  function InARow(actions: seq<Action>, maxPending: int, maxAttempts: int): nat {
    if actions == [] then 0
    else
      var before := actions[..|actions| - 1];
      var n := InARow(before, maxPending, maxAttempts);
      match actions[|actions| - 1]
      case Succeeds => if Run(before, maxPending, maxAttempts).s.taken.Just? then 0 else n
      case Rejects(_) => if Run(before, maxPending, maxAttempts).s.taken.Nothing? then n else if n + 1 >= maxAttempts then 0 else n + 1
      case _ => n
  }

  lemma {:induction false} RefusalsInARow(actions: seq<Action>, maxPending: int, maxAttempts: int)
    ensures Run(actions, maxPending, maxAttempts).s.rejected == InARow(actions, maxPending, maxAttempts)
  {
    if actions != [] {
      RefusalsInARow(actions[..|actions| - 1], maxPending, maxAttempts);
    }
  }

  /** The action drops the latest change of `uid`: the queue is full of other records' changes and this is the oldest; or there is
      no room at all; or the change was refused `max_attempts` times in a row, and no newer one waits. */
  ghost predicate IsDroppedBy(w: World, a: Action, uid: string, refusals: nat, maxPending: int, maxAttempts: int) {
    match a
    case Changes(changed, _) =>
      (forall i :: 0 <= i < |w.s.pending| ==> w.s.pending[i].uid != changed) && |w.s.pending| >= maxPending &&
      (if w.s.pending == [] then uid == changed else uid == w.s.pending[0].uid)
    case Rejects(_) =>
      w.s.taken.Just? && w.s.taken.value.uid == uid && refusals + 1 >= maxAttempts && forall i :: 0 <= i < |w.s.pending| ==> w.s.pending[i].uid != uid
    case _ => false
  }

  /** The action brings a change of `uid` that waits from then on. */
  predicate BringsAnew(w: World, a: Action, uid: string, maxPending: int) {
    a.Changes? && a.uid == uid && (w.s.pending != [] || maxPending > 0)
  }

  /** MAIN RESULT. Over any run, the latest change of a record is lost by an action exactly when it is dropped for lack of room, or because
      the database refused it, `max_attempts` times in a row; and a lost record is found again with its next change. */
  lemma LostExactly(actions: seq<Action>, a: Action, maxPending: int, maxAttempts: int, uid: string)
    ensures var (w, w') := (Run(actions, maxPending, maxAttempts), Run(actions + [a], maxPending, maxAttempts));
      uid in w'.lost <==> IsDroppedBy(w, a, uid, InARow(actions, maxPending, maxAttempts), maxPending, maxAttempts) || (uid in w.lost && !BringsAnew(w, a, uid, maxPending))
  {
    assert (actions + [a])[..|actions|] == actions;
    RefusalsInARow(actions, maxPending, maxAttempts);
    LaggingReplica(actions, maxPending, maxAttempts);
    hide Run, InARow;
  }
}
