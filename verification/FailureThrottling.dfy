/** The throttle on wrong API keys: how many attempts an address gets. */
module FailureThrottling {
  datatype Maybe<+T> = Nothing | Just(value: T)

  const MAX_TRACKED_ADDRESSES := 10_000

  datatype Settings = Settings(maxFailures: int, window: real, lockout: real)

  /** What is kept about one address: its recent failures, and until when it is locked out. */
  datatype Address = Address(recent: Maybe<seq<real>>, until: Maybe<real>)

  const Unknown := Address(Nothing, Nothing)

  /** Without the failures at the front that are older than the window. */
  function Recent(times: seq<real>, window: real, now: real): (kept: seq<real>) {
    if times != [] && now - times[0] > window then Recent(times[1..], window, now) else times
  }

  function TimesOf(a: Address): seq<real> {
    if a.recent.Just? then a.recent.value else []
  }

  function Failure(s: Settings, a: Address, now: real): Address {
    var times := Recent(TimesOf(a) + [now], s.window, now);
    if |times| >= s.maxFailures then Address(Nothing, Just(now + s.lockout)) else a.(recent := Just(times))
  }

  function Success(a: Address): Address {
    a.(recent := Nothing)
  }

  /** The seconds, rounded up past the lock's end, for which an address is refused; 0 when it is not. */
  function RetryAfter(a: Address, now: real): int {
    if a.until.Nothing? || a.until.value - now <= 0.0 then 0 else (a.until.value - now).Floor + 1
  }

  /** A lock that is over is forgotten when somebody asks. */
  function Asked(a: Address, now: real): Address {
    if a.until.Just? && a.until.value - now <= 0.0 then a.(until := Nothing) else a
  }

  predicate IsStale(times: seq<real>, window: real, now: real) {
    times == [] || now - times[|times| - 1] > window
  }

  /** Whether a failure of `address` can be noted without making room first. */
  predicate HasRoom(failures: map<string, seq<real>>, address: string) {
    address in failures || |failures| < MAX_TRACKED_ADDRESSES
  }

  /** What is too old to matter may be forgotten at any time. */
  function Forgotten(s: Settings, a: Address, now: real): Address {
    Address(if a.recent.Just? && IsStale(a.recent.value, s.window, now) then Nothing else a.recent,
            if a.until.Just? && a.until.value <= now then Nothing else a.until)
  }

  // ------------------------------------------------------------------
  // The throttle in place
  // ------------------------------------------------------------------

  ghost predicate Distinct(order: seq<string>) {
    forall i, j :: 0 <= i < j < |order| ==> order[i] != order[j]
  }

  /** An ordered dictionary's keys after one is deleted. */
  function Without(order: seq<string>, address: string): (r: seq<string>)
    ensures forall a :: a in r <==> a in order && a != address
    ensures Distinct(order) ==> Distinct(r)
  {
    if order == [] then [] else
      var rest := Without(order[1..], address);
      assert forall a :: a in order <==> a == order[0] || a in order[1..];
      assert Distinct(order) ==> Distinct(order[1..]) && order[0] !in order[1..];
      if order[0] == address then rest else [order[0]] + rest
  }

  /** Those of the tracked addresses that are in `keep`, in the same order. */
  function Those(order: seq<string>, keep: set<string>): (r: seq<string>)
    ensures Distinct(order) && (forall a :: a in order ==> a in keep) ==> r == order
    ensures forall a :: a in r ==> a in order && a in keep
  {
    if order == [] then [] else
      assert forall a :: a in order <==> a == order[0] || a in order[1..];
      assert Distinct(order) ==> Distinct(order[1..]);
      if order[0] in keep then [order[0]] + Those(order[1..], keep) else Those(order[1..], keep)
  }

  lemma {:induction false} OneLess(order: seq<string>, keep: set<string>, address: string)
    ensures Those(order, keep - {address}) == Without(Those(order, keep), address)
  {
    hide Distinct;
    if order != [] {
      var head, rest, less := order[0], Those(order[1..], keep), Those(order[1..], keep - {address});
      OneLess(order[1..], keep, address);
      assert Those(order, keep) == if head in keep then [head] + rest else rest;
      assert Those(order, keep - {address}) == if head in keep - {address} then [head] + less else less;
      WithoutHead(head, rest, address);
    }
  }

  lemma WithoutHead(head: string, rest: seq<string>, address: string)
    ensures Without([head] + rest, address) == if head == address then Without(rest, address) else [head] + Without(rest, address)
  {
    hide Distinct;
    assert ([head] + rest)[1..] == rest;
  }

  /** Deleting the first key leaves the others as they are. */
  lemma {:induction false} FirstLess(order: seq<string>)
    requires Distinct(order) && order != []
    ensures Without(order, order[0]) == order[1..]
  {
    NotThere(order[1..], order[0]);
  }

  lemma {:induction false} NotThere(order: seq<string>, address: string)
    requires address !in order
    ensures Without(order, address) == order
  {
    if order != [] {
      NotThere(order[1..], address);
    }
  }

  lemma {:induction false} AsMany(order: seq<string>, keys: set<string>)
    requires Distinct(order) && forall a :: a in keys <==> a in order
    ensures |keys| == |order|
  {
    if order == [] {
      assert keys == {};
    } else {
      assert forall a :: a in order <==> a == order[0] || a in order[1..];
      assert order[0] !in order[1..];
      AsMany(order[1..], keys - {order[0]});
    }
  }

  function Min(a: nat, b: nat): nat {
    if a < b then a else b
  }

  /** The tracked addresses a sweep for stale ones keeps. */
  ghost function Fresh(s: Settings, failures: map<string, seq<real>>, now: real): set<string> {
    set a | a in failures && !IsStale(failures[a], s.window, now)
  }

  /** What making room does to an address: what is too old is forgotten, and, when that is not enough, its failures may be. */
  ghost predicate Made(before: Address, after: Address, s: Settings, failures: map<string, seq<real>>, now: real) {
    || after == Forgotten(s, before, now)
    || (after == Forgotten(s, before, now).(recent := Nothing) && |Fresh(s, failures, now)| >= MAX_TRACKED_ADDRESSES)
  }

  lemma NotTracked(s: Settings, a: Address, now: real)
    ensures a.recent.Nothing? ==> Forgotten(s, a, now).recent.Nothing?
  {
  }

  lemma SubsetIsSmaller(a: set<string>, b: set<string>)
    requires a <= b
    ensures |a| <= |b|
  {
    assert b == a + (b - a);
  }

  class FailureThrottle {
    const settings: Settings
    var failures: map<string, seq<real>>
    var order: seq<string>                  // the tracked addresses, oldest first
    var lockedUntil: map<string, real>

    constructor (settings: Settings)
      ensures this.settings == settings && Valid() && forall a :: About(a) == Unknown
    {
      this.settings := settings;
      failures, order, lockedUntil := map[], [], map[];
    }

    ghost predicate Valid()
      reads this
    {
      (forall a :: a in failures <==> a in order) && Distinct(order)
    }

    function About(a: string): Address
      reads this
    {
      Address(if a in failures then Just(failures[a]) else Nothing, if a in lockedUntil then Just(lockedUntil[a]) else Nothing)
    }

    method AskRetryAfter(address: string, now: real) returns (seconds: int)
      modifies this`lockedUntil
      ensures seconds == RetryAfter(old(About(address)), now) && About(address) == Asked(old(About(address)), now)
      ensures forall a :: a != address ==> About(a) == old(About(a))
    {
      if address !in lockedUntil {
        return 0;
      }
      var remaining := lockedUntil[address] - now;
      if remaining <= 0.0 {
        lockedUntil := lockedUntil - {address};
        return 0;
      }
      seconds := remaining.Floor + 1;
    }

    /** Forget an address's failures. */
    method Untrack(address: string)
      requires Valid() && address in failures
      modifies this`failures, this`order
      ensures Valid() && failures == old(failures) - {address} && |failures| < |old(failures)|
      ensures order == Without(old(order), address)
    {
      hide Distinct;
      assert failures.Keys == (failures - {address}).Keys + {address};
      order := Without(order, address);
      failures := failures - {address};
    }

    /** Drop what is stale, then the oldest tracked, until there is room: of those that are not stale the newest stay tracked,
        as many as fit. */
    method ForgetStale(now: real)
      requires Valid()
      modifies this`failures, this`order, this`lockedUntil
      ensures Valid() && |failures| < MAX_TRACKED_ADDRESSES
      ensures forall a :: Made(old(About(a)), About(a), settings, old(failures), now)
      ensures var young := Those(old(order), Fresh(settings, old(failures), now));
        order == young[|young| - Min(|young|, MAX_TRACKED_ADDRESSES - 1)..]
    {
      hide Distinct, Those;
      DropStale(now);
      assert failures.Keys == Fresh(settings, old(failures), now);
      lockedUntil := map a | a in lockedUntil && lockedUntil[a] > now :: lockedUntil[a];
      DropOldest();
    }

    method DropOldest()
      requires Valid()
      modifies this`failures, this`order
      ensures Valid() && |failures| < MAX_TRACKED_ADDRESSES && (|old(failures)| < MAX_TRACKED_ADDRESSES ==> failures == old(failures))
      ensures failures.Keys <= old(failures).Keys && forall a :: a in failures ==> failures[a] == old(failures)[a]
      ensures order == old(order)[|old(order)| - Min(|old(order)|, MAX_TRACKED_ADDRESSES - 1)..]
    {
      hide Distinct;
      ghost var was := order;
      while |failures| >= MAX_TRACKED_ADDRESSES
        invariant Valid() && (|old(failures)| < MAX_TRACKED_ADDRESSES ==> failures == old(failures))
        invariant failures.Keys <= old(failures).Keys && forall a :: a in failures ==> failures[a] == old(failures)[a]
        invariant Min(|was|, MAX_TRACKED_ADDRESSES - 1) <= |order| <= |was| && order == was[|was| - |order|..]
        decreases |failures|
      {
        SubsetIsSmaller(failures.Keys, old(failures).Keys);
        AsMany(order, failures.Keys);
        FirstLess(order);
        Untrack(order[0]);
      }
      AsMany(order, failures.Keys);
    }

    method DropStale(now: real)
      requires Valid()
      modifies this`failures, this`order
      ensures Valid() && failures == map a | a in Fresh(settings, old(failures), now) :: old(failures)[a]
      ensures order == Those(old(order), Fresh(settings, old(failures), now))
    {
      hide Distinct, Those, IsStale;
      var todo := order;
      ghost var all := failures;
      for i := 0 to |todo|
        invariant Valid() && failures.Keys <= all.Keys && todo == old(order) && all == old(failures)
        invariant forall a :: a in failures ==> failures[a] == all[a]
        invariant order == Those(old(order), failures.Keys)
        invariant forall a :: a in all && a !in failures ==> IsStale(all[a], settings.window, now)
        invariant forall j :: 0 <= j < i && todo[j] in failures ==> !IsStale(failures[todo[j]], settings.window, now)
      {
        if todo[i] in failures && IsStale(failures[todo[i]], settings.window, now) {
          OneLess(old(order), failures.Keys, todo[i]);
          assert (failures - {todo[i]}).Keys == failures.Keys - {todo[i]};
          Untrack(todo[i]);
        }
      }
      assert failures.Keys == Fresh(settings, all, now);
    }

    /** Without the failures that are too old. */
    method Slide(times: seq<real>, now: real) returns (recent: seq<real>)
      ensures recent == Recent(times, settings.window, now)
    {
      recent := times;
      while recent != [] && now - recent[0] > settings.window
        invariant Recent(recent, settings.window, now) == Recent(times, settings.window, now)
        decreases |recent|
      {
        recent := recent[1..];
      }
    }

    /** A wrong key from `address`. */
    method RecordFailure(address: string, now: real)
      requires Valid()
      modifies this`failures, this`order, this`lockedUntil
      ensures Valid()
      ensures HasRoom(old(failures), address) ==>
                About(address) == Failure(settings, old(About(address)), now) && forall a :: a != address ==> About(a) == old(About(a))
      ensures !HasRoom(old(failures), address) ==> About(address) == Failure(settings, Forgotten(settings, old(About(address)), now), now)
      ensures !HasRoom(old(failures), address) ==> forall a :: a != address ==> Made(old(About(a)), About(a), settings, old(failures), now)
    {
      hide Distinct, Recent, IsStale, Forgotten;
      NotTracked(settings, About(address), now);
      if address !in failures && |failures| >= MAX_TRACKED_ADDRESSES {
        ForgetStale(now);
      }
      assert HasRoom(old(failures), address) ==> forall a :: About(a) == old(About(a));
      assert !HasRoom(old(failures), address) ==>
               About(address) == Forgotten(settings, old(About(address)), now) && forall a :: Made(old(About(a)), About(a), settings, old(failures), now);
      Note(address, now);
    }

    /** Append the failure, and lock the address out when there are too many. */
    method Note(address: string, now: real)
      requires Valid()
      modifies this`failures, this`order, this`lockedUntil
      ensures Valid() && About(address) == Failure(settings, old(About(address)), now)
      ensures forall a :: a != address ==> About(a) == old(About(a))
    {
      hide Recent, Distinct;
      var recent := Append(address, now);
      if |recent| >= settings.maxFailures {
        lockedUntil := lockedUntil[address := now + settings.lockout];
        Untrack(address);
      }
    }

    method Append(address: string, now: real) returns (recent: seq<real>)
      requires Valid()
      modifies this`failures, this`order
      ensures recent == Recent(TimesOf(old(About(address))) + [now], settings.window, now)
      ensures Valid() && failures == old(failures)[address := recent]
    {
      hide Recent, Distinct;
      Track(address);
      recent := Slide(failures[address] + [now], now);
      failures := failures[address := recent];
    }

    method Track(address: string)
      requires Valid()
      modifies this`failures, this`order
      ensures Valid() && failures == if address in old(failures) then old(failures) else old(failures)[address := []]
      ensures order == if address in old(failures) then old(order) else old(order) + [address]
    {
      if address !in failures {
        order := order + [address];
        failures := failures[address := []];
      }
    }

    method RecordSuccess(address: string)
      requires Valid()
      modifies this`failures, this`order
      ensures Valid() && About(address) == Success(old(About(address))) && forall a :: a != address ==> About(a) == old(About(a))
    {
      if address in failures {
        Untrack(address);
      }
    }
  }

  // ------------------------------------------------------------------
  // One address over time
  // ------------------------------------------------------------------

  datatype Event = Fails(now: real) | Succeeds(now: real) | Asks(now: real) | Forgets(now: real)

  function Act(s: Settings, a: Address, e: Event): Address {
    match e
    case Fails(now) => Failure(s, a, now)
    case Succeeds(_) => Success(a)
    case Asks(now) => Asked(a, now)
    case Forgets(now) => Forgotten(s, a, now)
  }

  function After(s: Settings, run: seq<Event>): Address {
    if run == [] then Unknown else Act(s, After(s, run[..|run| - 1]), run[|run| - 1])
  }

  /** The clock never goes back, and a failure is recorded only when the address was allowed to try. */
  ghost predicate Proper(s: Settings, run: seq<Event>) {
    && (forall i, j :: 0 <= i < j < |run| ==> run[i].now <= run[j].now)
    && (forall i :: 0 <= i < |run| && run[i].Fails? ==> RetryAfter(After(s, run[..i]), run[i].now) == 0)
  }

  function Failures(run: seq<Event>): nat {
    if run == [] then 0 else Failures(run[..|run| - 1]) + if run[|run| - 1].Fails? then 1 else 0
  }

  /** The sweep drops from the front only, and keeps what is young enough. */
  lemma {:induction false} RecentKeeps(times: seq<real>, window: real, now: real, n: nat)
    requires n <= |times| && forall i :: |times| - n <= i < |times| ==> now - times[i] <= window
    ensures n <= |Recent(times, window, now)| <= |times|
    ensures Recent(times, window, now) == times[|times| - |Recent(times, window, now)|..]
  {
    if times != [] && now - times[0] > window {
      assert n < |times|;
      var rest := times[1..];
      forall i | |rest| - n <= i < |rest| ensures now - rest[i] <= window {
        assert rest[i] == times[i + 1];
      }
      RecentKeeps(rest, window, now, n);
      var k := |Recent(rest, window, now)|;
      assert rest[|rest| - k..] == times[|times| - k..];
    }
  }

  /** The last `n` times are no earlier than `start`. */
  ghost predicate LastSince(times: seq<real>, n: nat, start: real) {
    |times| >= n && forall i :: |times| - n <= i < |times| ==> times[i] >= start
  }

  /** Since `start`, without a success, there were `n` failures: either all of them are remembered, and they are fewer than it
      takes to lock, or the last of them locked the address at `start` or later. */
  ghost predicate Counted(s: Settings, a: Address, start: real, n: nat) {
    || (n < s.maxFailures && LastSince(TimesOf(a), n, start))
    || (n <= s.maxFailures && a.until.Just? && a.until.value >= start + s.lockout)
  }

  /** One more failure within the window is remembered with those before it. */
  lemma RecentSince(times: seq<real>, n: nat, start: real, window: real, now: real)
    requires LastSince(times, n, start) && start <= now && now - start < window
    ensures LastSince(Recent(times + [now], window, now), n + 1, start)
  {
    var more := times + [now];
    forall i | |more| - (n + 1) <= i < |more| ensures more[i] >= start && now - more[i] <= window {}
    RecentKeeps(more, window, now, n + 1);
    hide Recent;
    var kept := Recent(more, window, now);
    forall i | |kept| - (n + 1) <= i < |kept| ensures kept[i] >= start {
      assert kept[i] == more[|more| - |kept| + i];
    }
  }

  lemma FailureCounted(s: Settings, a: Address, start: real, n: nat, now: real)
    requires Counted(s, a, start, n) && s.maxFailures >= 1 && start <= now && now - start < s.window && now - start < s.lockout
    requires RetryAfter(a, now) == 0
    ensures Counted(s, Failure(s, a, now), start, n + 1)
  {
    hide LastSince, Recent;
    if n < s.maxFailures && LastSince(TimesOf(a), n, start) {
      RecentSince(TimesOf(a), n, start, s.window, now);
      EnoughTimes(Recent(TimesOf(a) + [now], s.window, now), n + 1, start);
    }
  }

  lemma EnoughTimes(times: seq<real>, n: nat, start: real)
    requires LastSince(times, n, start)
    ensures |times| >= n
  {
  }

  lemma StepCounted(s: Settings, a: Address, start: real, n: nat, e: Event)
    requires Counted(s, a, start, n) && s.maxFailures >= 1 && start <= e.now && e.now - start < s.window && e.now - start < s.lockout
    requires !e.Succeeds? && (e.Fails? ==> RetryAfter(a, e.now) == 0)
    ensures Counted(s, Act(s, a, e), start, n + if e.Fails? then 1 else 0)
  {
    if e.Fails? {
      FailureCounted(s, a, start, n, e.now);
    }
  }

  /** From event `i` on, for as long as the interval lasts and nobody succeeds. */
  lemma {:induction false} IntervalCounted(s: Settings, run: seq<Event>, i: nat, j: nat)
    requires Proper(s, run) && s.maxFailures >= 1 && i < j <= |run|
    requires run[j - 1].now - run[i].now < s.window && run[j - 1].now - run[i].now < s.lockout
    requires forall k :: i <= k < j ==> !run[k].Succeeds?
    ensures Counted(s, After(s, run[..j]), run[i].now, Failures(run[i..j]))
  {
    hide Counted, Act, RetryAfter, Recent, Failure, LastSince, Forgotten;
    assert run[..j][..j - 1] == run[..j - 1];
    assert run[i..j][..j - i - 1] == run[i..j - 1];
    if i == j - 1 {
      NothingCounted(s, After(s, run[..i]), run[i].now);
    } else {
      assert run[j - 2].now <= run[j - 1].now;
      IntervalCounted(s, run, i, j - 1);
    }
    StepCounted(s, After(s, run[..j - 1]), run[i].now, Failures(run[i..j - 1]), run[j - 1]);
  }

  lemma NothingCounted(s: Settings, a: Address, start: real)
    requires s.maxFailures >= 1
    ensures Counted(s, a, start, 0)
  {
  }

  /** MAIN RESULT. In any interval shorter than both the window and the lockout, in which an address has no success, at most
      `max_failures` of its failures are recorded. */
  lemma RateIsBounded(s: Settings, run: seq<Event>, i: nat, j: nat)
    requires Proper(s, run) && s.maxFailures >= 1 && i < j <= |run|
    requires run[j - 1].now - run[i].now < s.window && run[j - 1].now - run[i].now < s.lockout
    requires forall k :: i <= k < j ==> !run[k].Succeeds?
    ensures Failures(run[i..j]) <= s.maxFailures
  {
    IntervalCounted(s, run, i, j);
  }

  /** And when there were that many, the address is refused until the interval's start plus the lockout, at least. */
  lemma TheLimitLocks(s: Settings, run: seq<Event>, i: nat, j: nat, later: real)
    requires Proper(s, run) && s.maxFailures >= 1 && i < j <= |run|
    requires run[j - 1].now - run[i].now < s.window && run[j - 1].now - run[i].now < s.lockout
    requires forall k :: i <= k < j ==> !run[k].Succeeds?
    requires Failures(run[i..j]) == s.maxFailures && later < run[i].now + s.lockout
    ensures RetryAfter(After(s, run[..j]), later) > 0
  {
    IntervalCounted(s, run, i, j);
  }

  // ------------------------------------------------------------------
  // Where a lock comes from
  // ------------------------------------------------------------------

  /** How many failures were recorded from the time `from` on, without a success since. */
  function FailuresFrom(run: seq<Event>, from: real): nat {
    if run == [] || run[|run| - 1].Succeeds? then 0
    else FailuresFrom(run[..|run| - 1], from) + if run[|run| - 1].Fails? && run[|run| - 1].now >= from then 1 else 0
  }

  /** The failures that are remembered are in order, and each of them, with those after it, was recorded. */
  ghost predicate Remembered(times: seq<real>, run: seq<Event>) {
    && (forall i, j :: 0 <= i < j < |times| ==> times[i] <= times[j])
    && (forall i :: 0 <= i < |times| ==> FailuresFrom(run, times[i]) >= |times| - i)
    && (forall i :: 0 <= i < |times| && run != [] ==> times[i] <= run[|run| - 1].now)
  }

  /** The `i`th event is a failure, at least the `max_failures`th within the window, and set the lock that ends at `until`. */
  ghost predicate Locks(s: Settings, run: seq<Event>, i: nat, until: real)
    requires i < |run|
  {
    run[i].Fails? && until == run[i].now + s.lockout && FailuresFrom(run[..i + 1], run[i].now - s.window) >= s.maxFailures
  }

  ghost predicate HasCause(s: Settings, a: Address, run: seq<Event>) {
    a.until.Just? ==> exists i: nat :: i < |run| && Locks(s, run, i, a.until.value)
  }

  lemma {:induction false} EarlierCountsMore(run: seq<Event>, from: real, earlier: real)
    requires earlier <= from
    ensures FailuresFrom(run, earlier) >= FailuresFrom(run, from)
  {
    if run != [] {
      EarlierCountsMore(run[..|run| - 1], from, earlier);
    }
  }

  /** What is left after the sweep is the end of it, and within the window. */
  lemma {:induction false} RecentIs(times: seq<real>, window: real, now: real)
    ensures var kept := Recent(times, window, now); |kept| <= |times| && kept == times[|times| - |kept|..] && (kept != [] ==> now - kept[0] <= window)
  {
    if times != [] && now - times[0] > window {
      RecentIs(times[1..], window, now);
      var kept := Recent(times[1..], window, now);
      assert times[1..][|times| - 1 - |kept|..] == times[|times| - |kept|..];
    }
  }

  lemma JoinedRemembered(times: seq<real>, run: seq<Event>, e: Event)
    requires Remembered(times, run) && e.Fails? && (run != [] ==> run[|run| - 1].now <= e.now) && (run == [] ==> times == [])
    ensures Remembered(times + [e.now], run + [e])
  {
    var more := times + [e.now];
    assert (run + [e])[..|run|] == run;
    forall i | 0 <= i < |more| ensures FailuresFrom(run + [e], more[i]) >= |more| - i && more[i] <= e.now {
      if i < |times| {
        assert more[i] == times[i] && FailuresFrom(run, times[i]) >= |times| - i;
      }
    }
    forall i, j | 0 <= i < j < |more| ensures more[i] <= more[j] {
      if j < |times| {
        assert more[i] == times[i] && more[j] == times[j];
      }
    }
  }

  lemma SuffixRemembered(times: seq<real>, run: seq<Event>, kept: seq<real>)
    requires Remembered(times, run) && |kept| <= |times| && kept == times[|times| - |kept|..]
    ensures Remembered(kept, run)
  {
    assert forall i :: 0 <= i < |kept| ==> kept[i] == times[|times| - |kept| + i];
  }

  lemma NothingRemembered(run: seq<Event>)
    ensures Remembered([], run)
  {
  }

  lemma QuietRemembered(times: seq<real>, run: seq<Event>, e: Event)
    requires Remembered(times, run) && !e.Fails? && !e.Succeeds? && (run != [] ==> run[|run| - 1].now <= e.now) && (run == [] ==> times == [])
    ensures Remembered(times, run + [e])
  {
    assert (run + [e])[..|run|] == run;
    assert forall i :: 0 <= i < |times| ==> FailuresFrom(run + [e], times[i]) == FailuresFrom(run, times[i]);
  }

  lemma CauseStays(s: Settings, run: seq<Event>, e: Event, i: nat, until: real)
    requires i < |run| && Locks(s, run, i, until)
    ensures Locks(s, run + [e], i, until)
  {
    assert (run + [e])[..i + 1] == run[..i + 1];
  }

  lemma {:induction false} LocksHaveCauses(s: Settings, run: seq<Event>)
    requires forall i, j :: 0 <= i < j < |run| ==> run[i].now <= run[j].now
    ensures Remembered(TimesOf(After(s, run)), run) && HasCause(s, After(s, run), run) && (run == [] ==> After(s, run) == Unknown)
  {
    hide Act, Remembered, Locks, HasCause;
    if run == [] {
      NothingRemembered(run);
      NoCause(s, run);
    } else {
      var before, e := run[..|run| - 1], run[|run| - 1];
      assert run == before + [e];
      LocksHaveCauses(s, before);
      LockStays(s, After(s, before), before, e);
      if e.Fails? {
        FailureCauses(s, After(s, before), before, e);
      } else {
        QuietCauses(s, After(s, before), before, e);
      }
    }
  }

  lemma NoCause(s: Settings, run: seq<Event>)
    ensures HasCause(s, Unknown, run)
  {
  }

  lemma LockStays(s: Settings, a: Address, run: seq<Event>, e: Event)
    requires HasCause(s, a, run)
    ensures HasCause(s, a, run + [e])
  {
    hide Locks;
    if a.until.Just? {
      var i: nat :| i < |run| && Locks(s, run, i, a.until.value);
      CauseStays(s, run, e, i, a.until.value);
    }
  }

  lemma QuietCauses(s: Settings, a: Address, run: seq<Event>, e: Event)
    requires Remembered(TimesOf(a), run) && HasCause(s, a, run + [e]) && !e.Fails? && (run != [] ==> run[|run| - 1].now <= e.now) && (run == [] ==> a == Unknown)
    ensures Remembered(TimesOf(Act(s, a, e)), run + [e]) && HasCause(s, Act(s, a, e), run + [e])
  {
    hide Remembered, Locks;
    NothingRemembered(run + [e]);
    if !e.Succeeds? {
      QuietRemembered(TimesOf(a), run, e);
    }
  }

  lemma FailureCauses(s: Settings, a: Address, run: seq<Event>, e: Event)
    requires Remembered(TimesOf(a), run) && HasCause(s, a, run + [e]) && e.Fails? && (run != [] ==> run[|run| - 1].now <= e.now) && (run == [] ==> a == Unknown)
    ensures Remembered(TimesOf(Act(s, a, e)), run + [e]) && HasCause(s, Act(s, a, e), run + [e])
  {
    hide Remembered, Recent, FailuresFrom, HasCause;
    var kept := FailureRemembered(s, a, run, e);
    NothingRemembered(run + [e]);
    if |kept| >= s.maxFailures {
      EnoughFailures(s, kept, run + [e], e.now);
      NewCause(s, run, e);
    } else {
      SameCause(s, a, run + [e], Just(kept));
    }
  }

  /** What is remembered after a failure, as long as it does not lock. */
  lemma FailureRemembered(s: Settings, a: Address, run: seq<Event>, e: Event) returns (kept: seq<real>)
    requires Remembered(TimesOf(a), run) && e.Fails? && (run != [] ==> run[|run| - 1].now <= e.now) && (run == [] ==> a == Unknown)
    ensures kept == Recent(TimesOf(a) + [e.now], s.window, e.now) && Remembered(kept, run + [e]) && (kept != [] ==> e.now - kept[0] <= s.window)
  {
    hide Remembered, Recent;
    var more := TimesOf(a) + [e.now];
    JoinedRemembered(TimesOf(a), run, e);
    RecentIs(more, s.window, e.now);
    kept := Recent(more, s.window, e.now);
    SuffixRemembered(more, run + [e], kept);
  }

  lemma SameCause(s: Settings, a: Address, run: seq<Event>, recent: Maybe<seq<real>>)
    requires HasCause(s, a, run)
    ensures HasCause(s, a.(recent := recent), run)
  {
  }

  lemma NewCause(s: Settings, run: seq<Event>, e: Event)
    requires e.Fails? && FailuresFrom(run + [e], e.now - s.window) >= s.maxFailures
    ensures HasCause(s, Address(Nothing, Just(e.now + s.lockout)), run + [e])
  {
    LockedNow(s, run, e);
  }

  lemma EnoughFailures(s: Settings, times: seq<real>, run: seq<Event>, now: real)
    requires Remembered(times, run) && |times| >= s.maxFailures && (times != [] ==> now - times[0] <= s.window)
    ensures FailuresFrom(run, now - s.window) >= s.maxFailures
  {
    if times != [] {
      EarlierCountsMore(run, times[0], now - s.window);
    }
  }

  lemma LockedNow(s: Settings, run: seq<Event>, e: Event)
    requires e.Fails? && FailuresFrom(run + [e], e.now - s.window) >= s.maxFailures
    ensures Locks(s, run + [e], |run|, e.now + s.lockout)
  {
    hide FailuresFrom;
    assert (run + [e])[..|run| + 1] == run + [e] && (run + [e])[|run|] == e;
  }

  /** MAIN RESULT. Over any run with a clock that never goes back: an address is refused only because of a failure that was at least the
      `max_failures`th within the window before it, with no success in between, and for no longer than the lockout after that failure. */
  lemma RefusedOnlyForCause(s: Settings, run: seq<Event>, now: real) returns (i: nat)
    requires (forall i, j :: 0 <= i < j < |run| ==> run[i].now <= run[j].now) && RetryAfter(After(s, run), now) > 0
    ensures i < |run| && run[i].Fails? && FailuresFrom(run[..i + 1], run[i].now - s.window) >= s.maxFailures && now < run[i].now + s.lockout
    ensures RetryAfter(After(s, run), now) as real <= run[i].now + s.lockout - now + 1.0
  {
    hide Remembered;
    LocksHaveCauses(s, run);
    i :| i < |run| && Locks(s, run, i, After(s, run).until.value);
  }

  /** MAIN RESULT. A lock lasts: whatever else happens (a success, a question, a sweep of what is old), an address that is refused at
      some time is refused then. */
  lemma {:induction false} LocksLast(s: Settings, run: seq<Event>, more: seq<Event>, later: real)
    requires RetryAfter(After(s, run), later) > 0
    requires forall i :: 0 <= i < |more| ==> !more[i].Fails? && more[i].now <= later
    ensures RetryAfter(After(s, run + more), later) == RetryAfter(After(s, run), later)
  {
    if more == [] {
      assert run + more == run;
    } else {
      var n := |more| - 1;
      assert (run + more)[..|run + more| - 1] == run + more[..n] && (run + more)[|run + more| - 1] == more[n];
      LocksLast(s, run, more[..n], later);
    }
  }
}
