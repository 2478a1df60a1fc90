/** The session of one charger, in place: its backends' connections change roles. */
module ChargerSessions {
  import opened Backends
  import opened LeaderRoles

  /** A connection's role and link. `isLocal`: it is the broker's own library, not another server. */
  class Member {
    const index: nat
    const key: string
    const isLocal: bool
    var isLeader: bool
    var maxBuffered: int
    var rejects: bool
    var ready: bool
    var outageNotified: bool

    constructor (c: Setup, index: nat, key: string, leads: bool)
      requires index < |c.backends|
      ensures this.index == index && this.key == key && isLocal == c.backends[index].local && !outageNotified
      ensures View() == (if !leads then Observer else if isLocal then Role(true, DEFAULT_MAX_BUFFERED, false) else Role(true, c.buffer, true))
      ensures ready == isLocal
    {
      this.index, this.key, isLocal := index, key, c.backends[index].local;
      isLeader := leads;
      maxBuffered := if !leads then 0 else if c.backends[index].local then DEFAULT_MAX_BUFFERED else c.buffer;
      rejects := leads && !c.backends[index].local;
      ready, outageNotified := c.backends[index].local, false;
    }

    function View(): Role
      reads this
    {
      Role(isLeader, maxBuffered, rejects)
    }
  }

  function PlacesOf(members: seq<Member>): (s: seq<nat>)
    ensures |s| == |members| && forall i :: 0 <= i < |s| ==> s[i] == members[i].index
  {
    seq(|members|, i requires 0 <= i < |members| => members[i].index)
  }

  function PlaceOf(m: Member?): Maybe<nat> {
    if m == null then Nothing else Just(m.index)
  }

  ghost function RolesOf(n: nat, members: seq<Member>): (s: seq<Role>)
    reads members
    ensures |s| == n && forall i :: 0 <= i < n ==> s[i] == if i < |members| then members[i].View() else Observer
  {
    if n == 0 then [] else RolesOf(n - 1, members) + [if n <= |members| then members[n - 1].View() else Observer]
  }

  ghost function UpOf(n: nat, members: seq<Member>): (s: seq<bool>)
    reads members
    ensures |s| == n && forall i :: 0 <= i < n ==> s[i] == (i < |members| && members[i].ready)
  {
    if n == 0 then [] else UpOf(n - 1, members) + [n <= |members| && members[n - 1].ready]
  }

  ghost function LostOf(n: nat, members: seq<Member>): (s: seq<bool>)
    reads members
    ensures |s| == n && forall i :: 0 <= i < n ==> s[i] == (i < |members| && members[i].outageNotified)
  {
    if n == 0 then [] else LostOf(n - 1, members) + [n <= |members| && members[n - 1].outageNotified]
  }

  /** In the order of the configuration. */
  ghost predicate InOrder(c: Setup, members: seq<Member>) {
    && (members == [] || |members| == |c.backends|)
    && forall i :: 0 <= i < |members| ==> members[i].index == i && members[i].key == KeyOf(c, i) && members[i].isLocal == c.backends[i].local
  }

  /** As it is made: connected if it is local, and no loss of its link reported. */
  ghost predicate IsNew(c: Setup, m: Member, i: nat)
    requires i < |c.backends|
    reads m
  {
    && m.index == i && m.key == KeyOf(c, i) && m.isLocal == c.backends[i].local
    && m.View() == FirstRole(c, i) && m.ready == c.backends[i].local && !m.outageNotified
  }

  /** What a session with new connections is seen as. */
  lemma NewMembers(c: Setup, s: Session, members: seq<Member>)
    requires |members| == |c.backends| && (forall i :: 0 <= i < |members| ==> IsNew(c, members[i], i)) && c.backends != [] && s.leader.Nothing? && !s.closed
    ensures InOrder(c, members) && Connected(c, s).roles == RolesOf(|c.backends|, members)
    ensures Connected(c, s).up == UpOf(|c.backends|, members) && Connected(c, s).lost == LostOf(|c.backends|, members)
  {
    hide KeyOf, RolesOf, UpOf, LostOf, LeaderIndex, FirstRole;
  }

  lemma MembersDiffer(c: Setup, members: seq<Member>, a: Member, b: Member)
    requires InOrder(c, members) && a in members && b in members
    ensures a.index < |members| == |c.backends| && members[a.index] == a && b.index < |members| && (a.index == b.index <==> a == b)
  {
  }

  lemma KeyIs(c: Setup, members: seq<Member>, m: Member)
    requires InOrder(c, members) && m in members
    ensures m.index < |c.backends| && m.key == KeyOf(c, m.index)
  {
  }

  /** A member's role changes. */
  method Play(c: Setup, ghost members: seq<Member>, m: Member, role: Role)
    requires InOrder(c, members) && m in members
    modifies m`isLeader, m`maxBuffered, m`rejects
    ensures m.index < |members| && RolesOf(|c.backends|, members) == old(RolesOf(|c.backends|, members))[m.index := role]
    ensures UpOf(|c.backends|, members) == old(UpOf(|c.backends|, members)) && LostOf(|c.backends|, members) == old(LostOf(|c.backends|, members))
  {
    hide KeyOf, RolesOf, UpOf, LostOf;
    MembersDiffer(c, members, m, m);
    ghost var roles := RolesOf(|c.backends|, members);
    assert forall i :: 0 <= i < |members| && i != m.index ==> members[i] != m;
    m.isLeader, m.maxBuffered, m.rejects := role.leads, role.buffer, role.rejects;
    assert members[m.index].View() == role;
    assert forall i :: 0 <= i < |members| && i != m.index ==> members[i].View() == roles[i];
    assert RolesOf(|c.backends|, members) == roles[m.index := role];
  }

  /** A member's link changes. */
  method Link(c: Setup, ghost members: seq<Member>, m: Member, ready: bool, notified: bool)
    requires InOrder(c, members) && m in members
    modifies m`ready, m`outageNotified
    ensures m.index < |members| && RolesOf(|c.backends|, members) == old(RolesOf(|c.backends|, members))
    ensures UpOf(|c.backends|, members) == old(UpOf(|c.backends|, members))[m.index := ready]
    ensures LostOf(|c.backends|, members) == old(LostOf(|c.backends|, members))[m.index := notified]
  {
    hide KeyOf, RolesOf, UpOf, LostOf;
    MembersDiffer(c, members, m, m);
    ghost var up, lost := UpOf(|c.backends|, members), LostOf(|c.backends|, members);
    assert forall i :: 0 <= i < |members| && i != m.index ==> members[i] != m;
    m.ready, m.outageNotified := ready, notified;
    assert UpOf(|c.backends|, members) == up[m.index := ready];
    assert LostOf(|c.backends|, members) == lost[m.index := notified];
  }

  class ChargerSession {
    const setup: Setup
    var backendConn: Member?
    var followerConns: seq<Member>
    var preferred: Member?
    var mode: Mode
    var chargePoint: Member?                // whose library answers commands
    var watched: Member?                    // the leader whose loss is waited on
    var deadline: real
    var givingBack: bool
    var healthySince: Maybe<real>
    var closed: bool
    ghost var members: seq<Member>          // by their places in the configuration; none before they connect

    constructor (setup: Setup)
      requires OneLocal(setup.backends)
      ensures this.setup == setup && Valid() && View() == New(setup) && members == []
    {
      this.setup := setup;
      var local := FirstLocal(setup.backends);
      mode := if local.Just? && LeaderIndex(setup.backends) == local.value then Broker else Relay;
      backendConn, followerConns, preferred, chargePoint, watched := null, [], null, null, null;
      deadline, givingBack, healthySince, closed, members := 0.0, false, Nothing, false, [];
    }

    ghost predicate IsMember(m: Member?)
      reads this
    {
      m != null ==> m in members
    }

    ghost predicate Valid()
      reads this, members
    {
      && OneLocal(setup.backends) && InOrder(setup, members)
      && IsMember(backendConn) && IsMember(preferred) && IsMember(chargePoint) && IsMember(watched)
      && (forall f :: f in followerConns ==> f in members)
      && (members == [] <==> preferred == null)
    }

    ghost function View(): Session
      reads this, members
    {
      Session(PlaceOf(backendConn), PlacesOf(followerConns), PlaceOf(preferred), mode, PlaceOf(chargePoint),
              RolesOf(|setup.backends|, members), UpOf(|setup.backends|, members), LostOf(|setup.backends|, members),
              if watched == null then Nothing else Just(Watch(watched.index, deadline)),
              if givingBack then Just(healthySince) else Nothing, closed, false)
    }

    lemma ViewShaped()
      requires Valid()
      ensures Shaped(setup, View())
    {
      forall i | 0 <= i < |followerConns| ensures followerConns[i].index < |setup.backends| {
        MembersDiffer(setup, members, followerConns[i], followerConns[i]);
      }
    }

    lemma FollowersView(m: Member)
      requires Valid() && m in members
      ensures m in followerConns <==> m.index in View().followers
    {
      if m.index in View().followers {
        var i :| 0 <= i < |followerConns| && PlacesOf(followerConns)[i] == m.index;
        MembersDiffer(setup, members, followerConns[i], m);
      }
      if m in followerConns {
        var i :| 0 <= i < |followerConns| && followerConns[i] == m;
        assert View().followers[i] == m.index;
      }
    }

    /** Connect every configured backend; the followers are listed as they are configured. */
    method Connect()
      requires Valid() && Shaped(setup, View()) && backendConn == null && !closed && members == [] && setup.backends != []
      modifies this`backendConn, this`preferred, this`followerConns, this`chargePoint, this`members
      ensures Valid() && View() == Act(setup, old(View()), Connects) && forall m :: m in members ==> fresh(m)
    {
      hide KeyOf, LeaderIndex, RolesOf, UpOf, LostOf, PlacesOf, Without, OneLocal, InOrder, New, WasLost, FailoverPolled, FailbackPolled, Chosen, Shaped;
      var lead := LeaderIndex(setup.backends);
      var keys := MakeKeys();
      var leader := new Member(setup, lead, keys[lead], true);
      var followers, all := MakeFollowers(keys, leader);
      NewMembers(setup, View(), all);
      TakeSeats(leader, followers, all);
    }

    method TakeSeats(leader: Member, followers: seq<Member>, ghost all: seq<Member>)
      requires Valid() && backendConn == null && members == [] && InOrder(setup, all) && leader in all && forall f :: f in followers ==> f in all
      modifies this`backendConn, this`preferred, this`followerConns, this`chargePoint, this`members
      ensures Valid() && members == all
      ensures View() == old(View()).(leader := Just(leader.index), preferred := Just(leader.index), followers := PlacesOf(followers),
                                     voice := if leader.isLocal then Just(leader.index) else Nothing,
                                     roles := RolesOf(|setup.backends|, all), up := UpOf(|setup.backends|, all), lost := LostOf(|setup.backends|, all))
    {
      hide InOrder, OneLocal, RolesOf, UpOf, LostOf, PlacesOf;
      backendConn, preferred, followerConns, members := leader, leader, followers, all;
      chargePoint := if leader.isLocal then leader else null;
    }

    method MakeKeys() returns (keys: seq<string>)
      ensures |keys| == |setup.backends| && forall i :: 0 <= i < |keys| ==> keys[i] == KeyOf(setup, i)
    {
      keys := BackendKeys(setup.backends);
    }

    method MakeFollowers(keys: seq<string>, leader: Member) returns (followers: seq<Member>, ghost all: seq<Member>)
      requires |keys| == |setup.backends| && forall i :: 0 <= i < |keys| ==> keys[i] == KeyOf(setup, i)
      requires setup.backends != [] && IsNew(setup, leader, LeaderIndex(setup.backends))
      ensures |all| == |setup.backends| && (forall i :: 0 <= i < |all| ==> IsNew(setup, all[i], i)) && all[LeaderIndex(setup.backends)] == leader
      ensures forall i :: 0 <= i < |all| ==> all[i] == leader || fresh(all[i])
      ensures PlacesOf(followers) == Without(Upto(|setup.backends|), LeaderIndex(setup.backends)) && forall f :: f in followers ==> f in all
    {
      hide KeyOf, LeaderIndex, PlacesOf, Upto;
      var lead, n := LeaderIndex(setup.backends), |setup.backends|;
      followers, all := [], [];
      assert PlacesOf([]) == Without(Upto(n)[..0], lead);
      for i := 0 to n
        invariant |all| == i && (forall j :: 0 <= j < i ==> IsNew(setup, all[j], j) && (all[j] == leader || fresh(all[j]))) && (lead < i ==> all[lead] == leader)
        invariant PlacesOf(followers) == Without(Upto(n)[..i], lead) && forall f :: f in followers ==> f in all
        invariant IsNew(setup, leader, lead)
      {
        WithoutMore(Upto(n), i, lead);
        if i == lead {
          all := all + [leader];
        } else {
          var follower := new Member(setup, i, keys[i], false);
          assert PlacesOf(followers + [follower]) == PlacesOf(followers) + [i];
          followers, all := followers + [follower], all + [follower];
        }
      }
      assert Upto(n)[..n] == Upto(n);
    }

    /** `newLeader` and the current leader change places. */
    method Promote(newLeader: Member, reason: Reason)
      requires Valid() && Shaped(setup, View()) && backendConn != null && newLeader in followerConns
      modifies members
      modifies this`backendConn, this`followerConns, this`mode, this`chargePoint, this`givingBack, this`healthySince
      ensures Valid() && View() == Promoted(setup, old(View()), newLeader.index, reason)
    {
      hide RolesOf, UpOf, LostOf, Without, InOrder, OneLocal, Shaped, KeyOf, PlacesOf;
      var oldLeader := backendConn;
      SwapSeats(newLeader, reason);
      SwapBeliefs(oldLeader, newLeader);
    }

    /** Who sits where, as opposed to what they believe. */
    method SwapSeats(newLeader: Member, reason: Reason)
      requires Valid() && Shaped(setup, View()) && backendConn != null && newLeader in followerConns
      modifies this`backendConn, this`followerConns, this`mode, this`chargePoint, this`givingBack, this`healthySince
      ensures Valid() && backendConn == newLeader
      ensures View() == Promoted(setup, old(View()), newLeader.index, reason).(roles := old(View().roles))
    {
      hide RolesOf, UpOf, LostOf, Without, InOrder, OneLocal, Shaped, KeyOf, PlacesOf;
      FollowersView(newLeader);
      var oldLeader := backendConn;
      SwapPlaces(newLeader);
      NewMode(oldLeader, newLeader);
      AwaitPreferred(newLeader, reason);
    }

    /** After a failover the configured leader is waited for. */
    method AwaitPreferred(newLeader: Member, reason: Reason)
      requires Valid() && newLeader in members
      modifies this`givingBack, this`healthySince
      ensures Valid() && View() == old(View()).(giveBack := if reason.Failover? && Just(newLeader.index) != View().preferred && setup.failback && old(View()).giveBack.Nothing? then Just(Nothing) else old(View()).giveBack)
    {
      hide RolesOf, UpOf, LostOf, OneLocal, KeyOf, PlacesOf;
      if preferred != null {
        MembersDiffer(setup, members, newLeader, preferred);
      }
      hide InOrder;
      if reason.Failover? && newLeader != preferred && setup.failback && !givingBack {
        givingBack, healthySince := true, Nothing;
      }
    }

    method SwapBeliefs(oldLeader: Member, newLeader: Member)
      requires Valid() && oldLeader in members && newLeader in members
      modifies members
      ensures oldLeader.index < |setup.backends| && newLeader.index < |setup.backends|
      ensures RolesOf(|setup.backends|, members) == old(RolesOf(|setup.backends|, members))[oldLeader.index := Observer][newLeader.index := Role(true, setup.buffer, true)]
      ensures UpOf(|setup.backends|, members) == old(UpOf(|setup.backends|, members)) && LostOf(|setup.backends|, members) == old(LostOf(|setup.backends|, members))
    {
      hide RolesOf, UpOf, LostOf, InOrder, OneLocal, KeyOf;
      MembersDiffer(setup, members, oldLeader, newLeader);
      Play(setup, members, oldLeader, Observer);
      Play(setup, members, newLeader, Role(true, setup.buffer, true));
    }

    method SwapPlaces(newLeader: Member)
      requires Valid() && backendConn != null && newLeader in members
      modifies this`backendConn, this`followerConns
      ensures Valid() && backendConn == newLeader
      ensures View() == old(View()).(leader := Just(newLeader.index), followers := Without(old(PlacesOf(followerConns)), newLeader.index) + [old(backendConn.index)])
    {
      hide Without, InOrder, OneLocal, KeyOf, RolesOf, UpOf, LostOf, PlacesOf;
      var kept := Others(followerConns, newLeader);
      assert PlacesOf(kept + [backendConn]) == PlacesOf(kept) + [backendConn.index];
      followerConns, backendConn := kept + [backendConn], newLeader;
    }

    method NewMode(oldLeader: Member, newLeader: Member)
      requires Valid() && oldLeader in members && newLeader in members
      modifies this`mode, this`chargePoint
      ensures Valid() && oldLeader.index < |setup.backends| && newLeader.index < |setup.backends|
      ensures var l, was := setup.backends[newLeader.index].local, setup.backends[oldLeader.index].local;
        View() == old(View()).(mode := if l then Broker else if was then Relay else old(mode),
                               voice := if l then Just(newLeader.index) else if was then Nothing else old(View()).voice)
    {
      hide RolesOf, UpOf, LostOf, OneLocal, KeyOf, PlacesOf;
      MembersDiffer(setup, members, oldLeader, newLeader);
      if newLeader.isLocal {
        mode, chargePoint := Broker, newLeader;
      } else if oldLeader.isLocal {
        mode, chargePoint := Relay, null;
      }
    }

    /** The followers but one. */
    method Others(followers: seq<Member>, but: Member) returns (kept: seq<Member>)
      requires Valid() && but in members && forall f :: f in followers ==> f in members
      ensures PlacesOf(kept) == Without(PlacesOf(followers), but.index) && forall f :: f in kept ==> f in members
    {
      kept := [];
      for i := 0 to |followers|
        invariant PlacesOf(kept) == Without(PlacesOf(followers)[..i], but.index) && forall f :: f in kept ==> f in members
      {
        assert followers[i] in members;
        MembersDiffer(setup, members, followers[i], but);
        WithoutMore(PlacesOf(followers), i, but.index);
        if followers[i] != but {
          kept := kept + [followers[i]];
        }
      }
      assert PlacesOf(followers)[..|followers|] == PlacesOf(followers);
    }

    /** Whether a member's frames are passed on to the charger. */
    method Forwards(conn: Member) returns (passed: bool)
      requires Valid() && conn in members
      ensures conn.index < |setup.backends| && passed == IsHeard(View(), conn.index)
    {
      MembersDiffer(setup, members, conn, conn);
      passed := conn.isLeader;
    }

    method OnLinkUp(conn: Member)
      requires Valid() && Shaped(setup, View()) && conn in members && !conn.isLocal
      modifies conn`ready, conn`outageNotified
      ensures Valid() && View() == LinkWentUp(setup, old(View()), conn.index)
    {
      hide RolesOf, UpOf, LostOf, OneLocal, KeyOf, PlacesOf, Shaped;
      MembersDiffer(setup, members, conn, conn);
      Link(setup, members, conn, true, false);
    }

    method OnNotReady(conn: Member)
      requires Valid() && Shaped(setup, View()) && conn in members
      modifies conn`ready, conn`outageNotified
      ensures Valid() && View() == Act(setup, old(View()), NotReady(conn.index))
    {
      hide RolesOf, UpOf, LostOf, OneLocal, KeyOf, PlacesOf, Shaped;
      MembersDiffer(setup, members, conn, conn);
      SameNote(conn);
      Link(setup, members, conn, false, conn.outageNotified);
    }

    lemma SameNote(conn: Member)
      requires Valid() && conn in members
      ensures conn.index < |setup.backends| && LostOf(|setup.backends|, members)[conn.index := conn.outageNotified] == LostOf(|setup.backends|, members)
    {
      hide LostOf, KeyOf;
      MembersDiffer(setup, members, conn, conn);
    }

    /** The loss of a link is reported once per outage; the leader's is watched. */
    method OnLinkLost(conn: Member, now: real)
      requires Valid() && Shaped(setup, View()) && conn in members && !conn.isLocal
      modifies this`watched, this`deadline, conn`ready, conn`outageNotified
      ensures Valid() && View() == Act(setup, old(View()), LinkLost(conn.index, now))
    {
      hide RolesOf, UpOf, LostOf, OneLocal, KeyOf, PlacesOf, Shaped, New, Connected, FailoverPolled, Chosen, FailbackPolled;
      MembersDiffer(setup, members, conn, conn);
      hide InOrder;
      var first := !conn.outageNotified;
      assert View().lost[conn.index] == conn.outageNotified;
      Link(setup, members, conn, false, true);
      assert View() == old(View()).(up := old(View()).up[conn.index := false], lost := old(View()).lost[conn.index := true]);
      if first {
        LeaderLost(conn, now);
      }
    }

    method LeaderLost(conn: Member, now: real)
      requires Valid() && conn in members
      modifies this`watched, this`deadline
      ensures Valid()
      ensures var s := old(View());
        View() == if s.leader != Just(conn.index) || s.followers == [] || setup.failoverAfter == 0.0 || s.watch.Just? then s
                  else s.(watch := Just(Watch(conn.index, now + setup.failoverAfter)))
    {
      hide RolesOf, UpOf, LostOf, OneLocal, KeyOf;
      if backendConn != null {
        MembersDiffer(setup, members, conn, backendConn);
      }
      hide InOrder;
      if conn == backendConn && followerConns != [] && setup.failoverAfter != 0.0 && watched == null {
        watched, deadline := conn, now + setup.failoverAfter;
      }
    }

    /** The first follower to which frames can be written. */
    method FirstReady() returns (found: Member?)
      requires Valid() && Shaped(setup, View())
      ensures found != null ==> found in followerConns
      ensures PlaceOf(found) == FirstUp(View().followers, View().up)
    {
      hide RolesOf, UpOf, LostOf, OneLocal, KeyOf;
      for i := 0 to |followerConns|
        invariant FirstUp(View().followers, View().up) == FirstUp(View().followers[i..], View().up)
      {
        MembersDiffer(setup, members, followerConns[i], followerConns[i]);
        assert View().followers[i..][0] == followerConns[i].index && View().followers[i..][1..] == View().followers[i + 1..];
        if followerConns[i].ready {
          return followerConns[i];
        }
      }
      found := null;
    }

    /** The first follower with that key. */
    method FirstWithKey(key: string) returns (found: Member?)
      requires Valid() && Shaped(setup, View())
      ensures found != null ==> found in followerConns
      ensures PlaceOf(found) == FirstCalled(setup, View().followers, key)
    {
      hide RolesOf, UpOf, LostOf, OneLocal, KeyOf, InOrder, PlacesOf;
      ghost var places := PlacesOf(followerConns);
      for i := 0 to |followerConns|
        invariant FirstCalled(setup, places, key) == FirstCalled(setup, places[i..], key)
      {
        KeyIs(setup, members, followerConns[i]);
        assert places[i..][0] == followerConns[i].index && places[i..][1..] == places[i + 1..];
        if followerConns[i].key == key {
          return followerConns[i];
        }
      }
      found := null;
    }

    /** One look of the watcher of a lost leader. */
    method WatchLeader(now: real)
      requires Valid() && Ok(setup, View())
      modifies members
      modifies this`backendConn, this`followerConns, this`mode, this`chargePoint, this`givingBack, this`healthySince, this`watched
      ensures Valid() && View() == Act(setup, old(View()), FailoverPoll(now)) && Ok(setup, View())
    {
      hide RolesOf, UpOf, LostOf, OneLocal, KeyOf, Promoted, PlacesOf, FirstUp, Team, InOrder, Shaped;
      ViewShaped();
      ActOk(setup, View(), FailoverPoll(now));
      hide Ok;
      var over := WatchIsOver();
      if over {
        StopWatching();
      } else if now >= deadline {
        var candidate := FirstReady();
        if candidate != null {
          Promote(candidate, Failover);
          StopWatching();
        }
      }
    }

    method StopWatching()
      requires Valid()
      modifies this`watched
      ensures Valid() && View() == old(View()).(watch := Nothing)
    {
      hide RolesOf, UpOf, LostOf, OneLocal, KeyOf, PlacesOf, InOrder;
      watched := null;
    }

    method Wait(since: Maybe<Maybe<real>>)
      requires Valid()
      modifies this`givingBack, this`healthySince
      ensures Valid() && View() == old(View()).(giveBack := since)
    {
      hide RolesOf, UpOf, LostOf, OneLocal, KeyOf, PlacesOf, InOrder;
      givingBack := since.Just?;
      if since.Just? {
        healthySince := since.value;
      }
    }

    /** There is nothing to wait for, or not any more. */
    method WatchIsOver() returns (over: bool)
      requires Valid() && Shaped(setup, View())
      ensures var s := View(); over == (s.watch.Nothing? || s.closed || s.leader != Just(s.watch.value.leader) || s.up[s.watch.value.leader])
    {
      hide RolesOf, UpOf, LostOf, OneLocal, KeyOf, PlacesOf;
      if watched == null {
        return true;
      }
      MembersDiffer(setup, members, watched, watched);
      if backendConn != null {
        MembersDiffer(setup, members, watched, backendConn);
      }
      over := closed || watched != backendConn || watched.ready;
    }

    /** An operator's choice, or why it cannot be made. */
    method PromoteTo(key: string) returns (refusal: Maybe<Refusal>)
      requires Valid() && Ok(setup, View())
      modifies members
      modifies this`backendConn, this`followerConns, this`mode, this`chargePoint, this`givingBack, this`healthySince
      ensures Valid() && View() == Act(setup, old(View()), Chooses(key)) && Ok(setup, View())
      ensures Shaped(setup, old(View())) && refusal == Refused(setup, old(View()), key)
    {
      hide RolesOf, UpOf, LostOf, OneLocal, KeyOf, Promoted, PlacesOf, FirstCalled, Team;
      ActOk(setup, View(), Chooses(key));
      if closed {
        return Just(Disconnected);
      }
      if backendConn != null {
        MembersDiffer(setup, members, backendConn, backendConn);
        if backendConn.key == key {
          return Just(AlreadyLeads);
        }
      }
      var target := FirstWithKey(key);
      if target == null {
        return Just(NoSuchBackend);
      }
      MembersDiffer(setup, members, target, target);
      if !target.ready {
        return Just(NotConnected);
      }
      Promote(target, Manual);
      refusal := Nothing;
    }

    /** One look of the watcher of the configured leader. */
    method WatchPreferred(now: real)
      requires Valid() && Ok(setup, View())
      modifies members
      modifies this`backendConn, this`followerConns, this`mode, this`chargePoint, this`givingBack, this`healthySince
      ensures Valid() && View() == Act(setup, old(View()), FailbackPoll(now)) && Ok(setup, View())
    {
      hide RolesOf, UpOf, LostOf, OneLocal, KeyOf, Promoted, PlacesOf, InOrder, Shaped, New, Connected, WasLost, FailoverPolled, Chosen, Team, Distinct, Without;
      ViewShaped();
      ActOk(setup, View(), FailbackPoll(now));
      if !givingBack {
        return;
      }
      LeadsWhileWaiting();
      hide Ok;
      var follows := PreferredFollows();
      if !follows {
        Wait(Nothing);
        return;
      }
      var ready := PreferredReady();
      if !ready {
        Wait(Just(Nothing));
        return;
      }
      var since := if healthySince.Nothing? then now else healthySince.value;
      if now - since >= setup.failbackAfter {
        Promote(preferred, Failback);
        Wait(Nothing);
      } else {
        Wait(Just(Just(since)));
      }
    }

    lemma LeadsWhileWaiting()
      requires Valid() && Ok(setup, View()) && givingBack
      ensures backendConn != null || followerConns == []
    {
    }

    method PreferredReady() returns (ready: bool)
      requires Valid() && preferred != null && Shaped(setup, View())
      ensures ready == View().up[preferred.index]
    {
      hide RolesOf, UpOf, LostOf, OneLocal, KeyOf, PlacesOf;
      MembersDiffer(setup, members, preferred, preferred);
      ready := preferred.ready;
    }

    method PreferredFollows() returns (follows: bool)
      requires Valid()
      ensures follows == (preferred != null && preferred != backendConn && preferred in followerConns)
      ensures var s := View(); follows == (s.preferred.Just? && s.preferred != s.leader && s.preferred.value in s.followers)
    {
      hide RolesOf, UpOf, LostOf, OneLocal, KeyOf, PlacesOf;
      if preferred == null {
        return false;
      }
      FollowersView(preferred);
      if backendConn != null {
        MembersDiffer(setup, members, preferred, backendConn);
      }
      follows := preferred != backendConn && preferred in followerConns;
    }

    /** The session ends: both watchers are cancelled at once, then the links are given up one by one. */
    method CloseSession()
      requires Valid() && Shaped(setup, View())
      modifies this`closed, this`watched, this`givingBack
      ensures Valid() && View() == Act(setup, old(View()), CloseBegins)
    {
      hide RolesOf, UpOf, LostOf, OneLocal, KeyOf, PlacesOf, Shaped, InOrder;
      closed, watched, givingBack := true, null, false;
    }

    method CloseLeader()
      requires Valid() && Shaped(setup, View()) && closed && backendConn != null
      modifies this`backendConn, backendConn`ready, backendConn`outageNotified
      ensures Valid() && View() == Act(setup, old(View()), LeaderCloses)
    {
      hide RolesOf, UpOf, LostOf, OneLocal, KeyOf, PlacesOf, Shaped, New, Connected, FailoverPolled, Chosen, FailbackPolled, WasLost;
      MembersDiffer(setup, members, backendConn, backendConn);
      SameNote(backendConn);
      Link(setup, members, backendConn, false, backendConn.outageNotified);
      backendConn := null;
    }

    method CloseFollowers()
      requires Valid() && Shaped(setup, View()) && closed && backendConn == null
      modifies this`followerConns
      ensures Valid() && View() == Act(setup, old(View()), FollowersClose)
    {
      hide RolesOf, UpOf, LostOf, OneLocal, KeyOf, Shaped, InOrder;
      followerConns := [];
    }
  }

  lemma {:induction false} WithoutMore(s: seq<nat>, i: nat, who: nat)
    requires i < |s|
    ensures Without(s[..i + 1], who) == Without(s[..i], who) + if s[i] == who then [] else [s[i]]
  {
    if i > 0 {
      assert s[..i + 1][1..] == s[1..][..i] && s[..i][1..] == s[1..][..i - 1];
      WithoutMore(s[1..], i - 1, who);
    }
  }
}
