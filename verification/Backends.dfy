/** An organization's backends as configured: what each is called, and which of them leads. */
module Backends {
  import opened Text

  datatype Maybe<+T> = Nothing | Just(value: T)

  /** One entry: its id and its address (empty when not given), whether it is this broker itself, whether it is marked as the
      leader or as a follower. */
  datatype Backend = Backend(id: string, url: string, local: bool, leader: Maybe<bool>)

  // ------------------------------------------------------------------
  // Which one leads
  // ------------------------------------------------------------------

  function FirstLocal(backends: seq<Backend>): (at: Maybe<nat>)
    ensures at.Just? ==> at.value < |backends| && backends[at.value].local && forall i :: 0 <= i < at.value ==> !backends[i].local
    ensures at.Nothing? ==> forall i :: 0 <= i < |backends| ==> !backends[i].local
  {
    if backends == [] then Nothing
    else if backends[0].local then Just(0)
    else
      var rest := FirstLocal(backends[1..]);
      if rest.Just? then Just(rest.value + 1) else Nothing
  }

  function FirstMarked(backends: seq<Backend>, mark: Maybe<bool> -> bool): (at: Maybe<nat>)
    ensures at.Just? ==> at.value < |backends| && mark(backends[at.value].leader) && forall i :: 0 <= i < at.value ==> !mark(backends[i].leader)
    ensures at.Nothing? ==> forall i :: 0 <= i < |backends| ==> !mark(backends[i].leader)
  {
    if backends == [] then Nothing
    else if mark(backends[0].leader) then Just(0)
    else
      var rest := FirstMarked(backends[1..], mark);
      if rest.Just? then Just(rest.value + 1) else Nothing
  }

  ghost predicate IsFirstLocal(backends: seq<Backend>, at: nat) {
    at < |backends| && backends[at].local && forall i :: 0 <= i < at ==> !backends[i].local
  }

  /** The one marked as the leader; else the local one, unless it is marked as a follower; else the first that is not. */
  function LeaderIndex(backends: seq<Backend>): (at: nat)
    ensures backends != [] ==> at < |backends|
    ensures forall i: nat :: i < |backends| && backends[i].leader == Just(true) ==> at <= i && backends[at].leader == Just(true)
    ensures forall i: nat :: IsFirstLocal(backends, i) && backends[i].leader != Just(false) ==> at == i || backends[at].leader == Just(true)
    ensures forall i: nat :: i < |backends| && backends[i].leader != Just(false) ==>
              backends[at].leader == Just(true) || (backends[at].leader != Just(false) && (at <= i || IsFirstLocal(backends, at)))
    ensures backends != [] && backends[at].leader == Just(false) ==> at == 0
  {
    var marked := FirstMarked(backends, m => m == Just(true));
    var local := FirstLocal(backends);
    if marked.Just? then marked.value
    else if local.Just? && backends[local.value].leader != Just(false) then local.value
    else
      var open := FirstMarked(backends, m => m != Just(false));
      if open.Just? then open.value else 0
  }

  /** What the configuration allows: at most one entry is this broker itself. */
  ghost predicate OneLocal(backends: seq<Backend>) {
    forall i, j :: 0 <= i < j < |backends| ==> !(backends[i].local && backends[j].local)
  }

  // ------------------------------------------------------------------
  // What they are called
  // ------------------------------------------------------------------

  function BaseOf(b: Backend): string {
    if b.id != "" then b.id else if b.url != "" then b.url else if b.local then "broker" else "backend"
  }

  function BasesOf(backends: seq<Backend>): seq<string> {
    seq(|backends|, i requires 0 <= i < |backends| => BaseOf(backends[i]))
  }

  function Count(bases: seq<string>, base: string): nat {
    if bases == [] then 0 else Count(bases[..|bases| - 1], base) + if bases[|bases| - 1] == base then 1 else 0
  }

  function Numbered(base: string, n: nat): string {
    if n == 1 then base else base + "#" + Dec(n)
  }

  /** The key of the `i`th: its base, with a number when earlier ones have the same base. */
  function KeyAt(bases: seq<string>, i: nat): string
    requires i < |bases|
  {
    Numbered(bases[i], Count(bases[..i + 1], bases[i]))
  }

  lemma OneMore(bases: seq<string>, i: nat)
    ensures i < |bases| ==> forall b :: Count(bases[..i + 1], b) == Count(bases[..i], b) + if bases[i] == b then 1 else 0
    ensures forall b :: Count(bases[..0], b) == 0
  {
    if i < |bases| {
      assert bases[..i + 1][..i] == bases[..i];
    }
  }

  method BackendKeys(backends: seq<Backend>) returns (keys: seq<string>)
    ensures |keys| == |backends| && forall i :: 0 <= i < |keys| ==> keys[i] == KeyAt(BasesOf(backends), i)
  {
    var seen: map<string, nat> := map[];
    keys := [];
    ghost var bases := BasesOf(backends);
    hide Dec, Count, BaseOf;
    assert forall b :: Count(bases[..0], b) == 0 by {
      OneMore(bases, 0);
    }
    for i := 0 to |backends|
      invariant |keys| == i && forall j :: 0 <= j < i ==> keys[j] == KeyAt(bases, j)
      invariant forall b :: Count(bases[..i], b) == if b in seen then seen[b] else 0
    {
      var base := BaseOf(backends[i]);
      assert bases[i] == base;
      OneMore(bases, i);
      seen := seen[base := (if base in seen then seen[base] else 0) + 1];
      keys := keys + [if seen[base] == 1 then base else base + "#" + Dec(seen[base])];
    }
  }

  /** A base is another one followed by a number that other one gives out. */
  ghost predicate Clash(bases: seq<string>, i: nat, j: nat, n: nat)
    requires i < |bases| && j < |bases|
  {
    2 <= n <= Count(bases, bases[j]) && bases[i] == Numbered(bases[j], n)
  }

  ghost predicate Clashes(bases: seq<string>) {
    exists i: nat, j: nat, n: nat :: i < |bases| && j < |bases| && Clash(bases, i, j, n)
  }

  ghost predicate KeysDiffer(bases: seq<string>) {
    forall i, j :: 0 <= i < j < |bases| ==> KeyAt(bases, i) != KeyAt(bases, j)
  }

  lemma {:induction false} CountGrows(bases: seq<string>, base: string, i: nat, j: nat)
    requires i <= j <= |bases|
    ensures Count(bases[..i], base) <= Count(bases[..j], base)
    ensures i < j && bases[j - 1] == base ==> Count(bases[..i], base) < Count(bases[..j], base)
  {
    if i < j {
      assert bases[..j][..j - 1] == bases[..j - 1];
      CountGrows(bases, base, i, j - 1);
    }
  }

  /** The `n`th with a base, for every number up to their count. */
  lemma {:induction false} Nth(bases: seq<string>, base: string, n: nat) returns (k: nat)
    requires 1 <= n <= Count(bases, base)
    ensures k < |bases| && bases[k] == base && Count(bases[..k + 1], base) == n
  {
    var m := |bases| - 1;
    if n == Count(bases, base) && bases[m] == base {
      assert bases[..m + 1] == bases;
      k := m;
    } else {
      k := Nth(bases[..m], base, n);
      assert bases[..m][..k + 1] == bases[..k + 1];
    }
  }

  function LastHash(s: string): nat {
    if s == "" || s[|s| - 1] == '#' then |s| else LastHash(s[..|s| - 1])
  }

  lemma {:induction false} HashIsLast(a: string, digits: string)
    requires forall i :: 0 <= i < |digits| ==> digits[i] != '#'
    ensures LastHash(a + "#" + digits) == |a| + 1
  {
    if digits != "" {
      assert (a + "#" + digits)[..|a| + |digits|] == a + "#" + digits[..|digits| - 1];
      HashIsLast(a, digits[..|digits| - 1]);
    }
  }

  /** Text that ends in "#" and digits splits in one way. */
  lemma SplitsOnce(a: string, m: nat, b: string, n: nat)
    requires a + "#" + Dec(m) == b + "#" + Dec(n)
    ensures a == b && m == n
  {
    HashIsLast(a, Dec(m));
    HashIsLast(b, Dec(n));
    assert (a + "#" + Dec(m))[..|a|] == a && (b + "#" + Dec(n))[..|b|] == b;
    assert (a + "#" + Dec(m))[|a| + 1..] == Dec(m) && (b + "#" + Dec(n))[|b| + 1..] == Dec(n);
    DecReadsBack(m);
    DecReadsBack(n);
  }

  lemma SameKey(bases: seq<string>, i: nat, j: nat)
    requires i < j < |bases| && KeyAt(bases, i) == KeyAt(bases, j)
    ensures Clashes(bases)
  {
    hide Dec, Count;
    var m, n := Count(bases[..i + 1], bases[i]), Count(bases[..j + 1], bases[j]);
    CountGrows(bases, bases[i], 0, i + 1);
    CountGrows(bases, bases[j], 0, j + 1);
    CountGrows(bases, bases[i], i + 1, |bases|);
    CountGrows(bases, bases[j], j + 1, |bases|);
    CountGrows(bases, bases[j], i + 1, j + 1);
    assert bases[..|bases|] == bases;
    if m == 1 && n >= 2 {
      assert Clash(bases, i, j, n);
    } else if m >= 2 && n == 1 {
      assert Clash(bases, j, i, m);
    } else if m >= 2 && n >= 2 {
      SplitsOnce(bases[i], m, bases[j], n);
    }
  }

  lemma ClashSharesKey(bases: seq<string>, i: nat, j: nat, n: nat)
    requires i < |bases| && j < |bases| && Clash(bases, i, j, n)
    ensures !KeysDiffer(bases)
  {
    hide Dec, Count;
    CountGrows(bases, bases[i], 0, i + 1);
    CountGrows(bases, bases[i], i + 1, |bases|);
    assert bases[..|bases|] == bases;
    var first := Nth(bases, bases[i], 1);
    var nth := Nth(bases, bases[j], n);
    assert KeyAt(bases, first) == bases[i] && KeyAt(bases, nth) == Numbered(bases[j], n);
    assert bases[i] != bases[j] by {
      assert |Numbered(bases[j], n)| > |bases[j]|;
    }
  }

  /** MAIN RESULT. Two backends share a key exactly when some backend's own name is another's followed by "#" and a number
      that is given out for that other name. */
  lemma KeysDifferExactly(bases: seq<string>)
    ensures KeysDiffer(bases) <==> !Clashes(bases)
  {
    hide KeyAt, Clash;
    if !KeysDiffer(bases) {
      var i, j :| 0 <= i < j < |bases| && KeyAt(bases, i) == KeyAt(bases, j);
      SameKey(bases, i, j);
    }
    if Clashes(bases) {
      var i: nat, j: nat, n: nat :| i < |bases| && j < |bases| && Clash(bases, i, j, n);
      ClashSharesKey(bases, i, j, n);
    }
  }

  /** It does happen: with the names "a", "a" and "a#2", two backends are both called "a#2". */
  lemma KeysCanCollide(a: string)
    ensures KeyAt([a, a, a + "#2"], 1) == KeyAt([a, a, a + "#2"], 2) == a + "#2"
  {
    var bases := [a, a, a + "#2"];
    var b := a + "#2";
    assert |a| != |b|;
    assert bases[..3][..2] == bases[..2] && bases[..2][..1] == bases[..1] && bases[..1][..0] == [];
    assert Count(bases[..1], a) == 1 && Count(bases[..1], b) == 0;
    assert Count(bases[..2], a) == 2 && Count(bases[..2], b) == 0;
    assert Count(bases[..3], b) == 1;
    assert Dec(2) == "2";
  }

  // ------------------------------------------------------------------
  // Who is called by the configured name
  // ------------------------------------------------------------------

  /** The id, or else the address, or else what kind of backend it is. */
  predicate IsNamed(b: Backend, name: string) {
    if b.id != "" then name == b.id
    else if b.url != "" then name == b.url
    else name == (if b.local then "broker" else "backend")
  }

  /** The first backend of a name is called by it; the `n`th one gets `#n` after it. */
  lemma FirstKeepsItsName(backends: seq<Backend>, i: nat, name: string)
    requires i < |backends| && IsNamed(backends[i], name)
    ensures KeyAt(BasesOf(backends), i) == name <==> forall j :: 0 <= j < i ==> !IsNamed(backends[j], name)
  {
    var bases := BasesOf(backends);
    assert bases[..i + 1][..i] == bases[..i] && bases[i] == name;
    if forall j :: 0 <= j < i ==> !IsNamed(backends[j], name) {
      NoneCalled(bases[..i], name);
    } else {
      var j :| 0 <= j < i && IsNamed(backends[j], name);
      OneCalled(bases[..i], j);
    }
  }

  lemma {:induction false} NoneCalled(bases: seq<string>, name: string)
    requires name !in bases
    ensures Count(bases, name) == 0
  {
    if bases != [] {
      NoneCalled(bases[..|bases| - 1], name);
    }
  }

  lemma {:induction false} OneCalled(bases: seq<string>, j: nat)
    requires j < |bases|
    ensures Count(bases, bases[j]) >= 1
  {
    if j < |bases| - 1 {
      OneCalled(bases[..|bases| - 1], j);
    }
  }
}
