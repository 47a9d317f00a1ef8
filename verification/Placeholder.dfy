/** Replacing a placeholder by the replica it stood in for.

    A placeholder moves to a sibling with everything beneath it, the replica is
    received in its place, the children move back beneath it one by one, and
    the then empty placeholder is removed. Each attempt decides what to do from
    the datasets it finds, so a crash between any two commands leaves a state
    the next attempt continues from. */
module Placeholder {
  import opened Names

  /** `marked` is the local placeholder marker; `snaps` any snapshot or bookmark;
      `token` a resumable receive. `id` is the dataset's content. */
  datatype Node = Node(id: nat, marked: bool, snaps: bool, token: bool)

  type Tree = map<Dataset, Node>

  /** Marked when created as a receive parent, and never given content since. */
  predicate IsPlaceholder(n: Node) {
    n.marked && !n.snaps && !n.token
  }

  /** A received replica with no receive left to resume. */
  predicate IsReplica(n: Node) {
    n.snaps && !n.token
  }

  /** Where a placeholder waits: a sibling. */
  function Aside(d: Dataset): Dataset {
    d[..|d| - 1] + [d[|d| - 1] + ".boomerangz-placeholder"]
  }

  lemma AsideApart(d: Dataset)
    ensures !Overlaps(d, Aside(d)) && |Aside(d)| == |d|
  {
    var last := d[|d| - 1];
    assert Aside(d)[|d| - 1] == last + ".boomerangz-placeholder";
    assert |last + ".boomerangz-placeholder"| > |last|;
  }

  /** A dataset's parent exists. */
  ghost predicate Closed(t: Tree) {
    forall d, n :: d in t && 0 < n <= |d| ==> d[..n] in t
  }

  function Moved(d: Dataset, from: Dataset, to: Dataset): Dataset {
    if Inside(d, from) then to + d[|from|..] else d
  }

  /** `zfs rename`: the whole subtree moves. */
  function Rename(t: Tree, from: Dataset, to: Dataset): Tree {
    map d | d in (set x | x in t :: Moved(x, from, to)) ::
      if Inside(d, to) && from + d[|to|..] in t then t[from + d[|to|..]] else if d in t then t[d] else Node(0, false, false, false)
  }

  /** ZFS renames an existing dataset to a free name elsewhere. */
  predicate RenameAllowed(t: Tree, from: Dataset, to: Dataset) {
    from in t && to !in t && !Overlaps(from, to) && |to| > 1 && to[..|to| - 1] in t
  }

  lemma PrefixInside(d: Dataset, n: nat, root: Dataset)
    requires 0 < n <= |d|
    ensures Inside(d[..n], root) ==> Inside(d, root)
  {
  }

  lemma NothingBeneath(t: Tree, to: Dataset, d: Dataset)
    requires Closed(t) && to !in t && Inside(d, to)
    ensures d !in t
  {
    assert d[..|to|] == to;
  }

  lemma RenameLookup(t: Tree, from: Dataset, to: Dataset, d: Dataset)
    requires RenameAllowed(t, from, to) && Closed(t)
    ensures Inside(d, to) ==> (d in Rename(t, from, to) <==> from + d[|to|..] in t)
    ensures Inside(d, to) && d in Rename(t, from, to) ==> Rename(t, from, to)[d] == t[from + d[|to|..]]
    ensures !Inside(d, to) ==> (d in Rename(t, from, to) <==> d in t && !Inside(d, from))
    ensures !Inside(d, to) && d in Rename(t, from, to) ==> Rename(t, from, to)[d] == t[d]
  {
    if Inside(d, to) {
      NothingBeneath(t, to, d);
      var x := from + d[|to|..];
      assert x[|from|..] == d[|to|..] && to + d[|to|..] == d;
      assert Inside(x, from) && Moved(x, from, to) == d;
      if d in Rename(t, from, to) {
        var y :| y in t && Moved(y, from, to) == d;
        assert Inside(y, from);
        assert y == from + y[|from|..] && (to + y[|from|..])[|to|..] == y[|from|..];
      }
    } else {
      if d in t && !Inside(d, from) { assert Moved(d, from, to) == d; }
      if d in Rename(t, from, to) {
        var y :| y in t && Moved(y, from, to) == d;
        assert Inside(y, from) ==> Inside(d, to);
      }
    }
  }

  lemma RenameClosed(t: Tree, from: Dataset, to: Dataset)
    requires RenameAllowed(t, from, to) && Closed(t)
    ensures Closed(Rename(t, from, to))
  {
    var z := Rename(t, from, to);
    forall d, n | d in z && 0 < n <= |d| ensures d[..n] in z {
      if Inside(d, to) && n >= |to| {
        MovedPrefix(t, from, to, d, n);
      } else {
        RenameLookup(t, from, to, d);
        RenameLookup(t, from, to, d[..n]);
        if Inside(d, to) {
          AbovePrefix(t, from, to, d, n);
        } else {
          PrefixInside(d, n, to);
          PrefixInside(d, n, from);
        }
      }
    }
  }

  /** Above the new name stands what stood there before. */
  lemma AbovePrefix(t: Tree, from: Dataset, to: Dataset, d: Dataset, n: nat)
    requires RenameAllowed(t, from, to) && Closed(t) && Inside(d, to) && 0 < n < |to|
    ensures d[..n] in t && !Inside(d[..n], to) && !Inside(d[..n], from)
  {
    var above := to[..|to| - 1];
    assert d[..n] == to[..n] == above[..n];
    assert above[..n] in t;
    PrefixInside(to, n, from);
  }

  /** What moved with `from` has its ancestors down to the new name. */
  lemma MovedPrefix(t: Tree, from: Dataset, to: Dataset, d: Dataset, n: nat)
    requires RenameAllowed(t, from, to) && Closed(t) && d in Rename(t, from, to) && Inside(d, to) && |to| <= n <= |d|
    ensures d[..n] in Rename(t, from, to)
  {
    RenameLookup(t, from, to, d);
    RenameLookup(t, from, to, d[..n]);
    var x, m := from + d[|to|..], |from| + n - |to|;
    assert d[..n][|to|..] == d[|to|..n];
    assert x[..m] == from + d[|to|..n];
    assert x[..m] in t;
    assert Inside(d[..n], to);
  }

  // ---------------------------------------------------------------- the protocol

  /** One command of an attempt. A receive may leave a partial dataset with a
      resume token; children are adopted in any order. */
  datatype Action = SetAside | Receive(id: nat, complete: bool) | Resume(complete: bool) | Adopt(child: string) | Destroy

  /** An attempt gets to this command from what it finds, and ZFS accepts it. */
  ghost predicate Enabled(t: Tree, d: Dataset, a: Action) {
    var aside := Aside(d);
    match a
    case SetAside =>
      d in t && IsPlaceholder(t[d]) && aside !in t && forall x :: x in t && Inside(x, d) ==> !t[x].token
    case Receive(_, _) => d !in t
    case Resume(_) => d in t && t[d].token
    case Adopt(c) => d in t && IsReplica(t[d]) && aside in t && IsPlaceholder(t[aside]) && aside + [c] in t && d + [c] !in t
    case Destroy => d in t && IsReplica(t[d]) && aside in t && IsPlaceholder(t[aside]) && forall c: string :: aside + [c] !in t
  }

  function Do(t: Tree, d: Dataset, a: Action): Tree {
    var aside := Aside(d);
    match a
    case SetAside => Rename(t, d, aside)
    case Receive(id, complete) => t[d := Node(id, false, complete, !complete)]
    case Resume(complete) => if d in t then t[d := Node(t[d].id, false, complete, !complete)] else t
    case Adopt(c) => Rename(t, aside + [c], d + [c])
    case Destroy => t - {aside}
  }

  /** The replica at relative path `p` is where it was, on exactly one side. */
  predicate OneSide(t: Tree, d: Dataset, below: map<seq<string>, Node>, p: seq<string>) {
    var here, there := d + p, Aside(d) + p;
    && (p in below <==> here in t || there in t)
    && !(here in t && there in t)
    && (here in t ==> t[here] == below[p])
    && (there in t ==> t[there] == below[p])
  }

  /** Every replica beneath, at the same relative path, under exactly one of the
      destination and the set-aside name; and nothing else there. */
  ghost predicate Intact(t: Tree, d: Dataset, below: map<seq<string>, Node>) {
    forall p: seq<string> :: |p| > 0 ==> OneSide(t, d, below, p)
  }

  /** Datasets elsewhere are untouched. */
  ghost predicate Outside(t: Tree, d: Dataset, rest: Tree) {
    forall e: Dataset :: !Inside(e, d) && !Inside(e, Aside(d)) ==> (e in t <==> e in rest) && (e in t ==> t[e] == rest[e])
  }

  ghost predicate Inv(t: Tree, d: Dataset, below: map<seq<string>, Node>, rest: Tree) {
    && |d| > 1 && d[..|d| - 1] in t && Closed(t)
    && Intact(t, d, below) && Outside(t, d, rest)
    && (Aside(d) in t ==> IsPlaceholder(t[Aside(d)]))
    && (d in t && IsPlaceholder(t[d]) ==> Aside(d) !in t)
    && (d in t ==> IsPlaceholder(t[d]) || t[d].token || t[d].snaps)
    && (d in t || Aside(d) in t)
  }

  lemma ParentOutside(d: Dataset)
    requires |d| > 1
    ensures !Inside(d[..|d| - 1], d) && !Inside(d[..|d| - 1], Aside(d)) && Aside(d)[..|d| - 1] == d[..|d| - 1]
  {
    AsideApart(d);
  }

  lemma SetAsideKeeps(t: Tree, d: Dataset, below: map<seq<string>, Node>, rest: Tree)
    requires Inv(t, d, below, rest) && Enabled(t, d, SetAside)
    ensures Inv(Do(t, d, SetAside), d, below, rest)
  {
    var z, aside := Do(t, d, SetAside), Aside(d);
    AsideApart(d);
    ParentOutside(d);
    RenameClosed(t, d, aside);
    forall p: seq<string> | |p| > 0 ensures OneSide(z, d, below, p) {
      assert OneSide(t, d, below, p);
      RenameLookup(t, d, aside, d + p);
      RenameLookup(t, d, aside, aside + p);
      NotInBoth(d + p, d, aside);
      NothingBeneath(t, aside, aside + p);
      assert (aside + p)[|aside|..] == p;
    }
    forall e: Dataset | !Inside(e, d) && !Inside(e, aside) ensures (e in z <==> e in rest) && (e in z ==> z[e] == rest[e]) {
      RenameLookup(t, d, aside, e);
    }
    RenameLookup(t, d, aside, d);
    RenameLookup(t, d, aside, aside);
    assert d + aside[|aside|..] == d;
    RenameLookup(t, d, aside, d[..|d| - 1]);
  }

  lemma ChildSide(d: Dataset, p: seq<string>, c: string)
    requires |p| > 0
    ensures Inside(d + p, d + [c]) <==> p[0] == c
  {
    assert (d + p)[..|d| + 1] == d + [p[0]];
    assert (d + [c])[|d|] == c;
  }

  /** The child's names on both sides. */
  lemma AdoptNames(d: Dataset, c: string)
    ensures !Overlaps(Aside(d) + [c], d + [c]) && (d + [c])[..|d|] == d
    ensures forall e: Dataset :: Inside(e, d + [c]) ==> Inside(e, d) && !Inside(e, Aside(d))
    ensures forall e: Dataset :: Inside(e, Aside(d) + [c]) ==> Inside(e, Aside(d)) && !Inside(e, d)
  {
    AsideApart(d);
    var from, to := Aside(d) + [c], d + [c];
    assert from[..|d|] == Aside(d) && to[..|d|] == d;
    forall e: Dataset | Inside(e, to) ensures Inside(e, d) && !Inside(e, Aside(d)) {
      assert e[..|d|] == to[..|d|] == d;
      NotInBoth(e, d, Aside(d));
    }
    forall e: Dataset | Inside(e, from) ensures Inside(e, Aside(d)) && !Inside(e, d) {
      assert e[..|d|] == from[..|d|] == Aside(d);
      NotInBoth(e, Aside(d), d);
    }
  }

  lemma AdoptOneSide(t: Tree, d: Dataset, below: map<seq<string>, Node>, c: string, p: seq<string>)
    requires Closed(t) && OneSide(t, d, below, p) && |p| > 0 && RenameAllowed(t, Aside(d) + [c], d + [c])
    ensures OneSide(Rename(t, Aside(d) + [c], d + [c]), d, below, p)
  {
    var aside := Aside(d);
    var from, to := aside + [c], d + [c];
    AdoptNames(d, c);
    AsideApart(d);
    ChildSide(d, p, c);
    ChildSide(aside, p, c);
    NotInBoth(d + p, d, aside);
    NotInBoth(aside + p, aside, d);
    RenameLookup(t, from, to, d + p);
    RenameLookup(t, from, to, aside + p);
    if p[0] == c {
      assert (d + p)[|to|..] == p[1..] && from + p[1..] == aside + p;
      NothingBeneath(t, to, d + p);
    }
  }

  lemma AdoptKeeps(t: Tree, d: Dataset, below: map<seq<string>, Node>, rest: Tree, c: string)
    requires Inv(t, d, below, rest) && Enabled(t, d, Adopt(c))
    ensures Inv(Do(t, d, Adopt(c)), d, below, rest)
  {
    var z, aside := Do(t, d, Adopt(c)), Aside(d);
    var from, to := aside + [c], d + [c];
    AdoptNames(d, c);
    AsideApart(d);
    ParentOutside(d);
    assert RenameAllowed(t, from, to);
    RenameClosed(t, from, to);
    forall p: seq<string> | |p| > 0 ensures OneSide(z, d, below, p) {
      assert OneSide(t, d, below, p);
      AdoptOneSide(t, d, below, c, p);
    }
    assert Outside(z, d, rest) by {
      forall e: Dataset | !Inside(e, d) && !Inside(e, aside) ensures (e in z <==> e in rest) && (e in z ==> z[e] == rest[e]) {
        RenameLookup(t, from, to, e);
      }
    }
    RenameLookup(t, from, to, d);
    RenameLookup(t, from, to, aside);
    RenameLookup(t, from, to, d[..|d| - 1]);
  }

  /** A change to the destination or the set-aside dataset alone leaves the rest intact. */
  lemma RootChanges(t: Tree, z: Tree, d: Dataset, at: Dataset, below: map<seq<string>, Node>, rest: Tree)
    requires Intact(t, d, below) && Outside(t, d, rest) && (at == d || at == Aside(d))
    requires forall e: Dataset :: e != at ==> (e in t <==> e in z) && (e in t ==> t[e] == z[e])
    ensures Intact(z, d, below) && Outside(z, d, rest)
  {
    AsideApart(d);
    forall p: seq<string> | |p| > 0 ensures OneSide(z, d, below, p) {
      assert OneSide(t, d, below, p);
      assert |d + p| > |d| && |Aside(d) + p| > |d|;
    }
  }

  lemma SetClosed(t: Tree, d: Dataset, n: Node)
    requires Closed(t) && |d| > 1 && d[..|d| - 1] in t
    ensures Closed(t[d := n])
  {
    forall x, k | x in t[d := n] && 0 < k <= |x| ensures x[..k] in t[d := n] {
      assert x[..|x|] == x;
      if x == d && k < |x| {
        assert d[..|d| - 1][..k] == d[..k];
        assert d[..|d| - 1][..k] in t;
      } else if k < |x| {
        assert x[..k] in t;
      }
    }
  }

  lemma DropClosed(t: Tree, d: Dataset)
    requires Closed(t) && forall c: string :: d + [c] !in t
    ensures Closed(t - {d})
  {
    forall x, k | x in t - {d} && 0 < k <= |x| ensures x[..k] in t - {d} {
      assert x[..|x|] == x;
      assert x[..k] in t;
      if k < |x| {
        assert x[..k + 1] in t;
        assert x[..k + 1] == x[..k] + [x[k]];
      }
    }
  }

  lemma ReceiveKeeps(t: Tree, d: Dataset, below: map<seq<string>, Node>, rest: Tree, a: Action)
    requires Inv(t, d, below, rest) && Enabled(t, d, a) && (a.Receive? || a.Resume?)
    ensures Inv(Do(t, d, a), d, below, rest)
  {
    AsideApart(d);
    RootChanges(t, Do(t, d, a), d, d, below, rest);
    SetClosed(t, d, Do(t, d, a)[d]);
  }

  lemma DestroyKeeps(t: Tree, d: Dataset, below: map<seq<string>, Node>, rest: Tree)
    requires Inv(t, d, below, rest) && Enabled(t, d, Destroy)
    ensures Inv(Do(t, d, Destroy), d, below, rest)
  {
    AsideApart(d);
    ParentOutside(d);
    RootChanges(t, Do(t, d, Destroy), d, Aside(d), below, rest);
    DropClosed(t, Aside(d));
  }

  /** Every command keeps every replica beneath on exactly one side. */
  lemma ActionKeeps(t: Tree, d: Dataset, below: map<seq<string>, Node>, rest: Tree, a: Action)
    requires Inv(t, d, below, rest) && Enabled(t, d, a)
    ensures Inv(Do(t, d, a), d, below, rest)
  {
    match a
    case SetAside => SetAsideKeeps(t, d, below, rest);
    case Adopt(c) => AdoptKeeps(t, d, below, rest, c);
    case Receive(_, _) => ReceiveKeeps(t, d, below, rest, a);
    case Resume(_) => ReceiveKeeps(t, d, below, rest, a);
    case Destroy => DestroyKeeps(t, d, below, rest);
  }

  // ---------------------------------------------------------------- runs

  /** Any sequence of commands, those not reached being skipped: attempts and
      crashes in any order, since every attempt starts from the tree alone. */
  ghost function Run(t: Tree, d: Dataset, actions: seq<Action>): Tree {
    if actions == [] then t
    else
      var prior := Run(t, d, actions[..|actions| - 1]);
      var a := actions[|actions| - 1];
      if Enabled(prior, d, a) then Do(prior, d, a) else prior
  }

  /** The replicas beneath a placeholder, by relative path. */
  function Beneath(t: Tree, d: Dataset): map<seq<string>, Node> {
    map p | p in (set x | x in t && Inside(x, d) && x != d :: x[|d|..]) :: if d + p in t then t[d + p] else Node(0, false, false, false)
  }

  /** A placeholder that nothing has been done about yet. */
  ghost predicate Untouched(t: Tree, d: Dataset) {
    Closed(t) && |d| > 1 && d in t && IsPlaceholder(t[d]) && Aside(d) !in t
  }

  lemma UntouchedInv(t: Tree, d: Dataset)
    requires Untouched(t, d)
    ensures Inv(t, d, Beneath(t, d), t)
  {
    var below, aside := Beneath(t, d), Aside(d);
    AsideApart(d);
    assert d[..|d| - 1] in t;
    forall p: seq<string> | |p| > 0 ensures OneSide(t, d, below, p) {
      NothingBeneath(t, aside, aside + p);
      assert (d + p)[|d|..] == p;
      if p in below {
        var x :| x in t && Inside(x, d) && x != d && x[|d|..] == p;
        assert x == d + p;
      }
    }
  }

  /** Across every command and crash of a replacement, each replica beneath the
      placeholder is at the same relative path under exactly one of the
      destination and the set-aside name, and nothing else has changed. */
  lemma {:induction false} ReplicasSurvive(t: Tree, d: Dataset, actions: seq<Action>)
    requires Untouched(t, d)
    ensures Inv(Run(t, d, actions), d, Beneath(t, d), t)
    decreases |actions|
  {
    if actions == [] {
      UntouchedInv(t, d);
    } else {
      ReplicasSurvive(t, d, actions[..|actions| - 1]);
      var prior := Run(t, d, actions[..|actions| - 1]);
      var a := actions[|actions| - 1];
      if Enabled(prior, d, a) { ActionKeeps(prior, d, Beneath(t, d), t, a); }
    }
  }

  /** What is destroyed is a marked dataset with no content and nothing beneath it. */
  lemma OnlyEmptyDestroyed(t: Tree, d: Dataset, a: Action, x: Dataset)
    requires Closed(t) && Enabled(t, d, a) && a.Destroy? && x in t && x !in Do(t, d, a)
    ensures x == Aside(d) && t[x].marked && !t[x].snaps && !t[x].token && forall y :: y in t && Inside(y, x) ==> y == x
  {
    forall y | y in t && Inside(y, x) ensures y == x {
      if y != x { var c := HasChild(t, x, y); }
    }
  }

  /** An unmarked dataset, or one with content, is neither moved nor destroyed,
      at the destination or at the set-aside name, in whatever tree. */
  lemma UnmarkedStays(t: Tree, d: Dataset, a: Action, x: Dataset)
    requires Closed(t) && |d| > 1 && Enabled(t, d, a) && x in t && (x == d || x == Aside(d))
    requires !t[x].marked || t[x].snaps || t[x].token
    ensures x in Do(t, d, a) && Do(t, d, a)[x].id == t[x].id && (t[x].snaps && !t[x].token ==> Do(t, d, a)[x] == t[x])
  {
    AsideApart(d);
    match a
    case SetAside =>
    case Receive(_, _) =>
    case Resume(_) =>
    case Adopt(c) =>
      AdoptNames(d, c);
      assert RenameAllowed(t, Aside(d) + [c], d + [c]);
      RenameLookup(t, Aside(d) + [c], d + [c], x);
    case Destroy =>
  }

  /** Setting aside disturbs no receive that is under way; children move back and
      the placeholder goes only beside a replica that is received whole. */
  lemma OnlySettledMoves(t: Tree, d: Dataset, a: Action)
    requires Closed(t) && |d| > 1 && Enabled(t, d, a)
    ensures a.SetAside? ==> forall x :: x in t && t[x].token ==> x in Do(t, d, a) && Do(t, d, a)[x] == t[x]
    ensures a.Adopt? || a.Destroy? ==> d in t && t[d].snaps && !t[d].token
  {
    if a.SetAside? {
      AsideApart(d);
      ParentOutside(d);
      assert d[..|d| - 1] in t;
      forall x | x in t && t[x].token ensures x in Do(t, d, a) && Do(t, d, a)[x] == t[x] {
        RenameLookup(t, d, Aside(d), x);
        if Inside(x, Aside(d)) { NothingBeneath(t, Aside(d), x); }
      }
    }
  }

  lemma HasChild(t: Tree, a: Dataset, y: Dataset) returns (c: string)
    requires Closed(t) && y in t && Inside(y, a) && y != a
    ensures a + [c] in t
  {
    c := y[|a|];
    assert y[..|a| + 1] == a + [c];
    assert y[..|a| + 1] in t;
  }

  predicate Finished(t: Tree, d: Dataset) {
    d in t && IsReplica(t[d]) && Aside(d) !in t
  }

  /** A finished replacement has every replica beneath the received one and nothing set aside. */
  lemma FinishedHasAll(t: Tree, d: Dataset, below: map<seq<string>, Node>, rest: Tree)
    requires Inv(t, d, below, rest) && Finished(t, d)
    ensures forall p :: p in below && |p| > 0 ==> d + p in t && t[d + p] == below[p]
    ensures forall x :: x in t ==> !Inside(x, Aside(d))
  {
    forall p | p in below && |p| > 0 ensures d + p in t && t[d + p] == below[p] {
      assert OneSide(t, d, below, p);
      NothingBeneath(t, Aside(d), Aside(d) + p);
    }
    forall x | x in t ensures !Inside(x, Aside(d)) {
      if Inside(x, Aside(d)) { NothingBeneath(t, Aside(d), x); }
    }
  }

  /** The children still waiting on the set-aside side. */
  ghost function Waiting(t: Tree, d: Dataset, below: map<seq<string>, Node>): set<seq<string>> {
    set p | p in below && Aside(d) + p in t
  }

  ghost function Rank(t: Tree, d: Dataset, below: map<seq<string>, Node>): nat {
    if d in t && IsPlaceholder(t[d]) then |below| + 4
    else if d !in t then |below| + 3
    else if t[d].token then |below| + 2
    else if Aside(d) in t then 1 + |Waiting(t, d, below)|
    else 0
  }

  lemma WaitingBounded(t: Tree, d: Dataset, below: map<seq<string>, Node>)
    ensures |Waiting(t, d, below)| <= |below|
  {
    assert Waiting(t, d, below) <= below.Keys;
    SubsetSize(Waiting(t, d, below), below.Keys);
  }

  lemma SubsetSize<T>(a: set<T>, b: set<T>)
    requires a <= b
    ensures |a| <= |b|
  {
    assert b == a + (b - a);
  }

  lemma WaitingShrinks(t: Tree, d: Dataset, below: map<seq<string>, Node>, c: string, p: seq<string>)
    requires Closed(t) && Enabled(t, d, Adopt(c)) && p in Waiting(Do(t, d, Adopt(c)), d, below)
    ensures p in Waiting(t, d, below) && p != [c]
  {
    var aside := Aside(d);
    AdoptNames(d, c);
    AsideApart(d);
    NotInBoth(aside + p, aside, d);
    RenameLookup(t, aside + [c], d + [c], aside + p);
  }

  /** Adopting a child leaves strictly fewer waiting. */
  lemma AdoptAdvances(t: Tree, d: Dataset, below: map<seq<string>, Node>, rest: Tree, c: string)
    requires Inv(t, d, below, rest) && Enabled(t, d, Adopt(c))
    ensures |Waiting(Do(t, d, Adopt(c)), d, below)| < |Waiting(t, d, below)|
  {
    var z := Do(t, d, Adopt(c));
    forall p | p in Waiting(z, d, below) ensures p in Waiting(t, d, below) - {[c]} {
      WaitingShrinks(t, d, below, c, p);
    }
    assert OneSide(t, d, below, [c]);
    assert [c] in Waiting(t, d, below);
    SubsetSize(Waiting(z, d, below), Waiting(t, d, below) - {[c]});
  }

  lemma SetAsideReady(t: Tree, d: Dataset, below: map<seq<string>, Node>)
    requires Closed(t) && Intact(t, d, below) && d in t && IsPlaceholder(t[d]) && Aside(d) !in t && |d| > 1 && d[..|d| - 1] in t
    requires forall p :: p in below ==> !below[p].token
    ensures Enabled(t, d, SetAside) && d !in Do(t, d, SetAside)
  {
    forall x | x in t && Inside(x, d) ensures !t[x].token {
      if x != d {
        var p := x[|d|..];
        assert x == d + p && |p| > 0;
        assert OneSide(t, d, below, p);
      }
    }
    AsideApart(d);
    ParentOutside(d);
    RenameLookup(t, d, Aside(d), d);
  }

  lemma AdoptReady(t: Tree, d: Dataset, below: map<seq<string>, Node>, rest: Tree) returns (a: Action)
    requires Inv(t, d, below, rest) && d in t && IsReplica(t[d]) && Aside(d) in t
    ensures Enabled(t, d, a) && Rank(Do(t, d, a), d, below) < Rank(t, d, below)
  {
    AsideApart(d);
    if c: string :| Aside(d) + [c] in t {
      a := Adopt(c);
      assert OneSide(t, d, below, [c]);
      AdoptAdvances(t, d, below, rest, c);
      AdoptOthers(t, d, c);
    } else {
      a := Destroy;
    }
  }

  /** From any state a crash can leave, with no receive pending beneath, some
      command is always possible and brings the replacement closer to its end. */
  lemma AlwaysAdvances(t: Tree, d: Dataset, below: map<seq<string>, Node>, rest: Tree) returns (a: Action)
    requires Inv(t, d, below, rest) && !Finished(t, d) && forall p :: p in below ==> !below[p].token
    ensures Enabled(t, d, a) && Rank(Do(t, d, a), d, below) < Rank(t, d, below)
  {
    if d !in t {
      a := Receive(0, true);
      WaitingBounded(Do(t, d, a), d, below);
    } else if IsPlaceholder(t[d]) {
      a := SetAside;
      SetAsideReady(t, d, below);
    } else if t[d].token {
      a := Resume(true);
      WaitingBounded(Do(t, d, a), d, below);
    } else {
      a := AdoptReady(t, d, below, rest);
    }
  }

  /** Rerunning to completion finishes the replacement from any such state. */
  lemma RerunCompletes(t: Tree, d: Dataset, below: map<seq<string>, Node>, rest: Tree) returns (final: Tree, actions: seq<Action>)
    requires Inv(t, d, below, rest) && forall p :: p in below ==> !below[p].token
    ensures Inv(final, d, below, rest) && Finished(final, d)
    ensures final == Run(t, d, actions)
    ensures forall p :: p in below && |p| > 0 ==> d + p in final && final[d + p] == below[p]
    decreases Rank(t, d, below)
  {
    if Finished(t, d) {
      final, actions := t, [];
      FinishedHasAll(t, d, below, rest);
    } else {
      var a := AlwaysAdvances(t, d, below, rest);
      ActionKeeps(t, d, below, rest, a);
      var more;
      final, more := RerunCompletes(Do(t, d, a), d, below, rest);
      actions := [a] + more;
      RunCons(t, d, a, more);
    }
  }

  lemma {:induction false} RunCons(t: Tree, d: Dataset, a: Action, more: seq<Action>)
    requires Enabled(t, d, a)
    ensures Run(t, d, [a] + more) == Run(Do(t, d, a), d, more)
    decreases |more|
  {
    if more == [] {
      assert [a] + more == [a] && [a][..0] == [];
    } else {
      assert ([a] + more)[..|more|] == [a] + more[..|more| - 1];
      RunCons(t, d, a, more[..|more| - 1]);
    }
  }

  // ---------------------------------------------------------------- the destination

  datatype Outcome = Done | Busy | Refused

  lemma SetAsideLeaves(t: Tree, d: Dataset, below: map<seq<string>, Node>, rest: Tree)
    requires Inv(t, d, below, rest) && Enabled(t, d, SetAside)
    ensures Inv(Do(t, d, SetAside), d, below, rest) && Do(t, d, SetAside) == Rename(t, d, Aside(d)) && d !in Do(t, d, SetAside)
  {
    ActionKeeps(t, d, below, rest, SetAside);
    AsideApart(d);
    RenameLookup(t, d, Aside(d), d);
  }

  ghost predicate AllInv(trees: seq<Tree>, d: Dataset, below: map<seq<string>, Node>, rest: Tree) {
    forall i :: 0 <= i < |trees| ==> Inv(trees[i], d, below, rest)
  }

  lemma AllInvGrows(trail: seq<Tree>, from: nat, t: Tree, d: Dataset, below: map<seq<string>, Node>, rest: Tree)
    requires from <= |trail| && AllInv(trail[from..], d, below, rest) && Inv(t, d, below, rest)
    ensures AllInv((trail + [t])[from..], d, below, rest)
  {
    assert (trail + [t])[from..] == trail[from..] + [t];
  }

  class Destination {
    var tree: Tree
    /** Every tree a crash could have left, in order. */
    ghost var trail: seq<Tree>

    constructor (initial: Tree)
      ensures tree == initial && trail == [initial]
    {
      tree, trail := initial, [initial];
    }

    /** Each tree since `from` keeps the replicas beneath. */
    ghost predicate Kept(from: nat, d: Dataset, below: map<seq<string>, Node>, rest: Tree)
      reads this
    {
      Inv(tree, d, below, rest) && from <= |trail| && AllInv(trail[from..], d, below, rest)
    }

    /** Make room for a stream whose destination is still a placeholder. Whatever
        else stands there stays as it is. */
    method SetAsidePlaceholder(d: Dataset, ghost below: map<seq<string>, Node>, ghost rest: Tree) returns (outcome: Outcome)
      requires Closed(tree) && |d| > 1
      modifies this
      ensures d in old(tree) && (!old(tree)[d].marked || old(tree)[d].snaps || old(tree)[d].token) ==> outcome == Done && tree == old(tree)
      ensures d !in old(tree) ==> outcome == Done && tree == old(tree)
      ensures tree == old(tree) || (Enabled(old(tree), d, SetAside) && tree == Do(old(tree), d, SetAside))
      ensures outcome.Done? ==> d !in tree || !tree[d].marked || tree[d].snaps || tree[d].token
      ensures outcome.Busy? ==> exists x :: x in tree && Inside(x, d) && tree[x].token
      ensures !outcome.Done? ==> tree == old(tree)
      ensures old(trail) <= trail && (Inv(old(tree), d, below, rest) ==> Kept(|old(trail)|, d, below, rest))
    {
      if d !in tree || !IsPlaceholder(tree[d]) { return Done; }
      if Aside(d) in tree { return Refused; }
      if exists x :: x in tree && Inside(x, d) && tree[x].token { return Busy; }
      if * { return Refused; }
      if Inv(tree, d, below, rest) {
        SetAsideLeaves(tree, d, below, rest);
      }
      MovesAway(tree, d);
      tree := Rename(tree, d, Aside(d));
      if Inv(old(tree), d, below, rest) {
        AllInvGrows(trail, |trail|, tree, d, below, rest);
      }
      trail := trail + [tree];
      return Done;
    }

    /** Move the first of the children left across, unless its name is taken. */
    method AdoptOne(d: Dataset, left: seq<string>, ghost below: map<seq<string>, Node>, ghost rest: Tree) returns (ok: bool)
      requires Adopting(tree, d) && left != [] && AreLeft(tree, d, left)
      modifies this
      ensures ok ==> trail == old(trail) + [tree] && Adopting(tree, d) && AreLeft(tree, d, left[1..])
      ensures ok ==> d + [left[0]] !in old(tree) && tree == Rename(old(tree), Aside(d) + [left[0]], d + [left[0]])
      ensures !ok ==> tree == old(tree) && trail == old(trail)
      ensures Inv(old(tree), d, below, rest) ==> Inv(tree, d, below, rest)
    {
      var c := left[0];
      if d + [c] in tree { return false; }
      if * { return false; }
      assert Aside(d) + [c] in tree;
      if Inv(tree, d, below, rest) {
        ActionKeeps(tree, d, below, rest, Adopt(c));
      }
      AdoptLeaves(tree, d, left);
      tree := Rename(tree, Aside(d) + [c], d + [c]);
      trail := trail + [tree];
      return true;
    }

    /** Remove the set-aside placeholder once nothing is beneath it. */
    method RemoveAside(d: Dataset, ghost below: map<seq<string>, Node>, ghost rest: Tree) returns (ok: bool)
      requires Adopting(tree, d) && AreLeft(tree, d, [])
      modifies this
      ensures ok ==> Finished(tree, d) && trail == old(trail) + [tree] && tree == old(tree) - {Aside(d)}
      ensures !ok ==> tree == old(tree) && trail == old(trail)
      ensures Inv(old(tree), d, below, rest) ==> Inv(tree, d, below, rest)
    {
      if * { return false; }
      if Inv(tree, d, below, rest) {
        ActionKeeps(tree, d, below, rest, Destroy);
      }
      AsideApart(d);
      tree := tree - {Aside(d)};
      trail := trail + [tree];
      return true;
    }

    /** Move every child of the set-aside placeholder beneath the verified
        replica, then remove the placeholder. `children` is read once. What is
        not a placeholder is left alone, with all beneath it. */
    method AdoptPlaceholderChildren(d: Dataset, children: seq<string>, ghost below: map<seq<string>, Node>, ghost rest: Tree) returns (ok: bool)
      requires Closed(tree) && |d| > 1 && d in tree && IsReplica(tree[d]) && AreLeft(tree, d, children)
      modifies this
      ensures Aside(d) !in old(tree) ==> ok && tree == old(tree)
      ensures Aside(d) in old(tree) && (!old(tree)[Aside(d)].marked || old(tree)[Aside(d)].snaps || old(tree)[Aside(d)].token) ==> !ok && tree == old(tree)
      ensures ok ==> Finished(tree, d)
      ensures old(trail) <= trail && (Inv(old(tree), d, below, rest) ==> Kept(|old(trail)|, d, below, rest))
    {
      if Aside(d) !in tree { return true; }
      if !IsPlaceholder(tree[Aside(d)]) { return false; }
      ok := AdoptAll(d, children, below, rest);
    }

    method AdoptAll(d: Dataset, children: seq<string>, ghost below: map<seq<string>, Node>, ghost rest: Tree) returns (ok: bool)
      requires Adopting(tree, d) && AreLeft(tree, d, children)
      modifies this
      ensures ok ==> Finished(tree, d)
      ensures old(trail) <= trail && (Inv(old(tree), d, below, rest) ==> Kept(|old(trail)|, d, below, rest))
    {
      for i := 0 to |children|
        invariant old(trail) <= trail && (Inv(old(tree), d, below, rest) ==> Kept(|old(trail)|, d, below, rest))
        invariant Adopting(tree, d) && AreLeft(tree, d, children[i..])
      {
        assert children[i..][1..] == children[i + 1..];
        ghost var before := trail;
        var moved := AdoptOne(d, children[i..], below, rest);
        if !moved { return false; }
        if Inv(old(tree), d, below, rest) {
          AllInvGrows(before, |old(trail)|, tree, d, below, rest);
        }
      }
      ghost var before := trail;
      ok := RemoveAside(d, below, rest);
      if ok && Inv(old(tree), d, below, rest) {
        AllInvGrows(before, |old(trail)|, tree, d, below, rest);
      }
    }
  }

  /** The replica is there and the placeholder waits beside it. */
  ghost predicate Adopting(t: Tree, d: Dataset) {
    Closed(t) && |d| > 1 && d in t && IsReplica(t[d]) && Aside(d) in t && IsPlaceholder(t[Aside(d)])
  }

  lemma MovesAway(t: Tree, d: Dataset)
    requires Closed(t) && |d| > 1 && Enabled(t, d, SetAside)
    ensures d !in Rename(t, d, Aside(d))
  {
    AsideApart(d);
    ParentOutside(d);
    assert d[..|d| - 1] in t;
    RenameLookup(t, d, Aside(d), d);
  }

  /** The children still beneath the set-aside name, each once. */
  ghost predicate AreLeft(t: Tree, d: Dataset, left: seq<string>) {
    && (forall c: string :: Aside(d) + [c] in t <==> c in left)
    && (forall i, j :: 0 <= i < j < |left| ==> left[i] != left[j])
  }

  lemma AdoptLeaves(t: Tree, d: Dataset, left: seq<string>)
    requires Adopting(t, d) && left != [] && AreLeft(t, d, left) && Enabled(t, d, Adopt(left[0]))
    ensures var n := Do(t, d, Adopt(left[0])); AreLeft(n, d, left[1..]) && Adopting(n, d)
  {
    AdoptOthers(t, d, left[0]);
    AdoptClosed(t, d, left[0]);
    assert left == [left[0]] + left[1..];
  }

  lemma AdoptClosed(t: Tree, d: Dataset, c: string)
    requires Closed(t) && Enabled(t, d, Adopt(c))
    ensures Closed(Do(t, d, Adopt(c)))
  {
    AdoptNames(d, c);
    RenameClosed(t, Aside(d) + [c], d + [c]);
  }

  lemma AdoptOthers(t: Tree, d: Dataset, c: string)
    requires Closed(t) && Enabled(t, d, Adopt(c))
    ensures forall x: string :: Aside(d) + [x] in Do(t, d, Adopt(c)) <==> Aside(d) + [x] in t && x != c
    ensures d in Do(t, d, Adopt(c)) && Do(t, d, Adopt(c))[d] == t[d]
    ensures Aside(d) in Do(t, d, Adopt(c)) && Do(t, d, Adopt(c))[Aside(d)] == t[Aside(d)]
  {
    var aside := Aside(d);
    AdoptNames(d, c);
    AsideApart(d);
    RenameLookup(t, aside + [c], d + [c], d);
    RenameLookup(t, aside + [c], d + [c], aside);
    forall x: string ensures aside + [x] in Do(t, d, Adopt(c)) <==> aside + [x] in t && x != c {
      NotInBoth(aside + [x], aside, d);
      ChildSide(aside, [x], c);
      RenameLookup(t, aside + [c], d + [c], aside + [x]);
    }
  }
}
