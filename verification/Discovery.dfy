/** Discovery: which root acts for each dataset, where replicas land, and which
    of them may not be sent because they would overlap.

    Dataset names come sorted, so a parent stands before its children. Warnings
    and reasons are text for the reader and are not modelled. */
module Discovery {
  import opened Names
  import opened Transfer

  /** What a destination is bound by: a local root, or a remote's canonical target. */
  datatype Identity = LocalTarget(root: Dataset) | Canonical(text: string)

  datatype Policy = Policy(enabled: bool, valid: bool, replicate: bool, discard: Discard, local: seq<Dataset>, remote: seq<string>)

  datatype Entry = Entry(policy: Policy, inspected: bool, bound: set<Identity>, coveredBy: Option<Dataset>, member: bool, members: seq<Dataset>)

  type Entries = map<Dataset, Entry>

  // Roots.

  function Parent(d: Dataset): Dataset
    requires |d| > 1
  {
    d[..|d| - 1]
  }

  predicate Enabled(entries: Entries, d: Dataset) {
    d in entries && entries[d].policy.enabled
  }

  /** The inventory: each dataset once, after its parent. */
  ghost predicate Inventory(names: seq<Dataset>, entries: Entries) {
    && (forall i, j :: 0 <= i < j < |names| ==> names[i] != names[j])
    && (forall i :: 0 <= i < |names| ==> names[i] in entries)
    && (forall i {:trigger AfterParent(names, i)} :: 0 <= i < |names| ==> AfterParent(names, i))
  }

  predicate AfterParent(names: seq<Dataset>, i: nat)
    requires i < |names|
  {
    |names[i]| > 1 ==> Parent(names[i]) in names[..i]
  }

  /** Names sorted as text, and closed under parents, list parents first. */
  lemma SortedListsParentsFirst(names: seq<Dataset>, i: nat)
    requires forall j, k :: 0 <= j < k < |names| ==> Less(Text(names[j]), Text(names[k]))
    requires i < |names| && |names[i]| > 1 && Parent(names[i]) in names
    ensures Parent(names[i]) in names[..i]
  {
    var d := names[i];
    var p, c := Parent(d), d[|d| - 1];
    assert d == p + [c];
    TextOfChild(p, c);
    assert Text(d) == Text(p) + ("/" + c);
    LessExtended(Text(p), "/" + c);
    var j :| 0 <= j < |names| && names[j] == p;
    LessTotal(Text(p), Text(d));
    assert !(i < j) && i != j;
    assert names[..i][j] == p;
  }

  /** The root that acts for a dataset: its parent's, or itself when enabled. */
  function RootOf(entries: Entries, d: Dataset): Option<Dataset>
    decreases |d|
  {
    var above := if |d| > 1 then RootOf(entries, Parent(d)) else None;
    if above.Some? then above else if Enabled(entries, d) then Some(d) else None
  }

  /** It is the topmost enabled ancestor or the dataset itself. */
  lemma {:induction false} RootIsTopmost(entries: Entries, d: Dataset)
    ensures match RootOf(entries, d)
      case Some(r) => Enabled(entries, r) && Inside(d, r) && forall a: Dataset :: Enabled(entries, a) && Inside(d, a) ==> Inside(a, r)
      case None => forall a: Dataset :: Enabled(entries, a) ==> !Inside(d, a)
    decreases |d|
  {
    if |d| > 1 {
      RootIsTopmost(entries, Parent(d));
    }
    forall a: Dataset | Enabled(entries, a) && Inside(d, a) ensures RootOf(entries, d).Some? && Inside(a, RootOf(entries, d).value) {
      if a != d {
        assert a == d[..|a|] == Parent(d)[..|a|];
        assert Inside(Parent(d), a);
      }
    }
  }

  predicate IsRoot(entries: Entries, d: Dataset) {
    RootOf(entries, d) == Some(d)
  }

  /** Roots do not contain one another. */
  lemma RootsApart(entries: Entries, a: Dataset, b: Dataset)
    requires IsRoot(entries, a) && IsRoot(entries, b) && a != b
    ensures !Overlaps(a, b)
  {
    RootIsTopmost(entries, a);
    RootIsTopmost(entries, b);
  }

  /** What discovery records on one dataset. */
  function Marked(entries: Entries, d: Dataset): Entry
    requires d in entries
  {
    var e, root := entries[d], RootOf(entries, d);
    if root.None? || root.value == d || root.value !in entries then e
    else
      var r := entries[root.value];
      if r.policy.replicate then e.(coveredBy := root, member := true)
      else if e.policy.enabled && e.inspected && e.policy.valid then
        e.(coveredBy := root, member := true, policy := e.policy.(replicate := false, discard := r.policy.discard))
      else e.(coveredBy := root)
  }

  /** Whether a root's member list holds the dataset. */
  predicate Belongs(entries: Entries, d: Dataset, root: Dataset) {
    d in entries && RootOf(entries, d) == Some(root) && (d == root || Marked(entries, d).member)
  }

  predicate Eligible(e: Entry) {
    e.policy.enabled && e.inspected && e.policy.valid
  }

  /** A root acts for its whole subtree. */
  lemma RootOwnsSubtree(entries: Entries, d: Dataset, root: Dataset)
    requires IsRoot(entries, root) && Inside(d, root)
    ensures RootOf(entries, d) == Some(root)
  {
    RootIsTopmost(entries, root);
    RootIsTopmost(entries, d);
    var r := RootOf(entries, d).value;
    assert Inside(root, r) && Inside(r, root);
    assert r == root[..|r|] == root;
    assert RootOf(entries, d) == Some(r);
  }

  /** Who a root's members are: its subtree under one stream for all, and
      otherwise its enabled, inspected and valid descendants, which then send by
      the root's mapping and one stream each. */
  lemma MembersOfRoot(entries: Entries, d: Dataset, root: Dataset)
    requires IsRoot(entries, root) && d in entries && root in entries
    requires !entries[d].member
    ensures Belongs(entries, d, root) <==> Inside(d, root) && (d == root || entries[root].policy.replicate || Eligible(entries[d]))
    ensures Belongs(entries, d, root) && d != root ==> Marked(entries, d).coveredBy == Some(root)
    ensures Belongs(entries, d, root) && d != root && !entries[root].policy.replicate ==>
      !Marked(entries, d).policy.replicate && Marked(entries, d).policy.discard == entries[root].policy.discard
  {
    RootIsTopmost(entries, d);
    if Inside(d, root) {
      RootOwnsSubtree(entries, d, root);
    }
  }

  function MembersOf(entries: Entries, names: seq<Dataset>, root: Dataset): seq<Dataset> {
    if names == [] then []
    else
      var last := names[|names| - 1];
      MembersOf(entries, names[..|names| - 1], root) + if Belongs(entries, last, root) then [last] else []
  }

  lemma {:induction false} MembersAre(entries: Entries, names: seq<Dataset>, root: Dataset)
    ensures forall d :: d in MembersOf(entries, names, root) <==> d in names && Belongs(entries, d, root)
  {
    if names != [] {
      assert names == names[..|names| - 1] + [names[|names| - 1]];
      MembersAre(entries, names[..|names| - 1], root);
    }
  }

  /** A root's members lie in its subtree, each after those above it. */
  lemma {:induction false} MembersInOrder(entries: Entries, names: seq<Dataset>, root: Dataset, i: nat, j: nat)
    requires Inventory(names, entries) && i < j < |MembersOf(entries, names, root)|
    ensures var ms := MembersOf(entries, names, root); Inside(ms[j], root) && !Inside(ms[i], ms[j])
  {
    var front, last := names[..|names| - 1], names[|names| - 1];
    var ms := MembersOf(entries, names, root);
    assert names == front + [last];
    assert Inventory(front, entries) by {
      forall k | 0 <= k < |front| ensures AfterParent(front, k) {
        assert AfterParent(names, k);
        assert front[..k] == names[..k];
      }
    }
    RootIsTopmost(entries, ms[j]);
    MembersAre(entries, names, root);
    assert ms[j] in ms;
    if j < |MembersOf(entries, front, root)| {
      MembersInOrder(entries, front, root, i, j);
    } else {
      MembersAre(entries, front, root);
      assert ms[i] in MembersOf(entries, front, root);
      NotBefore(names, entries, ms[i]);
    }
  }

  /** Nothing listed lies beneath what is listed after it. */
  lemma NotBefore(names: seq<Dataset>, entries: Entries, d: Dataset)
    requires names != [] && Inventory(names, entries) && d in names[..|names| - 1]
    ensures !Inside(d, names[|names| - 1])
  {
    var k :| 0 <= k < |names| - 1 && names[k] == d;
    AncestorsBefore(names, entries, k, names[|names| - 1]);
  }

  lemma {:induction false} AncestorsBefore(names: seq<Dataset>, entries: Entries, k: nat, a: Dataset)
    requires Inventory(names, entries) && k < |names|
    ensures Inside(names[k], a) ==> a in names[..k + 1]
    decreases |names[k]|
  {
    var d := names[k];
    if Inside(d, a) {
      if a == d {
        assert names[..k + 1][k] == d;
      } else {
        assert a == d[..|a|] == Parent(d)[..|a|];
        assert AfterParent(names, k);
        var j :| 0 <= j < k && names[..k][j] == Parent(d);
        AncestorsBefore(names, entries, j, a);
        assert names[..j + 1] <= names[..k + 1];
      }
    }
  }

  /** The root a finished entry acts under. */
  predicate Describes(entries: Entries, names: seq<Dataset>, d: Dataset, e: Entry)
    requires d in entries
  {
    e == Marked(entries, d).(members := if IsRoot(entries, d) then MembersOf(entries, names, d) else entries[d].members)
  }

  lemma ParentKnown(names: seq<Dataset>, entries: Entries, i: nat)
    requires Inventory(names, entries) && i < |names|
    ensures RootOf(entries, names[i]).Some? ==> RootOf(entries, names[i]).value in entries
    ensures |names[i]| > 1 ==> Parent(names[i]) in names[..i]
  {
    assert AfterParent(names, i);
    RootIsTopmost(entries, names[i]);
  }

  function ListOf(members: map<Dataset, seq<Dataset>>, root: Dataset): seq<Dataset> {
    if root in members then members[root] else []
  }

  /** The names passed so far have their root. */
  ghost predicate Rooted(entries: Entries, passed: seq<Dataset>, within: map<Dataset, Option<Dataset>>) {
    forall d :: d in passed ==> d in within && within[d] == RootOf(entries, d)
  }

  /** They have their marks, and the others are untouched. */
  ghost predicate MarkedSoFar(entries: Entries, passed: seq<Dataset>, marked: Entries) {
    && marked.Keys == entries.Keys
    && forall d :: d in entries ==> marked[d] == if d in passed then Marked(entries, d) else entries[d]
  }

  /** And each root has its members so far. */
  ghost predicate Gathered(entries: Entries, passed: seq<Dataset>, members: map<Dataset, seq<Dataset>>) {
    && (forall r :: r in members ==> IsRoot(entries, r))
    && (forall r :: ListOf(members, r) == MembersOf(entries, passed, r))
  }

  function Joined(entries: Entries, members: map<Dataset, seq<Dataset>>, name: Dataset): map<Dataset, seq<Dataset>> {
    var root := RootOf(entries, name);
    if root.Some? && Belongs(entries, name, root.value) then members[root.value := ListOf(members, root.value) + [name]] else members
  }

  lemma GatheredNext(entries: Entries, passed: seq<Dataset>, members: map<Dataset, seq<Dataset>>, name: Dataset)
    requires Gathered(entries, passed, members) && name in entries
    ensures Gathered(entries, passed + [name], Joined(entries, members, name))
  {
    var all, joined := passed + [name], Joined(entries, members, name);
    assert all[..|all| - 1] == passed;
    if RootOf(entries, name).Some? {
      RootOfRoot(entries, name);
    }
    forall r ensures ListOf(joined, r) == MembersOf(entries, all, r) {
      assert ListOf(members, r) == MembersOf(entries, passed, r);
    }
  }

  /** The next name takes its parent's root, or is a root itself. */
  method FindRoot(entries: Entries, names: seq<Dataset>, i: nat, within: map<Dataset, Option<Dataset>>, enabled: bool) returns (root: Option<Dataset>)
    requires Inventory(names, entries) && i < |names| && Rooted(entries, names[..i], within) && enabled == Enabled(entries, names[i])
    ensures root == RootOf(entries, names[i]) && Rooted(entries, names[..i + 1], within[names[i] := root])
    ensures root.Some? ==> root.value in entries
  {
    var name := names[i];
    ParentKnown(names, entries, i);
    assert names[..i + 1] == names[..i] + [name];
    root := if |name| > 1 then within[Parent(name)] else None;
    if root.None? && enabled {
      root := Some(name);
    }
  }

  lemma MarkedNext(entries: Entries, passed: seq<Dataset>, marked: Entries, name: Dataset)
    requires MarkedSoFar(entries, passed, marked) && name in entries
    ensures MarkedSoFar(entries, passed + [name], marked[name := Marked(entries, name)])
  {
    assert forall d :: d in passed + [name] <==> d in passed || d == name;
  }

  /** One pass over the names assigns every dataset its root and every root its members. */
  method MarkRoots(names: seq<Dataset>, entries: Entries) returns (marked: Entries)
    requires Inventory(names, entries)
    ensures marked.Keys == entries.Keys
    ensures forall d :: d in names ==> Describes(entries, names, d, marked[d])
  {
    var within: map<Dataset, Option<Dataset>> := map[];
    var members: map<Dataset, seq<Dataset>> := map[];
    marked := entries;
    for i := 0 to |names|
      invariant Rooted(entries, names[..i], within)
      invariant MarkedSoFar(entries, names[..i], marked)
      invariant Gathered(entries, names[..i], members)
    {
      var name := names[i];
      assert names[..i + 1] == names[..i] + [name] && name !in names[..i];
      var root := FindRoot(entries, names, i, within, marked[name].policy.enabled);
      within := within[name := root];
      marked, members := MarkNext(entries, names[..i], name, root, marked, members);
    }
    assert names[..|names|] == names;
    marked := AttachMembers(names, entries, members, marked);
  }

  method MarkNext(entries: Entries, ghost passed: seq<Dataset>, name: Dataset, root: Option<Dataset>, marked: Entries, members: map<Dataset, seq<Dataset>>)
      returns (next: Entries, joined: map<Dataset, seq<Dataset>>)
    requires name in entries && name !in passed && root == RootOf(entries, name) && (root.Some? ==> root.value in entries)
    requires MarkedSoFar(entries, passed, marked) && Gathered(entries, passed, members)
    ensures MarkedSoFar(entries, passed + [name], next) && Gathered(entries, passed + [name], joined)
  {
    GatheredNext(entries, passed, members, name);
    MarkedNext(entries, passed, marked, name);
    var e := MarkOne(entries, marked, name, root);
    next, joined := marked[name := e], members;
    if root.Some? && (root.value == name || e.member) {
      joined := members[root.value := ListOf(members, root.value) + [name]];
    }
  }

  lemma RootOfRoot(entries: Entries, d: Dataset)
    requires RootOf(entries, d).Some?
    ensures IsRoot(entries, RootOf(entries, d).value)
  {
    var r := RootOf(entries, d).value;
    RootIsTopmost(entries, d);
    RootIsTopmost(entries, r);
    var t := RootOf(entries, r).value;
    assert Inside(d, t) by {
      assert r == d[..|r|] && t == r[..|t|];
    }
  }

  /** The marks of one dataset under its root. */
  method MarkOne(entries: Entries, marked: Entries, name: Dataset, root: Option<Dataset>) returns (e: Entry)
    requires marked.Keys == entries.Keys && name in entries && marked[name] == entries[name] && RootOf(entries, name) == root
    requires root.Some? ==> root.value in entries && (marked[root.value] == entries[root.value] || marked[root.value] == Marked(entries, root.value))
    ensures e == Marked(entries, name)
    ensures root.Some? ==> (root.value == name || e.member <==> Belongs(entries, name, root.value))
  {
    e := marked[name];
    if root.None? || root.value == name {
      return;
    }
    RootOfRoot(entries, name);
    e := e.(coveredBy := root);
    var r := marked[root.value];
    if r.policy.replicate {
      e := e.(member := true);
    } else if e.policy.enabled && e.inspected && e.policy.valid {
      e := e.(member := true);
      if e.policy.replicate {
        e := e.(policy := e.policy.(replicate := false));
      }
      if e.policy.discard != r.policy.discard {
        e := e.(policy := e.policy.(discard := r.policy.discard));
      }
    }
  }

  method AttachMembers(names: seq<Dataset>, entries: Entries, members: map<Dataset, seq<Dataset>>, before: Entries) returns (marked: Entries)
    requires before.Keys == entries.Keys && Inventory(names, entries)
    requires forall d :: d in names ==> before[d] == Marked(entries, d)
    requires forall r :: r in members ==> IsRoot(entries, r)
    requires forall r :: ListOf(members, r) == MembersOf(entries, names, r)
    ensures marked.Keys == entries.Keys
    ensures forall d :: d in names ==> Describes(entries, names, d, marked[d])
  {
    marked := before;
    var left := members.Keys;
    while left != {}
      invariant left <= members.Keys && marked.Keys == before.Keys
      invariant forall d :: d in before ==> marked[d] == if d in members && d !in left then before[d].(members := members[d]) else before[d]
    {
      var root :| root in left;
      RootIsTopmost(entries, root);
      marked := marked[root := marked[root].(members := members[root])];
      left := left - {root};
    }
    forall d | d in names ensures Describes(entries, names, d, marked[d]) {
      if IsRoot(entries, d) {
        MembersAre(entries, names, d);
        assert d in MembersOf(entries, names, d);
        assert d in members;
      }
    }
  }

  // Replicas.

  datatype Target = Local(root: Dataset) | Remote(name: string)

  datatype Namespace = Here | There(address: string)

  datatype Destination = Destination(namespace: string, root: Dataset, canonical: string)

  datatype Replica = Replica(root: Dataset, target: Target, namespace: Namespace, mapped: Dataset, established: bool)

  /** A root's target, the unit that is blocked. */
  datatype Key = Key(root: Dataset, target: Target)

  function KeyOf(r: Replica): Key {
    Key(r.root, r.target)
  }

  predicate Conflict(a: Replica, b: Replica) {
    a.namespace == b.namespace && Overlaps(a.mapped, b.mapped)
  }

  /** `a` gives way to `b`: it is new, or both are established. */
  predicate YieldsTo(a: Replica, b: Replica) {
    Conflict(a, b) && (!a.established || b.established)
  }

  predicate InsideRoot(a: Replica, roots: seq<Dataset>) {
    a.namespace == Here && exists r :: r in roots && Overlaps(a.mapped, r)
  }

  predicate Blocked(replicas: seq<Replica>, roots: seq<Dataset>, i: nat)
    requires i < |replicas|
  {
    InsideRoot(replicas[i], roots) || exists j :: 0 <= j < |replicas| && j != i && YieldsTo(replicas[i], replicas[j])
  }

  function BlockedKeys(replicas: seq<Replica>, roots: seq<Dataset>): set<Key> {
    set i | 0 <= i < |replicas| && Blocked(replicas, roots, i) :: KeyOf(replicas[i])
  }

  /** No two targets that may be sent overlap in one namespace. */
  lemma UnblockedApart(replicas: seq<Replica>, roots: seq<Dataset>, i: nat, j: nat)
    requires i < |replicas| && j < |replicas| && i != j
    requires KeyOf(replicas[i]) !in BlockedKeys(replicas, roots) && KeyOf(replicas[j]) !in BlockedKeys(replicas, roots)
    ensures !Conflict(replicas[i], replicas[j])
  {
    assert !Blocked(replicas, roots, i) && !Blocked(replicas, roots, j);
    assert !YieldsTo(replicas[i], replicas[j]) && !YieldsTo(replicas[j], replicas[i]);
  }

  /** None of them lands on an actor root. */
  lemma UnblockedOffRoots(replicas: seq<Replica>, roots: seq<Dataset>, i: nat)
    requires i < |replicas| && KeyOf(replicas[i]) !in BlockedKeys(replicas, roots)
    ensures !InsideRoot(replicas[i], roots)
  {
    assert !Blocked(replicas, roots, i);
  }

  ghost predicate DistinctKeys(replicas: seq<Replica>) {
    forall i, j :: 0 <= i < j < |replicas| ==> KeyOf(replicas[i]) != KeyOf(replicas[j])
  }

  /** An established replica is blocked only by another established one, or for
      landing on an actor root. */
  lemma EstablishedKeepsPlace(replicas: seq<Replica>, roots: seq<Dataset>, i: nat)
    requires DistinctKeys(replicas) && i < |replicas| && replicas[i].established && KeyOf(replicas[i]) in BlockedKeys(replicas, roots)
    ensures InsideRoot(replicas[i], roots)
      || exists j :: 0 <= j < |replicas| && j != i && replicas[j].established && Conflict(replicas[i], replicas[j])
  {
    var k :| 0 <= k < |replicas| && Blocked(replicas, roots, k) && KeyOf(replicas[k]) == KeyOf(replicas[i]);
    assert k == i;
    if !InsideRoot(replicas[i], roots) {
      var j :| 0 <= j < |replicas| && j != i && YieldsTo(replicas[i], replicas[j]);
      assert replicas[j].established && Conflict(replicas[i], replicas[j]);
    }
  }

  /** Whether a replica yields, by what is listed beside it. */
  ghost predicate YieldsAmong(all: multiset<Replica>, roots: set<Dataset>, r: Replica) {
    || (r.namespace == Here && exists root :: root in roots && Overlaps(r.mapped, root))
    || exists other :: other in all - multiset{r} && YieldsTo(r, other)
  }

  lemma RestOf(replicas: seq<Replica>, i: nat)
    requires i < |replicas|
    ensures multiset(replicas) - multiset{replicas[i]} == multiset(replicas[..i] + replicas[i + 1..])
  {
    assert replicas == replicas[..i] + [replicas[i]] + replicas[i + 1..];
  }

  lemma BesideIt(replicas: seq<Replica>, i: nat, other: Replica)
    requires i < |replicas|
    ensures other in replicas[..i] + replicas[i + 1..] <==> exists j :: 0 <= j < |replicas| && j != i && replicas[j] == other
  {
    var rest := replicas[..i] + replicas[i + 1..];
    if other in rest {
      var k :| 0 <= k < |rest| && rest[k] == other;
      assert replicas[if k < i then k else k + 1] == other;
    }
    if j :| 0 <= j < |replicas| && j != i && replicas[j] == other {
      assert rest[if j < i then j else j - 1] == other;
    }
  }

  lemma BlockedAmong(replicas: seq<Replica>, roots: seq<Dataset>, i: nat)
    requires i < |replicas|
    ensures Blocked(replicas, roots, i) <==> YieldsAmong(multiset(replicas), (set r | r in roots), replicas[i])
  {
    var r, rest := replicas[i], replicas[..i] + replicas[i + 1..];
    RestOf(replicas, i);
    if j :| 0 <= j < |replicas| && j != i && YieldsTo(r, replicas[j]) {
      BesideIt(replicas, i, replicas[j]);
      assert replicas[j] in multiset(rest);
    }
    if other :| other in multiset(rest) && YieldsTo(r, other) {
      assert other in rest;
      BesideIt(replicas, i, other);
    }
  }

  /** The blocked targets do not depend on the order of either list. */
  lemma OrderIrrelevant(a: seq<Replica>, b: seq<Replica>, roots: seq<Dataset>, others: seq<Dataset>)
    requires multiset(a) == multiset(b) && forall r :: r in roots <==> r in others
    ensures BlockedKeys(a, roots) == BlockedKeys(b, others)
  {
    BlockedBoth(a, b, roots, others);
    BlockedBoth(b, a, others, roots);
  }

  lemma BlockedBoth(a: seq<Replica>, b: seq<Replica>, roots: seq<Dataset>, others: seq<Dataset>)
    requires multiset(a) == multiset(b) && forall r :: r in roots <==> r in others
    ensures BlockedKeys(a, roots) <= BlockedKeys(b, others)
  {
    assert (set r | r in roots) == (set r | r in others);
    forall key | key in BlockedKeys(a, roots) ensures key in BlockedKeys(b, others) {
      var i :| 0 <= i < |a| && Blocked(a, roots, i) && KeyOf(a[i]) == key;
      assert a[i] in multiset(b);
      var j :| 0 <= j < |b| && b[j] == a[i];
      BlockedAmong(a, roots, i);
      BlockedAmong(b, others, j);
      assert Blocked(b, others, j);
    }
  }

  /** What the pairs up to the i-th, and of the i-th up to the j-th, have blocked. */
  predicate BlockedBy(replicas: seq<Replica>, roots: seq<Dataset>, i: nat, j: nat, k: nat)
    requires k < |replicas|
  {
    || (k < i && InsideRoot(replicas[k], roots))
    || (exists o :: 0 <= o < |replicas| && o != k && (o < i || k < i) && YieldsTo(replicas[k], replicas[o]))
    || (k == i && exists o :: i < o < j && o < |replicas| && YieldsTo(replicas[k], replicas[o]))
    || (i < k < j && i < |replicas| && YieldsTo(replicas[k], replicas[i]))
  }

  ghost predicate Blocking(replicas: seq<Replica>, roots: seq<Dataset>, i: nat, j: nat, blocked: set<Key>) {
    forall key :: key in blocked <==> exists k :: 0 <= k < |replicas| && KeyOf(replicas[k]) == key && BlockedBy(replicas, roots, i, j, k)
  }

  /** Each pair of replicas and each local replica against each root. */
  method MarkCollisions(replicas: seq<Replica>, roots: seq<Dataset>) returns (blocked: set<Key>)
    ensures blocked == BlockedKeys(replicas, roots)
  {
    blocked := {};
    for i := 0 to |replicas|
      invariant Blocking(replicas, roots, i, i + 1, blocked)
    {
      for j := i + 1 to |replicas|
        invariant Blocking(replicas, roots, i, j, blocked)
      {
        blocked := BlockPair(replicas, roots, i, j, blocked);
      }
      var landed := LandsInRoot(replicas[i], roots);
      BlockingNext(replicas, roots, i, blocked);
      if landed {
        blocked := blocked + {KeyOf(replicas[i])};
      }
    }
    BlockingDone(replicas, roots, blocked);
  }

  method BlockPair(replicas: seq<Replica>, roots: seq<Dataset>, i: nat, j: nat, before: set<Key>) returns (blocked: set<Key>)
    requires i < j < |replicas| && Blocking(replicas, roots, i, j, before)
    ensures Blocking(replicas, roots, i, j + 1, blocked)
  {
    var a, b := replicas[i], replicas[j];
    blocked := before;
    assert a.namespace == b.namespace && Overlaps(a.mapped, b.mapped) <==> Conflict(b, a);
    if a.namespace == b.namespace && Overlaps(a.mapped, b.mapped) {
      if !b.established || a.established {
        blocked := blocked + {KeyOf(b)};
      }
      if !a.established || b.established {
        blocked := blocked + {KeyOf(a)};
      }
    }
    PairBlocks(replicas, roots, i, j, before, blocked);
  }

  lemma PairBlocks(replicas: seq<Replica>, roots: seq<Dataset>, i: nat, j: nat, before: set<Key>, after: set<Key>)
    requires i < j < |replicas| && Blocking(replicas, roots, i, j, before)
    requires after == before + (if YieldsTo(replicas[i], replicas[j]) then {KeyOf(replicas[i])} else {})
      + (if YieldsTo(replicas[j], replicas[i]) then {KeyOf(replicas[j])} else {})
    ensures Blocking(replicas, roots, i, j + 1, after)
  {
    forall k | 0 <= k < |replicas|
      ensures BlockedBy(replicas, roots, i, j + 1, k) <==>
        BlockedBy(replicas, roots, i, j, k) || (k == i && YieldsTo(replicas[i], replicas[j])) || (k == j && YieldsTo(replicas[j], replicas[i]))
    {}
  }

  /** With the i-th replica's pairs done, only its landing on a root is left. */
  lemma BlockingNext(replicas: seq<Replica>, roots: seq<Dataset>, i: nat, blocked: set<Key>)
    requires i < |replicas| && Blocking(replicas, roots, i, |replicas|, blocked)
    ensures Blocking(replicas, roots, i + 1, i + 2, if InsideRoot(replicas[i], roots) then blocked + {KeyOf(replicas[i])} else blocked)
  {
    forall k | 0 <= k < |replicas|
      ensures BlockedBy(replicas, roots, i + 1, i + 2, k) <==>
        BlockedBy(replicas, roots, i, |replicas|, k) || (k == i && InsideRoot(replicas[i], roots))
    {}
  }

  lemma BlockingDone(replicas: seq<Replica>, roots: seq<Dataset>, blocked: set<Key>)
    requires Blocking(replicas, roots, |replicas|, |replicas| + 1, blocked)
    ensures blocked == BlockedKeys(replicas, roots)
  {
    forall k | 0 <= k < |replicas| ensures BlockedBy(replicas, roots, |replicas|, |replicas| + 1, k) <==> Blocked(replicas, roots, k) {}
  }

  method LandsInRoot(a: Replica, roots: seq<Dataset>) returns (landed: bool)
    ensures landed <==> InsideRoot(a, roots)
  {
    if a.namespace != Here {
      return false;
    }
    for i := 0 to |roots|
      invariant forall j :: 0 <= j < i ==> !Overlaps(a.mapped, roots[j])
    {
      if Overlaps(a.mapped, roots[i]) {
        return true;
      }
    }
    return false;
  }

  // Where replicas land.

  predicate Actor(entries: Entries, d: Dataset) {
    d in entries && entries[d].coveredBy.None? && entries[d].policy.enabled
  }

  /** Once roots are marked, the datasets that act are exactly the roots. */
  lemma ActorsAreRoots(names: seq<Dataset>, entries: Entries, marked: Entries, d: Dataset)
    requires Inventory(names, entries) && d in names && entries[d].coveredBy.None?
    requires d in marked && Describes(entries, names, d, marked[d])
    ensures Actor(marked, d) <==> IsRoot(entries, d)
  {
    RootIsTopmost(entries, d);
  }

  /** So no two of them overlap. */
  lemma ActorsApart(names: seq<Dataset>, entries: Entries, marked: Entries, a: Dataset, b: Dataset)
    requires Inventory(names, entries) && a in names && b in names && a != b
    requires marked.Keys == entries.Keys && forall d :: d in names ==> entries[d].coveredBy.None? && Describes(entries, names, d, marked[d])
    requires Actor(marked, a) && Actor(marked, b)
    ensures !Overlaps(a, b)
  {
    ActorsAreRoots(names, entries, marked, a);
    ActorsAreRoots(names, entries, marked, b);
    RootsApart(entries, a, b);
  }

  /** A root's own targets and, unless one stream carries the subtree, its members'. */
  ghost predicate Aims(entries: Entries, root: Dataset, target: Target)
    requires root in entries
  {
    || Lists(entries[root].policy, target)
    || (!entries[root].policy.replicate && exists m :: m in entries[root].members && m in entries && Lists(entries[m].policy, target))
  }

  predicate Lists(policy: Policy, target: Target) {
    match target
    case Local(t) => t in policy.local
    case Remote(n) => n in policy.remote
  }

  /** Where a root's replica for a target lands, for a known destination. */
  function Landing(entries: Entries, remotes: map<string, Destination>, root: Dataset, target: Target): Option<Replica>
    requires root in entries
  {
    var e := entries[root];
    match target
    case Local(t) => Some(Replica(root, target, Here, MapReceive(root, t, e.policy.discard), LocalTarget(t) in e.bound))
    case Remote(n) =>
      if n !in remotes then None
      else
        var d := remotes[n];
        Some(Replica(root, target, There(d.namespace), MapReceive(root, d.root, e.policy.discard), d.canonical != "" && Canonical(d.canonical) in e.bound))
  }

  ghost predicate Planned(entries: Entries, remotes: map<string, Destination>, r: Replica) {
    Actor(entries, r.root) && Aims(entries, r.root, r.target) && Landing(entries, remotes, r.root, r.target) == Some(r)
  }

  /** A planned replica is its root's, on the machine the target is on, where the
      names alone say, and established exactly when its binding is stored. */
  lemma ReplicaLands(entries: Entries, remotes: map<string, Destination>, r: Replica)
    requires Planned(entries, remotes, r) && ValidName(r.root)
    ensures r.root in entries && entries[r.root].policy.enabled && entries[r.root].coveredBy.None?
    ensures var e := entries[r.root];
      match r.target
      case Local(t) => r.namespace == Here && Text(r.mapped) == MapText(Text(r.root), Text(t), e.policy.discard) && (r.established <==> LocalTarget(t) in e.bound)
      case Remote(n) =>
        && n in remotes && r.namespace == There(remotes[n].namespace)
        && Text(r.mapped) == MapText(Text(r.root), Text(remotes[n].root), e.policy.discard)
        && (r.established <==> remotes[n].canonical != "" && Canonical(remotes[n].canonical) in e.bound)
  {
    var e := entries[r.root];
    match r.target
    case Local(t) => MapReceiveText(r.root, t, e.policy.discard);
    case Remote(n) => MapReceiveText(r.root, remotes[n].root, e.policy.discard);
  }

  method Compact<T(==)>(xs: seq<T>) returns (ys: seq<T>)
    ensures forall x :: x in ys <==> x in xs
    ensures forall i, j :: 0 <= i < j < |ys| ==> ys[i] != ys[j]
  {
    ys := [];
    for i := 0 to |xs|
      invariant forall x :: x in ys <==> x in xs[..i]
      invariant forall j, k :: 0 <= j < k < |ys| ==> ys[j] != ys[k]
    {
      assert xs[..i + 1] == xs[..i] + [xs[i]];
      if xs[i] !in ys {
        ys := ys + [xs[i]];
      }
    }
    assert xs[..|xs|] == xs;
  }

  ghost predicate Known(entries: Entries, root: Dataset) {
    root in entries && forall m :: m in entries[root].members ==> m in entries
  }

  /** Every target a root aims at, once. */
  method CollectTargets(entries: Entries, root: Dataset) returns (targets: seq<Target>)
    requires Known(entries, root)
    ensures forall t :: t in targets <==> Aims(entries, root, t)
    ensures forall i, j :: 0 <= i < j < |targets| ==> targets[i] != targets[j]
  {
    var all := TargetsOf(entries[root].policy);
    if !entries[root].policy.replicate {
      var members := entries[root].members;
      for i := 0 to |members|
        invariant forall t :: t in all <==> Lists(entries[root].policy, t) || exists j :: 0 <= j < i && Lists(entries[members[j]].policy, t)
      {
        if members[i] != root {
          var more := TargetsOf(entries[members[i]].policy);
          all := all + more;
        }
      }
    }
    targets := Compact(all);
  }

  method TargetsOf(policy: Policy) returns (targets: seq<Target>)
    ensures forall t :: t in targets <==> Lists(policy, t)
  {
    var locals := seq(|policy.local|, i requires 0 <= i < |policy.local| => Local(policy.local[i]));
    var remotes := seq(|policy.remote|, i requires 0 <= i < |policy.remote| => Remote(policy.remote[i]));
    targets := locals + remotes;
    forall t ensures t in targets <==> Lists(policy, t) {
      match t
      case Local(d) =>
        if i :| 0 <= i < |policy.local| && policy.local[i] == d {
          assert locals[i] == t;
        }
      case Remote(n) =>
        if i :| 0 <= i < |policy.remote| && policy.remote[i] == n {
          assert remotes[i] == t;
        }
    }
  }

  method PlanRoot(entries: Entries, remotes: map<string, Destination>, root: Dataset) returns (replicas: seq<Replica>)
    requires Known(entries, root) && Actor(entries, root)
    ensures forall r :: r in replicas <==> r.root == root && Planned(entries, remotes, r)
    ensures DistinctKeys(replicas)
  {
    var targets := CollectTargets(entries, root);
    replicas := [];
    for i := 0 to |targets|
      invariant forall r :: r in replicas <==> exists j :: 0 <= j < i && Landing(entries, remotes, root, targets[j]) == Some(r)
      invariant DistinctKeys(replicas)
    {
      var landing := Landing(entries, remotes, root, targets[i]);
      if landing.Some? {
        forall r | r in replicas ensures KeyOf(r) != KeyOf(landing.value) {
          var j :| 0 <= j < i && Landing(entries, remotes, root, targets[j]) == Some(r);
          assert targets[j] != targets[i];
        }
        replicas := replicas + [landing.value];
      }
    }
    forall r ensures r in replicas <==> r.root == root && Planned(entries, remotes, r) {
      if r.root == root && Planned(entries, remotes, r) {
        var j :| 0 <= j < |targets| && targets[j] == r.target;
      }
      if r in replicas {
        var j :| 0 <= j < |targets| && Landing(entries, remotes, root, targets[j]) == Some(r);
        assert targets[j] in targets;
      }
    }
  }

  /** Every actor root, and its replica for each target with a known destination, once. */
  method PlannedReplicas(names: seq<Dataset>, entries: Entries, remotes: map<string, Destination>) returns (replicas: seq<Replica>, roots: seq<Dataset>)
    requires Inventory(names, entries) && forall d :: d in names ==> Known(entries, d)
    ensures forall d :: d in roots <==> d in names && Actor(entries, d)
    ensures forall r :: r in replicas <==> r.root in names && Planned(entries, remotes, r)
    ensures DistinctKeys(replicas)
  {
    replicas, roots := [], [];
    for i := 0 to |names|
      invariant forall d :: d in roots <==> d in names[..i] && Actor(entries, d)
      invariant forall r :: r in replicas <==> r.root in names[..i] && Planned(entries, remotes, r)
      invariant DistinctKeys(replicas)
    {
      assert names[..i + 1] == names[..i] + [names[i]] && names[i] !in names[..i];
      if Actor(entries, names[i]) {
        assert Known(entries, names[i]);
        roots := roots + [names[i]];
        var more := PlanRoot(entries, remotes, names[i]);
        forall r, o | r in replicas && o in more ensures KeyOf(r) != KeyOf(o) {}
        DistinctJoin(replicas, more);
        replicas := replicas + more;
      }
    }
    assert names[..|names|] == names;
  }

  lemma DistinctJoin(a: seq<Replica>, b: seq<Replica>)
    requires DistinctKeys(a) && DistinctKeys(b) && forall r, o :: r in a && o in b ==> KeyOf(r) != KeyOf(o)
    ensures DistinctKeys(a + b)
  {
    var all := a + b;
    forall i, j | 0 <= i < j < |all| ensures KeyOf(all[i]) != KeyOf(all[j]) {
      assert i < |a| ==> all[i] == a[i] && a[i] in a;
      assert j >= |a| ==> all[j] == b[j - |a|] && b[j - |a|] in b;
    }
  }

  // Inspection.

  /** An enabled dataset lies properly above. */
  ghost predicate Beneath(d: Dataset, enabled: set<Dataset>) {
    exists a: Dataset :: a in enabled && Inside(d, a) && a != d
  }

  /** The names passed so far that are enabled or beneath an enabled dataset. */
  ghost predicate CoveredSoFar(passed: seq<Dataset>, enabled: set<Dataset>, covered: set<Dataset>) {
    forall d :: d in covered <==> d in passed && (d in enabled || Beneath(d, enabled))
  }

  ghost predicate InspectSoFar(passed: seq<Dataset>, enabled: set<Dataset>, inspect: set<Dataset>, next: set<Dataset>) {
    forall d :: d in next <==> d in inspect || (d in passed && Beneath(d, enabled))
  }

  /** Everything beneath an enabled dataset is to be inspected. */
  method CoverPass(names: seq<Dataset>, entries: Entries, enabled: set<Dataset>, inspect: set<Dataset>) returns (next: set<Dataset>)
    requires Inventory(names, entries)
    requires forall d :: d in enabled ==> d in names
    ensures InspectSoFar(names, enabled, inspect, next)
  {
    var covered: set<Dataset> := {};
    next := inspect;
    for i := 0 to |names|
      invariant CoveredSoFar(names[..i], enabled, covered)
      invariant InspectSoFar(names[..i], enabled, inspect, next)
    {
      var name := names[i];
      assert names[..i + 1] == names[..i] + [name];
      assert AfterParent(names, i);
      BeneathParent(name, enabled);
      var beneath := |name| > 1 && Parent(name) in covered;
      assert beneath == Beneath(name, enabled);
      if beneath {
        next := next + {name};
      }
      if beneath || name in enabled {
        covered := covered + {name};
      }
    }
    assert names[..|names|] == names;
  }

  lemma BeneathParent(d: Dataset, enabled: set<Dataset>)
    ensures Beneath(d, enabled) <==> |d| > 1 && (Parent(d) in enabled || Beneath(Parent(d), enabled))
  {
    if a: Dataset :| a in enabled && Inside(d, a) && a != d {
      assert a == d[..|a|] == Parent(d)[..|a|];
    }
    if |d| > 1 && Beneath(Parent(d), enabled) {
      var a: Dataset :| a in enabled && Inside(Parent(d), a) && a != Parent(d);
      assert Inside(d, a) by {
        assert a == Parent(d)[..|a|] == d[..|a|];
      }
    }
    if |d| > 1 {
      assert Inside(d, Parent(d));
    }
  }

  /** Everything beneath an enabled dataset is in the set. */
  ghost predicate Covers(names: seq<Dataset>, enabled: set<Dataset>, inspect: set<Dataset>) {
    forall d :: d in names && Beneath(d, enabled) ==> d in inspect
  }

  function Pending(names: seq<Dataset>, inspect: set<Dataset>, fetched: set<Dataset>): set<Dataset> {
    set d | d in names && d in inspect && d !in fetched
  }

  /** Nothing pending means everything to be inspected was read. */
  lemma NothingPending(names: seq<Dataset>, enabled: set<Dataset>, asked: set<Dataset>, inspect: set<Dataset>, fetched: set<Dataset>)
    requires Pending(names, inspect, fetched) == {} && asked <= inspect
    requires forall d :: d in enabled ==> d in names
    requires if fetched == {} then enabled <= asked else Covers(names, enabled, inspect)
    ensures forall d :: d in names && d in asked ==> d in fetched
    ensures Covers(names, enabled, fetched)
  {
    assert forall d :: d in names && d in inspect ==> d in fetched by {
      forall d | d in names && d in inspect ensures d in fetched {
        assert d !in Pending(names, inspect, fetched);
      }
    }
    if fetched == {} {
      assert enabled == {};
    }
  }

  /** Reads datasets until nothing more is to be read. Reading may change which
      datasets are enabled; at the end everything asked for, and everything
      beneath an enabled dataset, has been read. */
  method FetchAll(names: seq<Dataset>, entries: Entries, asked: set<Dataset>, enabledAfter: set<Dataset> -> set<Dataset>) returns (fetched: set<Dataset>)
    requires Inventory(names, entries)
    requires forall f, d :: d in enabledAfter(f) ==> d in names
    requires enabledAfter({}) <= asked
    ensures forall d :: d in fetched ==> d in names
    ensures forall d :: d in names && d in asked ==> d in fetched
    ensures Covers(names, enabledAfter(fetched), fetched)
  {
    fetched := {};
    var inspect, pending := asked, Pending(names, asked, {});
    ghost var all := set d | d in names;
    while pending != {}
      invariant asked <= inspect && fetched <= all && pending == Pending(names, inspect, fetched)
      invariant fetched != {} ==> Covers(names, enabledAfter(fetched), inspect)
      decreases all - fetched
    {
      fetched := fetched + pending;
      inspect := FetchRound(names, entries, enabledAfter(fetched), inspect);
      pending := Pending(names, inspect, fetched);
    }
    NothingPending(names, enabledAfter(fetched), asked, inspect, fetched);
  }

  method FetchRound(names: seq<Dataset>, entries: Entries, enabled: set<Dataset>, inspect: set<Dataset>) returns (next: set<Dataset>)
    requires Inventory(names, entries)
    requires forall d :: d in enabled ==> d in names
    ensures inspect <= next && Covers(names, enabled, next)
  {
    next := CoverPass(names, entries, enabled, inspect);
  }
}
