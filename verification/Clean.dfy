/** Cleaning a dataset and forgetting a target.

    A plan is a list of single actions on the inspected scope, ordered by rank:
    bookmarks and holds first, then snapshots, snapshot metadata, other dataset
    properties with the proofs among them, and lineage last. Every action is
    checked to have had its own effect and no other before the next is issued. */
module Clean {
  import opened Names
  import opened Zfs
  import Proofs

  /** A managed property other than a proof or a lineage. */
  datatype Prop = OnSnap(id: SnapId, name: string) | OnData(dataset: Dataset, name: string) | Bound(root: Dataset, target: nat, name: string)

  /** The inspected scope. `base` holds its datasets, snapshots, holds, bookmarks
      and proofs; `resumes` are the snapshots a resumable receive needs. */
  datatype Scope = Scope(base: State, clones: set<SnapId>, resumes: set<SnapId>, lineage: map<Dataset, nat>, props: set<Prop>)

  datatype Action =
    | DestroyBookmark(mark: Mark)
    | Release(hold: Hold)
    | DestroySnapshot(id: SnapId)
    | Inherit(prop: Prop)
    | InheritProof(key: Key)
    | InheritLineage(dataset: Dataset)

  function Rank(a: Action): nat {
    match a
    case DestroyBookmark(_) => 0
    case Release(_) => 1
    case DestroySnapshot(_) => 2
    case Inherit(p) => if p.OnSnap? then 3 else 4
    case InheritProof(_) => 4
    case InheritLineage(_) => 5
  }

  predicate Ranked(actions: seq<Action>) {
    forall i, j :: 0 <= i < j < |actions| ==> Rank(actions[i]) <= Rank(actions[j])
  }

  /** The one intended effect of an action. */
  function Effect(s: Scope, a: Action): Scope {
    match a
    case DestroyBookmark(mk) => s.(base := s.base.(marks := s.base.marks - {mk}))
    case Release(h) => s.(base := s.base.(holds := s.base.holds - {h}))
    case DestroySnapshot(id) =>
      s.(base := s.base.(snaps := s.base.snaps - {id}, holds := set h | h in s.base.holds && h.snap != id),
         clones := s.clones - {id}, resumes := s.resumes - {id},
         props := set p | p in s.props && !(p.OnSnap? && p.id == id))
    case Inherit(p) => s.(props := s.props - {p})
    case InheritProof(k) => s.(base := s.base.(records := s.base.records - {k}))
    case InheritLineage(d) => s.(lineage := s.lineage - {d})
  }

  function Effects(s: Scope, actions: seq<Action>): Scope {
    if actions == [] then s else Effect(Effects(s, actions[..|actions| - 1]), actions[|actions| - 1])
  }

  // What a proof accounts for.

  /** A dataset without a lineage of its own takes the cleaned root's. */
  function LineageFor(s: Scope, root: Dataset, d: Dataset): Option<nat> {
    if d in s.lineage then Some(s.lineage[d]) else if root in s.lineage then Some(s.lineage[root]) else None
  }

  function ReferenceFor(s: Scope, root: Dataset, k: Key): Option<Proofs.Reference>
    requires k in s.base.records
  {
    var lineage := LineageFor(s, root, k.root);
    if lineage.None? then None else Proofs.Decode(k, s.base.records[k], lineage.value)
  }

  ghost predicate CoversHold(s: Scope, r: Proofs.Reference, h: Hold) {
    h in s.base.holds && h == Proofs.HoldOf(r, h.snap.dataset) && Proofs.Covers(r.dataset, r.recursive, h.snap.dataset)
  }

  ghost predicate CoversMark(s: Scope, r: Proofs.Reference, mk: Mark) {
    mk in s.base.marks && mk == Proofs.MarkOf(r, mk.dataset) && Proofs.Covers(r.dataset, r.recursive, mk.dataset)
  }

  /** A plan removes a proof only along with every hold and bookmark it covers,
      and destroys a snapshot only without clones and along with its holds. */
  ghost predicate Accounted(s: Scope, root: Dataset, actions: seq<Action>) {
    && (forall k :: InheritProof(k) in actions ==> k in s.base.records && ReferenceFor(s, root, k).Some? && Emptied(s, ReferenceFor(s, root, k).value, actions))
    && (forall id :: DestroySnapshot(id) in actions ==> id !in s.clones && forall h :: h in s.base.holds && h.snap == id ==> Release(h) in actions)
  }

  ghost predicate Emptied(s: Scope, r: Proofs.Reference, actions: seq<Action>) {
    && (forall h :: CoversHold(s, r, h) ==> Release(h) in actions)
    && (forall mk :: CoversMark(s, r, mk) ==> DestroyBookmark(mk) in actions)
  }

  // Any prefix of a plan.

  lemma OnlyShrinks(s: Scope, actions: seq<Action>)
    ensures var n := Effects(s, actions);
      && n.base.holds <= s.base.holds && n.base.marks.Keys <= s.base.marks.Keys && n.clones <= s.clones
      && (forall h :: Release(h) in actions ==> h !in n.base.holds)
      && (forall mk :: DestroyBookmark(mk) in actions ==> mk !in n.base.marks)
  {
    ExactlyTheseEffects(s, actions);
  }

  /** What ranks lower comes before. */
  lemma LowerRankFirst(actions: seq<Action>, k: nat, a: Action)
    requires Ranked(actions) && k < |actions| && a in actions && Rank(a) < Rank(actions[k])
    ensures a in actions[..k]
  {
    var i :| 0 <= i < |actions| && actions[i] == a;
    assert i < k;
    assert actions[..k][i] == a;
  }

  /** When a proof is removed, every hold and bookmark it covers in the scope is
      already gone. */
  lemma ProofRemovedLast(s: Scope, root: Dataset, actions: seq<Action>, k: nat)
    requires Accounted(s, root, actions) && Ranked(actions) && k < |actions| && actions[k].InheritProof?
    ensures var n, r := Effects(s, actions[..k]), ReferenceFor(s, root, actions[k].key).value;
      (forall h :: h in n.base.holds ==> !CoversHold(s, r, h)) && (forall mk :: mk in n.base.marks ==> !CoversMark(s, r, mk))
  {
    var r := ReferenceFor(s, root, actions[k].key).value;
    assert actions[k] in actions;
    OnlyShrinks(s, actions[..k]);
    forall h | CoversHold(s, r, h) ensures Release(h) in actions[..k] {
      LowerRankFirst(actions, k, Release(h));
    }
    forall mk | CoversMark(s, r, mk) ensures DestroyBookmark(mk) in actions[..k] {
      LowerRankFirst(actions, k, DestroyBookmark(mk));
    }
  }

  /** When a snapshot is destroyed, it has no hold and no clone. */
  lemma SnapshotDestroyedFree(s: Scope, root: Dataset, actions: seq<Action>, k: nat)
    requires Accounted(s, root, actions) && Ranked(actions) && k < |actions| && actions[k].DestroySnapshot?
    ensures var n := Effects(s, actions[..k]);
      actions[k].id !in n.clones && forall h :: h in n.base.holds ==> h.snap != actions[k].id
  {
    var id := actions[k].id;
    assert actions[k] in actions;
    OnlyShrinks(s, actions[..k]);
    forall h | h in s.base.holds && h.snap == id ensures Release(h) in actions[..k] {
      LowerRankFirst(actions, k, Release(h));
    }
  }

  /** The lineage goes last of all. */
  lemma LineageLast(actions: seq<Action>, k: nat, j: nat)
    requires Ranked(actions) && k < j < |actions| && actions[k].InheritLineage?
    ensures actions[j].InheritLineage?
  {
    assert Rank(actions[k]) <= Rank(actions[j]);
  }

  lemma EffectsNext(s: Scope, actions: seq<Action>, n: nat)
    requires n < |actions|
    ensures Effects(s, actions[..n + 1]) == Effect(Effects(s, actions[..n]), actions[n])
  {
    assert actions[..n + 1][..n] == actions[..n];
  }

  /** What was read is the initial scope with exactly the first `n` effects. */
  ghost predicate Verified(s: Scope, actions: seq<Action>, n: nat, read: Scope)
    requires n <= |actions|
  {
    read == Effects(s, actions[..n])
  }

  /** What happens around one command: the scope read before it, whether it
      succeeds, and the scope read after it. */
  datatype Step = Step(before: Scope, done: bool, after: Scope)

  /** The j-th command went as the run requires: issued on the expected scope,
      accepted, with exactly its effect, and no resumable receive appeared. */
  ghost predicate WentWell(s: Scope, actions: seq<Action>, steps: seq<Step>, j: nat)
    requires |steps| == |actions| && j < |actions|
  {
    steps[j].done && Verified(s, actions, j, steps[j].before) && Verified(s, actions, j + 1, steps[j].after) && steps[j].after.base.tokens == {}
  }

  /** Each command so far was issued on the initial scope with exactly the
      effects of those before it. */
  ghost predicate AllVerified(s: Scope, actions: seq<Action>, steps: seq<Step>, issued: nat) {
    issued <= |actions| && issued <= |steps| && forall j :: 0 <= j < issued ==> Verified(s, actions, j, steps[j].before)
  }

  ghost predicate WellUpTo(s: Scope, actions: seq<Action>, steps: seq<Step>, n: nat) {
    |steps| == |actions| && n <= |actions| && forall j :: 0 <= j < n ==> WentWell(s, actions, steps, j)
  }

  /** Every command went well. */
  ghost predicate AllWell(s: Scope, actions: seq<Action>, steps: seq<Step>) {
    WellUpTo(s, actions, steps, |actions|)
  }

  /** Issues the actions in order, going on only while all is as expected. */
  method Apply(s: Scope, actions: seq<Action>, steps: seq<Step>) returns (issued: nat, ok: bool)
    requires |steps| == |actions|
    ensures AllVerified(s, actions, steps, issued) && (ok ==> issued == |actions|)
    ensures WellUpTo(s, actions, steps, if ok || issued == 0 then issued else issued - 1)
    ensures ok <==> AllWell(s, actions, steps)
  {
    var current := s;
    issued := 0;
    while issued < |actions|
      invariant issued <= |actions| && Verified(s, actions, issued, current)
      invariant AllVerified(s, actions, steps, issued) && WellUpTo(s, actions, steps, issued)
    {
      var next := issued;
      EffectsNext(s, actions, next);
      if steps[next].before != current {
        assert !WentWell(s, actions, steps, next);
        return issued, false;
      }
      issued := next + 1;
      if !steps[next].done || steps[next].after != Effect(current, actions[next]) || steps[next].after.base.tokens != {} {
        assert !WentWell(s, actions, steps, next);
        return issued, false;
      }
      current := steps[next].after;
    }
    ok := true;
  }

  // When a run that nothing disturbs completes.

  /** ZFS accepts the command. Inheriting what is not set is no error. */
  predicate Lands(s: Scope, a: Action) {
    match a
    case DestroyBookmark(mk) => mk in s.base.marks
    case Release(h) => h in s.base.holds
    case DestroySnapshot(id) => id in s.base.snaps && id !in s.clones && forall h :: h in s.base.holds ==> h.snap != id
    case _ => true
  }

  ghost predicate AllLand(s: Scope, actions: seq<Action>) {
    forall k :: 0 <= k < |actions| ==> Lands(Effects(s, actions[..k]), actions[k])
  }

  /** What a command is about exists. */
  predicate Present(s: Scope, a: Action) {
    match a
    case DestroyBookmark(mk) => mk in s.base.marks
    case Release(h) => h in s.base.holds
    case DestroySnapshot(id) => id in s.base.snaps
    case _ => true
  }

  /** A command that cannot succeed twice. */
  predicate Once(a: Action) {
    a.DestroyBookmark? || a.Release? || a.DestroySnapshot?
  }

  predicate NoneTwice(actions: seq<Action>) {
    forall i, j :: 0 <= i < j < |actions| && Once(actions[i]) ==> actions[i] != actions[j]
  }

  /** The second of two equal commands is refused. */
  lemma TwiceIsRefused(s: Scope, actions: seq<Action>, i: nat, j: nat)
    requires i < j < |actions| && Once(actions[i]) && actions[i] == actions[j]
    ensures !Lands(Effects(s, actions[..j]), actions[j])
  {
    assert actions[..j][i] == actions[j];
    ExactlyTheseEffects(s, actions[..j]);
    assert actions[j] in set a | a in actions[..j];
  }

  /** A command that nothing before it repeats is accepted. */
  lemma FirstLands(s: Scope, root: Dataset, actions: seq<Action>, k: nat)
    requires Ranked(actions) && Accounted(s, root, actions) && k < |actions| && Present(s, actions[k]) && actions[k] !in actions[..k]
    ensures Lands(Effects(s, actions[..k]), actions[k])
  {
    ExactlyTheseEffects(s, actions[..k]);
    match actions[k]
    case DestroySnapshot(id) => SnapshotDestroyedFree(s, root, actions, k);
    case Release(h) =>
      forall i | 0 <= i < k ensures actions[i] != DestroySnapshot(h.snap) {
        assert Rank(actions[i]) <= Rank(actions[k]);
      }
    case _ =>
  }

  /** A plan lands whole exactly when it names nothing twice. */
  lemma LandsExactly(s: Scope, root: Dataset, actions: seq<Action>)
    requires Ranked(actions) && Accounted(s, root, actions) && forall a :: a in actions ==> Present(s, a)
    ensures AllLand(s, actions) <==> NoneTwice(actions)
  {
    if NoneTwice(actions) {
      forall k | 0 <= k < |actions| ensures Lands(Effects(s, actions[..k]), actions[k]) {
        if Once(actions[k]) {
          assert actions[k] in actions;
          FirstLands(s, root, actions, k);
        }
      }
    }
    if AllLand(s, actions) {
      forall i, j | 0 <= i < j < |actions| && Once(actions[i]) ensures actions[i] != actions[j] {
        if actions[i] == actions[j] {
          TwiceIsRefused(s, actions, i, j);
        }
      }
    }
  }

  /** Nothing but the run itself changes the scope. */
  ghost predicate Undisturbed(s: Scope, actions: seq<Action>, steps: seq<Step>) {
    && |steps| == |actions| && s.base.tokens == {}
    && forall j :: 0 <= j < |actions| ==>
      steps[j] == Step(Effects(s, actions[..j]), Lands(Effects(s, actions[..j]), actions[j]), Effects(s, actions[..j + 1]))
  }

  lemma {:induction false} TokensKept(s: Scope, actions: seq<Action>)
    ensures Effects(s, actions).base.tokens == s.base.tokens
  {
    if actions != [] {
      TokensKept(s, actions[..|actions| - 1]);
    }
  }

  /** An undisturbed run completes exactly when no command is issued twice. */
  lemma UndisturbedCompletes(s: Scope, root: Dataset, actions: seq<Action>, steps: seq<Step>)
    requires Ranked(actions) && Accounted(s, root, actions) && forall a :: a in actions ==> Present(s, a)
    requires Undisturbed(s, actions, steps)
    ensures AllWell(s, actions, steps) <==> NoneTwice(actions)
  {
    LandsExactly(s, root, actions);
    forall j | 0 <= j < |actions| ensures WentWell(s, actions, steps, j) <==> Lands(Effects(s, actions[..j]), actions[j]) {
      TokensKept(s, actions[..j + 1]);
    }
  }

  /** What may be said of the scope read just before a command is issued: a proof
      goes when nothing it covers is left, a snapshot when nothing holds it, and
      a lineage when no proof the plan removes is left. */
  ghost predicate Safe(s: Scope, root: Dataset, actions: seq<Action>, a: Action, read: Scope) {
    match a
    case InheritProof(k) =>
      && k in s.base.records && ReferenceFor(s, root, k).Some?
      && var r := ReferenceFor(s, root, k).value;
         (forall h :: h in read.base.holds ==> !CoversHold(s, r, h)) && (forall mk :: mk in read.base.marks ==> !CoversMark(s, r, mk))
    case DestroySnapshot(id) => id !in read.clones && forall h :: h in read.base.holds ==> h.snap != id
    case InheritLineage(_) => forall k :: k in read.base.records ==> InheritProof(k) !in actions
    case _ => true
  }

  lemma IssuedSafely(s: Scope, root: Dataset, actions: seq<Action>, k: nat, read: Scope)
    requires Ranked(actions) && Accounted(s, root, actions) && k < |actions| && Verified(s, actions, k, read)
    ensures Safe(s, root, actions, actions[k], read)
  {
    assert actions[k] in actions;
    match actions[k]
    case InheritProof(_) => ProofRemovedLast(s, root, actions, k);
    case DestroySnapshot(_) => SnapshotDestroyedFree(s, root, actions, k);
    case InheritLineage(_) =>
      ExactlyTheseEffects(s, actions[..k]);
      forall key | InheritProof(key) in actions ensures InheritProof(key) in actions[..k] {
        LowerRankFirst(actions, k, InheritProof(key));
      }
    case _ =>
  }

  /** The scope less what a set of actions names. */
  ghost function Less(s: Scope, gone: set<Action>): Scope {
    s.(base := s.base.(
         records := map k | k in s.base.records && InheritProof(k) !in gone :: s.base.records[k],
         marks := map mk | mk in s.base.marks && DestroyBookmark(mk) !in gone :: s.base.marks[mk],
         snaps := map id | id in s.base.snaps && DestroySnapshot(id) !in gone :: s.base.snaps[id],
         holds := set h | h in s.base.holds && Release(h) !in gone && DestroySnapshot(h.snap) !in gone),
       lineage := map d | d in s.lineage && InheritLineage(d) !in gone :: s.lineage[d],
       clones := (set id | id in s.clones && DestroySnapshot(id) !in gone),
       resumes := (set id | id in s.resumes && DestroySnapshot(id) !in gone),
       props := set p | p in s.props && Inherit(p) !in gone && !(p.OnSnap? && DestroySnapshot(p.id) in gone))
  }

  lemma OneLessSnapshot(s: Scope, gone: set<Action>, id: SnapId)
    ensures Effect(Less(s, gone), DestroySnapshot(id)) == Less(s, gone + {DestroySnapshot(id)})
  {
    var n, m := Effect(Less(s, gone), DestroySnapshot(id)), Less(s, gone + {DestroySnapshot(id)});
    assert n.base.records == m.base.records && n.base.marks == m.base.marks && n.lineage == m.lineage;
    assert n.base.snaps == m.base.snaps;
    assert n.base.holds == m.base.holds;
    assert n.clones == m.clones && n.resumes == m.resumes;
    assert n.props == m.props;
  }

  lemma OneLessReference(s: Scope, gone: set<Action>, a: Action)
    requires a.DestroyBookmark? || a.Release?
    ensures Effect(Less(s, gone), a) == Less(s, gone + {a})
  {
    var n, m := Effect(Less(s, gone), a), Less(s, gone + {a});
    assert n.base.records == m.base.records && n.base.snaps == m.base.snaps && n.lineage == m.lineage;
    assert n.base.marks == m.base.marks;
    assert n.base.holds == m.base.holds;
    assert n.clones == m.clones && n.resumes == m.resumes && n.props == m.props;
  }

  lemma OneLessProperty(s: Scope, gone: set<Action>, a: Action)
    requires a.Inherit? || a.InheritProof? || a.InheritLineage?
    ensures Effect(Less(s, gone), a) == Less(s, gone + {a})
  {
    var n, m := Effect(Less(s, gone), a), Less(s, gone + {a});
    assert n.base.records == m.base.records && n.base.snaps == m.base.snaps && n.lineage == m.lineage;
    assert n.base.marks == m.base.marks;
    assert n.base.holds == m.base.holds;
    assert n.clones == m.clones && n.resumes == m.resumes && n.props == m.props;
  }

  lemma OneLess(s: Scope, gone: set<Action>, a: Action)
    ensures Effect(Less(s, gone), a) == Less(s, gone + {a})
  {
    match a
    case DestroyBookmark(_) => OneLessReference(s, gone, a);
    case Release(_) => OneLessReference(s, gone, a);
    case DestroySnapshot(id) => OneLessSnapshot(s, gone, id);
    case Inherit(_) => OneLessProperty(s, gone, a);
    case InheritProof(_) => OneLessProperty(s, gone, a);
    case InheritLineage(_) => OneLessProperty(s, gone, a);
  }

  /** After any number of actions the scope is the first one less exactly what
      those actions name. */
  lemma {:induction false} ExactlyTheseEffects(s: Scope, actions: seq<Action>)
    ensures Effects(s, actions) == Less(s, set a | a in actions)
  {
    if actions == [] {
      assert Less(s, {}) == s;
    } else {
      var front, last := actions[..|actions| - 1], actions[|actions| - 1];
      ExactlyTheseEffects(s, front);
      OneLess(s, (set a | a in front), last);
      assert actions == front + [last];
      assert (set a | a in actions) == (set a | a in front) + {last};
    }
  }

  // Planning.

  /** One proof's holds and bookmarks, unless something about them does not add up. */
  method AccountFor(s: Scope, root: Dataset, k: Key) returns (r: Option<seq<Action>>)
    requires WellFormed(s.base) && k in s.base.records
    ensures r.Some? <==> Accountable(s, root, k)
    ensures r.Some? ==> ReferenceFor(s, root, k).Some? && Emptied(s, ReferenceFor(s, root, k).value, r.value)
    ensures r.Some? ==> forall a :: a in r.value ==> Backed(s, ReferenceFor(s, root, k).value, a)
    ensures r.Some? ==> Distinct(r.value)
  {
    var lineage, ref := LineageFor(s, root, k.root), ReferenceFor(s, root, k);
    if ref.None? {
      return None;
    }
    var sources := Proofs.DeriveSources(s.base, ref.value);
    if sources.Err? {
      return None;
    }
    SourcesApart(s.base, ref.value, s.base.datasets);
    SourcesOwned(s, ref.value, lineage.value, sources.value);
    var all := AccountSources(s, ref.value, lineage.value, sources.value);
    if all.None? {
      return None;
    }
    var actions := all.value;
    TakenEmpties(s, ref.value, sources.value, actions);
    ContributedBacked(s, ref.value, sources.value, actions);
    return Some(actions);
  }

  /** The holds and bookmarks of a proof's sources, in order. */
  method AccountSources(s: Scope, r: Proofs.Reference, lineage: nat, sources: seq<Proofs.Source>) returns (all: Option<seq<Action>>)
    requires WellFormed(s.base) && forall i :: 0 <= i < |sources| ==> Proofs.SourceAt(s.base, r, sources[i].dataset) == Ok(Some(sources[i].guid))
    requires forall i, j :: 0 <= i < j < |sources| ==> sources[i].dataset != sources[j].dataset
    ensures all.Some? <==> forall i :: 0 <= i < |sources| ==> OwnedIfHeld(s, r, lineage, sources[i].dataset)
    ensures all.Some? ==> Distinct(all.value) && forall i :: 0 <= i < |sources| ==> Taken(s, r, sources[i].dataset, all.value)
    ensures all.Some? ==> forall a :: a in all.value ==> exists i :: 0 <= i < |sources| && Contributes(s, r, sources[i].dataset, a)
  {
    var actions := [];
    for i := 0 to |sources|
      invariant Distinct(actions)
      invariant forall j :: 0 <= j < i ==> Taken(s, r, sources[j].dataset, actions) && OwnedIfHeld(s, r, lineage, sources[j].dataset)
      invariant forall a :: a in actions ==> exists j :: 0 <= j < i && Contributes(s, r, sources[j].dataset, a)
    {
      var more := AccountSource(s, r, lineage, sources[i]);
      if more.None? {
        return None;
      }
      forall a | a in more.value ensures a !in actions {}
      DistinctJoined(actions, more.value);
      actions := actions + more.value;
    }
    return Some(actions);
  }

  /** A hold of the proof is on a snapshot owned under that metadata. */
  predicate OwnedIfHeld(s: Scope, r: Proofs.Reference, lineage: nat, d: Dataset) {
    Proofs.HoldOf(r, d) in s.base.holds ==> FindOwned(s.base, Proofs.SnapOf(r, d), lineage) == Some(r.meta)
  }

  /** The proof reads, its sources derive, and what it holds is owned. */
  ghost predicate Accountable(s: Scope, root: Dataset, k: Key)
    requires k in s.base.records
  {
    && ReferenceFor(s, root, k).Some?
    && var r := ReferenceFor(s, root, k).value;
       Proofs.Sources(s.base, r).Ok? && forall d :: d in s.base.datasets && Proofs.Covers(r.dataset, r.recursive, d) ==> OwnedIfHeld(s, r, LineageFor(s, root, k.root).value, d)
  }

  /** What is held under a proof is one of its sources. */
  lemma SourcesOwned(s: Scope, r: Proofs.Reference, lineage: nat, sources: seq<Proofs.Source>)
    requires Proofs.Sources(s.base, r) == Ok(sources)
    ensures forall i :: 0 <= i < |sources| ==> Proofs.SourceAt(s.base, r, sources[i].dataset) == Ok(Some(sources[i].guid))
    ensures (forall d :: d in s.base.datasets && Proofs.Covers(r.dataset, r.recursive, d) ==> OwnedIfHeld(s, r, lineage, d)) <==>
      forall i :: 0 <= i < |sources| ==> OwnedIfHeld(s, r, lineage, sources[i].dataset)
  {
    Proofs.SourcesExact(s.base, r, s.base.datasets);
    forall i | 0 <= i < |sources|
      ensures sources[i].dataset in s.base.datasets && Proofs.Covers(r.dataset, r.recursive, sources[i].dataset)
      ensures Proofs.SourceAt(s.base, r, sources[i].dataset) == Ok(Some(sources[i].guid))
    {
      assert sources[i] in sources;
    }
    if forall i :: 0 <= i < |sources| ==> OwnedIfHeld(s, r, lineage, sources[i].dataset) {
      forall d | d in s.base.datasets && Proofs.Covers(r.dataset, r.recursive, d) ensures OwnedIfHeld(s, r, lineage, d) {
        if Proofs.HoldOf(r, d) in s.base.holds {
          var src := Proofs.Source(d, Proofs.SourceAt(s.base, r, d).value.value);
          var i :| 0 <= i < |sources| && sources[i] == src;
        }
      }
    }
  }

  /** One source's hold and bookmark. */
  method AccountSource(s: Scope, r: Proofs.Reference, lineage: nat, src: Proofs.Source) returns (more: Option<seq<Action>>)
    requires WellFormed(s.base)
    ensures Proofs.SourceAt(s.base, r, src.dataset) == Ok(Some(src.guid)) ==> (more.Some? <==> OwnedIfHeld(s, r, lineage, src.dataset))
    ensures more.Some? ==> Taken(s, r, src.dataset, more.value) && Distinct(more.value)
    ensures more.Some? ==> forall a :: a in more.value ==> Contributes(s, r, src.dataset, a)
  {
    var h, mk := Proofs.HoldOf(r, src.dataset), Proofs.MarkOf(r, src.dataset);
    var actions := [];
    if h in s.base.holds {
      if FindOwned(s.base, h.snap, lineage) != Some(r.meta) || s.base.snaps[h.snap].guid != src.guid {
        return None;
      }
      actions := [Release(h)];
    }
    if mk in s.base.marks {
      actions := actions + [DestroyBookmark(mk)];
    }
    return Some(actions);
  }

  /** A dataset is a source of a proof once. */
  lemma {:induction false} SourcesApart(s: State, r: Proofs.Reference, ds: seq<Dataset>)
    requires ParentsFirst(ds) && Proofs.SourcesIn(s, r, ds).Ok?
    ensures var srcs := Proofs.SourcesIn(s, r, ds).value; forall i, j :: 0 <= i < j < |srcs| ==> srcs[i].dataset != srcs[j].dataset
  {
    if ds != [] {
      var front, last := ds[..|ds| - 1], ds[|ds| - 1];
      SourcesApart(s, r, front);
      Proofs.SourcesExact(s, r, front);
      var before := Proofs.SourcesIn(s, r, front).value;
      forall i | 0 <= i < |before| ensures before[i].dataset != last {
        assert before[i] in before;
        var k :| 0 <= k < |front| && front[k] == before[i].dataset;
        assert !Inside(ds[k], ds[|ds| - 1]);
      }
    }
  }

  /** The action releases a hold or destroys a bookmark the proof covers. */
  ghost predicate Backed(s: Scope, r: Proofs.Reference, a: Action) {
    (a.Release? && CoversHold(s, r, a.hold)) || (a.DestroyBookmark? && CoversMark(s, r, a.mark))
  }

  ghost predicate Contributes(s: Scope, r: Proofs.Reference, d: Dataset, a: Action) {
    (a == Release(Proofs.HoldOf(r, d)) && a.hold in s.base.holds) || (a == DestroyBookmark(Proofs.MarkOf(r, d)) && a.mark in s.base.marks)
  }

  ghost predicate Taken(s: Scope, r: Proofs.Reference, d: Dataset, actions: seq<Action>) {
    && (Proofs.HoldOf(r, d) in s.base.holds ==> Release(Proofs.HoldOf(r, d)) in actions)
    && (Proofs.MarkOf(r, d) in s.base.marks ==> DestroyBookmark(Proofs.MarkOf(r, d)) in actions)
  }

  lemma TakenEmpties(s: Scope, r: Proofs.Reference, sources: seq<Proofs.Source>, actions: seq<Action>)
    requires WellFormed(s.base) && Proofs.Sources(s.base, r) == Ok(sources)
    requires forall j :: 0 <= j < |sources| ==> Taken(s, r, sources[j].dataset, actions)
    ensures Emptied(s, r, actions)
  {
    Proofs.SourcesExact(s.base, r, s.base.datasets);
    forall d | d in s.base.datasets && Proofs.Covers(r.dataset, r.recursive, d) && (Proofs.HoldOf(r, d) in s.base.holds || Proofs.MarkOf(r, d) in s.base.marks)
      ensures Taken(s, r, d, actions)
    {
      var src := Proofs.Source(d, Proofs.SourceAt(s.base, r, d).value.value);
      var j :| 0 <= j < |sources| && sources[j] == src;
    }
    forall h | CoversHold(s, r, h) ensures Release(h) in actions {
      assert Taken(s, r, h.snap.dataset, actions);
    }
    forall mk | CoversMark(s, r, mk) ensures DestroyBookmark(mk) in actions {
      assert Taken(s, r, mk.dataset, actions);
    }
  }

  lemma ContributedBacked(s: Scope, r: Proofs.Reference, sources: seq<Proofs.Source>, actions: seq<Action>)
    requires Proofs.Sources(s.base, r) == Ok(sources)
    requires forall a :: a in actions ==> exists j :: 0 <= j < |sources| && Contributes(s, r, sources[j].dataset, a)
    ensures forall a :: a in actions ==> Backed(s, r, a)
  {
    Proofs.SourcesExact(s.base, r, s.base.datasets);
    forall a | a in actions ensures Backed(s, r, a) {
      var j :| 0 <= j < |sources| && Contributes(s, r, sources[j].dataset, a);
      assert sources[j] in sources;
    }
  }

  /** The holds and bookmarks of several proofs. */
  method AccountForAll(s: Scope, root: Dataset, keys: set<Key>) returns (r: Option<seq<Action>>)
    requires WellFormed(s.base) && keys <= s.base.records.Keys
    ensures r.Some? <==> forall k :: k in keys ==> Accountable(s, root, k)
    ensures r.Some? ==> AllEmptied(s, root, keys, r.value) && AllBacked(s, root, keys, r.value)
    ensures r.Some? ==> (Distinct(r.value) <==> Unshared(s, root, keys))
  {
    var actions, left := [], keys;
    while left != {}
      invariant left <= keys
      invariant AllEmptied(s, root, keys - left, actions) && AllBacked(s, root, keys - left, actions)
      invariant Distinct(actions) <==> Unshared(s, root, keys - left)
      invariant forall k :: k in keys && k !in left ==> Accountable(s, root, k)
    {
      var k :| k in left;
      var more := AccountFor(s, root, k);
      if more.None? {
        return None;
      }
      MoreAccounted(s, root, keys - left, actions, k, more.value);
      MoreUnshared(s, root, keys - left, actions, k, more.value);
      assert keys - (left - {k}) == keys - left + {k};
      actions := actions + more.value;
      left := left - {k};
    }
    assert keys - {} == keys;
    return Some(actions);
  }

  ghost predicate AllEmptied(s: Scope, root: Dataset, keys: set<Key>, actions: seq<Action>) {
    forall k :: k in keys ==> k in s.base.records && ReferenceFor(s, root, k).Some? && Emptied(s, ReferenceFor(s, root, k).value, actions)
  }

  ghost predicate BackedByOne(s: Scope, root: Dataset, keys: set<Key>, a: Action) {
    exists k :: k in keys && k in s.base.records && ReferenceFor(s, root, k).Some? && Backed(s, ReferenceFor(s, root, k).value, a)
  }

  ghost predicate AllBacked(s: Scope, root: Dataset, keys: set<Key>, actions: seq<Action>) {
    forall a :: a in actions ==> BackedByOne(s, root, keys, a)
  }

  /** Both proofs cover one hold or bookmark. */
  ghost predicate Share(s: Scope, root: Dataset, j: Key, k: Key) {
    && j in s.base.records && ReferenceFor(s, root, j).Some? && k in s.base.records && ReferenceFor(s, root, k).Some?
    && exists a :: Backed(s, ReferenceFor(s, root, j).value, a) && Backed(s, ReferenceFor(s, root, k).value, a)
  }

  ghost predicate Unshared(s: Scope, root: Dataset, keys: set<Key>) {
    forall j, k :: j in keys && k in keys && j != k ==> !Share(s, root, j, k)
  }

  /** A further proof's list repeats something exactly when it shares with one
      of those before. */
  lemma MoreUnshared(s: Scope, root: Dataset, keys: set<Key>, actions: seq<Action>, k: Key, more: seq<Action>)
    requires AllEmptied(s, root, keys, actions) && AllBacked(s, root, keys, actions) && k !in keys
    requires k in s.base.records && ReferenceFor(s, root, k).Some? && Emptied(s, ReferenceFor(s, root, k).value, more)
    requires (forall a :: a in more ==> Backed(s, ReferenceFor(s, root, k).value, a)) && Distinct(more)
    requires Distinct(actions) <==> Unshared(s, root, keys)
    ensures Distinct(actions + more) <==> Unshared(s, root, keys + {k})
  {
    DistinctJoined(actions, more);
    forall j | j in keys ensures Share(s, root, j, k) <==> exists a :: a in more && Backed(s, ReferenceFor(s, root, j).value, a) {
      assert forall a :: Backed(s, ReferenceFor(s, root, k).value, a) ==> a in more;
    }
    forall a | a in more ensures a in actions <==> exists j :: j in keys && Backed(s, ReferenceFor(s, root, j).value, a) {
      if a in actions {
        assert BackedByOne(s, root, keys, a);
      }
    }
    forall i, j ensures Share(s, root, i, j) <==> Share(s, root, j, i) {}
  }

  lemma DistinctJoined<T>(a: seq<T>, b: seq<T>)
    ensures Distinct(a + b) <==> Distinct(a) && Distinct(b) && forall x :: x in a ==> x !in b
  {
    var all := a + b;
    if Distinct(all) {
      forall i, j | 0 <= i < j < |a| ensures a[i] != a[j] {
        assert all[i] != all[j];
      }
      forall i, j | 0 <= i < j < |b| ensures b[i] != b[j] {
        assert all[|a| + i] != all[|a| + j];
      }
      forall x | x in a ensures x !in b {
        var i :| 0 <= i < |a| && a[i] == x;
        forall j | 0 <= j < |b| ensures b[j] != x {
          assert all[i] != all[|a| + j];
        }
      }
    } else {
      var i, j :| 0 <= i < j < |all| && all[i] == all[j];
      assert j < |a| || i < |a| || b[i - |a|] == b[j - |a|];
      assert i < |a| <= j ==> a[i] in a && b[j - |a|] in b;
    }
  }

  lemma MoreAccounted(s: Scope, root: Dataset, keys: set<Key>, actions: seq<Action>, k: Key, more: seq<Action>)
    requires AllEmptied(s, root, keys, actions) && AllBacked(s, root, keys, actions)
    requires k in s.base.records && ReferenceFor(s, root, k).Some? && Emptied(s, ReferenceFor(s, root, k).value, more)
    requires forall a :: a in more ==> Backed(s, ReferenceFor(s, root, k).value, a)
    ensures AllEmptied(s, root, keys + {k}, actions + more) && AllBacked(s, root, keys + {k}, actions + more)
  {
    forall a | a in actions + more ensures BackedByOne(s, root, keys + {k}, a) {
      if a in actions {
        assert BackedByOne(s, root, keys, a);
      }
    }
  }

  method SetToSeq<T>(xs: set<T>) returns (ys: seq<T>)
    ensures Distinct(ys) && forall x :: x in ys <==> x in xs
  {
    ys := [];
    var left := xs;
    while left != {}
      invariant left <= xs && Distinct(ys) && forall x :: x in ys <==> x in xs && x !in left
    {
      var x :| x in left;
      ys := ys + [x];
      left := left - {x};
    }
  }

  /** Orders by rank; within a rank any order will do. */
  method SortByRank(actions: seq<Action>) returns (sorted: seq<Action>)
    ensures Ranked(sorted) && multiset(sorted) == multiset(actions)
  {
    sorted := [];
    for rank := 0 to 6
      invariant Ranked(sorted) && forall a :: multiset(sorted)[a] == if Rank(a) < rank then multiset(actions)[a] else 0
    {
      var level := OfRank(actions, rank);
      RankedJoined(sorted, level, multiset(actions), rank);
      sorted := sorted + level;
    }
  }

  lemma RankedJoined(sorted: seq<Action>, level: seq<Action>, all: multiset<Action>, rank: nat)
    requires Ranked(sorted) && forall a :: multiset(sorted)[a] == if Rank(a) < rank then all[a] else 0
    requires forall a :: multiset(level)[a] == if Rank(a) == rank then all[a] else 0
    ensures Ranked(sorted + level)
  {
    forall i | 0 <= i < |sorted| ensures Rank(sorted[i]) < rank {
      assert sorted[i] in multiset(sorted);
    }
    forall i | 0 <= i < |level| ensures Rank(level[i]) == rank {
      assert level[i] in multiset(level);
    }
  }

  method OfRank(actions: seq<Action>, rank: nat) returns (level: seq<Action>)
    ensures forall a :: multiset(level)[a] == if Rank(a) == rank then multiset(actions)[a] else 0
  {
    level := [];
    for i := 0 to |actions|
      invariant forall a :: multiset(level)[a] == if Rank(a) == rank then multiset(actions[..i])[a] else 0
    {
      assert actions[..i + 1] == actions[..i] + [actions[i]];
      if Rank(actions[i]) == rank {
        level := level + [actions[i]];
      }
    }
    assert actions[..|actions|] == actions;
  }

  lemma SameMembers<T>(a: seq<T>, b: seq<T>)
    requires multiset(a) == multiset(b)
    ensures forall x :: x in a <==> x in b
  {
    forall x ensures x in a <==> x in b {
      assert x in multiset(a) <==> x in multiset(b);
    }
  }

  lemma {:induction false} CountDistinct<T>(xs: seq<T>)
    ensures Distinct(xs) <==> forall x :: multiset(xs)[x] <= 1
  {
    if xs != [] {
      var front, last := xs[..|xs| - 1], xs[|xs| - 1];
      assert xs == front + [last];
      CountDistinct(front);
      DistinctJoined(front, [last]);
      assert last in front <==> multiset(front)[last] > 0;
      forall x ensures multiset(xs)[x] == multiset(front)[x] + if x == last then 1 else 0 {}
    }
  }

  /** Order does not matter to repetition. */
  lemma SameDistinct<T>(a: seq<T>, b: seq<T>)
    requires multiset(a) == multiset(b)
    ensures Distinct(a) <==> Distinct(b)
  {
    CountDistinct(a);
    CountDistinct(b);
  }

  lemma TwiceCounts<T>(xs: seq<T>, i: nat, j: nat)
    requires i < j < |xs| && xs[i] == xs[j]
    ensures multiset(xs)[xs[i]] >= 2
  {
    assert xs == xs[..i] + [xs[i]] + xs[i + 1..j] + [xs[j]] + xs[j + 1..];
  }

  /** What a plan names twice, its proofs have released twice. */
  lemma OnlyReferencesTwice(released: seq<Action>, rest: seq<Action>, sorted: seq<Action>)
    requires multiset(sorted) == multiset(released + rest) && Distinct(rest)
    requires (forall a :: a in released ==> a.Release? || a.DestroyBookmark?) && (forall a :: a in rest ==> !a.Release? && !a.DestroyBookmark?)
    ensures NoneTwice(sorted) <==> Distinct(released)
  {
    SameDistinct(sorted, released + rest);
    DistinctJoined(released, rest);
    CountDistinct(rest);
    forall i, j | 0 <= i < j < |sorted| && sorted[i] == sorted[j] ensures Once(sorted[i]) {
      TwiceCounts(sorted, i, j);
      assert multiset(sorted)[sorted[i]] == multiset(released)[sorted[i]] + multiset(rest)[sorted[i]];
    }
  }

  predicate IsOwned(s: Scope, root: Dataset, id: SnapId) {
    var lineage := LineageFor(s, root, id.dataset);
    id in s.base.snaps && lineage.Some? && Ownership(id.name, s.base.snaps[id], lineage.value).Some?
  }

  /** Nothing keeps the snapshot but holds that are being released. */
  predicate Unneeded(s: Scope, id: SnapId, released: seq<Action>) {
    id !in s.clones && id !in s.resumes && forall h :: h in s.base.holds && h.snap == id ==> Release(h) in released
  }

  /** Every hold and bookmark of these targets is released or destroyed by the proofs. */
  predicate NothingUnproven(s: Scope, released: seq<Action>, ofTarget: nat -> bool) {
    && (forall h :: h in s.base.holds && h.tag.Target? && ofTarget(h.tag.id) ==> Release(h) in released)
    && (forall mk :: mk in s.base.marks && ofTarget(mk.target) ==> DestroyBookmark(mk) in released)
  }

  function Among(targets: set<nat>): nat -> bool {
    t => t in targets
  }

  function Anyone(): nat -> bool {
    _ => true
  }

  /** Which properties are cleared: a retirement leaves what is public or on a snapshot. */
  predicate Cleared(retirement: bool, public: set<string>, p: Prop) {
    !retirement || (!p.OnSnap? && p.name !in public)
  }

  /** What a clean consists of, given the proofs' releases and the snapshots to destroy. */
  ghost predicate CleanActions(s: Scope, released: seq<Action>, victims: set<SnapId>, retirement: bool, public: set<string>, actions: seq<Action>) {
    forall a :: a in actions <==> match a
      case DestroyBookmark(_) => a in released
      case Release(_) => a in released
      case DestroySnapshot(id) => id in victims
      case Inherit(p) => p in s.props && !(p.OnSnap? && p.id in victims) && Cleared(retirement, public, p)
      case InheritProof(k) => k in s.base.records
      case InheritLineage(d) => d in s.lineage
  }

  lemma CleanAccounted(s: Scope, root: Dataset, released: seq<Action>, victims: set<SnapId>, retirement: bool, public: set<string>, actions: seq<Action>)
    requires AllEmptied(s, root, s.base.records.Keys, released) && CleanActions(s, released, victims, retirement, public, actions)
    requires forall id :: id in victims ==> Unneeded(s, id, released)
    ensures Accounted(s, root, actions)
  {
    forall k | InheritProof(k) in actions ensures k in s.base.records && ReferenceFor(s, root, k).Some? && Emptied(s, ReferenceFor(s, root, k).value, actions) {
      assert k in s.base.records.Keys;
    }
  }

  /** A proof covers every hold and bookmark of these targets. */
  ghost predicate AllProven(s: Scope, root: Dataset, keys: set<Key>, ofTarget: nat -> bool) {
    && (forall h :: h in s.base.holds && h.tag.Target? && ofTarget(h.tag.id) ==> BackedByOne(s, root, keys, Release(h)))
    && (forall mk :: mk in s.base.marks && ofTarget(mk.target) ==> BackedByOne(s, root, keys, DestroyBookmark(mk)))
  }

  /** Nothing keeps the snapshot but holds the proofs cover. */
  ghost predicate Dispensable(s: Scope, root: Dataset, keys: set<Key>, id: SnapId) {
    id !in s.clones && id !in s.resumes && forall h :: h in s.base.holds && h.snap == id ==> BackedByOne(s, root, keys, Release(h))
  }

  /** The released are exactly what the proofs cover. */
  lemma ReleasedIsBacked(s: Scope, root: Dataset, keys: set<Key>, released: seq<Action>)
    requires AllEmptied(s, root, keys, released) && AllBacked(s, root, keys, released)
    ensures forall a :: a in released <==> BackedByOne(s, root, keys, a)
    ensures forall id :: Unneeded(s, id, released) <==> Dispensable(s, root, keys, id)
    ensures forall ofTarget :: NothingUnproven(s, released, ofTarget) <==> AllProven(s, root, keys, ofTarget)
  {
    forall a ensures a in released <==> BackedByOne(s, root, keys, a) {
      if BackedByOne(s, root, keys, a) {
        var k :| k in keys && k in s.base.records && ReferenceFor(s, root, k).Some? && Backed(s, ReferenceFor(s, root, k).value, a);
        assert Emptied(s, ReferenceFor(s, root, k).value, released);
      }
    }
  }

  /** When a clean can be planned. */
  ghost predicate CanClean(s: Scope, root: Dataset, destroy: bool, retirement: bool, cleared: bool) {
    var keys := s.base.records.Keys;
    && cleared && (forall k :: k in keys ==> Accountable(s, root, k)) && AllProven(s, root, keys, Anyone())
    && (retirement && destroy ==> forall id :: IsOwned(s, root, id) ==> Dispensable(s, root, keys, id))
  }

  /** A plan in order, that takes proofs and snapshots with all that hangs on
      them, names what exists, and repeats itself only where the proofs overlap. */
  ghost predicate Workable(s: Scope, root: Dataset, keys: set<Key>, actions: seq<Action>) {
    && Ranked(actions) && Accounted(s, root, actions) && (forall a :: a in actions ==> Present(s, a))
    && (NoneTwice(actions) <==> Unshared(s, root, keys))
  }

  /** A clean, unless something blocks it. `cleared` stands for the checks made
      outside the scope: quiescence, activation, targets and readable records. */
  method PlanClean(s: Scope, root: Dataset, destroy: bool, retirement: bool, public: set<string>, cleared: bool)
      returns (r: Option<seq<Action>>, ghost released: seq<Action>, ghost victims: set<SnapId>)
    requires WellFormed(s.base)
    ensures r.Some? <==> CanClean(s, root, destroy, retirement, cleared)
    ensures r.Some? ==> Workable(s, root, s.base.records.Keys, r.value)
    ensures r.Some? ==> CleanActions(s, released, victims, retirement, public, r.value) && NothingUnproven(s, released, Anyone())
    ensures r.Some? ==> AllBacked(s, root, s.base.records.Keys, released)
    ensures r.Some? ==> forall id :: id in victims <==> destroy && IsOwned(s, root, id) && Unneeded(s, id, released)
    ensures r.Some? && retirement && destroy ==> forall id :: IsOwned(s, root, id) ==> id in victims
  {
    released, victims := [], {};
    if !cleared {
      return None, released, victims;
    }
    var proofs := AccountForAll(s, root, s.base.records.Keys);
    if proofs.None? {
      return None, released, victims;
    }
    ReleasedIsBacked(s, root, s.base.records.Keys, proofs.value);
    if !NothingUnproven(s, proofs.value, Anyone()) {
      return None, released, victims;
    }
    var owned := set id | id in s.base.snaps && destroy && IsOwned(s, root, id);
    var destroyed := set id | id in owned && Unneeded(s, id, proofs.value);
    if retirement && owned != destroyed {
      return None, released, victims;
    }
    released, victims := proofs.value, destroyed;
    BackedOnly(s, root, s.base.records.Keys, proofs.value);
    var sorted := Assemble(s, proofs.value, destroyed, retirement, public);
    CleanAccounted(s, root, proofs.value, destroyed, retirement, public, sorted);
    CleanPresent(s, root, proofs.value, destroyed, retirement, public, sorted);
    return Some(sorted), released, victims;
  }

  method Assemble(s: Scope, released: seq<Action>, victims: set<SnapId>, retirement: bool, public: set<string>) returns (sorted: seq<Action>)
    requires forall a :: a in released ==> a.Release? || a.DestroyBookmark?
    ensures Ranked(sorted) && CleanActions(s, released, victims, retirement, public, sorted)
    ensures NoneTwice(sorted) <==> Distinct(released)
  {
    var inherits := set p | p in s.props && !(p.OnSnap? && p.id in victims) && Cleared(retirement, public, p) :: Inherit(p);
    var rest := SetToSeq((set id | id in victims :: DestroySnapshot(id)) + inherits
      + (set k | k in s.base.records :: InheritProof(k)) + (set d | d in s.lineage :: InheritLineage(d)));
    sorted := SortByRank(released + rest);
    SameMembers(sorted, released + rest);
    OnlyReferencesTwice(released, rest, sorted);
  }

  lemma CleanPresent(s: Scope, root: Dataset, released: seq<Action>, victims: set<SnapId>, retirement: bool, public: set<string>, actions: seq<Action>)
    requires CleanActions(s, released, victims, retirement, public, actions) && AllBacked(s, root, s.base.records.Keys, released)
    requires forall id :: id in victims ==> id in s.base.snaps
    ensures forall a :: a in actions ==> Present(s, a)
  {
    forall a | a in actions ensures Present(s, a) {
      if a.Release? || a.DestroyBookmark? {
        assert a in released;
        assert BackedByOne(s, root, s.base.records.Keys, a);
      }
    }
  }

  /** A clean carried out whole leaves no proof, no bookmark, no target's hold
      and no lineage in the scope, and touches no snapshot it does not destroy. */
  lemma CleanedIsBare(s: Scope, released: seq<Action>, victims: set<SnapId>, retirement: bool, public: set<string>, actions: seq<Action>)
    requires CleanActions(s, released, victims, retirement, public, actions) && NothingUnproven(s, released, Anyone())
    ensures var n := Effects(s, actions); Bare(n) && n.base.snaps == s.base.snaps - victims
  {
    ExactlyTheseEffects(s, actions);
    var gone := set a | a in actions;
    var n := Effects(s, actions);
    forall mk | mk in s.base.marks ensures DestroyBookmark(mk) in gone {
      assert DestroyBookmark(mk) in released;
    }
    forall h | h in s.base.holds && h.tag.Target? ensures Release(h) in gone {
      assert Release(h) in released;
    }
    forall k | k in s.base.records ensures InheritProof(k) in gone {
      assert InheritProof(k) in actions;
    }
    forall d | d in s.lineage ensures InheritLineage(d) in gone {
      assert InheritLineage(d) in actions;
    }
    forall id ensures DestroySnapshot(id) in gone <==> id in victims {
      assert DestroySnapshot(id) in actions <==> id in victims;
    }
    assert n.base.snaps == s.base.snaps - victims;
  }

  /** One proof for a whole subtree and one for a child of it, about the same
      snapshot and target, share the child's hold. */
  lemma OverlappingProofsShare(s: Scope, root: Dataset, whole: Key, part: Key, h: Hold)
    requires whole in s.base.records && ReferenceFor(s, root, whole).Some? && ReferenceFor(s, root, whole).value.recursive
    requires part in s.base.records && ReferenceFor(s, root, part).Some?
    requires var r, p := ReferenceFor(s, root, whole).value, ReferenceFor(s, root, part).value;
      p.target == r.target && p.meta == r.meta && Inside(p.dataset, r.dataset) && p.dataset != r.dataset && h == Proofs.HoldOf(p, p.dataset)
    requires h in s.base.holds
    ensures whole != part && Share(s, root, whole, part)
  {
    var r, p := ReferenceFor(s, root, whole).value, ReferenceFor(s, root, part).value;
    assert h == Proofs.HoldOf(r, p.dataset);
    assert Backed(s, r, Release(h)) && Backed(s, p, Release(h));
  }

  /** The first `issued` commands were each issued on a scope in which it was safe. */
  ghost predicate AllSafe(s: Scope, root: Dataset, actions: seq<Action>, steps: seq<Step>, issued: nat) {
    issued <= |actions| && issued <= |steps| && forall j :: 0 <= j < issued ==> Safe(s, root, actions, actions[j], steps[j].before)
  }

  lemma AllIssuedSafely(s: Scope, root: Dataset, keys: set<Key>, actions: seq<Action>, steps: seq<Step>, issued: nat)
    requires Workable(s, root, keys, actions) && issued <= |actions| == |steps|
    requires AllVerified(s, actions, steps, issued)
    ensures AllSafe(s, root, actions, steps, issued)
  {
    forall j | 0 <= j < issued ensures Safe(s, root, actions, actions[j], steps[j].before) {
      IssuedSafely(s, root, actions, j, steps[j].before);
    }
  }

  lemma LastRead(s: Scope, actions: seq<Action>, steps: seq<Step>)
    requires AllWell(s, actions, steps) && actions != []
    ensures steps[|actions| - 1].after == Effects(s, actions)
  {
    assert WentWell(s, actions, steps, |actions| - 1);
    assert actions[..|actions|] == actions;
  }

  /** Undisturbed, all goes well exactly when no two of the proofs overlap. */
  lemma UndisturbedWorks(s: Scope, root: Dataset, keys: set<Key>, actions: seq<Action>, steps: seq<Step>)
    requires Workable(s, root, keys, actions) && Undisturbed(s, actions, steps)
    ensures AllWell(s, actions, steps) <==> Unshared(s, root, keys)
  {
    UndisturbedCompletes(s, root, actions, steps);
  }

  /** How carrying out a plan ends. However it does, each command was issued on a
      scope in which it was safe. Undisturbed, it completes exactly when no two
      of the proofs cover one hold or bookmark. */
  ghost predicate Outcome(s: Scope, root: Dataset, keys: set<Key>, actions: seq<Action>, steps: seq<Step>, issued: nat, ok: bool) {
    && AllSafe(s, root, actions, steps, issued)
    && (Undisturbed(s, actions, steps) ==> (ok <==> Unshared(s, root, keys)))
    && (ok ==> issued == |actions| && (issued > 0 ==> steps[issued - 1].after == Effects(s, actions)))
  }

  lemma OutcomeOf(s: Scope, root: Dataset, keys: set<Key>, actions: seq<Action>, steps: seq<Step>, issued: nat, ok: bool)
    requires Workable(s, root, keys, actions) && AllVerified(s, actions, steps, issued)
    requires (ok <==> AllWell(s, actions, steps)) && (ok ==> issued == |actions|) && |steps| == |actions|
    ensures Outcome(s, root, keys, actions, steps, issued, ok)
  {
    AllIssuedSafely(s, root, keys, actions, steps, issued);
    if Undisturbed(s, actions, steps) {
      UndisturbedWorks(s, root, keys, actions, steps);
    }
    if ok && actions != [] {
      LastRead(s, actions, steps);
    }
  }

  method CarryOut(s: Scope, root: Dataset, ghost keys: set<Key>, actions: seq<Action>, steps: seq<Step>) returns (issued: nat, ok: bool)
    requires Workable(s, root, keys, actions) && |steps| == |actions|
    ensures Outcome(s, root, keys, actions, steps, issued, ok)
  {
    issued, ok := Apply(s, actions, steps);
    OutcomeOf(s, root, keys, actions, steps, issued, ok);
  }

  /** Nothing managed is left in the scope. */
  ghost predicate Bare(n: Scope) {
    n.base.records == map[] && n.base.marks == map[] && n.lineage == map[] && forall h :: h in n.base.holds ==> h.tag.Foreign?
  }

  /** A clean from plan to end; `world` answers each command. Undisturbed, and
      with no two proofs covering one thing, it leaves nothing managed behind. */
  method CleanScope(s: Scope, root: Dataset, destroy: bool, retirement: bool, public: set<string>, cleared: bool, world: nat -> Step)
      returns (plan: Option<seq<Action>>, issued: nat, ok: bool)
    requires WellFormed(s.base)
    ensures plan.Some? <==> CanClean(s, root, destroy, retirement, cleared)
    ensures plan.None? ==> issued == 0 && !ok
    ensures plan.Some? ==> Outcome(s, root, s.base.records.Keys, plan.value, Steps(world, |plan.value|), issued, ok)
    ensures ok && issued > 0 ==> Bare(world(issued - 1).after)
  {
    ghost var released, victims;
    plan, released, victims := PlanClean(s, root, destroy, retirement, public, cleared);
    if plan.None? {
      return plan, 0, false;
    }
    CleanedIsBare(s, released, victims, retirement, public, plan.value);
    var steps := Steps(world, |plan.value|);
    issued, ok := CarryOut(s, root, s.base.records.Keys, plan.value, steps);
  }

  function Steps(world: nat -> Step, n: nat): seq<Step> {
    seq(n, i requires 0 <= i < n => world(i))
  }

  // Forgetting.

  function ProofsOf(s: Scope, root: Dataset, targets: set<nat>): set<Key> {
    set k | k in s.base.records && k.root == root && k.target in targets
  }

  function BindingsOf(s: Scope, root: Dataset, targets: set<nat>): set<Prop> {
    set p | p in s.props && p.Bound? && p.root == root && p.target in targets
  }

  ghost predicate ForgetActions(s: Scope, root: Dataset, targets: set<nat>, released: seq<Action>, actions: seq<Action>) {
    forall a :: a in actions <==> match a
      case DestroyBookmark(_) => a in released
      case Release(_) => a in released
      case DestroySnapshot(_) => false
      case Inherit(p) => p in BindingsOf(s, root, targets)
      case InheritProof(k) => k in ProofsOf(s, root, targets)
      case InheritLineage(_) => false
  }

  predicate Keeps(s: Scope, root: Dataset, target: nat) {
    ProofsOf(s, root, {target}) != {} || BindingsOf(s, root, {target}) != {}
  }

  /** When a forget can be planned. */
  ghost predicate CanForget(s: Scope, root: Dataset, targets: set<nat>, cleared: bool) {
    var keys := ProofsOf(s, root, targets);
    && cleared && root in s.lineage && (forall k :: k in s.base.records && k.root == root ==> ReferenceFor(s, root, k).Some?)
    && (forall k :: k in keys ==> Accountable(s, root, k)) && AllProven(s, root, keys, Among(targets))
    && forall t :: t in targets ==> Keeps(s, root, t)
  }

  /** What the proofs of the targets account for, if forgetting can be planned. */
  method AccountForget(s: Scope, root: Dataset, targets: set<nat>, cleared: bool) returns (r: Option<seq<Action>>)
    requires WellFormed(s.base)
    ensures r.Some? <==> CanForget(s, root, targets, cleared)
    ensures r.Some? ==> AllEmptied(s, root, ProofsOf(s, root, targets), r.value) && AllBacked(s, root, ProofsOf(s, root, targets), r.value)
    ensures r.Some? ==> NothingUnproven(s, r.value, Among(targets)) && (Distinct(r.value) <==> Unshared(s, root, ProofsOf(s, root, targets)))
  {
    if !cleared || root !in s.lineage || (exists k :: k in s.base.records && k.root == root && ReferenceFor(s, root, k).None?) {
      return None;
    }
    r := AccountForAll(s, root, ProofsOf(s, root, targets));
    if r.None? {
      return None;
    }
    ReleasedIsBacked(s, root, ProofsOf(s, root, targets), r.value);
    if !NothingUnproven(s, r.value, Among(targets)) || (exists t :: t in targets && !Keeps(s, root, t)) {
      return None;
    }
  }

  /** Forgetting takes a root with a lineage whose proofs all read, and some state for each target. */
  method PlanForget(s: Scope, root: Dataset, targets: set<nat>, cleared: bool) returns (r: Option<seq<Action>>, ghost released: seq<Action>)
    requires WellFormed(s.base)
    ensures r.Some? <==> CanForget(s, root, targets, cleared)
    ensures r.Some? ==> Workable(s, root, ProofsOf(s, root, targets), r.value)
    ensures r.Some? ==> ForgetActions(s, root, targets, released, r.value) && NothingUnproven(s, released, Among(targets))
    ensures r.Some? ==> AllBacked(s, root, ProofsOf(s, root, targets), released)
  {
    released := [];
    var proofs := AccountForget(s, root, targets, cleared);
    if proofs.None? {
      return None, released;
    }
    released := proofs.value;
    BackedOnly(s, root, ProofsOf(s, root, targets), proofs.value);
    var sorted := AssembleForget(s, root, targets, proofs.value);
    ForgetAccounted(s, root, targets, proofs.value, sorted);
    ForgetPresent(s, root, targets, proofs.value, sorted);
    return Some(sorted), released;
  }

  method AssembleForget(s: Scope, root: Dataset, targets: set<nat>, released: seq<Action>) returns (sorted: seq<Action>)
    requires forall a :: a in released ==> a.Release? || a.DestroyBookmark?
    ensures Ranked(sorted) && ForgetActions(s, root, targets, released, sorted)
    ensures NoneTwice(sorted) <==> Distinct(released)
  {
    var rest := SetToSeq((set k | k in ProofsOf(s, root, targets) :: InheritProof(k)) + (set p | p in BindingsOf(s, root, targets) :: Inherit(p)));
    sorted := SortByRank(released + rest);
    SameMembers(sorted, released + rest);
    OnlyReferencesTwice(released, rest, sorted);
  }

  lemma ForgetPresent(s: Scope, root: Dataset, targets: set<nat>, released: seq<Action>, actions: seq<Action>)
    requires ForgetActions(s, root, targets, released, actions) && AllBacked(s, root, ProofsOf(s, root, targets), released)
    ensures forall a :: a in actions ==> Present(s, a)
  {
    forall a | a in actions ensures Present(s, a) {
      if a.Release? || a.DestroyBookmark? {
        assert a in released;
        assert BackedByOne(s, root, ProofsOf(s, root, targets), a);
      }
    }
  }

  lemma BackedOnly(s: Scope, root: Dataset, keys: set<Key>, released: seq<Action>)
    requires AllBacked(s, root, keys, released)
    ensures forall a :: a in released ==> a.Release? || a.DestroyBookmark?
  {
    forall a | a in released ensures a.Release? || a.DestroyBookmark? {
      assert BackedByOne(s, root, keys, a);
    }
  }

  lemma ForgetAccounted(s: Scope, root: Dataset, targets: set<nat>, released: seq<Action>, actions: seq<Action>)
    requires AllEmptied(s, root, ProofsOf(s, root, targets), released) && ForgetActions(s, root, targets, released, actions)
    ensures Accounted(s, root, actions)
  {
    forall k | InheritProof(k) in actions ensures k in s.base.records && ReferenceFor(s, root, k).Some? && Emptied(s, ReferenceFor(s, root, k).value, actions) {
      assert k in ProofsOf(s, root, targets);
    }
  }

  lemma BackedTarget(s: Scope, root: Dataset, targets: set<nat>, a: Action)
    requires BackedByOne(s, root, ProofsOf(s, root, targets), a)
    ensures (a.Release? && a.hold.tag.Target? && a.hold.tag.id in targets) || (a.DestroyBookmark? && a.mark.target in targets)
  {}

  /** Forgetting carried out whole leaves nothing of the forgotten targets on the
      root, and everything of the others: their proofs, holds and bookmarks, the
      snapshots and the lineage. */
  lemma ForgetSparesOthers(s: Scope, root: Dataset, targets: set<nat>, released: seq<Action>, actions: seq<Action>)
    requires ForgetActions(s, root, targets, released, actions) && NothingUnproven(s, released, Among(targets))
    requires AllBacked(s, root, ProofsOf(s, root, targets), released)
    ensures var n := Effects(s, actions);
      && n.base.snaps == s.base.snaps && n.lineage == s.lineage
      && n.base.records == s.base.records - ProofsOf(s, root, targets)
      && n.props == s.props - BindingsOf(s, root, targets)
      && n.base.holds == (set h | h in s.base.holds && !(h.tag.Target? && h.tag.id in targets))
      && n.base.marks == (map mk | mk in s.base.marks && mk.target !in targets :: s.base.marks[mk])
  {
    ExactlyTheseEffects(s, actions);
    forall a | a in released ensures (a.Release? && a.hold.tag.Target? && a.hold.tag.id in targets) || (a.DestroyBookmark? && a.mark.target in targets) {
      assert BackedByOne(s, root, ProofsOf(s, root, targets), a);
      BackedTarget(s, root, targets, a);
    }
    ForgetLess(s, root, targets, released, actions);
  }

  /** A forget from plan to end. */
  method ForgetScope(s: Scope, root: Dataset, targets: set<nat>, cleared: bool, world: nat -> Step)
      returns (plan: Option<seq<Action>>, issued: nat, ok: bool)
    requires WellFormed(s.base)
    ensures plan.Some? <==> CanForget(s, root, targets, cleared)
    ensures plan.None? ==> issued == 0 && !ok
    ensures plan.Some? ==> Outcome(s, root, ProofsOf(s, root, targets), plan.value, Steps(world, |plan.value|), issued, ok)
    ensures ok && issued > 0 ==> var n := world(issued - 1).after;
      && n.base.snaps == s.base.snaps && n.lineage == s.lineage
      && n.base.records == s.base.records - ProofsOf(s, root, targets) && n.props == s.props - BindingsOf(s, root, targets)
      && n.base.holds == (set h | h in s.base.holds && !(h.tag.Target? && h.tag.id in targets))
      && n.base.marks == (map mk | mk in s.base.marks && mk.target !in targets :: s.base.marks[mk])
  {
    ghost var released;
    plan, released := PlanForget(s, root, targets, cleared);
    if plan.None? {
      return plan, 0, false;
    }
    ForgetSparesOthers(s, root, targets, released, plan.value);
    issued, ok := CarryOut(s, root, ProofsOf(s, root, targets), plan.value, Steps(world, |plan.value|));
  }

  lemma ForgetLess(s: Scope, root: Dataset, targets: set<nat>, released: seq<Action>, actions: seq<Action>)
    requires ForgetActions(s, root, targets, released, actions) && NothingUnproven(s, released, Among(targets))
    requires forall a :: a in released ==> (a.Release? && a.hold.tag.Target? && a.hold.tag.id in targets) || (a.DestroyBookmark? && a.mark.target in targets)
    ensures var n := Less(s, set a | a in actions);
      && n.base.snaps == s.base.snaps && n.lineage == s.lineage
      && n.base.records == s.base.records - ProofsOf(s, root, targets)
      && n.props == s.props - BindingsOf(s, root, targets)
      && n.base.holds == (set h | h in s.base.holds && !(h.tag.Target? && h.tag.id in targets))
      && n.base.marks == (map mk | mk in s.base.marks && mk.target !in targets :: s.base.marks[mk])
  {
    ForgetKeeps(s, root, targets, released, actions);
    var n := Less(s, set a | a in actions);
    forall h | h in s.base.holds ensures Release(h) in actions <==> h.tag.Target? && h.tag.id in targets {}
    forall mk | mk in s.base.marks ensures DestroyBookmark(mk) in actions <==> mk.target in targets {}
    assert n.base.holds == (set h | h in s.base.holds && !(h.tag.Target? && h.tag.id in targets));
  }

  lemma ForgetKeeps(s: Scope, root: Dataset, targets: set<nat>, released: seq<Action>, actions: seq<Action>)
    requires ForgetActions(s, root, targets, released, actions)
    ensures var n := Less(s, set a | a in actions);
      && n.base.snaps == s.base.snaps && n.lineage == s.lineage
      && n.base.records == s.base.records - ProofsOf(s, root, targets)
      && n.props == s.props - BindingsOf(s, root, targets)
  {
    var n := Less(s, set a | a in actions);
    assert n.base.snaps == s.base.snaps;
    assert n.lineage == s.lineage;
    assert n.base.records == s.base.records - ProofsOf(s, root, targets);
  }
}
