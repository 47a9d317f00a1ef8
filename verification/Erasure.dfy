/** What cleaning and forgetting take and leave, read off the scope: an account
    that names none of the steps that plan them. */
module Erasure {
  import opened Names
  import opened Zfs
  import opened Clean
  import Proofs

  /** The lineage a dataset goes by: its own, or without one the cleaned root's. */
  predicate GoesBy(s: Scope, root: Dataset, d: Dataset, lineage: nat) {
    if d in s.lineage then s.lineage[d] == lineage else root in s.lineage && s.lineage[root] == lineage
  }

  /** A snapshot whose name and metadata agree, of the lineage its dataset goes by. */
  predicate Owned(s: Scope, root: Dataset, id: SnapId) {
    && id in s.base.snaps && id.name.Stamped?
    && var snap := s.base.snaps[id];
       snap.guid != 0 && snap.stored.Some? && snap.stored.value.1.short == id.name.short && GoesBy(s, root, id.dataset, snap.stored.value.0)
  }

  lemma OwnedExactly(s: Scope, root: Dataset, id: SnapId)
    ensures IsOwned(s, root, id) <==> Owned(s, root, id)
  {}

  /** A proof reads when its record names its key's stream, in the lineage its root goes by. */
  lemma ProofReadsExactly(s: Scope, root: Dataset, k: Key, r: Proofs.Reference)
    requires k in s.base.records
    ensures ReferenceFor(s, root, k) == Some(r) <==>
              && k.root + s.base.records[k].relative == k.stream && GoesBy(s, root, k.root, r.meta.lineage)
              && r.target == k.target && r.dataset == k.stream && r.meta.snapshot == k.snapshot
              && r.meta.created == s.base.records[k].created && r.recursive == s.base.records[k].recursive
  {}

  /** The holds and bookmarks a proof covers, by their names. */
  lemma CoversExactly(s: Scope, r: Proofs.Reference, h: Hold, mk: Mark)
    ensures CoversHold(s, r, h) <==>
              && h in s.base.holds && h.tag == Target(r.target) && h.snap.name == Stamped(r.meta.created, r.meta.snapshot.short)
              && (h.snap.dataset == r.dataset || (r.recursive && Inside(h.snap.dataset, r.dataset)))
    ensures CoversMark(s, r, mk) <==>
              && mk in s.base.marks && mk.target == r.target && mk.snapshot == r.meta.snapshot
              && (mk.dataset == r.dataset || (r.recursive && Inside(mk.dataset, r.dataset)))
  {}

  // ---------------------------------------------------------------- order

  predicate OnDataset(a: Action) {
    a.InheritProof? || (a.Inherit? && !a.prop.OnSnap?)
  }

  /** `a` may not follow `b`: it is of an earlier stage. */
  predicate Precedes(a: Action, b: Action) {
    || (a.DestroyBookmark? && !b.DestroyBookmark?)
    || (a.Release? && !b.DestroyBookmark? && !b.Release?)
    || (a.DestroySnapshot? && (b.Inherit? || b.InheritProof? || b.InheritLineage?))
    || (a.Inherit? && a.prop.OnSnap? && (OnDataset(b) || b.InheritLineage?))
    || (OnDataset(a) && b.InheritLineage?)
  }

  lemma RankPrecedes(a: Action, b: Action)
    ensures Rank(a) < Rank(b) <==> Precedes(a, b)
  {}

  /** Bookmarks go first, then holds, snapshots, snapshot metadata, dataset
      properties with the proofs among them, and lineages last. */
  lemma OrderExactly(actions: seq<Action>)
    ensures Ranked(actions) <==> forall i, j :: 0 <= i < j < |actions| ==> !Precedes(actions[j], actions[i])
  {
    forall i, j | 0 <= i < j < |actions| ensures Rank(actions[j]) < Rank(actions[i]) <==> Precedes(actions[j], actions[i]) {
      RankPrecedes(actions[j], actions[i]);
    }
  }

  // ---------------------------------------------------------------- what is left

  /** A clean's plan, by what planning it promises. */
  ghost predicate IsClean(s: Scope, root: Dataset, destroy: bool, retirement: bool, public: set<string>, released: seq<Action>, victims: set<SnapId>, actions: seq<Action>) {
    && CleanActions(s, released, victims, retirement, public, actions)
    && AllBacked(s, root, s.base.records.Keys, released)
    && forall id :: id in victims <==> destroy && IsOwned(s, root, id) && Unneeded(s, id, released)
  }

  /** The snapshot is destroyed: asked for, owned, without clones or a receive
      that needs it, and with every hold on it released. */
  ghost predicate Destroyed(s: Scope, root: Dataset, destroy: bool, actions: seq<Action>, id: SnapId) {
    destroy && Owned(s, root, id) && id !in s.clones && id !in s.resumes && forall h :: h in s.base.holds && h.snap == id ==> Release(h) in actions
  }

  lemma VictimsExactly(s: Scope, root: Dataset, destroy: bool, retirement: bool, public: set<string>, released: seq<Action>, victims: set<SnapId>, actions: seq<Action>, id: SnapId)
    requires IsClean(s, root, destroy, retirement, public, released, victims, actions)
    ensures id in victims <==> Destroyed(s, root, destroy, actions, id)
  {
    OwnedExactly(s, root, id);
    assert forall h :: Release(h) in actions <==> Release(h) in released;
  }

  /** A clean carried out whole leaves every snapshot but those destroyed, and of
      the properties none, or on a retirement what is public or on a snapshot left. */
  lemma CleanLeavesExactly(s: Scope, root: Dataset, destroy: bool, retirement: bool, public: set<string>, released: seq<Action>, victims: set<SnapId>, actions: seq<Action>)
    requires IsClean(s, root, destroy, retirement, public, released, victims, actions)
    ensures var n := Effects(s, actions);
      && (forall id :: id in n.base.snaps <==> id in s.base.snaps && !Destroyed(s, root, destroy, actions, id))
      && (forall p :: p in n.props <==> p in s.props && retirement && (if p.OnSnap? then !Destroyed(s, root, destroy, actions, p.id) else p.name in public))
  {
    ExactlyTheseEffects(s, actions);
    forall id ensures DestroySnapshot(id) in actions <==> Destroyed(s, root, destroy, actions, id) {
      VictimsExactly(s, root, destroy, retirement, public, released, victims, actions, id);
      assert DestroySnapshot(id) in actions <==> id in victims;
    }
    forall p | p in s.props ensures Inherit(p) in actions <==> !(p.OnSnap? && p.id in victims) && (!retirement || (!p.OnSnap? && p.name !in public)) {}
    forall id ensures id in victims <==> Destroyed(s, root, destroy, actions, id) {
      VictimsExactly(s, root, destroy, retirement, public, released, victims, actions, id);
    }
  }

  /** A target can be forgotten on a root only if the root keeps a proof or a
      binding of it, and exactly those go. */
  lemma ForgotExactly(s: Scope, root: Dataset, targets: set<nat>, released: seq<Action>, actions: seq<Action>)
    requires ForgetActions(s, root, targets, released, actions)
    ensures forall k :: InheritProof(k) in actions <==> k in s.base.records && k.root == root && k.target in targets
    ensures forall p :: Inherit(p) in actions <==> p in s.props && p.Bound? && p.root == root && p.target in targets
  {
    forall k ensures InheritProof(k) in actions <==> k in ProofsOf(s, root, targets) {}
    forall p ensures Inherit(p) in actions <==> p in BindingsOf(s, root, targets) {}
  }

  lemma KeptExactly(s: Scope, root: Dataset, target: nat)
    ensures Keeps(s, root, target) <==>
              || (exists k :: k in s.base.records && k.root == root && k.target == target)
              || (exists p :: p in s.props && p.Bound? && p.root == root && p.target == target)
  {
    forall k ensures k in ProofsOf(s, root, {target}) <==> k in s.base.records && k.root == root && k.target == target {}
    forall p ensures p in BindingsOf(s, root, {target}) <==> p in s.props && p.Bound? && p.root == root && p.target == target {}
  }
}
