/** Exactly when an operation on recovery proofs goes ahead, read off the state:
    an account of the refusals that names none of the steps that compute them. */
module Refusals {
  import opened Names
  import opened Zfs
  import opened Proofs

  function Named(m: Metadata, d: Dataset): SnapId { SnapId(d, Stamped(m.created, m.snapshot.short)) }

  /** `id` is the snapshot `m` of the lineage that owns it. */
  predicate Owned(s: State, id: SnapId, m: Metadata) {
    id in s.snaps && id == Named(m, id.dataset) && s.snaps[id].guid != 0 && s.snaps[id].stored == Some((m.lineage, m.snapshot))
  }

  predicate Held(s: State, r: Reference, d: Dataset) { Hold(Named(r.meta, d), Target(r.target)) in s.holds }

  predicate Kept(s: State, r: Reference, d: Dataset) { Mark(d, r.target, r.meta.snapshot) in s.marks }

  /** The proof spans `d`, which is held or bookmarked for it. */
  predicate Involved(s: State, r: Reference, d: Dataset) {
    d in s.datasets && (d == r.dataset || (r.recursive && Inside(d, r.dataset))) && (Held(s, r, d) || Kept(s, r, d))
  }

  /** The GUIDs the snapshot and the bookmark of `d` show. */
  function Guids(s: State, r: Reference, d: Dataset): set<nat> {
    (if Named(r.meta, d) in s.snaps then {s.snaps[Named(r.meta, d)].guid} else {})
    + (if Kept(s, r, d) then {s.marks[Mark(d, r.target, r.meta.snapshot)]} else {})
  }

  ghost predicate Shown(s: State, r: Reference, d: Dataset, guid: nat) { guid != 0 && Guids(s, r, d) == {guid} }

  /** The root is there and no dataset in the scope is half received. */
  predicate Quiet(s: State, root: Dataset, r: Reference) {
    && root in s.datasets && root !in s.tokens && r.dataset !in s.tokens
    && (r.recursive ==> forall d :: d in s.tokens ==> !Inside(d, r.dataset))
  }

  /** Every record of the root names its own stream, and one of them is this proof. */
  predicate Recorded(s: State, root: Dataset, r: Reference) {
    && root in s.authority && s.authority[root] == r.meta.lineage
    && (forall k :: k in s.records && k.root == root ==> root + s.records[k].relative == k.stream)
    && var k := Key(root, r.target, r.dataset, r.meta.snapshot);
       k in s.records && s.records[k].created == r.meta.created && s.records[k].recursive == r.recursive
  }

  /** The proof can be worked on: recorded, and every dataset it involves shows one GUID. */
  ghost predicate Stands(s: State, root: Dataset, r: Reference) {
    && Quiet(s, root, r) && Recorded(s, root, r)
    && forall d :: Involved(s, r, d) ==> exists guid :: Shown(s, r, d, guid)
  }

  /** A verified GUID must be the source's; without a bookmark there must be one,
      and the source still owned and held. */
  ghost predicate Markable(s: State, r: Reference, verified: map<SnapId, nat>, d: Dataset) {
    var id := Named(r.meta, d);
    && (id in verified ==> Guids(s, r, d) == {verified[id]})
    && (!Kept(s, r, d) ==> id in verified && Held(s, r, d) && Owned(s, id, r.meta))
  }

  ghost predicate Verifiable(s: State, r: Reference, verified: map<SnapId, nat>) {
    && Involved(s, r, r.dataset)
    && (forall id :: id in verified ==> Involved(s, r, id.dataset) && id == Named(r.meta, id.dataset))
    && (forall d :: Involved(s, r, d) ==> Markable(s, r, verified, d))
  }

  // ---------------------------------------------------------------- the state of a proof

  lemma OwnedExact(s: State, id: SnapId, m: Metadata)
    ensures FindOwned(s, id, m.lineage) == Some(m) <==> Owned(s, id, m)
  {
  }

  lemma ShownExact(s: State, r: Reference, d: Dataset, guid: nat)
    requires Held(s, r, d) || Kept(s, r, d)
    ensures SourceAt(s, r, d) == Ok(Some(guid)) <==> Shown(s, r, d, guid)
    ensures SourceAt(s, r, d).Ok? ==> SourceAt(s, r, d).value.Some?
  {
    var id, mk := Named(r.meta, d), Mark(d, r.target, r.meta.snapshot);
    assert id == SnapOf(r, d) && mk == MarkOf(r, d);
    if Shown(s, r, d, guid) {
      assert id in s.snaps ==> s.snaps[id].guid in Guids(s, r, d);
      assert mk in s.marks ==> s.marks[mk] in Guids(s, r, d);
      assert guid in Guids(s, r, d);
    }
  }

  lemma {:induction false} SourcesStand(s: State, r: Reference, ds: seq<Dataset>)
    requires forall d :: d in ds ==> d in s.datasets
    ensures SourcesIn(s, r, ds).Ok? <==> forall d :: d in ds && Involved(s, r, d) ==> exists guid :: Shown(s, r, d, guid)
  {
    if ds != [] {
      var init, d := ds[..|ds| - 1], ds[|ds| - 1];
      assert ds == init + [d];
      SourcesStand(s, r, init);
      SourceStands(s, r, d);
    }
  }

  lemma SourceStands(s: State, r: Reference, d: Dataset)
    requires d in s.datasets
    ensures (Covers(r.dataset, r.recursive, d) ==> SourceAt(s, r, d).Ok?) <==> (Involved(s, r, d) ==> exists guid :: Shown(s, r, d, guid))
  {
    if Involved(s, r, d) {
      if SourceAt(s, r, d).Ok? { ShownExact(s, r, d, SourceAt(s, r, d).value.value); }
      if guid :| Shown(s, r, d, guid) { ShownExact(s, r, d, guid); }
    }
  }

  lemma RecordedExact(s: State, root: Dataset, r: Reference)
    ensures root in s.authority && Readable(s, root) && Stored(s, root, r) <==> Recorded(s, root, r)
  {
  }

  /** The stored proof is found with its sources exactly when it stands. */
  lemma StandsExactly(s: State, root: Dataset, r: Reference)
    ensures ReferenceState(s, root, r).Ok? <==> Stands(s, root, r)
    ensures Stands(s, root, r) ==> root in s.authority && s.authority[root] == r.meta.lineage && ReferenceState(s, root, r) == Sources(s, r)
  {
    RecordedExact(s, root, r);
    SourcesStand(s, r, s.datasets);
    assert Ready(s, root, r) <==> Quiet(s, root, r);
  }

  /** The sources of a standing proof are the datasets it involves, each with the GUID it shows. */
  lemma SourcesInvolved(s: State, r: Reference)
    requires Sources(s, r).Ok?
    ensures forall src :: src in Sources(s, r).value ==> Involved(s, r, src.dataset) && Shown(s, r, src.dataset, src.guid)
    ensures forall d :: Involved(s, r, d) ==> exists src :: src in Sources(s, r).value && src.dataset == d
  {
    SourcesExact(s, r, s.datasets);
    forall src | src in Sources(s, r).value ensures Involved(s, r, src.dataset) && Shown(s, r, src.dataset, src.guid) {
      assert SourceAt(s, r, src.dataset) == Ok(Some(src.guid));
      ShownExact(s, r, src.dataset, src.guid);
    }
  }

  // ---------------------------------------------------------------- the operations

  lemma {:induction false} GatherAll(s: State, root: Dataset, op: Op, srcs: seq<Source>)
    requires root in s.authority && (op.Checkpoint? || op.ReleaseHold? || op.Release?)
    ensures Gather(s, root, op, srcs).Ok? <==> forall src :: src in srcs ==> SourceWrites(s, root, op, src).Ok?
  {
    if srcs != [] {
      assert srcs == srcs[..|srcs| - 1] + [srcs[|srcs| - 1]];
      GatherAll(s, root, op, srcs[..|srcs| - 1]);
    }
  }

  /** What an operation asks of one dataset it involves. */
  ghost predicate Allows(s: State, op: Op, d: Dataset)
    requires op.Checkpoint? || op.ReleaseHold? || op.Release?
  {
    match op
    case Checkpoint(r, verified) => Markable(s, r, verified, d)
    case ReleaseHold(r) => Held(s, r, d) ==> Owned(s, Named(r.meta, d), r.meta) && Kept(s, r, d)
    case Release(r) => Held(s, r, d) ==> Owned(s, Named(r.meta, d), r.meta)
  }

  lemma AllowsExact(s: State, root: Dataset, op: Op, src: Source)
    requires root in s.authority && (op.Checkpoint? || op.ReleaseHold? || op.Release?) && s.authority[root] == op.r.meta.lineage
    requires Shown(s, op.r, src.dataset, src.guid)
    ensures SourceWrites(s, root, op, src).Ok? <==> Allows(s, op, src.dataset)
  {
    var r, d := op.r, src.dataset;
    OwnedExact(s, Named(r.meta, d), r.meta);
    assert src.guid in Guids(s, r, d);
    if Named(r.meta, d) in s.snaps { assert s.snaps[Named(r.meta, d)].guid in Guids(s, r, d); }
    if op.Checkpoint? && Named(r.meta, d) in op.verified { assert Guids(s, r, d) == {op.verified[Named(r.meta, d)]} <==> op.verified[Named(r.meta, d)] == src.guid; }
  }

  lemma GatherAllows(s: State, root: Dataset, op: Op, srcs: seq<Source>)
    requires (op.Checkpoint? || op.ReleaseHold? || op.Release?) && Stands(s, root, op.r) && ReferenceState(s, root, op.r) == Ok(srcs)
    ensures root in s.authority && (Gather(s, root, op, srcs).Ok? <==> forall d :: Involved(s, op.r, d) ==> Allows(s, op, d))
  {
    StandsExactly(s, root, op.r);
    SourcesInvolved(s, op.r);
    GatherAll(s, root, op, srcs);
    forall src | src in srcs ensures SourceWrites(s, root, op, src).Ok? <==> Allows(s, op, src.dataset) {
      AllowsExact(s, root, op, src);
    }
  }

  /** A proof's holds are released exactly when it stands and every held source
      is still owned and already bookmarked. */
  lemma ReleasesHoldExactly(s: State, root: Dataset, r: Reference)
    ensures Plan(s, root, ReleaseHold(r)).Ok? <==>
              Stands(s, root, r) && forall d :: Involved(s, r, d) && Held(s, r, d) ==> Owned(s, Named(r.meta, d), r.meta) && Kept(s, r, d)
  {
    StandsExactly(s, root, r);
    if Stands(s, root, r) { GatherAllows(s, root, ReleaseHold(r), Sources(s, r).value); }
  }

  /** A proof is removed exactly when it stands and every held source is still owned. */
  lemma ReleasesExactly(s: State, root: Dataset, r: Reference)
    ensures Plan(s, root, Release(r)).Ok? <==>
              Stands(s, root, r) && forall d :: Involved(s, r, d) && Held(s, r, d) ==> Owned(s, Named(r.meta, d), r.meta)
  {
    StandsExactly(s, root, r);
    if Stands(s, root, r) { GatherAllows(s, root, Release(r), Sources(s, r).value); }
  }

  lemma LeadExactly(s: State, r: Reference)
    requires ParentsFirst(s.datasets) && Sources(s, r).Ok?
    ensures var srcs := Sources(s, r).value; |srcs| > 0 && srcs[0].dataset == r.dataset <==> Involved(s, r, r.dataset)
  {
    SourcesInvolved(s, r);
    StreamLeads(s, r, s.datasets);
    var srcs := Sources(s, r).value;
    if |srcs| > 0 && srcs[0].dataset == r.dataset { assert srcs[0] in srcs; }
  }

  lemma VerifiedExactly(s: State, r: Reference, verified: map<SnapId, nat>)
    requires Sources(s, r).Ok?
    ensures (exists id :: id in verified && (forall src :: src in Sources(s, r).value ==> SnapOf(r, src.dataset) != id)) <==>
              !forall id :: id in verified ==> Involved(s, r, id.dataset) && id == Named(r.meta, id.dataset)
  {
    SourcesInvolved(s, r);
    forall id | id in verified
      ensures (exists src :: src in Sources(s, r).value && SnapOf(r, src.dataset) == id) <==> Involved(s, r, id.dataset) && id == Named(r.meta, id.dataset)
    {
      if Involved(s, r, id.dataset) && id == Named(r.meta, id.dataset) {
        var src :| src in Sources(s, r).value && src.dataset == id.dataset;
        assert SnapOf(r, src.dataset) == id;
      }
    }
  }

  /** A checkpoint is taken exactly when the proof stands, the stream itself is
      protected, only protected snapshots were verified, and each involved
      dataset is bookmarked already or was verified, held and owned. */
  lemma CheckpointsExactly(s: State, root: Dataset, r: Reference, verified: map<SnapId, nat>)
    requires ParentsFirst(s.datasets)
    ensures Plan(s, root, Checkpoint(r, verified)).Ok? <==> Stands(s, root, r) && Verifiable(s, r, verified)
  {
    StandsExactly(s, root, r);
    if Stands(s, root, r) {
      LeadExactly(s, r);
      VerifiedExactly(s, r, verified);
      GatherAllows(s, root, Checkpoint(r, verified), Sources(s, r).value);
      assert forall d :: Allows(s, Checkpoint(r, verified), d) <==> Markable(s, r, verified, d);
    }
  }

  // ---------------------------------------------------------------- protection

  /** The snapshots are distinct, all the instant `m`, inside the stream, its own among them. */
  predicate Instant(s: State, stream: Dataset, snapshots: seq<SnapId>, m: Metadata) {
    && (forall i, j :: 0 <= i < j < |snapshots| ==> snapshots[i] != snapshots[j])
    && (forall id :: id in snapshots ==> Inside(id.dataset, stream) && Owned(s, id, m) && id.dataset !in s.tokens)
    && Named(m, stream) in snapshots
  }

  /** A record in place must be of that creation and span the snapshots;
      without one, none of them may be held for the target. */
  predicate Unclaimed(s: State, root: Dataset, stream: Dataset, snapshots: seq<SnapId>, target: nat, m: Metadata) {
    var k := Key(root, target, stream, m.snapshot);
    if k in s.records then s.records[k].created == m.created && (s.records[k].recursive || forall id :: id in snapshots ==> id.dataset == stream)
    else forall id :: id in snapshots ==> Hold(id, Target(target)) !in s.holds
  }

  predicate Open(s: State, root: Dataset, stream: Dataset) {
    && Inside(stream, root) && root in s.datasets && root !in s.tokens && root in s.authority
    && forall k :: k in s.records && k.root == root ==> root + s.records[k].relative == k.stream
  }

  ghost predicate Protectable(s: State, root: Dataset, stream: Dataset, snapshots: seq<SnapId>, target: nat) {
    && Open(s, root, stream)
    && exists m: Metadata :: m.lineage == s.authority[root] && Instant(s, stream, snapshots, m) && Unclaimed(s, root, stream, snapshots, target, m)
  }

  /** The snapshots are of one instant exactly when some owned instant is theirs. */
  lemma InstantExact(s: State, root: Dataset, stream: Dataset, snapshots: seq<SnapId>, m: Metadata)
    requires root in s.authority && m.lineage == s.authority[root]
    ensures Instant(s, stream, snapshots, m) <==>
              && OneInstant(s, root, stream, snapshots) && FindOwned(s, snapshots[0], m.lineage) == Some(m)
              && forall i :: 0 <= i < |snapshots| ==> snapshots[i].dataset !in s.tokens
  {
    forall id | id in snapshots ensures FindOwned(s, id, m.lineage) == Some(m) <==> Owned(s, id, m) {
      OwnedExact(s, id, m);
    }
    if Instant(s, stream, snapshots, m) {
      var i :| 0 <= i < |snapshots| && snapshots[i] == Named(m, stream);
      assert snapshots[i].dataset == stream && snapshots[0] in snapshots;
    } else if OneInstant(s, root, stream, snapshots) && FindOwned(s, snapshots[0], m.lineage) == Some(m) {
      var i :| 0 <= i < |snapshots| && snapshots[i].dataset == stream;
      assert snapshots[i] in snapshots;
    }
  }

  lemma UnclaimedExact(s: State, root: Dataset, stream: Dataset, snapshots: seq<SnapId>, target: nat, m: Metadata)
    requires Open(s, root, stream) && m.lineage == s.authority[root] && Instant(s, stream, snapshots, m)
    ensures PlanProtect(s, root, stream, snapshots, target).Ok? <==> Unclaimed(s, root, stream, snapshots, target, m)
  {
    InstantExact(s, root, stream, snapshots, m);
    assert RecursiveSet(stream, snapshots) <==> !forall id :: id in snapshots ==> id.dataset == stream;
  }

  /** A stream is protected exactly when the scope is open, the snapshots are one
      owned instant of it, and no other claim stands in the way. */
  lemma ProtectsExactly(s: State, root: Dataset, stream: Dataset, snapshots: seq<SnapId>, target: nat)
    ensures Plan(s, root, Protect(stream, snapshots, target)).Ok? <==> Protectable(s, root, stream, snapshots, target)
  {
    if PlanProtect(s, root, stream, snapshots, target).Ok? {
      var m := FindOwned(s, snapshots[0], s.authority[root]).value;
      InstantExact(s, root, stream, snapshots, m);
      UnclaimedExact(s, root, stream, snapshots, target, m);
    }
    if Protectable(s, root, stream, snapshots, target) {
      var m: Metadata :| m.lineage == s.authority[root] && Instant(s, stream, snapshots, m) && Unclaimed(s, root, stream, snapshots, target, m);
      UnclaimedExact(s, root, stream, snapshots, target, m);
    }
  }
}
