/** What a recovery proof reports.

    The sources of a proof are derived from holds, snapshots and bookmarks, and
    the derivation refuses when a bookmark and its snapshot carry different
    GUIDs. Here that is shown never to happen while no snapshot name is given
    to a second snapshot, and a protected snapshot to be reported, with its
    GUID, from the end of its protection to the next covering release. */
module Reports {
  import opened Names
  import opened Zfs
  import opened Proofs

  /** A checkpoint bookmark and the snapshot it stands for carry different GUIDs. */
  predicate Disagrees(s: State, r: Reference, d: Dataset) {
    MarkOf(r, d) in s.marks && SnapOf(r, d) in s.snaps && s.marks[MarkOf(r, d)] != s.snaps[SnapOf(r, d)].guid
  }

  lemma SourceAtOk(s: State, r: Reference, d: Dataset)
    requires WellFormed(s)
    ensures SourceAt(s, r, d).Ok? <==> !Disagrees(s, r, d)
  {
    assert HoldOf(r, d) in s.holds ==> SnapOf(r, d) in s.snaps;
  }

  /** Deriving sources succeeds exactly when no covered bookmark disagrees with
      its snapshot. */
  lemma {:induction false} DerivableExactly(s: State, r: Reference, ds: seq<Dataset>)
    requires WellFormed(s)
    ensures SourcesIn(s, r, ds).Ok? <==> forall d :: d in ds && Covers(r.dataset, r.recursive, d) ==> !Disagrees(s, r, d)
  {
    if ds != [] {
      var d := ds[|ds| - 1];
      assert ds == ds[..|ds| - 1] + [d];
      DerivableExactly(s, r, ds[..|ds| - 1]);
      SourceAtOk(s, r, d);
    }
  }

  /** A new snapshot keeps a proof's sources derivable exactly when it does not
      take the name behind one of its bookmarks under another GUID. */
  lemma CreateKeepsDerivable(s: State, r: Reference, id: SnapId, info: Snap)
    requires WellFormed(s) && Sources(s, r).Ok? && Accepts(s, AddSnap(id, info))
    ensures Sources(Apply(s, AddSnap(id, info)), r).Ok? <==>
      (id == SnapOf(r, id.dataset) && Covers(r.dataset, r.recursive, id.dataset) && MarkOf(r, id.dataset) in s.marks ==>
         info.guid == s.marks[MarkOf(r, id.dataset)])
  {
    var t := Apply(s, AddSnap(id, info));
    ApplyWellFormed(s, AddSnap(id, info));
    DerivableExactly(s, r, s.datasets);
    DerivableExactly(t, r, s.datasets);
    forall d | id != SnapOf(r, d) ensures Disagrees(t, r, d) <==> Disagrees(s, r, d) {}
    assert forall d :: id == SnapOf(r, d) ==> d == id.dataset;
  }

  // ---------------------------------------------------------------- identities

  /** When each snapshot UUID was created, and the GUID each snapshot with a
      stamped name has whenever it exists. */
  datatype Identity = Identity(born: UUID -> int, guidOf: SnapId -> nat)

  /** The name the snapshot of that UUID has on a dataset. */
  function Named(w: Identity, d: Dataset, u: UUID): SnapId {
    SnapId(d, Stamped(w.born(u), u.short))
  }

  predicate SnapFits(w: Identity, id: SnapId, snap: Snap) {
    && (id.name.Stamped? ==> snap.guid == w.guidOf(id))
    && (id.name.Stamped? && snap.stored.Some? && snap.stored.value.1.short == id.name.short ==> id.name.created == w.born(snap.stored.value.1))
  }

  ghost predicate Identified(w: Identity, s: State) {
    && (forall id :: id in s.snaps ==> SnapFits(w, id, s.snaps[id]))
    && (forall k :: k in s.records ==> s.records[k].created == w.born(k.snapshot))
    && (forall mk :: mk in s.marks ==> s.marks[mk] == w.guidOf(Named(w, mk.dataset, mk.snapshot)))
  }

  predicate Fits(w: Identity, x: Write) {
    match x
    case SetRecord(k, v) => v.created == w.born(k.snapshot)
    case AddMark(id, mk) => id == Named(w, mk.dataset, mk.snapshot)
    case AddSnap(id, info) => SnapFits(w, id, info)
    case _ => true
  }

  ghost predicate AllFit(w: Identity, ws: seq<Write>) {
    forall i :: 0 <= i < |ws| ==> Fits(w, ws[i])
  }

  lemma ApplyIdentified(w: Identity, s: State, x: Write)
    requires Identified(w, s) && Fits(w, x) && Accepts(s, x)
    ensures Identified(w, Apply(s, x))
  {}

  /** What a caller must see to: new snapshots carry their own identity. */
  predicate FreshNames(w: Identity, op: Op) {
    op.Create? ==> forall i :: 0 <= i < |op.created| ==> SnapFits(w, op.created[i].0, op.created[i].1)
  }

  /** The proof a protection relies on. */
  function ProofOf(s: State, root: Dataset, op: Op): Reference
    requires op.Protect? && Plan(s, root, op).Ok?
  {
    PlanProtect(s, root, op.stream, op.snapshots, op.target).value.0
  }

  lemma HoldsFit(w: Identity, s: State, target: nat, snapshots: seq<SnapId>)
    ensures AllFit(w, Unheld(s, target, snapshots))
  {
    var ws := Unheld(s, target, snapshots);
    UnheldShape(s, target, snapshots);
    forall i | 0 <= i < |ws| ensures Fits(w, ws[i]) {
      assert ws[i] in ws;
    }
  }

  /** The proof records when the snapshot it is about was created. */
  lemma ProofFits(w: Identity, s: State, root: Dataset, op: Op)
    requires Identified(w, s) && op.Protect? && Plan(s, root, op).Ok?
    ensures ProofOf(s, root, op).meta.created == w.born(ProofOf(s, root, op).meta.snapshot)
  {
    var first := op.snapshots[0];
    assert FindOwned(s, first, s.authority[root]) == Some(ProofOf(s, root, op).meta);
    assert SnapFits(w, first, s.snaps[first]);
  }

  lemma ProtectFits(w: Identity, s: State, root: Dataset, op: Op)
    requires Identified(w, s) && op.Protect? && Plan(s, root, op).Ok?
    ensures AllFit(w, Plan(s, root, op).value)
  {
    HoldsFit(w, s, op.target, op.snapshots);
    ProofFits(w, s, root, op);
    var r, holds := ProofOf(s, root, op), Unheld(s, op.target, op.snapshots);
    assert Plan(s, root, op).value == holds || Plan(s, root, op).value == [SetRecord(KeyFor(root, r), Encode(root, r))] + holds;
  }

  lemma GatheredFits(w: Identity, s: State, root: Dataset, op: Op, srcs: seq<Source>, x: Write)
    requires Identified(w, s) && (op.Checkpoint? || op.ReleaseHold? || op.Release?)
    requires ReferenceState(s, root, op.r) == Ok(srcs) && Gather(s, root, op, srcs).Ok? && x in Gather(s, root, op, srcs).value
    ensures Fits(w, x)
  {
    var src := OriginOf(s, root, op, srcs, x);
    SourceWritesShape(s, root, op, src, x);
    if x.AddMark? {
      assert SnapFits(w, x.snap, s.snaps[x.snap]);
    }
  }

  lemma PlanFits(w: Identity, s: State, root: Dataset, op: Op)
    requires Identified(w, s) && FreshNames(w, op) && Plan(s, root, op).Ok?
    ensures AllFit(w, Plan(s, root, op).value)
  {
    var ws := Plan(s, root, op).value;
    if op.Protect? {
      ProtectFits(w, s, root, op);
    } else if op.Checkpoint? || op.ReleaseHold? || op.Release? {
      var srcs := ReferenceState(s, root, op.r).value;
      forall i | 0 <= i < |ws| ensures Fits(w, ws[i]) {
        if !ws[i].DropRecord? {
          GatheredFits(w, s, root, op, srcs, ws[i]);
        }
      }
    }
  }

  ghost predicate InFlightFits(w: Identity, active: map<Dataset, seq<Write>>) {
    forall r :: r in active ==> AllFit(w, active[r])
  }

  ghost predicate SystemFits(w: Identity, y: System) {
    Identified(w, y.state) && InFlightFits(w, y.active)
  }

  lemma AdvancedFits(w: Identity, y: System, root: Dataset)
    requires SystemFits(w, y)
    ensures SystemFits(w, Advanced(y, root))
  {
    if root in y.active && y.active[root] != [] {
      assert AllFit(w, y.active[root]) && AllFit(w, y.active[root][1..]);
      if Accepts(y.state, y.active[root][0]) {
        ApplyIdentified(w, y.state, y.active[root][0]);
      }
    }
  }

  lemma StepFits(w: Identity, y: System, e: Event)
    requires SystemFits(w, y) && (e.Begin? ==> FreshNames(w, e.op))
    ensures SystemFits(w, Step(y, e))
  {
    match e
    case Begin(root, op) =>
      if Plan(y.state, root, op).Ok? {
        PlanFits(w, y.state, root, op);
      }
    case Advance(root) => AdvancedFits(w, y, root);
    case Abandon(root) =>
    case Crash =>
  }

  ghost predicate AllFresh(w: Identity, es: seq<Event>) {
    forall i :: 0 <= i < |es| && es[i].Begin? ==> FreshNames(w, es[i].op)
  }

  lemma {:induction false} RunFits(w: Identity, y: System, es: seq<Event>)
    requires SystemFits(w, y) && AllFresh(w, es)
    ensures SystemFits(w, Run(y, es))
    decreases |es|
  {
    if es != [] {
      RunFits(w, y, es[..|es| - 1]);
      StepFits(w, Run(y, es[..|es| - 1]), es[|es| - 1]);
    }
  }

  lemma IdentifiedAgrees(w: Identity, s: State, r: Reference)
    requires WellFormed(s) && Identified(w, s) && r.meta.created == w.born(r.meta.snapshot)
    ensures Sources(s, r).Ok?
  {
    forall d ensures !Disagrees(s, r, d) {
      assert SnapOf(r, d) == Named(w, d, r.meta.snapshot);
      assert SnapOf(r, d) in s.snaps ==> SnapFits(w, SnapOf(r, d), s.snaps[SnapOf(r, d)]);
    }
    DerivableExactly(s, r, s.datasets);
  }

  /** In every run that never names a second snapshot like a first, the sources
      of every stored proof can be derived, at every write and crash. */
  lemma StoredIsDerivable(w: Identity, y: System, es: seq<Event>, root: Dataset, r: Reference)
    requires Sound(y) && SystemFits(w, y) && AllFresh(w, es) && Stored(Run(y, es).state, root, r)
    ensures Sources(Run(y, es).state, r).Ok?
  {
    RunSound(y, es);
    RunFits(w, y, es);
    IdentifiedAgrees(w, Run(y, es).state, r);
  }

  /** While anchored, a source is reported with its GUID by every proof that covers it. */
  lemma AnchoredIsReported(w: Identity, s: State, root: Dataset, r: Reference, d: Dataset, guid: nat)
    requires WellFormed(s) && Identified(w, s) && r.meta.created == w.born(r.meta.snapshot)
    requires Anchored(s, root, d, r.target, r.meta, guid) && Covers(r.dataset, r.recursive, d)
    ensures Sources(s, r).Ok? && Source(d, guid) in Sources(s, r).value
  {
    IdentifiedAgrees(w, s, r);
    SourcesExact(s, r, s.datasets);
    assert d in s.datasets;
  }

  // ---------------------------------------------------------------- from the protection on

  /** Held for the target, or about to be by a write still to come. */
  predicate Coming(s: State, root: Dataset, c: Claim, ws: seq<Write>)
    requires c.Anchor?
  {
    var id := SnapId(c.d, NameOf(c.meta));
    && root in s.authority && FindOwned(s, id, s.authority[root]) == Some(c.meta) && s.snaps[id].guid == c.guid
    && (Hold(id, Target(c.target)) in s.holds || AddHold(Hold(id, Target(c.target))) in ws)
  }

  predicate Building(ws: seq<Write>) {
    forall i :: 0 <= i < |ws| ==> ws[i].SetRecord? || ws[i].AddHold?
  }

  /** The next write of a protection keeps the promise. */
  lemma ComingNext(s: State, root: Dataset, c: Claim, ws: seq<Write>)
    requires c.Anchor? && Coming(s, root, c, ws) && Building(ws) && ws != [] && Accepts(s, ws[0])
    ensures Coming(Apply(s, ws[0]), root, c, ws[1..]) && Building(ws[1..])
  {
    assert forall x :: x in ws ==> x == ws[0] || x in ws[1..];
  }

  lemma ComingFrame(s: State, t: State, root: Dataset, c: Claim, ws: seq<Write>)
    requires c.Anchor? && Inside(c.d, root) && Coming(s, root, c, ws) && SameOn(s, t, root)
    ensures Coming(t, root, c, ws)
  {}

  lemma {:induction false} UnheldHas(s: State, target: nat, snapshots: seq<SnapId>, i: nat)
    requires i < |snapshots|
    ensures var h := Hold(snapshots[i], Target(target)); h in s.holds || AddHold(h) in Unheld(s, target, snapshots)
    decreases |snapshots|
  {
    if i < |snapshots| - 1 {
      UnheldHas(s, target, snapshots[..|snapshots| - 1], i);
    }
  }

  /** What protecting promises for one of its snapshots. */
  function Promise(s: State, root: Dataset, op: Op, i: nat): (c: Claim)
    requires op.Protect? && Plan(s, root, op).Ok? && i < |op.snapshots|
    ensures c.Anchor?
  {
    var id := op.snapshots[i];
    Anchor(id.dataset, op.target, ProofOf(s, root, op).meta, s.snaps[id].guid)
  }

  lemma ProtectPromises(s: State, root: Dataset, op: Op, i: nat)
    requires op.Protect? && Plan(s, root, op).Ok? && i < |op.snapshots|
    ensures var c, r, ws := Promise(s, root, op, i), ProofOf(s, root, op), Plan(s, root, op).value;
      && Coming(s, root, c, ws) && Building(ws) && Inside(c.d, root) && SnapId(c.d, NameOf(c.meta)) == op.snapshots[i]
      && r.target == op.target && Covers(r.dataset, r.recursive, c.d)
  {
    var id := op.snapshots[i];
    assert FindOwned(s, id, s.authority[root]) == FindOwned(s, op.snapshots[0], s.authority[root]);
    assert Inside(id.dataset, op.stream);
    assert id.dataset != op.stream ==> RecursiveSet(op.stream, op.snapshots);
    UnheldHas(s, op.target, op.snapshots, i);
    UnheldShape(s, op.target, op.snapshots);
    var ws, holds := Plan(s, root, op).value, Unheld(s, op.target, op.snapshots);
    assert ws == holds || (ws[1..] == holds && ws[0].SetRecord?);
    forall j | 0 <= j < |ws| ensures ws[j].SetRecord? || ws[j].AddHold? {
      assert ws[j].SetRecord? || ws[j] in holds;
    }
  }

  /** The operation on `root` that is in flight stays so until its last write. */
  ghost predicate Completes(y: System, root: Dataset, es: seq<Event>) {
    && (forall j :: 0 <= j <= |es| ==> root in Run(y, es[..j]).active)
    && Remaining(Run(y, es), root) == []
  }

  /** One event while the protection is in flight. */
  lemma ComingStep(y: System, e: Event, root: Dataset, c: Claim)
    requires Sound(y) && c.Anchor? && Inside(c.d, root) && root in y.active && root in Step(y, e).active
    requires Coming(y.state, root, c, y.active[root]) && Building(y.active[root])
    ensures Coming(Step(y, e).state, root, c, Step(y, e).active[root]) && Building(Step(y, e).active[root])
  {
    match e
    case Begin(other, op) => assert other == root ==> Overlaps(root, root);
    case Advance(other) =>
      if other == root {
        ComingNext(y.state, root, c, y.active[root]);
      } else if other in y.active && y.active[other] != [] && Accepts(y.state, y.active[other][0]) {
        ComingElsewhere(y, other, root, c);
      }
    case Abandon(other) =>
    case Crash =>
  }

  lemma ComingElsewhere(y: System, other: Dataset, root: Dataset, c: Claim)
    requires Sound(y) && c.Anchor? && Inside(c.d, root) && root in y.active && other != root
    requires other in y.active && y.active[other] != [] && Accepts(y.state, y.active[other][0])
    requires Coming(y.state, root, c, y.active[root])
    ensures Coming(Apply(y.state, y.active[other][0]), root, c, y.active[root])
  {
    var x := y.active[other][0];
    assert Placed(x, other);
    ApplyElsewhere(y.state, x, root, other);
    ComingFrame(y.state, Apply(y.state, x), root, c, y.active[root]);
  }

  lemma {:induction false} ComingRun(y: System, es: seq<Event>, root: Dataset, c: Claim)
    requires Sound(y) && c.Anchor? && Inside(c.d, root)
    requires forall j :: 0 <= j <= |es| ==> root in Run(y, es[..j]).active
    requires root in y.active && Coming(y.state, root, c, y.active[root]) && Building(y.active[root])
    ensures root in Run(y, es).active && Coming(Run(y, es).state, root, c, Run(y, es).active[root]) && Building(Run(y, es).active[root])
    decreases |es|
  {
    assert es[..|es|] == es;
    if es != [] {
      var init := es[..|es| - 1];
      forall j | 0 <= j <= |init| ensures root in Run(y, init[..j]).active {
        assert init[..j] == es[..j];
      }
      ComingRun(y, init, root, c);
      RunSound(y, init);
      ComingStep(Run(y, init), es[|es| - 1], root, c);
    }
  }

  /** Once every write of a protection is done, each of its snapshots is held
      for the target, whatever went on elsewhere meanwhile. */
  lemma ProtectedIsAnchored(y: System, root: Dataset, op: Op, during: seq<Event>, i: nat)
    requires Sound(y) && Free(y, root) && op.Protect? && Plan(y.state, root, op).Ok? && i < |op.snapshots|
    requires Completes(Step(y, Begin(root, op)), root, during)
    ensures var c := Promise(y.state, root, op, i);
      && Inside(c.d, root) && Anchored(Run(Step(y, Begin(root, op)), during).state, root, c.d, c.target, c.meta, c.guid)
  {
    var begun, c := Step(y, Begin(root, op)), Promise(y.state, root, op, i);
    ProtectPromises(y.state, root, op, i);
    StepSound(y, Begin(root, op));
    ComingRun(begun, during, root, c);
  }

  /** The event plans the release of a proof that covers the anchor. */
  predicate Ends(e: Event, root: Dataset, c: Claim)
    requires c.Anchor?
  {
    e.Begin? && e.root == root && Retires(e.op, c)
  }

  /** From the moment a protection completes, through every run until a covering
      release, each of its snapshots is a source of its proof, and of every other
      that covers it, with the GUID it had when it was protected. */
  lemma ProtectedIsReported(w: Identity, y: System, root: Dataset, op: Op, during: seq<Event>, after: seq<Event>, i: nat, r: Reference)
    requires Sound(y) && SystemFits(w, y) && Free(y, root) && op.Protect? && Plan(y.state, root, op).Ok? && i < |op.snapshots|
    requires Completes(Step(y, Begin(root, op)), root, during)
    requires AllFresh(w, during) && AllFresh(w, after)
    requires forall j :: 0 <= j < |after| ==> !Ends(after[j], root, Promise(y.state, root, op, i))
    requires r.target == op.target && r.meta == ProofOf(y.state, root, op).meta && Covers(r.dataset, r.recursive, op.snapshots[i].dataset)
    ensures var z := Run(Run(Step(y, Begin(root, op)), during), after).state;
      Sources(z, r).Ok? && Source(op.snapshots[i].dataset, y.state.snaps[op.snapshots[i]].guid) in Sources(z, r).value
  {
    var c, begun := Promise(y.state, root, op, i), Step(y, Begin(root, op));
    var held := Run(begun, during);
    HeldOn(w, y, root, op, during, i);
    AnchoredUntilReleased(held, after, root, c);
    RunSound(held, after);
    RunFits(w, held, after);
    AnchoredIsReported(w, Run(held, after).state, root, r, c.d, c.guid);
  }

  /** Its proof is one of those. */
  lemma ProofCovers(s: State, root: Dataset, op: Op, i: nat)
    requires op.Protect? && Plan(s, root, op).Ok? && i < |op.snapshots|
    ensures var r := ProofOf(s, root, op); r.target == op.target && Covers(r.dataset, r.recursive, op.snapshots[i].dataset)
  {
    ProtectPromises(s, root, op, i);
  }

  lemma HeldOn(w: Identity, y: System, root: Dataset, op: Op, during: seq<Event>, i: nat)
    requires Sound(y) && SystemFits(w, y) && Free(y, root) && op.Protect? && Plan(y.state, root, op).Ok? && i < |op.snapshots|
    requires Completes(Step(y, Begin(root, op)), root, during) && AllFresh(w, during)
    ensures var c, held := Promise(y.state, root, op, i), Run(Step(y, Begin(root, op)), during);
      && Sound(held) && SystemFits(w, held) && root in held.state.authority && c.meta.created == w.born(c.meta.snapshot)
      && Throughout(c, held.state, root, Remaining(held, root))
  {
    var begun := Step(y, Begin(root, op));
    ProtectPromises(y.state, root, op, i);
    assert SnapFits(w, op.snapshots[i], y.state.snaps[op.snapshots[i]]);
    ProtectedIsAnchored(y, root, op, during, i);
    assert during[..|during|] == during;
    StepSound(y, Begin(root, op));
    RunSound(begun, during);
    StepAuthority(y, Begin(root, op));
    RunAuthority(begun, during);
    StepFits(w, y, Begin(root, op));
    RunFits(w, begun, during);
  }
}
