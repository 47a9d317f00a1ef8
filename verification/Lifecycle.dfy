/** The lifecycle service's proof operations as they run: validation loops over
    the snapshots or sources of a proof, then one backend command per write.
    Each is proved to perform the plan of module Proofs, or a prefix of it when
    the backend refuses a command. */
module Lifecycle {
  import opened Names
  import opened Zfs
  import opened Proofs
  import Reports

  /** The state after `i` writes. */
  function At(s: State, done: seq<State>, i: nat): State
    requires i <= |done|
  {
    if i == 0 then s else done[i - 1]
  }

  /** `done` lists the states reached by performing a prefix of `ws` from `s`. */
  ghost predicate Follows(s: State, ws: seq<Write>, done: seq<State>, final: State) {
    && |done| <= |ws| && final == At(s, done, |done|)
    && forall i :: 0 <= i < |done| ==> Accepts(At(s, done, i), ws[i]) && done[i] == Apply(At(s, done, i), ws[i])
  }

  /** What holds throughout a plan holds in every state of a partial performance. */
  lemma {:induction false} FollowsClaimed(c: Claim, s: State, root: Dataset, ws: seq<Write>, done: seq<State>, final: State)
    requires Throughout(c, s, root, ws) && Follows(s, ws, done, final)
    ensures forall i :: 0 <= i <= |done| ==> Claimed(c, At(s, done, i), root)
    decreases |ws|
  {
    if done != [] {
      assert At(s, done, 0) == s;
      forall i | 0 <= i <= |done| - 1 ensures At(done[0], done[1..], i) == At(s, done, i + 1) {}
      FollowsClaimed(c, done[0], root, ws[1..], done[1..], final);
      forall i | 0 <= i <= |done| ensures Claimed(c, At(s, done, i), root) {
        if i > 0 { assert At(s, done, i) == At(done[0], done[1..], i - 1); }
      }
    }
  }

  lemma AtExtended(s: State, done: seq<State>, next: State, i: nat)
    requires i <= |done|
    ensures At(s, done + [next], i) == At(s, done, i)
  {
    if i > 0 {
      assert (done + [next])[i - 1] == done[i - 1];
    }
  }

  lemma FollowsOne(s: State, ws: seq<Write>, done: seq<State>, final: State, next: State)
    requires Follows(s, ws, done, final) && |done| < |ws| && Accepts(final, ws[|done|]) && next == Apply(final, ws[|done|])
    ensures Follows(s, ws, done + [next], next)
  {
    var all := done + [next];
    forall i | 0 <= i < |all| ensures Accepts(At(s, all, i), ws[i]) && all[i] == Apply(At(s, all, i), ws[i]) {
      AtExtended(s, done, next, i);
    }
  }

  /** Wherever an operation stops, every hold and bookmark of its root is accounted for. */
  lemma CrashLeavesCovered(s: State, root: Dataset, op: Op, done: seq<State>, final: State)
    requires WellFormed(s) && Covered(s, root) && Plan(s, root, op).Ok? && Follows(s, Plan(s, root, op).value, done, final)
    ensures Covered(final, root)
    ensures forall i :: 0 <= i <= |done| ==> Covered(At(s, done, i), root)
  {
    PlanCovered(s, root, op);
    FollowsClaimed(Coverage, s, root, Plan(s, root, op).value, done, final);
    forall i | 0 <= i <= |done| ensures Covered(At(s, done, i), root) { assert Claimed(Coverage, At(s, done, i), root); }
  }

  lemma {:induction false} FollowsComing(s: State, root: Dataset, c: Claim, ws: seq<Write>, done: seq<State>, final: State)
    requires c.Anchor? && Reports.Coming(s, root, c, ws) && Reports.Building(ws) && Follows(s, ws, done, final)
    ensures Reports.Coming(final, root, c, ws[|done|..])
    decreases |ws|
  {
    if done == [] {
      assert ws[0..] == ws;
    } else {
      assert At(s, done, 0) == s;
      Reports.ComingNext(s, root, c, ws);
      FollowsRest(s, ws, done, final);
      FollowsComing(done[0], root, c, ws[1..], done[1..], final);
      assert ws[1..][|done| - 1..] == ws[|done|..];
    }
  }

  lemma FollowsRest(s: State, ws: seq<Write>, done: seq<State>, final: State)
    requires Follows(s, ws, done, final) && done != []
    ensures Follows(done[0], ws[1..], done[1..], final)
  {
    forall i | 0 <= i <= |done| - 1 ensures At(done[0], done[1..], i) == At(s, done, i + 1) {}
  }

  /** A protection performed to its end leaves each of its snapshots held for
      the target under a proof that covers it. */
  lemma ProtectedAtEnd(s: State, root: Dataset, op: Op, done: seq<State>, final: State, i: nat)
    requires op.Protect? && Plan(s, root, op).Ok? && i < |op.snapshots|
    requires Follows(s, Plan(s, root, op).value, done, final) && |done| == |Plan(s, root, op).value|
    ensures var r := Reports.ProofOf(s, root, op);
      && Covers(r.dataset, r.recursive, op.snapshots[i].dataset)
      && Anchored(final, root, op.snapshots[i].dataset, op.target, r.meta, s.snaps[op.snapshots[i]].guid)
  {
    Reports.ProtectPromises(s, root, op, i);
    FollowsComing(s, root, Reports.Promise(s, root, op, i), Plan(s, root, op).value, done, final);
  }

  // ---------------------------------------------------------------- what an operation leaves

  predicate KeepsSnaps(ws: seq<Write>) {
    forall w :: w in ws ==> !w.AddSnap? && !w.DropSnap?
  }

  /** One write's effect on holds, bookmarks and records. */
  lemma OneEffect(s: State, w: Write)
    requires Accepts(s, w) && !w.AddSnap? && !w.DropSnap?
    ensures var t := Apply(s, w);
      && t.snaps == s.snaps && t.datasets == s.datasets && t.authority == s.authority
      && (forall h :: h in t.holds <==> (h in s.holds && w != DropHold(h)) || w == AddHold(h))
      && (forall mk :: mk in t.marks <==> (mk in s.marks && w != DropMark(mk)) || (w.AddMark? && w.mark == mk))
      && (forall mk :: mk in t.marks ==> t.marks[mk] == if w.AddMark? && w.mark == mk then s.snaps[w.snap].guid else s.marks[mk])
  {}

  lemma RecordEffect(s: State, w: Write, k: Key)
    requires Accepts(s, w)
    ensures var t := Apply(s, w);
      && (k in t.records <==> (k in s.records && w != DropRecord(k)) || (w.SetRecord? && w.key == k))
      && (k in t.records ==> t.records[k] == if w.SetRecord? && w.key == k then w.record else s.records[k])
  {}

  /** An operation done to its end, of writes that never undo one another. */
  ghost predicate Whole(s: State, ws: seq<Write>, done: seq<State>, final: State) {
    Follows(s, ws, done, final) && |done| == |ws|
  }

  /** The writes, all accepted, lead from one state to the other. */
  ghost predicate Leads(s: State, ws: seq<Write>, t: State)
    decreases |ws|
  {
    if ws == [] then t == s else Accepts(s, ws[0]) && Leads(Apply(s, ws[0]), ws[1..], t)
  }

  lemma {:induction false} WholeLeads(s: State, ws: seq<Write>, done: seq<State>, final: State)
    requires Whole(s, ws, done, final)
    ensures Leads(s, ws, final)
    decreases |ws|
  {
    if ws != [] {
      assert At(s, done, 0) == s;
      FollowsRest(s, ws, done, final);
      WholeLeads(done[0], ws[1..], done[1..], final);
    }
  }

  /** Where nothing is added and dropped both, the end is what was there, with
      what was added and without what was dropped. */
  lemma {:induction false} HoldsAtEnd(s: State, ws: seq<Write>, final: State, h: Hold)
    requires Leads(s, ws, final) && KeepsSnaps(ws) && !(AddHold(h) in ws && DropHold(h) in ws)
    ensures final.snaps == s.snaps && final.datasets == s.datasets && final.authority == s.authority
    ensures h in final.holds <==> (h in s.holds && DropHold(h) !in ws) || AddHold(h) in ws
    decreases |ws|
  {
    if ws != [] {
      OneEffect(s, ws[0]);
      assert ws == [ws[0]] + ws[1..];
      HoldsAtEnd(Apply(s, ws[0]), ws[1..], final, h);
    }
  }

  predicate Marks(ws: seq<Write>, mk: Mark) {
    exists i :: 0 <= i < |ws| && ws[i].AddMark? && ws[i].mark == mk
  }

  lemma {:induction false} MarksAtEnd(s: State, ws: seq<Write>, final: State, mk: Mark)
    requires Leads(s, ws, final) && KeepsSnaps(ws) && !(Marks(ws, mk) && DropMark(mk) in ws)
    ensures mk in final.marks <==> (mk in s.marks && DropMark(mk) !in ws) || Marks(ws, mk)
    ensures mk in final.marks && !Marks(ws, mk) ==> final.marks[mk] == s.marks[mk]
    ensures mk in final.marks && Marks(ws, mk) ==> exists w :: w in ws && w.AddMark? && w.mark == mk && w.snap in s.snaps && final.marks[mk] == s.snaps[w.snap].guid
    decreases |ws|
  {
    if ws != [] {
      OneEffect(s, ws[0]);
      assert ws == [ws[0]] + ws[1..];
      MarksTail(ws, mk);
      MarksAtEnd(Apply(s, ws[0]), ws[1..], final, mk);
    }
  }

  lemma MarksTail(ws: seq<Write>, mk: Mark)
    requires ws != []
    ensures Marks(ws, mk) <==> (ws[0].AddMark? && ws[0].mark == mk) || Marks(ws[1..], mk)
  {
    if i :| 0 <= i < |ws| && ws[i].AddMark? && ws[i].mark == mk && i > 0 {
      assert ws[1..][i - 1] == ws[i];
    }
    if i :| 0 <= i < |ws| - 1 && ws[1..][i].AddMark? && ws[1..][i].mark == mk {
      assert ws[i + 1] == ws[1..][i];
    }
  }

  lemma {:induction false} RecordAtEnd(s: State, ws: seq<Write>, final: State, k: Key)
    requires Leads(s, ws, final) && forall w :: w in ws ==> !w.SetRecord?
    ensures k in final.records <==> k in s.records && DropRecord(k) !in ws
    ensures k in final.records ==> final.records[k] == s.records[k]
    decreases |ws|
  {
    if ws != [] {
      RecordEffect(s, ws[0], k);
      assert ws == [ws[0]] + ws[1..];
      RecordAtEnd(Apply(s, ws[0]), ws[1..], final, k);
    }
  }

  /** The proof covers the dataset, and holds or has bookmarked its snapshot. */
  predicate Protects(s: State, r: Reference, d: Dataset) {
    d in s.datasets && Covers(r.dataset, r.recursive, d) && (HoldOf(r, d) in s.holds || MarkOf(r, d) in s.marks)
  }

  /** The GUID of what it protects there: the bookmark's, or else the snapshot's. */
  function GuidOf(s: State, r: Reference, d: Dataset): nat {
    if MarkOf(r, d) in s.marks then s.marks[MarkOf(r, d)] else if SnapOf(r, d) in s.snaps then s.snaps[SnapOf(r, d)].guid else 0
  }

  lemma ProtectsIsSource(s: State, root: Dataset, r: Reference, srcs: seq<Source>, d: Dataset)
    requires ReferenceState(s, root, r) == Ok(srcs)
    ensures Protects(s, r, d) ==> Source(d, GuidOf(s, r, d)) in srcs
    ensures forall src :: src in srcs ==> Protects(s, r, src.dataset) && src.guid == GuidOf(s, r, src.dataset)
  {
    SourcesExact(s, r, s.datasets);
  }

  /** A checkpoint bookmarks all that its proof protects, with its GUID, each
      verified GUID being that of its bookmark, and changes nothing else. */
  ghost predicate Checkpointed(s: State, t: State, r: Reference, verified: map<SnapId, nat>) {
    && (forall d :: Protects(s, r, d) ==> MarkOf(r, d) in t.marks && t.marks[MarkOf(r, d)] == GuidOf(s, r, d))
    && (forall id :: id in verified ==> id == SnapOf(r, id.dataset) && Protects(s, r, id.dataset) && t.marks[MarkOf(r, id.dataset)] == verified[id])
    && Protects(s, r, r.dataset)
    && (forall mk :: mk in t.marks ==> mk in s.marks || (mk == MarkOf(r, mk.dataset) && Protects(s, r, mk.dataset)))
    && (forall mk :: mk in s.marks ==> mk in t.marks && t.marks[mk] == s.marks[mk])
    && t.holds == s.holds && t.snaps == s.snaps
  }

  lemma CheckpointWrites(s: State, root: Dataset, r: Reference, verified: map<SnapId, nat>, srcs: seq<Source>, w: Write)
    requires Plan(s, root, Checkpoint(r, verified)).Ok? && ReferenceState(s, root, r) == Ok(srcs) && w in Plan(s, root, Checkpoint(r, verified)).value
    ensures w.AddMark? && w.snap == SnapOf(r, w.snap.dataset) && w.mark == MarkOf(r, w.snap.dataset)
    ensures Protects(s, r, w.snap.dataset) && w.snap in s.snaps && s.snaps[w.snap].guid == GuidOf(s, r, w.snap.dataset) && w.mark !in s.marks
  {
    var op := Checkpoint(r, verified);
    var src := OriginOf(s, root, op, srcs, w);
    ProtectsIsSource(s, root, r, srcs, src.dataset);
    SourceWritesShape(s, root, op, src, w);
  }

  lemma CheckpointMarks(s: State, root: Dataset, r: Reference, verified: map<SnapId, nat>, srcs: seq<Source>, d: Dataset)
    requires Plan(s, root, Checkpoint(r, verified)).Ok? && ReferenceState(s, root, r) == Ok(srcs) && Protects(s, r, d)
    ensures MarkOf(r, d) in s.marks || Marks(Plan(s, root, Checkpoint(r, verified)).value, MarkOf(r, d))
    ensures SnapOf(r, d) in verified ==> verified[SnapOf(r, d)] == GuidOf(s, r, d)
  {
    var op := Checkpoint(r, verified);
    ProtectsIsSource(s, root, r, srcs, d);
    GatherExact(s, root, op, srcs);
    var src := Source(d, GuidOf(s, r, d));
    assert src in srcs && SourceWrites(s, root, op, src).Ok?;
    if MarkOf(r, d) !in s.marks {
      assert AddMark(SnapOf(r, d), MarkOf(r, d)) in SourceWrites(s, root, op, src).value;
      assert AddMark(SnapOf(r, d), MarkOf(r, d)) in Gather(s, root, op, srcs).value;
    }
  }

  lemma CheckpointMarkAtEnd(s: State, root: Dataset, r: Reference, verified: map<SnapId, nat>, final: State, mk: Mark)
    requires Plan(s, root, Checkpoint(r, verified)).Ok? && Leads(s, Plan(s, root, Checkpoint(r, verified)).value, final)
    ensures mk in s.marks ==> mk in final.marks && final.marks[mk] == s.marks[mk]
    ensures mk in final.marks && mk !in s.marks ==> mk == MarkOf(r, mk.dataset) && Protects(s, r, mk.dataset) && final.marks[mk] == GuidOf(s, r, mk.dataset)
    ensures mk == MarkOf(r, mk.dataset) && Protects(s, r, mk.dataset) ==> mk in final.marks
  {
    var ws, srcs := Plan(s, root, Checkpoint(r, verified)).value, ReferenceState(s, root, r).value;
    forall w | w in ws ensures w.AddMark? && w.mark !in s.marks && w.snap == SnapOf(r, w.snap.dataset) && w.mark == MarkOf(r, w.snap.dataset)
      && Protects(s, r, w.snap.dataset) && w.snap in s.snaps && s.snaps[w.snap].guid == GuidOf(s, r, w.snap.dataset)
    {
      CheckpointWrites(s, root, r, verified, srcs, w);
    }
    MarksAtEnd(s, ws, final, mk);
    if Marks(ws, mk) {
      var i :| 0 <= i < |ws| && ws[i].AddMark? && ws[i].mark == mk;
      assert ws[i] in ws;
    }
    if Protects(s, r, mk.dataset) {
      CheckpointMarks(s, root, r, verified, srcs, mk.dataset);
    }
  }

  lemma CheckpointRest(s: State, root: Dataset, r: Reference, verified: map<SnapId, nat>, final: State)
    requires Plan(s, root, Checkpoint(r, verified)).Ok? && Leads(s, Plan(s, root, Checkpoint(r, verified)).value, final)
    ensures final.holds == s.holds && final.snaps == s.snaps && Protects(s, r, r.dataset)
    ensures forall id :: id in verified ==> id == SnapOf(r, id.dataset) && Protects(s, r, id.dataset) && verified[id] == GuidOf(s, r, id.dataset)
  {
    var ws, srcs := Plan(s, root, Checkpoint(r, verified)).value, ReferenceState(s, root, r).value;
    forall w | w in ws ensures w.AddMark? {
      CheckpointWrites(s, root, r, verified, srcs, w);
    }
    forall h ensures (h in final.holds <==> h in s.holds) && final.snaps == s.snaps {
      HoldsAtEnd(s, ws, final, h);
    }
    HoldsAtEnd(s, ws, final, HoldOf(r, r.dataset));
    assert srcs[0] in srcs;
    ProtectsIsSource(s, root, r, srcs, r.dataset);
    forall id | id in verified ensures id == SnapOf(r, id.dataset) && Protects(s, r, id.dataset) && verified[id] == GuidOf(s, r, id.dataset) {
      var src :| src in srcs && SnapOf(r, src.dataset) == id;
      ProtectsIsSource(s, root, r, srcs, src.dataset);
      CheckpointMarks(s, root, r, verified, srcs, src.dataset);
    }
  }

  lemma CheckpointedAtEnd(s: State, root: Dataset, r: Reference, verified: map<SnapId, nat>, final: State)
    requires Plan(s, root, Checkpoint(r, verified)).Ok? && Leads(s, Plan(s, root, Checkpoint(r, verified)).value, final)
    ensures Checkpointed(s, final, r, verified)
  {
    CheckpointRest(s, root, r, verified, final);
    forall d | Protects(s, r, d) ensures MarkOf(r, d) in final.marks && final.marks[MarkOf(r, d)] == GuidOf(s, r, d) {
      CheckpointMarkAtEnd(s, root, r, verified, final, MarkOf(r, d));
    }
    forall mk ensures mk in s.marks ==> mk in final.marks && final.marks[mk] == s.marks[mk]
      ensures mk in final.marks ==> mk in s.marks || (mk == MarkOf(r, mk.dataset) && Protects(s, r, mk.dataset))
    {
      CheckpointMarkAtEnd(s, root, r, verified, final, mk);
    }
  }

  /** Releasing completed holds leaves none of the proof's, each where a bookmark
      stands, and every other hold and every bookmark. */
  ghost predicate HoldsReleased(s: State, t: State, r: Reference) {
    && (forall h :: h in t.holds <==> h in s.holds && !(h == HoldOf(r, h.snap.dataset) && Protects(s, r, h.snap.dataset)))
    && (forall d :: Protects(s, r, d) && HoldOf(r, d) in s.holds ==> MarkOf(r, d) in s.marks)
    && t.marks == s.marks && t.snaps == s.snaps
  }

  /** The writes of a release are drops of what the proof protects. */
  lemma ReleaseWrites(s: State, root: Dataset, op: Op, srcs: seq<Source>, w: Write)
    requires (op.Release? || op.ReleaseHold?) && ReferenceState(s, root, op.r) == Ok(srcs) && Gather(s, root, op, srcs).Ok? && w in Gather(s, root, op, srcs).value
    ensures (w.DropHold? && w.hold == HoldOf(op.r, w.hold.snap.dataset) && Protects(s, op.r, w.hold.snap.dataset))
      || (op.Release? && w.DropMark? && w.mark == MarkOf(op.r, w.mark.dataset) && Protects(s, op.r, w.mark.dataset))
  {
    var src := OriginOf(s, root, op, srcs, w);
    ProtectsIsSource(s, root, op.r, srcs, src.dataset);
    SourceWritesShape(s, root, op, src, w);
  }

  /** Everything the proof protects there is dropped. */
  lemma ReleaseDrops(s: State, root: Dataset, op: Op, srcs: seq<Source>, d: Dataset)
    requires (op.Release? || op.ReleaseHold?) && ReferenceState(s, root, op.r) == Ok(srcs) && Gather(s, root, op, srcs).Ok? && Protects(s, op.r, d)
    ensures HoldOf(op.r, d) in s.holds ==> DropHold(HoldOf(op.r, d)) in Gather(s, root, op, srcs).value
    ensures op.Release? && MarkOf(op.r, d) in s.marks ==> DropMark(MarkOf(op.r, d)) in Gather(s, root, op, srcs).value
    ensures op.ReleaseHold? && HoldOf(op.r, d) in s.holds ==> MarkOf(op.r, d) in s.marks
  {
    ProtectsIsSource(s, root, op.r, srcs, d);
    GatherExact(s, root, op, srcs);
    var src := Source(d, GuidOf(s, op.r, d));
    assert src in srcs && SourceWrites(s, root, op, src).Ok?;
    if HoldOf(op.r, d) in s.holds {
      assert DropHold(HoldOf(op.r, d)) in SourceWrites(s, root, op, src).value;
    }
    if op.Release? && MarkOf(op.r, d) in s.marks {
      assert DropMark(MarkOf(op.r, d)) in SourceWrites(s, root, op, src).value;
    }
  }

  lemma HoldsReleasedAtEnd(s: State, root: Dataset, r: Reference, final: State)
    requires Plan(s, root, ReleaseHold(r)).Ok? && Leads(s, Plan(s, root, ReleaseHold(r)).value, final)
    ensures HoldsReleased(s, final, r)
  {
    var op, srcs := ReleaseHold(r), ReferenceState(s, root, r).value;
    var ws := Gather(s, root, op, srcs).value;
    forall w | w in ws ensures w.DropHold? && w.hold == HoldOf(r, w.hold.snap.dataset) && Protects(s, r, w.hold.snap.dataset) {
      ReleaseWrites(s, root, op, srcs, w);
    }
    forall d | Protects(s, r, d) ensures HoldOf(r, d) in s.holds ==> DropHold(HoldOf(r, d)) in ws && MarkOf(r, d) in s.marks {
      ReleaseDrops(s, root, op, srcs, d);
    }
    forall h ensures h in final.holds <==> h in s.holds && !(h == HoldOf(r, h.snap.dataset) && Protects(s, r, h.snap.dataset)) {
      HoldsAtEnd(s, ws, final, h);
    }
    HoldsAtEnd(s, ws, final, HoldOf(r, r.dataset));
    forall mk ensures (mk in final.marks <==> mk in s.marks) && (mk in s.marks ==> final.marks[mk] == s.marks[mk]) {
      MarksAtEnd(s, ws, final, mk);
    }
  }

  /** Releasing a proof leaves none of its holds, none of its bookmarks and not
      its record, and everything else. */
  ghost predicate ProofReleased(s: State, t: State, root: Dataset, r: Reference) {
    && (forall h :: h in t.holds <==> h in s.holds && !(h == HoldOf(r, h.snap.dataset) && Protects(s, r, h.snap.dataset)))
    && (forall mk :: mk in t.marks <==> mk in s.marks && !(mk == MarkOf(r, mk.dataset) && Protects(s, r, mk.dataset)))
    && (forall mk :: mk in t.marks ==> t.marks[mk] == s.marks[mk])
    && t.records == s.records - {KeyFor(root, r)}
    && t.snaps == s.snaps
  }

  lemma ReleaseShape(s: State, root: Dataset, r: Reference, ws: seq<Write>)
    requires Plan(s, root, Release(r)) == Ok(ws)
    ensures forall w :: w in ws ==>
      || w == DropRecord(KeyFor(root, r))
      || (w.DropHold? && w.hold == HoldOf(r, w.hold.snap.dataset) && Protects(s, r, w.hold.snap.dataset))
      || (w.DropMark? && w.mark == MarkOf(r, w.mark.dataset) && Protects(s, r, w.mark.dataset))
    ensures DropRecord(KeyFor(root, r)) in ws
    ensures forall d :: Protects(s, r, d) && HoldOf(r, d) in s.holds ==> DropHold(HoldOf(r, d)) in ws
    ensures forall d :: Protects(s, r, d) && MarkOf(r, d) in s.marks ==> DropMark(MarkOf(r, d)) in ws
  {
    var op, srcs := Release(r), ReferenceState(s, root, r).value;
    var drops := Gather(s, root, op, srcs).value;
    assert ws == drops + [DropRecord(KeyFor(root, r))];
    forall w | w in drops ensures (w.DropHold? && w.hold == HoldOf(r, w.hold.snap.dataset) && Protects(s, r, w.hold.snap.dataset))
      || (w.DropMark? && w.mark == MarkOf(r, w.mark.dataset) && Protects(s, r, w.mark.dataset))
    {
      ReleaseWrites(s, root, op, srcs, w);
    }
    forall d | Protects(s, r, d) ensures HoldOf(r, d) in s.holds ==> DropHold(HoldOf(r, d)) in ws
      ensures MarkOf(r, d) in s.marks ==> DropMark(MarkOf(r, d)) in ws
    {
      ReleaseDrops(s, root, op, srcs, d);
    }
  }

  lemma ProofReleasedAtEnd(s: State, root: Dataset, r: Reference, final: State)
    requires Plan(s, root, Release(r)).Ok? && Leads(s, Plan(s, root, Release(r)).value, final)
    ensures ProofReleased(s, final, root, r)
  {
    var ws := Plan(s, root, Release(r)).value;
    ReleaseShape(s, root, r, ws);
    forall h ensures h in final.holds <==> h in s.holds && !(h == HoldOf(r, h.snap.dataset) && Protects(s, r, h.snap.dataset)) {
      HoldsAtEnd(s, ws, final, h);
    }
    HoldsAtEnd(s, ws, final, HoldOf(r, r.dataset));
    forall mk ensures mk in final.marks <==> mk in s.marks && !(mk == MarkOf(r, mk.dataset) && Protects(s, r, mk.dataset))
      ensures mk in final.marks ==> final.marks[mk] == s.marks[mk]
    {
      MarksAtEnd(s, ws, final, mk);
    }
    forall k ensures (k in final.records <==> k in s.records && k != KeyFor(root, r)) && (k in final.records ==> final.records[k] == s.records[k]) {
      RecordAtEnd(s, ws, final, k);
    }
  }

  /** Protecting leaves the proof stored, covering each snapshot of the instant,
      a hold on each, and nothing else changed. */
  ghost predicate Protected(s: State, t: State, root: Dataset, stream: Dataset, snapshots: seq<SnapId>, target: nat, r: Reference) {
    && r.target == target && r.dataset == stream && root in s.authority
    && (forall i :: 0 <= i < |snapshots| ==> Covers(r.dataset, r.recursive, snapshots[i].dataset) && FindOwned(s, snapshots[i], s.authority[root]) == Some(r.meta))
    && (exists i :: 0 <= i < |snapshots| && snapshots[i].dataset == stream)
    && Stored(t, root, r)
    && (forall h :: h in t.holds <==> h in s.holds || (h.tag == Target(target) && h.snap in snapshots))
    && (forall k :: k != KeyFor(root, r) ==> (k in t.records <==> k in s.records) && (k in s.records ==> t.records[k] == s.records[k]))
    && t.marks == s.marks && t.snaps == s.snaps
  }

  lemma ProtectHolds(s: State, target: nat, snapshots: seq<SnapId>, final: State)
    requires Leads(s, Unheld(s, target, snapshots), final)
    ensures forall h :: h in final.holds <==> h in s.holds || (h.tag == Target(target) && h.snap in snapshots)
    ensures final.marks == s.marks && final.snaps == s.snaps && final.records == s.records && final.authority == s.authority
  {
    var ws := Unheld(s, target, snapshots);
    UnheldShape(s, target, snapshots);
    forall h ensures h in final.holds <==> h in s.holds || (h.tag == Target(target) && h.snap in snapshots) {
      HoldsAtEnd(s, ws, final, h);
      if h.tag == Target(target) && h.snap in snapshots {
        var i :| 0 <= i < |snapshots| && snapshots[i] == h.snap;
        Reports.UnheldHas(s, target, snapshots, i);
      }
    }
    HoldsAtEnd(s, ws, final, Hold(SnapId(["x"], Other("")), Target(target)));
    forall mk ensures (mk in final.marks <==> mk in s.marks) && (mk in s.marks ==> final.marks[mk] == s.marks[mk]) {
      MarksAtEnd(s, ws, final, mk);
    }
    forall k ensures (k in final.records <==> k in s.records) && (k in s.records ==> final.records[k] == s.records[k]) {
      RecordAtEnd(s, ws, final, k);
    }
  }

  lemma UnheldSame(s: State, t: State, target: nat, snapshots: seq<SnapId>)
    requires s.holds == t.holds
    ensures Unheld(s, target, snapshots) == Unheld(t, target, snapshots)
  {}

  lemma ProtectNames(s: State, root: Dataset, op: Op)
    requires op.Protect? && Plan(s, root, op).Ok?
    ensures var r := Reports.ProofOf(s, root, op);
      && r.target == op.target && r.dataset == op.stream && root in s.authority && Inside(r.dataset, root) && r.meta.lineage == s.authority[root]
      && (forall i :: 0 <= i < |op.snapshots| ==> Covers(r.dataset, r.recursive, op.snapshots[i].dataset) && FindOwned(s, op.snapshots[i], s.authority[root]) == Some(r.meta))
      && (KeyFor(root, r) in s.records ==> Stored(s, root, r) && Plan(s, root, op).value == Unheld(s, op.target, op.snapshots))
      && (KeyFor(root, r) !in s.records ==> Plan(s, root, op).value == [SetRecord(KeyFor(root, r), Encode(root, r))] + Unheld(s, op.target, op.snapshots))
  {
    var r := Reports.ProofOf(s, root, op);
    forall i | 0 <= i < |op.snapshots| ensures Covers(r.dataset, r.recursive, op.snapshots[i].dataset) && FindOwned(s, op.snapshots[i], s.authority[root]) == Some(r.meta) {
      assert FindOwned(s, op.snapshots[i], s.authority[root]) == FindOwned(s, op.snapshots[0], s.authority[root]);
      assert op.snapshots[i].dataset != op.stream ==> RecursiveSet(op.stream, op.snapshots);
    }
  }

  lemma ProtectedAgain(s: State, root: Dataset, op: Op, final: State)
    requires op.Protect? && Plan(s, root, op).Ok? && KeyFor(root, Reports.ProofOf(s, root, op)) in s.records && Leads(s, Plan(s, root, op).value, final)
    ensures Protected(s, final, root, op.stream, op.snapshots, op.target, Reports.ProofOf(s, root, op))
  {
    ProtectNames(s, root, op);
    ProtectHolds(s, op.target, op.snapshots, final);
  }

  lemma ProtectedFirst(s: State, root: Dataset, op: Op, final: State)
    requires op.Protect? && Plan(s, root, op).Ok? && KeyFor(root, Reports.ProofOf(s, root, op)) !in s.records && Leads(s, Plan(s, root, op).value, final)
    ensures Protected(s, final, root, op.stream, op.snapshots, op.target, Reports.ProofOf(s, root, op))
  {
    var r, ws := Reports.ProofOf(s, root, op), Plan(s, root, op).value;
    ProtectNames(s, root, op);
    RecordRoundTrip(root, r);
    var t := s.(records := s.records[KeyFor(root, r) := Encode(root, r)]);
    assert ws[1..] == Unheld(s, op.target, op.snapshots) && Apply(s, ws[0]) == t;
    UnheldSame(s, t, op.target, op.snapshots);
    ProtectHolds(t, op.target, op.snapshots, final);
  }

  lemma ProtectedWhole(s: State, root: Dataset, op: Op, final: State)
    requires op.Protect? && Plan(s, root, op).Ok? && Leads(s, Plan(s, root, op).value, final)
    ensures Protected(s, final, root, op.stream, op.snapshots, op.target, Reports.ProofOf(s, root, op))
  {
    if KeyFor(root, Reports.ProofOf(s, root, op)) in s.records {
      ProtectedAgain(s, root, op, final);
    } else {
      ProtectedFirst(s, root, op, final);
    }
  }

  /** A snapshot that belongs to the instant, with no receive under way. */
  predicate Passes(s: State, lineage: nat, stream: Dataset, instant: Option<Metadata>, id: SnapId) {
    Inside(id.dataset, stream) && id.dataset !in s.tokens && instant.Some? && FindOwned(s, id, lineage) == instant
  }

  predicate OwnSet(stream: Dataset, snapshots: seq<SnapId>) {
    exists i :: 0 <= i < |snapshots| && snapshots[i].dataset == stream
  }

  lemma SetsGrow(stream: Dataset, snapshots: seq<SnapId>, id: SnapId)
    ensures OwnSet(stream, snapshots + [id]) <==> OwnSet(stream, snapshots) || id.dataset == stream
    ensures RecursiveSet(stream, snapshots + [id]) <==> RecursiveSet(stream, snapshots) || id.dataset != stream
  {
    var all := snapshots + [id];
    assert all[|snapshots|] == id && forall i :: 0 <= i < |snapshots| ==> all[i] == snapshots[i];
  }

  class Service {
    var state: State
    /** Every state a crash could have left, in order. */
    ghost var trail: seq<State>

    constructor (initial: State)
      ensures state == initial && trail == []
    {
      state, trail := initial, [];
    }

    /** The outcome of an operation: nothing on a refusal, a prefix of the plan otherwise. */
    twostate predicate Performed(plan: Result<seq<Write>>, ok: bool)
      reads this
    {
      match plan
      case Err(_) => !ok && state == old(state) && trail == old(trail)
      case Ok(ws) =>
        && old(trail) <= trail
        && Follows(old(state), ws, trail[|old(trail)|..], state)
        && (ok ==> |trail| == |old(trail)| + |ws|)
    }

    /** One backend command, which may fail. */
    method Perform(w: Write) returns (ok: bool)
      modifies this
      ensures ok ==> Accepts(old(state), w) && state == Apply(old(state), w) && trail == old(trail) + [state]
      ensures !ok ==> state == old(state) && trail == old(trail)
    {
      if * { return false; }
      if !Accepts(state, w) { return false; }
      state := Apply(state, w);
      trail := trail + [state];
      return true;
    }

    /** Run the write loop of a planned operation. */
    method PerformAll(ws: seq<Write>) returns (ok: bool)
      modifies this
      ensures Performed(Ok(ws), ok)
    {
      for i := 0 to |ws|
        invariant |trail| == |old(trail)| + i && old(trail) <= trail
        invariant Follows(old(state), ws, trail[|old(trail)|..], state)
      {
        ghost var done, final := trail[|old(trail)|..], state;
        var written := Perform(ws[i]);
        if !written { return false; }
        FollowsOne(old(state), ws, done, final, state);
        assert trail[|old(trail)|..] == done + [state];
      }
      return true;
    }

    /** Require the snapshots to be one owned instant of the stream. */
    method CheckInstant(s: State, root: Dataset, stream: Dataset, snapshots: seq<SnapId>) returns (res: Result<(Metadata, bool)>)
      requires root in s.authority
      ensures res.Ok? <==> OneInstant(s, root, stream, snapshots) && forall i :: 0 <= i < |snapshots| ==> snapshots[i].dataset !in s.tokens
      ensures res.Ok? ==> Some(res.value.0) == FindOwned(s, snapshots[0], s.authority[root]) && res.value.1 == RecursiveSet(stream, snapshots)
    {
      if |snapshots| == 0 { return Err("at least one source snapshot is required"); }
      var lineage := s.authority[root];
      var recursive, own, instant := false, false, None;
      var seen: set<SnapId> := {};
      for i := 0 to |snapshots|
        invariant seen == set j | 0 <= j < i :: snapshots[j]
        invariant Distinct(snapshots[..i])
        invariant forall j :: 0 <= j < i ==> Passes(s, lineage, stream, instant, snapshots[j])
        invariant own <==> OwnSet(stream, snapshots[..i])
        invariant recursive <==> RecursiveSet(stream, snapshots[..i])
      {
        var id := snapshots[i];
        if id.dataset in s.tokens { return Err("scope has resumable receive state"); }
        if id in seen { return Err("duplicate source snapshot"); }
        if !Inside(id.dataset, stream) { return Err("source snapshot is outside stream"); }
        var metadata := FindOwned(s, id, lineage);
        if metadata.None? { return Err("source snapshot not found"); }
        if i == 0 { instant := metadata; }
        if metadata != instant { return Err("source snapshot is not of the stream's instant"); }
        assert snapshots[..i + 1] == snapshots[..i] + [id] && id !in snapshots[..i];
        SetsGrow(stream, snapshots[..i], id);
        seen := seen + {id};
        own := own || id.dataset == stream;
        recursive := recursive || id.dataset != stream;
      }
      assert snapshots[..|snapshots|] == snapshots;
      if !own { return Err("stream snapshot must be among its sources"); }
      return Ok((instant.value, recursive));
    }

    /** The holds still to place, and whether any snapshot is already held. */
    method MissingHolds(s: State, target: nat, snapshots: seq<SnapId>) returns (unheld: seq<Write>, held: bool)
      ensures unheld == Unheld(s, target, snapshots)
      ensures held <==> exists i :: 0 <= i < |snapshots| && Hold(snapshots[i], Target(target)) in s.holds
    {
      unheld, held := [], false;
      for i := 0 to |snapshots|
        invariant unheld == Unheld(s, target, snapshots[..i])
        invariant held <==> exists j :: 0 <= j < i && Hold(snapshots[j], Target(target)) in s.holds
      {
        assert snapshots[..i + 1][..i] == snapshots[..i];
        var h := Hold(snapshots[i], Target(target));
        if h in s.holds { held := true; } else { unheld := unheld + [AddHold(h)]; }
      }
      assert snapshots[..|snapshots|] == snapshots;
    }

    /** Record the proof for one stream's endpoint and hold its snapshots. */
    method ProtectSet(root: Dataset, stream: Dataset, snapshots: seq<SnapId>, target: nat) returns (res: Result<Reference>)
      modifies this
      ensures Performed(Plan(old(state), root, Protect(stream, snapshots, target)), res.Ok?)
      ensures res.Ok? ==> res.value == PlanProtect(old(state), root, stream, snapshots, target).value.0
      ensures res.Ok? ==> Protected(old(state), state, root, stream, snapshots, target, res.value)
    {
      var s := state;
      var planned := PlanProtection(s, root, stream, snapshots, target);
      if planned.Err? { return Err(planned.reason); }
      var (r, writes) := planned.value;
      var ok := PerformAll(writes);
      if !ok { return Err("backend refused a write"); }
      WholeLeads(s, writes, trail[|old(trail)|..], state);
      ProtectedWhole(s, root, Protect(stream, snapshots, target), state);
      return Ok(r);
    }

    /** The proof a protection relies on, and the writes still needed. */
    method PlanProtection(s: State, root: Dataset, stream: Dataset, snapshots: seq<SnapId>, target: nat) returns (res: Result<(Reference, seq<Write>)>)
      ensures res.Ok? <==> PlanProtect(s, root, stream, snapshots, target).Ok?
      ensures res.Ok? ==> res == PlanProtect(s, root, stream, snapshots, target)
    {
      if !Inside(stream, root) || root !in s.datasets || root in s.tokens || root !in s.authority { return Err("request refused"); }
      var checked := CheckInstant(s, root, stream, snapshots);
      if checked.Err? { return Err(checked.reason); }
      if !Readable(s, root) { return Err("invalid reference proof"); }
      var r := Reference(target, stream, checked.value.0, checked.value.1);
      var key := KeyFor(root, r);
      var stored := key in s.records;
      if stored {
        var prior := Decode(key, s.records[key], s.authority[root]).value;
        if prior != r && (prior.meta != r.meta || !prior.recursive) { return Err("conflicting reference proof"); }
        r := prior;
      }
      var unheld, held := MissingHolds(s, target, snapshots);
      if !stored && held { return Err("unproven existing target hold"); }
      return Ok((r, if stored then unheld else [SetRecord(key, Encode(root, r))] + unheld));
    }

    /** The loop over sources shared by the operations on a stored proof. */
    method GatherWrites(s: State, root: Dataset, op: Op, srcs: seq<Source>) returns (res: Result<seq<Write>>)
      requires root in s.authority && (op.Checkpoint? || op.ReleaseHold? || op.Release?)
      ensures res == Gather(s, root, op, srcs)
    {
      var found: seq<Write> := [];
      for i := 0 to |srcs|
        invariant Gather(s, root, op, srcs[..i]) == Ok(found)
      {
        assert srcs[..i + 1][..i] == srcs[..i];
        match SourceWrites(s, root, op, srcs[i])
        case Err(e) =>
          GatherFails(s, root, op, srcs, i);
          return Err(e);
        case Ok(ws) => found := found + ws;
      }
      assert srcs[..|srcs|] == srcs;
      return Ok(found);
    }

    /** Bookmark every protected source whose destination GUID the caller verified. */
    method CheckpointSet(root: Dataset, r: Reference, verified: map<SnapId, nat>) returns (ok: bool)
      modifies this
      ensures Performed(Plan(old(state), root, Checkpoint(r, verified)), ok)
      ensures ok ==> Checkpointed(old(state), state, r, verified)
    {
      var s := state;
      var missing := PlanCheckpoint(s, root, r, verified);
      if missing.Err? { return false; }
      ok := PerformAll(missing.value);
      if ok {
        WholeLeads(s, missing.value, trail[|old(trail)|..], state);
        CheckpointedAtEnd(s, root, r, verified, state);
      }
    }

    /** The bookmarks a checkpoint still needs. */
    method PlanCheckpoint(s: State, root: Dataset, r: Reference, verified: map<SnapId, nat>) returns (res: Result<seq<Write>>)
      ensures res.Ok? <==> Plan(s, root, Checkpoint(r, verified)).Ok?
      ensures res.Ok? ==> res == Plan(s, root, Checkpoint(r, verified))
    {
      if !Ready(s, root, r) || root !in s.authority || !Readable(s, root) || !Stored(s, root, r) { return Err("reference proof is missing or changed"); }
      var derived := DeriveSources(s, r);
      if derived.Err? || |derived.value| == 0 || derived.value[0].dataset != r.dataset { return Err("stream snapshot is not protected"); }
      if exists id :: id in verified && (forall src :: src in derived.value ==> SnapOf(r, src.dataset) != id) { return Err("reference proof does not protect a verified snapshot"); }
      res := GatherWrites(s, root, Checkpoint(r, verified), derived.value);
    }

    /** Release the holds of a proof whose checkpoints are all in place. */
    method ReleaseCompletedHold(root: Dataset, r: Reference) returns (ok: bool)
      modifies this
      ensures Performed(Plan(old(state), root, ReleaseHold(r)), ok)
      ensures ok ==> HoldsReleased(old(state), state, r)
    {
      var s := state;
      if !Ready(s, root, r) || root !in s.authority || !Readable(s, root) || !Stored(s, root, r) { return false; }
      var derived := DeriveSources(s, r);
      if derived.Err? { return false; }
      var held := GatherWrites(s, root, ReleaseHold(r), derived.value);
      if held.Err? { return false; }
      ok := PerformAll(held.value);
      if ok {
        WholeLeads(s, Plan(s, root, ReleaseHold(r)).value, trail[|old(trail)|..], state);
        HoldsReleasedAtEnd(s, root, r, state);
      }
    }

    /** Remove a proof: each source's bookmark and hold, then the record. */
    method ReleaseReference(root: Dataset, r: Reference) returns (ok: bool)
      modifies this
      ensures Performed(Plan(old(state), root, Release(r)), ok)
      ensures ok ==> ProofReleased(old(state), state, root, r)
    {
      var s := state;
      if !Ready(s, root, r) || root !in s.authority || !Readable(s, root) || !Stored(s, root, r) { return false; }
      var derived := DeriveSources(s, r);
      if derived.Err? { return false; }
      var found := GatherWrites(s, root, Release(r), derived.value);
      if found.Err? { return false; }
      ok := PerformAll(found.value + [DropRecord(KeyFor(root, r))]);
      if ok {
        WholeLeads(s, Plan(s, root, Release(r)).value, trail[|old(trail)|..], state);
        ProofReleasedAtEnd(s, root, r, state);
      }
    }
  }

  lemma {:induction false} GatherFails(s: State, root: Dataset, op: Op, srcs: seq<Source>, i: nat)
    requires root in s.authority && (op.Checkpoint? || op.ReleaseHold? || op.Release?)
    requires i < |srcs| && Gather(s, root, op, srcs[..i + 1]).Err?
    ensures Gather(s, root, op, srcs) == Gather(s, root, op, srcs[..i + 1])
    decreases |srcs|
  {
    if i + 1 < |srcs| {
      assert srcs[..|srcs| - 1][..i + 1] == srcs[..i + 1];
      GatherFails(s, root, op, srcs[..|srcs| - 1], i);
    } else {
      assert srcs[..i + 1] == srcs;
    }
  }
}
