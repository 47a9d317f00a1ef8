/** The recovery-proof protocol.

    A proof is a record on an actor root. It is written before the holds it
    accounts for and removed after the last of them, one write at a time, and
    a crash may fall between any two writes. An operation is planned on the
    state its last re-read saw and is then a list of single writes; several
    operations run at once on roots that do not overlap. */
module Proofs {
  import opened Names
  import opened Zfs

  datatype Reference = Reference(target: nat, dataset: Dataset, meta: Metadata, recursive: bool)

  datatype Source = Source(dataset: Dataset, guid: nat)

  function KeyFor(root: Dataset, r: Reference): Key {
    Key(root, r.target, r.dataset, r.meta.snapshot)
  }

  function Encode(root: Dataset, r: Reference): Record
    requires Inside(r.dataset, root)
  {
    Record(r.dataset[|root|..], r.meta.created, r.recursive)
  }

  /** Key and value must name the same stream; the lineage is the root's own. */
  function Decode(key: Key, rec: Record, lineage: nat): Option<Reference> {
    if key.root + rec.relative == key.stream
    then Some(Reference(key.target, key.stream, Metadata(lineage, key.snapshot, rec.created), rec.recursive))
    else None
  }

  /** A stored proof reads back as the proof that was written. */
  lemma RecordRoundTrip(root: Dataset, r: Reference)
    requires Inside(r.dataset, root)
    ensures Decode(KeyFor(root, r), Encode(root, r), r.meta.lineage) == Some(r)
  {
    assert root + r.dataset[|root|..] == r.dataset;
  }

  /** The datasets a proof can involve. */
  predicate Covers(stream: Dataset, recursive: bool, d: Dataset) {
    d == stream || (recursive && Inside(d, stream))
  }

  function SnapOf(r: Reference, d: Dataset): SnapId { SnapId(d, NameOf(r.meta)) }

  function HoldOf(r: Reference, d: Dataset): Hold { Hold(SnapOf(r, d), Target(r.target)) }

  function MarkOf(r: Reference, d: Dataset): Mark { Mark(d, r.target, r.meta.snapshot) }

  /** Whether `d` belongs to the endpoint, and its GUID: its snapshot's, or once
      that is pruned its bookmark's; where both exist they must agree. */
  function SourceAt(s: State, r: Reference, d: Dataset): Result<Option<nat>> {
    var id, mk := SnapOf(r, d), MarkOf(r, d);
    if HoldOf(r, d) !in s.holds && mk !in s.marks then Ok(None)
    else if mk in s.marks && (s.marks[mk] == 0 || (id in s.snaps && s.marks[mk] != s.snaps[id].guid))
    then Err("checkpoint bookmark does not match its snapshot")
    else
      var guid: nat := if id in s.snaps then s.snaps[id].guid else if mk in s.marks then s.marks[mk] else 0;
      if guid == 0 then Err("source has no GUID") else Ok(Some(guid))
  }

  /** The sources among `ds`, in order. */
  function SourcesIn(s: State, r: Reference, ds: seq<Dataset>): Result<seq<Source>> {
    if ds == [] then Ok([])
    else
      var init := SourcesIn(s, r, ds[..|ds| - 1]);
      var d := ds[|ds| - 1];
      if init.Err? || !Covers(r.dataset, r.recursive, d) then init
      else
        match SourceAt(s, r, d)
        case Err(e) => Err(e)
        case Ok(None) => init
        case Ok(Some(g)) => Ok(init.value + [Source(d, g)])
  }

  function Sources(s: State, r: Reference): Result<seq<Source>> {
    SourcesIn(s, r, s.datasets)
  }

  lemma SourcesNext(s: State, r: Reference, a: seq<Dataset>, b: seq<Dataset>, d: Dataset)
    requires SourcesIn(s, r, a) == SourcesIn(s, r, b)
    ensures SourcesIn(s, r, if Covers(r.dataset, r.recursive, d) then a + [d] else a) == SourcesIn(s, r, b + [d])
  {
    assert (a + [d])[..|a|] == a && (b + [d])[..|b|] == b;
  }

  /** The two loops of the derivation: select the candidates, then examine each. */
  method DeriveSources(s: State, r: Reference) returns (res: Result<seq<Source>>)
    ensures res == Sources(s, r)
  {
    var candidates: seq<Dataset> := [];
    for i := 0 to |s.datasets|
      invariant SourcesIn(s, r, candidates) == SourcesIn(s, r, s.datasets[..i])
      invariant forall d :: d in candidates ==> Covers(r.dataset, r.recursive, d)
    {
      assert s.datasets[..i + 1] == s.datasets[..i] + [s.datasets[i]];
      SourcesNext(s, r, candidates, s.datasets[..i], s.datasets[i]);
      if Covers(r.dataset, r.recursive, s.datasets[i]) {
        candidates := candidates + [s.datasets[i]];
      }
    }
    assert s.datasets[..|s.datasets|] == s.datasets;
    var sources: seq<Source> := [];
    for i := 0 to |candidates|
      invariant SourcesIn(s, r, candidates[..i]) == Ok(sources)
    {
      assert candidates[..i + 1][..i] == candidates[..i];
      match SourceAt(s, r, candidates[i])
      case Err(e) =>
        SourcesFail(s, r, candidates, i);
        return Err(e);
      case Ok(found) =>
        if found.Some? { sources := sources + [Source(candidates[i], found.value)]; }
    }
    assert candidates[..|candidates|] == candidates;
    return Ok(sources);
  }

  /** The first failing candidate decides the outcome. */
  lemma {:induction false} SourcesFail(s: State, r: Reference, ds: seq<Dataset>, i: nat)
    requires i < |ds| && SourcesIn(s, r, ds[..i + 1]).Err?
    ensures SourcesIn(s, r, ds) == SourcesIn(s, r, ds[..i + 1])
    decreases |ds|
  {
    if i + 1 < |ds| {
      assert ds[..|ds| - 1][..i + 1] == ds[..i + 1];
      SourcesFail(s, r, ds[..|ds| - 1], i);
    } else {
      assert ds[..i + 1] == ds;
    }
  }

  /** A dataset is a source exactly when the proof covers it and it is held or
      bookmarked, and then carries the GUID both of those give. */
  lemma {:induction false} SourcesExact(s: State, r: Reference, ds: seq<Dataset>)
    requires SourcesIn(s, r, ds).Ok?
    ensures forall src :: src in SourcesIn(s, r, ds).value ==>
              src.dataset in ds && Covers(r.dataset, r.recursive, src.dataset) && SourceAt(s, r, src.dataset) == Ok(Some(src.guid))
    ensures forall d :: d in ds && Covers(r.dataset, r.recursive, d) && (HoldOf(r, d) in s.holds || MarkOf(r, d) in s.marks) ==>
              SourceAt(s, r, d).Ok? && SourceAt(s, r, d).value.Some? && Source(d, SourceAt(s, r, d).value.value) in SourcesIn(s, r, ds).value
  {
    if ds != [] {
      SourcesExact(s, r, ds[..|ds| - 1]);
      assert ds == ds[..|ds| - 1] + [ds[|ds| - 1]];
    }
  }

  /** The stream's own snapshot leads the sources whenever it is one of them. */
  lemma {:induction false} StreamLeads(s: State, r: Reference, ds: seq<Dataset>)
    requires ParentsFirst(ds) && SourcesIn(s, r, ds).Ok?
    ensures forall i :: 0 < i < |SourcesIn(s, r, ds).value| ==> SourcesIn(s, r, ds).value[i].dataset != r.dataset
  {
    if ds != [] {
      var init := ds[..|ds| - 1];
      StreamLeads(s, r, init);
      SourcesExact(s, r, init);
      var d, found := ds[|ds| - 1], SourcesIn(s, r, init).value;
      if found != [] {
        assert found[0] in found;
        var j :| 0 <= j < |init| && init[j] == found[0].dataset;
        assert ds[j] == found[0].dataset && Inside(ds[j], r.dataset);
        assert !Inside(ds[j], ds[|ds| - 1]);
      }
    }
  }

  // ---------------------------------------------------------------- operations

  datatype Op =
    | Protect(stream: Dataset, snapshots: seq<SnapId>, target: nat)
    | Checkpoint(r: Reference, verified: map<SnapId, nat>)
    | ReleaseHold(r: Reference)
    | Release(r: Reference)
    | Prune(victims: seq<SnapId>)
    | Create(created: seq<(SnapId, Snap)>)

  predicate Readable(s: State, root: Dataset) {
    forall k :: k in s.records && k.root == root ==> k.root + s.records[k].relative == k.stream
  }

  predicate Stored(s: State, root: Dataset, r: Reference) {
    var k := KeyFor(root, r);
    root in s.authority && k in s.records && Decode(k, s.records[k], s.authority[root]) == Some(r)
  }

  /** The inspected scope has no resumable receive. */
  predicate Ready(s: State, root: Dataset, r: Reference) {
    root in s.datasets && forall d :: d in s.tokens ==> d != root && !Covers(r.dataset, r.recursive, d)
  }

  /** The proof must be stored unchanged under the root's authority. */
  function ReferenceState(s: State, root: Dataset, r: Reference): Result<seq<Source>> {
    if !Ready(s, root, r) || root !in s.authority || !Readable(s, root) then Err("scope not ready or unreadable")
    else if !Stored(s, root, r) then Err("reference proof is missing or changed")
    else Sources(s, r)
  }

  function RecursiveSet(stream: Dataset, snapshots: seq<SnapId>): bool {
    exists i :: 0 <= i < |snapshots| && snapshots[i].dataset != stream
  }

  /** What the snapshots must be: distinct, inside the stream, owned, of one
      instant, with the stream's own among them. */
  predicate OneInstant(s: State, root: Dataset, stream: Dataset, snapshots: seq<SnapId>)
    requires root in s.authority
  {
    && |snapshots| > 0 && Distinct(snapshots)
    && (forall i :: 0 <= i < |snapshots| ==>
          && Inside(snapshots[i].dataset, stream)
          && FindOwned(s, snapshots[i], s.authority[root]).Some?
          && FindOwned(s, snapshots[i], s.authority[root]) == FindOwned(s, snapshots[0], s.authority[root]))
    && (exists i :: 0 <= i < |snapshots| && snapshots[i].dataset == stream)
  }

  function Unheld(s: State, target: nat, snapshots: seq<SnapId>): seq<Write> {
    if snapshots == [] then []
    else
      var h := Hold(snapshots[|snapshots| - 1], Target(target));
      Unheld(s, target, snapshots[..|snapshots| - 1]) + (if h in s.holds then [] else [AddHold(h)])
  }

  /** The proof, then the missing holds. A recursive proof already stored stands
      for a request that asks for part of its subtree. */
  function PlanProtect(s: State, root: Dataset, stream: Dataset, snapshots: seq<SnapId>, target: nat): Result<(Reference, seq<Write>)> {
    if !Inside(stream, root) || root !in s.datasets || root in s.tokens || (exists i :: 0 <= i < |snapshots| && snapshots[i].dataset in s.tokens)
    then Err("scope not ready")
    else if root !in s.authority then Err("no authority")
    else if !OneInstant(s, root, stream, snapshots) then Err("not one owned instant of the stream")
    else if !Readable(s, root) then Err("invalid reference proof")
    else
      var instant := FindOwned(s, snapshots[0], s.authority[root]).value;
      var r := Reference(target, stream, instant, RecursiveSet(stream, snapshots));
      var k := KeyFor(root, r);
      if k in s.records then
        var prior := Decode(k, s.records[k], s.authority[root]).value;
        if prior != r && (prior.meta != r.meta || !prior.recursive) then Err("conflicting reference proof")
        else Ok((prior, Unheld(s, target, snapshots)))
      else if exists i :: 0 <= i < |snapshots| && Hold(snapshots[i], Target(target)) in s.holds
      then Err("unproven existing target hold")
      else Ok((r, [SetRecord(k, Encode(root, r))] + Unheld(s, target, snapshots)))
  }

  /** What one source contributes to an operation on a stored proof, or why it refuses. */
  function SourceWrites(s: State, root: Dataset, op: Op, src: Source): Result<seq<Write>>
    requires root in s.authority && (op.Checkpoint? || op.ReleaseHold? || op.Release?)
  {
    var r := op.r;
    var id, h, mk := SnapOf(r, src.dataset), HoldOf(r, src.dataset), MarkOf(r, src.dataset);
    var proved := FindOwned(s, id, s.authority[root]) == Some(r.meta) && s.snaps[id].guid == src.guid;
    match op
    case Checkpoint(_, verified) =>
      if id in verified && verified[id] != src.guid then Err("destination snapshot GUID does not match source")
      else if mk in s.marks then Ok([])
      else if id !in verified || verified[id] == 0 then Err("destination snapshot GUID does not match source")
      else if !proved || h !in s.holds then Err("source GUID or protecting hold changed")
      else Ok([AddMark(id, mk)])
    case ReleaseHold(_) =>
      if h !in s.holds then Ok([])
      else if !proved then Err("held snapshot proof changed")
      else if mk !in s.marks then Err("verified checkpoint is missing")
      else Ok([DropHold(h)])
    case Release(_) =>
      if h in s.holds && !proved then Err("held snapshot ownership changed")
      else Ok((if mk in s.marks then [DropMark(mk)] else []) + (if h in s.holds then [DropHold(h)] else []))
  }

  function Gather(s: State, root: Dataset, op: Op, srcs: seq<Source>): Result<seq<Write>>
    requires root in s.authority && (op.Checkpoint? || op.ReleaseHold? || op.Release?)
  {
    if srcs == [] then Ok([])
    else
      match Gather(s, root, op, srcs[..|srcs| - 1])
      case Err(e) => Err(e)
      case Ok(init) =>
        match SourceWrites(s, root, op, srcs[|srcs| - 1])
        case Err(e) => Err(e)
        case Ok(last) => Ok(init + last)
  }

  /** The writes an operation performs, in order, or why it refuses. */
  function Plan(s: State, root: Dataset, op: Op): Result<seq<Write>> {
    match op
    case Protect(stream, snapshots, target) =>
      (match PlanProtect(s, root, stream, snapshots, target) case Err(e) => Err(e) case Ok(p) => Ok(p.1))
    case Checkpoint(r, verified) =>
      (match ReferenceState(s, root, r)
       case Err(e) => Err(e)
       case Ok(srcs) =>
         if |srcs| == 0 || srcs[0].dataset != r.dataset then Err("stream snapshot is not protected")
         else if exists id :: id in verified && (forall src :: src in srcs ==> SnapOf(r, src.dataset) != id)
         then Err("reference proof does not protect a verified snapshot")
         else Gather(s, root, op, srcs))
    case ReleaseHold(r) =>
      (match ReferenceState(s, root, r) case Err(e) => Err(e) case Ok(srcs) => Gather(s, root, op, srcs))
    case Release(r) =>
      (match ReferenceState(s, root, r)
       case Err(e) => Err(e)
       case Ok(srcs) =>
         match Gather(s, root, op, srcs)
         case Err(e) => Err(e)
         case Ok(ws) => Ok(ws + [DropRecord(KeyFor(root, r))]))
    case Prune(victims) =>
      if root !in s.authority || (exists i :: 0 <= i < |victims| && !Inside(victims[i].dataset, root)) then Err("outside root")
      else Ok(seq(|victims|, i requires 0 <= i < |victims| => DropSnap(victims[i])))
    case Create(created) =>
      if root !in s.authority || (exists i :: 0 <= i < |created| && !Inside(created[i].0.dataset, root)) then Err("outside root")
      else Ok(seq(|created|, i requires 0 <= i < |created| => AddSnap(created[i].0, created[i].1)))
  }

  // ---------------------------------------------------------------- claims

  /** The stored record under `k` accounts for `d`. */
  predicate Proves(s: State, root: Dataset, k: Key, d: Dataset) {
    k in s.records && k.root == root && k.root + s.records[k].relative == k.stream && Covers(k.stream, s.records[k].recursive, d)
  }

  predicate ProvesHold(s: State, root: Dataset, k: Key, h: Hold) {
    && root in s.authority && h.tag.Target? && Proves(s, root, k, h.snap.dataset) && k.target == h.tag.id
    && FindOwned(s, h.snap, s.authority[root]) == Some(Metadata(s.authority[root], k.snapshot, s.records[k].created))
  }

  predicate ProvesMark(s: State, root: Dataset, k: Key, mk: Mark) {
    Proves(s, root, k, mk.dataset) && k.target == mk.target && k.snapshot == mk.snapshot
  }

  /** Every hold and checkpoint bookmark in the root's subtree under a target's
      tag is accounted for by a stored record. */
  ghost predicate Covered(s: State, root: Dataset) {
    && (forall h :: h in s.holds && h.tag.Target? && Inside(h.snap.dataset, root) ==> exists k :: ProvesHold(s, root, k, h))
    && (forall mk :: mk in s.marks && Inside(mk.dataset, root) ==> exists k :: ProvesMark(s, root, k, mk))
  }

  /** The snapshot `meta` of `d` is held for the target with GUID `guid`, or its
      checkpoint bookmark keeps that GUID. */
  predicate Anchored(s: State, root: Dataset, d: Dataset, target: nat, meta: Metadata, guid: nat) {
    || Bookmarked(s, d, target, meta, guid)
    || (var id := SnapId(d, NameOf(meta));
        && Hold(id, Target(target)) in s.holds && root in s.authority
        && FindOwned(s, id, s.authority[root]) == Some(meta) && s.snaps[id].guid == guid)
  }

  predicate Bookmarked(s: State, d: Dataset, target: nat, meta: Metadata, guid: nat) {
    var mk := Mark(d, target, meta.snapshot);
    mk in s.marks && s.marks[mk] == guid
  }

  datatype Claim =
    | Coverage
    | Anchor(d: Dataset, target: nat, meta: Metadata, guid: nat)
    | Logged(log: set<(Mark, nat)>)

  ghost predicate Claimed(c: Claim, s: State, root: Dataset) {
    match c
    case Coverage => Covered(s, root)
    case Anchor(d, target, meta, guid) => Inside(d, root) && Anchored(s, root, d, target, meta, guid)
    case Logged(log) => forall mk :: mk in s.marks && Inside(mk.dataset, root) ==> (mk, s.marks[mk]) in log
  }

  /** The claim holds now and after every write still to come, as far as ZFS accepts them. */
  ghost predicate Throughout(c: Claim, s: State, root: Dataset, ws: seq<Write>)
    decreases |ws|
  {
    Claimed(c, s, root) && (ws != [] && Accepts(s, ws[0]) ==> Throughout(c, Apply(s, ws[0]), root, ws[1..]))
  }

  predicate Placed(w: Write, root: Dataset) {
    Inside(Site(w), root) && (w.SetRecord? || w.DropRecord? ==> w.key.root == root)
  }

  lemma ClaimFrame(c: Claim, s: State, t: State, root: Dataset)
    requires SameOn(s, t, root) && Claimed(c, s, root)
    ensures Claimed(c, t, root)
  {
    if c.Coverage? {
      forall h | h in t.holds && h.tag.Target? && Inside(h.snap.dataset, root) ensures exists k :: ProvesHold(t, root, k, h) {
        var k :| ProvesHold(s, root, k, h);
        assert ProvesHold(t, root, k, h);
      }
      forall mk | mk in t.marks && Inside(mk.dataset, root) ensures exists k :: ProvesMark(t, root, k, mk) {
        var k :| ProvesMark(s, root, k, mk);
        assert ProvesMark(t, root, k, mk);
      }
    }
  }

  lemma ApplyFrame(s: State, t: State, root: Dataset, w: Write)
    requires SameOn(s, t, root) && Placed(w, root)
    ensures Accepts(s, w) <==> Accepts(t, w)
    ensures Accepts(s, w) ==> SameOn(Apply(s, w), Apply(t, w), root)
  {
    if w.AddHold? || w.DropHold? {
      HoldFrame(s, t, root, w);
    } else if w.AddMark? || w.DropMark? {
      MarkFrame(s, t, root, w);
    } else if w.AddSnap? || w.DropSnap? {
      SnapFrame(s, t, root, w);
    }
  }

  lemma HoldFrame(s: State, t: State, root: Dataset, w: Write)
    requires SameOn(s, t, root) && Placed(w, root) && (w.AddHold? || w.DropHold?)
    ensures Accepts(s, w) <==> Accepts(t, w)
    ensures Accepts(s, w) ==> SameOn(Apply(s, w), Apply(t, w), root)
  {}

  lemma MarkFrame(s: State, t: State, root: Dataset, w: Write)
    requires SameOn(s, t, root) && Placed(w, root) && (w.AddMark? || w.DropMark?)
    ensures Accepts(s, w) <==> Accepts(t, w)
    ensures Accepts(s, w) ==> SameOn(Apply(s, w), Apply(t, w), root)
  {}

  lemma SnapFrame(s: State, t: State, root: Dataset, w: Write)
    requires SameOn(s, t, root) && Placed(w, root) && (w.AddSnap? || w.DropSnap?)
    ensures Accepts(s, w) <==> Accepts(t, w)
    ensures Accepts(s, w) ==> SameOn(Apply(s, w), Apply(t, w), root)
  {}

  lemma {:induction false} ThroughoutFrame(c: Claim, s: State, t: State, root: Dataset, ws: seq<Write>)
    requires SameOn(s, t, root) && Throughout(c, s, root, ws)
    requires forall i :: 0 <= i < |ws| ==> Placed(ws[i], root)
    ensures Throughout(c, t, root, ws)
    decreases |ws|
  {
    ClaimFrame(c, s, t, root);
    if ws != [] {
      ApplyFrame(s, t, root, ws[0]);
      if Accepts(s, ws[0]) { ThroughoutFrame(c, Apply(s, ws[0]), Apply(t, ws[0]), root, ws[1..]); }
    }
  }

  // ---------------------------------------------------------------- coverage of each plan

  predicate BackedBy(s: State, root: Dataset, k: Key, w: Write) {
    match w
    case AddHold(h) => ProvesHold(s, root, k, h)
    case AddMark(_, mk) => ProvesMark(s, root, k, mk)
    case _ => false
  }

  predicate Neutral(w: Write) {
    w.DropHold? || w.DropMark? || w.AddSnap? || w.DropSnap?
  }

  /** Keeping every record and the held snapshots keeps coverage of what remains. */
  lemma CoverageKept(s: State, t: State, root: Dataset)
    requires WellFormed(s) && Covered(s, root) && s.authority == t.authority
    requires t.holds <= s.holds && (forall mk :: mk in t.marks ==> mk in s.marks)
    requires forall k :: k in s.records ==> k in t.records && t.records[k] == s.records[k]
    requires forall h :: h in t.holds ==> h.snap in t.snaps && t.snaps[h.snap] == s.snaps[h.snap]
    ensures Covered(t, root)
  {
    forall h | h in t.holds && h.tag.Target? && Inside(h.snap.dataset, root) ensures exists k :: ProvesHold(t, root, k, h) {
      var k :| ProvesHold(s, root, k, h);
      assert ProvesHold(t, root, k, h);
    }
    forall mk | mk in t.marks && Inside(mk.dataset, root) ensures exists k :: ProvesMark(t, root, k, mk) {
      var k :| ProvesMark(s, root, k, mk);
      assert ProvesMark(t, root, k, mk);
    }
  }

  lemma {:induction false} NeutralThroughout(s: State, root: Dataset, ws: seq<Write>)
    requires WellFormed(s) && Covered(s, root)
    requires forall i :: 0 <= i < |ws| ==> Neutral(ws[i])
    ensures Throughout(Coverage, s, root, ws)
    decreases |ws|
  {
    if ws != [] && Accepts(s, ws[0]) {
      ApplyWellFormed(s, ws[0]);
      CoverageKept(s, Apply(s, ws[0]), root);
      NeutralThroughout(Apply(s, ws[0]), root, ws[1..]);
    }
  }

  /** One addition that a record backs. */
  lemma AdditionCovered(s: State, root: Dataset, k: Key, w: Write)
    requires WellFormed(s) && Covered(s, root) && BackedBy(s, root, k, w) && Accepts(s, w)
    ensures Covered(Apply(s, w), root)
  {
    var t := Apply(s, w);
    forall h | h in t.holds && h.tag.Target? && Inside(h.snap.dataset, root) ensures exists j :: ProvesHold(t, root, j, h) {
      var j := if h in s.holds then var j :| ProvesHold(s, root, j, h); j else k;
      assert ProvesHold(t, root, j, h);
    }
    forall mk | mk in t.marks && Inside(mk.dataset, root) ensures exists j :: ProvesMark(t, root, j, mk) {
      var j := if mk in s.marks then var j :| ProvesMark(s, root, j, mk); j else k;
      assert ProvesMark(t, root, j, mk);
    }
  }

  lemma {:induction false} AdditionsThroughout(s: State, root: Dataset, k: Key, ws: seq<Write>)
    requires WellFormed(s) && Covered(s, root)
    requires forall i :: 0 <= i < |ws| ==> BackedBy(s, root, k, ws[i])
    ensures Throughout(Coverage, s, root, ws)
    decreases |ws|
  {
    if ws != [] && Accepts(s, ws[0]) {
      var t := Apply(s, ws[0]);
      ApplyWellFormed(s, ws[0]);
      AdditionCovered(s, root, k, ws[0]);
      assert forall i :: 1 <= i < |ws| ==> BackedBy(t, root, k, ws[i]);
      AdditionsThroughout(t, root, k, ws[1..]);
    }
  }

  lemma {:induction false} UnheldShape(s: State, target: nat, snapshots: seq<SnapId>)
    ensures forall w :: w in Unheld(s, target, snapshots) ==> w.AddHold? && w.hold.tag == Target(target) && w.hold.snap in snapshots
  {
    if snapshots != [] {
      UnheldShape(s, target, snapshots[..|snapshots| - 1]);
      assert snapshots == snapshots[..|snapshots| - 1] + [snapshots[|snapshots| - 1]];
    }
  }

  /** The record a protection relies on accounts for each hold it places. */
  lemma ProtectBacked(s: State, t: State, root: Dataset, op: Op, r: Reference)
    requires op.Protect? && Plan(s, root, op).Ok? && r == PlanProtect(s, root, op.stream, op.snapshots, op.target).value.0
    requires t.snaps == s.snaps && t.authority == s.authority
    requires KeyFor(root, r) in t.records && Decode(KeyFor(root, r), t.records[KeyFor(root, r)], t.authority[root]) == Some(r)
    ensures forall w :: w in Unheld(s, op.target, op.snapshots) ==> BackedBy(t, root, KeyFor(root, r), w) && Placed(w, root)
  {
    UnheldShape(s, op.target, op.snapshots);
    forall w | w in Unheld(s, op.target, op.snapshots) ensures BackedBy(t, root, KeyFor(root, r), w) && Placed(w, root) {
      var i :| 0 <= i < |op.snapshots| && op.snapshots[i] == w.hold.snap;
      assert FindOwned(s, op.snapshots[i], s.authority[root]) == FindOwned(s, op.snapshots[0], s.authority[root]);
      assert Inside(w.hold.snap.dataset, op.stream) && Inside(w.hold.snap.dataset, root);
      assert w.hold.snap.dataset != op.stream ==> RecursiveSet(op.stream, op.snapshots);
    }
  }

  /** Protecting writes the proof first, so no hold is ever unaccounted for. */
  lemma ProtectCovered(s: State, root: Dataset, op: Op)
    requires WellFormed(s) && Covered(s, root) && op.Protect? && Plan(s, root, op).Ok?
    ensures Throughout(Coverage, s, root, Plan(s, root, op).value)
    ensures forall i :: 0 <= i < |Plan(s, root, op).value| ==> Placed(Plan(s, root, op).value[i], root)
  {
    var (r, ws) := PlanProtect(s, root, op.stream, op.snapshots, op.target).value;
    var k, holds := KeyFor(root, r), Unheld(s, op.target, op.snapshots);
    assert forall i :: 0 <= i < |holds| ==> holds[i] in holds;
    if k in s.records {
      ProtectBacked(s, s, root, op, r);
      AdditionsThroughout(s, root, k, holds);
    } else {
      var t := Apply(s, ws[0]);
      RecordRoundTrip(root, r);
      ApplyWellFormed(s, ws[0]);
      CoverageKept(s, t, root);
      ProtectBacked(s, t, root, op, r);
      AdditionsThroughout(t, root, k, holds);
      assert ws[1..] == holds;
    }
  }

  /** A gathered plan consists of exactly what its sources contribute. */
  lemma {:induction false} GatherExact(s: State, root: Dataset, op: Op, srcs: seq<Source>)
    requires root in s.authority && (op.Checkpoint? || op.ReleaseHold? || op.Release?) && Gather(s, root, op, srcs).Ok?
    ensures forall w :: w in Gather(s, root, op, srcs).value ==>
              exists src :: src in srcs && SourceWrites(s, root, op, src).Ok? && w in SourceWrites(s, root, op, src).value
    ensures forall src :: src in srcs ==> SourceWrites(s, root, op, src).Ok?
    ensures forall src, w :: src in srcs && w in SourceWrites(s, root, op, src).value ==> w in Gather(s, root, op, srcs).value
  {
    if srcs != [] {
      var init := srcs[..|srcs| - 1];
      GatherExact(s, root, op, init);
      assert srcs == init + [srcs[|srcs| - 1]];
      forall w | w in Gather(s, root, op, srcs).value
        ensures exists src :: src in srcs && SourceWrites(s, root, op, src).Ok? && w in SourceWrites(s, root, op, src).value
      {
        if w in Gather(s, root, op, init).value {
          var src :| src in init && SourceWrites(s, root, op, src).Ok? && w in SourceWrites(s, root, op, src).value;
          assert src in srcs;
        } else {
          assert srcs[|srcs| - 1] in srcs;
        }
      }
    }
  }

  /** What a source's writes can be. */
  lemma SourceWritesShape(s: State, root: Dataset, op: Op, src: Source, w: Write)
    requires root in s.authority && (op.Checkpoint? || op.ReleaseHold? || op.Release?)
    requires SourceWrites(s, root, op, src).Ok? && w in SourceWrites(s, root, op, src).value
    ensures op.Checkpoint? ==> w == AddMark(SnapOf(op.r, src.dataset), MarkOf(op.r, src.dataset))
    ensures op.ReleaseHold? ==> w == DropHold(HoldOf(op.r, src.dataset)) && MarkOf(op.r, src.dataset) in s.marks
    ensures op.Release? ==> w == DropHold(HoldOf(op.r, src.dataset)) || w == DropMark(MarkOf(op.r, src.dataset))
    ensures !w.DropMark? ==> FindOwned(s, SnapOf(op.r, src.dataset), s.authority[root]) == Some(op.r.meta)
  {
  }

  /** Every write of an operation on a stored proof stems from one of its sources. */
  lemma OriginOf(s: State, root: Dataset, op: Op, srcs: seq<Source>, w: Write) returns (src: Source)
    requires op.Checkpoint? || op.ReleaseHold? || op.Release?
    requires ReferenceState(s, root, op.r) == Ok(srcs) && Gather(s, root, op, srcs).Ok? && w in Gather(s, root, op, srcs).value
    ensures src in srcs && SourceWrites(s, root, op, src).Ok? && w in SourceWrites(s, root, op, src).value
    ensures Covers(op.r.dataset, op.r.recursive, src.dataset) && SourceAt(s, op.r, src.dataset) == Ok(Some(src.guid))
    ensures Inside(src.dataset, root) && Site(w) == src.dataset && !w.SetRecord? && !w.DropRecord?
  {
    src := GatheredFrom(s, root, op, srcs, w);
    SourceOf(s, root, op.r, srcs, src);
    SourceWritesShape(s, root, op, src, w);
  }

  lemma GatheredFrom(s: State, root: Dataset, op: Op, srcs: seq<Source>, w: Write) returns (src: Source)
    requires root in s.authority && (op.Checkpoint? || op.ReleaseHold? || op.Release?)
    requires Gather(s, root, op, srcs).Ok? && w in Gather(s, root, op, srcs).value
    ensures src in srcs && SourceWrites(s, root, op, src).Ok? && w in SourceWrites(s, root, op, src).value
  {
    GatherExact(s, root, op, srcs);
    src :| src in srcs && SourceWrites(s, root, op, src).Ok? && w in SourceWrites(s, root, op, src).value;
  }

  lemma SourceOf(s: State, root: Dataset, r: Reference, srcs: seq<Source>, src: Source)
    requires ReferenceState(s, root, r) == Ok(srcs) && src in srcs
    ensures Covers(r.dataset, r.recursive, src.dataset) && SourceAt(s, r, src.dataset) == Ok(Some(src.guid)) && Inside(src.dataset, root)
  {
    SourcesExact(s, r, s.datasets);
    StoredInside(s, root, r);
  }

  lemma StoredInside(s: State, root: Dataset, r: Reference)
    requires Stored(s, root, r)
    ensures Inside(r.dataset, root)
  {
    var k := KeyFor(root, r);
    assert k.root + s.records[k].relative == r.dataset;
  }

  lemma CheckpointCovered(s: State, root: Dataset, op: Op)
    requires WellFormed(s) && Covered(s, root) && op.Checkpoint? && Plan(s, root, op).Ok?
    ensures Throughout(Coverage, s, root, Plan(s, root, op).value)
  {
    var ws, srcs := Plan(s, root, op).value, ReferenceState(s, root, op.r).value;
    forall i | 0 <= i < |ws| ensures BackedBy(s, root, KeyFor(root, op.r), ws[i]) {
      var src := OriginOf(s, root, op, srcs, ws[i]);
    }
    AdditionsThroughout(s, root, KeyFor(root, op.r), ws);
  }

  /** Everything the record alone accounts for is dropped by a write still to come. */
  ghost predicate Pending(s: State, root: Dataset, k: Key, ws: seq<Write>) {
    && (forall h :: h in s.holds && ProvesHold(s, root, k, h) ==> DropHold(h) in ws)
    && (forall mk :: mk in s.marks && ProvesMark(s, root, k, mk) ==> DropMark(mk) in ws)
  }

  /** A record that accounts for nothing can go. */
  lemma RecordUnused(s: State, root: Dataset, k: Key)
    requires Covered(s, root) && Pending(s, root, k, [])
    ensures Covered(Apply(s, DropRecord(k)), root)
  {
    var t := Apply(s, DropRecord(k));
    forall h | h in t.holds && h.tag.Target? && Inside(h.snap.dataset, root) ensures exists j :: ProvesHold(t, root, j, h) {
      var j :| ProvesHold(s, root, j, h);
      assert ProvesHold(t, root, j, h);
    }
    forall mk | mk in t.marks && Inside(mk.dataset, root) ensures exists j :: ProvesMark(t, root, j, mk) {
      var j :| ProvesMark(s, root, j, mk);
      assert ProvesMark(t, root, j, mk);
    }
  }

  /** The record goes last: by then nothing it accounts for remains. */
  lemma {:induction false} ReleaseThroughout(s: State, root: Dataset, k: Key, ws: seq<Write>)
    requires WellFormed(s) && Covered(s, root) && Pending(s, root, k, ws)
    requires forall i :: 0 <= i < |ws| ==> ws[i].DropHold? || ws[i].DropMark?
    ensures Throughout(Coverage, s, root, ws + [DropRecord(k)])
    decreases |ws|
  {
    var all := ws + [DropRecord(k)];
    var t := if Accepts(s, all[0]) then Apply(s, all[0]) else s;
    if ws == [] {
      RecordUnused(s, root, k);
      assert all[1..] == [];
    } else if Accepts(s, ws[0]) {
      ApplyWellFormed(s, ws[0]);
      CoverageKept(s, t, root);
      assert all[1..] == ws[1..] + [DropRecord(k)];
      assert forall w :: w in ws ==> w == ws[0] || w in ws[1..];
      assert forall h :: ProvesHold(t, root, k, h) ==> ProvesHold(s, root, k, h);
      assert forall mk :: ProvesMark(t, root, k, mk) ==> ProvesMark(s, root, k, mk);
      ReleaseThroughout(t, root, k, ws[1..]);
    }
  }

  lemma ReleasePending(s: State, root: Dataset, op: Op, srcs: seq<Source>)
    requires WellFormed(s) && op.Release? && ReferenceState(s, root, op.r) == Ok(srcs) && Gather(s, root, op, srcs).Ok?
    ensures Pending(s, root, KeyFor(root, op.r), Gather(s, root, op, srcs).value)
  {
    var k, ws, r := KeyFor(root, op.r), Gather(s, root, op, srcs).value, op.r;
    GatherExact(s, root, op, srcs);
    SourcesExact(s, r, s.datasets);
    forall h | h in s.holds && ProvesHold(s, root, k, h) ensures DropHold(h) in ws {
      var d := h.snap.dataset;
      assert h == HoldOf(r, d) && Covers(r.dataset, r.recursive, d);
      var src := Source(d, SourceAt(s, r, d).value.value);
      assert src in srcs && DropHold(h) in SourceWrites(s, root, op, src).value;
    }
    forall mk | mk in s.marks && ProvesMark(s, root, k, mk) ensures DropMark(mk) in ws {
      var d := mk.dataset;
      assert mk == MarkOf(r, d) && Covers(r.dataset, r.recursive, d);
      var src := Source(d, SourceAt(s, r, d).value.value);
      assert src in srcs && DropMark(mk) in SourceWrites(s, root, op, src).value;
    }
  }

  lemma OnlyDrops(s: State, root: Dataset, op: Op, srcs: seq<Source>)
    requires (op.Release? || op.ReleaseHold?) && ReferenceState(s, root, op.r) == Ok(srcs) && Gather(s, root, op, srcs).Ok?
    ensures forall w :: w in Gather(s, root, op, srcs).value ==> w.DropHold? || w.DropMark?
  {
    forall w | w in Gather(s, root, op, srcs).value ensures w.DropHold? || w.DropMark? {
      var src := OriginOf(s, root, op, srcs, w);
    }
  }

  lemma ReleaseCovered(s: State, root: Dataset, op: Op)
    requires WellFormed(s) && Covered(s, root) && (op.Release? || op.ReleaseHold?) && Plan(s, root, op).Ok?
    ensures Throughout(Coverage, s, root, Plan(s, root, op).value)
  {
    var srcs := ReferenceState(s, root, op.r).value;
    var ws := Gather(s, root, op, srcs).value;
    OnlyDrops(s, root, op, srcs);
    assert forall i :: 0 <= i < |ws| ==> ws[i] in ws;
    if op.Release? {
      ReleasePending(s, root, op, srcs);
      ReleaseThroughout(s, root, KeyFor(root, op.r), ws);
    } else {
      NeutralThroughout(s, root, ws);
    }
  }

  /** Every write of a planned operation stays on its root. */
  lemma PlanPlaced(s: State, root: Dataset, op: Op)
    requires WellFormed(s) && Covered(s, root) && Plan(s, root, op).Ok?
    ensures root in s.authority
    ensures forall i :: 0 <= i < |Plan(s, root, op).value| ==> Placed(Plan(s, root, op).value[i], root)
  {
    var ws := Plan(s, root, op).value;
    if op.Protect? {
      ProtectCovered(s, root, op);
    } else if op.Checkpoint? || op.ReleaseHold? || op.Release? {
      var srcs := ReferenceState(s, root, op.r).value;
      forall i | 0 <= i < |ws| ensures Placed(ws[i], root) {
        if ws[i] in Gather(s, root, op, srcs).value {
          var src := OriginOf(s, root, op, srcs, ws[i]);
        }
      }
    }
  }

  /** No operation leaves a hold or bookmark unaccounted for, at any write. */
  lemma PlanCovered(s: State, root: Dataset, op: Op)
    requires WellFormed(s) && Covered(s, root) && Plan(s, root, op).Ok?
    ensures Throughout(Coverage, s, root, Plan(s, root, op).value)
  {
    match op
    case Protect(_, _, _) => ProtectCovered(s, root, op);
    case Checkpoint(_, _) => CheckpointCovered(s, root, op);
    case ReleaseHold(_) => ReleaseCovered(s, root, op);
    case Release(_) => ReleaseCovered(s, root, op);
    case Prune(_) => NeutralThroughout(s, root, Plan(s, root, op).value);
    case Create(_) => NeutralThroughout(s, root, Plan(s, root, op).value);
  }

  // ---------------------------------------------------------------- anchors and verified bookmarks

  /** The write neither drops the anchor's bookmark nor drops its hold without it. */
  predicate Spares(s: State, c: Claim, w: Write)
    requires c.Anchor?
  {
    match w
    case DropMark(mk) => mk != Mark(c.d, c.target, c.meta.snapshot)
    case DropHold(h) => h != Hold(SnapId(c.d, NameOf(c.meta)), Target(c.target)) || Bookmarked(s, c.d, c.target, c.meta, c.guid)
    case _ => true
  }

  lemma {:induction false} SparedThroughout(s: State, root: Dataset, c: Claim, ws: seq<Write>)
    requires c.Anchor? && Claimed(c, s, root)
    requires forall i :: 0 <= i < |ws| ==> Spares(s, c, ws[i])
    ensures Throughout(c, s, root, ws)
    decreases |ws|
  {
    if ws != [] && Accepts(s, ws[0]) {
      var t := Apply(s, ws[0]);
      assert Bookmarked(s, c.d, c.target, c.meta, c.guid) ==> Bookmarked(t, c.d, c.target, c.meta, c.guid);
      assert forall i :: 1 <= i < |ws| ==> Spares(t, c, ws[i]);
      SparedThroughout(t, root, c, ws[1..]);
    }
  }

  /** The operation releases a proof that covers the anchor. */
  predicate Retires(op: Op, c: Claim)
    requires c.Anchor?
  {
    op.Release? && op.r.target == c.target && op.r.meta.snapshot == c.meta.snapshot && Covers(op.r.dataset, op.r.recursive, c.d)
  }

  /** No write of an operation on another proof ends an anchor. */
  lemma GatherSpares(s: State, root: Dataset, op: Op, srcs: seq<Source>, c: Claim, w: Write)
    requires WellFormed(s) && c.Anchor? && Claimed(c, s, root) && !Retires(op, c)
    requires op.Checkpoint? || op.ReleaseHold? || op.Release?
    requires ReferenceState(s, root, op.r) == Ok(srcs) && Gather(s, root, op, srcs).Ok? && w in Gather(s, root, op, srcs).value
    ensures Spares(s, c, w)
  {
    var src := OriginOf(s, root, op, srcs, w);
    SourceWritesShape(s, root, op, src, w);
  }

  lemma ProtectSpares(s: State, root: Dataset, op: Op, c: Claim, w: Write)
    requires op.Protect? && c.Anchor? && Plan(s, root, op).Ok? && w in Plan(s, root, op).value
    ensures Spares(s, c, w)
  {
    UnheldShape(s, op.target, op.snapshots);
  }

  lemma StoredSpares(s: State, root: Dataset, op: Op, c: Claim, w: Write)
    requires WellFormed(s) && c.Anchor? && Claimed(c, s, root) && (op.Checkpoint? || op.ReleaseHold? || op.Release?)
    requires Plan(s, root, op).Ok? && !Retires(op, c) && w in Plan(s, root, op).value
    ensures Spares(s, c, w)
  {
    var srcs := ReferenceState(s, root, op.r).value;
    if !w.DropRecord? {
      GatherSpares(s, root, op, srcs, c, w);
    }
  }

  /** Only a release covering it ends an anchor. */
  lemma PlanSpares(s: State, root: Dataset, op: Op, c: Claim)
    requires WellFormed(s) && c.Anchor? && Claimed(c, s, root) && Plan(s, root, op).Ok? && !Retires(op, c)
    ensures Throughout(c, s, root, Plan(s, root, op).value)
  {
    var ws := Plan(s, root, op).value;
    forall i | 0 <= i < |ws| ensures Spares(s, c, ws[i]) {
      if op.Protect? {
        ProtectSpares(s, root, op, c, ws[i]);
      } else if op.Checkpoint? || op.ReleaseHold? || op.Release? {
        StoredSpares(s, root, op, c, ws[i]);
      }
    }
    SparedThroughout(s, root, c, ws);
  }

  /** The GUIDs a checkpoint call supplies as verified on the destination. */
  function Supplied(op: Op): set<(Mark, nat)> {
    if op.Checkpoint? then set id | id in op.verified :: (Mark(id.dataset, op.r.target, op.r.meta.snapshot), op.verified[id])
    else {}
  }

  lemma {:induction false} LoggedThroughout(s: State, root: Dataset, c: Claim, ws: seq<Write>)
    requires c.Logged? && Claimed(c, s, root)
    requires forall i :: 0 <= i < |ws| ==> !ws[i].AddSnap? && !ws[i].DropSnap?
    requires forall i :: 0 <= i < |ws| && ws[i].AddMark? ==> ws[i].snap in s.snaps && (ws[i].mark, s.snaps[ws[i].snap].guid) in c.log
    ensures Throughout(c, s, root, ws)
    decreases |ws|
  {
    if ws != [] && Accepts(s, ws[0]) {
      LoggedThroughout(Apply(s, ws[0]), root, c, ws[1..]);
    }
  }

  lemma {:induction false} NoMarksThroughout(s: State, root: Dataset, c: Claim, ws: seq<Write>)
    requires c.Logged? && Claimed(c, s, root)
    requires forall i :: 0 <= i < |ws| ==> !ws[i].AddMark?
    ensures Throughout(c, s, root, ws)
    decreases |ws|
  {
    if ws != [] && Accepts(s, ws[0]) {
      NoMarksThroughout(Apply(s, ws[0]), root, c, ws[1..]);
    }
  }

  lemma CheckpointLogged(s: State, root: Dataset, op: Op, c: Claim)
    requires WellFormed(s) && op.Checkpoint? && c.Logged? && Supplied(op) <= c.log && Claimed(c, s, root) && Plan(s, root, op).Ok?
    ensures Throughout(c, s, root, Plan(s, root, op).value)
  {
    var ws, srcs := Plan(s, root, op).value, ReferenceState(s, root, op.r).value;
    forall i | 0 <= i < |ws| ensures ws[i].AddMark? && ws[i].snap in s.snaps && (ws[i].mark, s.snaps[ws[i].snap].guid) in c.log {
      var src := OriginOf(s, root, op, srcs, ws[i]);
      SourceWritesShape(s, root, op, src, ws[i]);
      assert (ws[i].mark, op.verified[ws[i].snap]) in Supplied(op);
    }
    LoggedThroughout(s, root, c, ws);
  }

  /** Only a checkpoint makes bookmarks. */
  lemma OnlyCheckpointMarks(s: State, root: Dataset, op: Op, i: nat)
    requires !op.Checkpoint? && Plan(s, root, op).Ok? && i < |Plan(s, root, op).value|
    ensures !Plan(s, root, op).value[i].AddMark?
  {
    var w := Plan(s, root, op).value[i];
    if op.Protect? {
      UnheldShape(s, op.target, op.snapshots);
      assert w.SetRecord? || w in Unheld(s, op.target, op.snapshots);
    } else if op.ReleaseHold? || op.Release? {
      var srcs := ReferenceState(s, root, op.r).value;
      if !w.DropRecord? {
        var src := OriginOf(s, root, op, srcs, w);
        SourceWritesShape(s, root, op, src, w);
      }
    }
  }

  /** A bookmark is only ever made with a GUID its caller verified. */
  lemma PlanLogged(s: State, root: Dataset, op: Op, c: Claim)
    requires WellFormed(s) && c.Logged? && Supplied(op) <= c.log && Claimed(c, s, root) && Plan(s, root, op).Ok?
    ensures Throughout(c, s, root, Plan(s, root, op).value)
  {
    if op.Checkpoint? {
      CheckpointLogged(s, root, op, c);
    } else {
      forall i | 0 <= i < |Plan(s, root, op).value| ensures !Plan(s, root, op).value[i].AddMark? {
        OnlyCheckpointMarks(s, root, op, i);
      }
      NoMarksThroughout(s, root, c, Plan(s, root, op).value);
    }
  }

  // ---------------------------------------------------------------- whole runs

  /** Operations in flight, by the root each holds locked, with their remaining
      writes; `log` accumulates every GUID checkpoint calls have supplied. */
  datatype System = System(state: State, active: map<Dataset, seq<Write>>, log: set<(Mark, nat)>)

  /** Begin an operation, perform its next write, lose one operation to an
      error, or lose them all to a crash. */
  datatype Event = Begin(root: Dataset, op: Op) | Advance(root: Dataset) | Abandon(root: Dataset) | Crash

  /** The hierarchy lock admits a root only while no overlapping one is held. */
  predicate Free(y: System, root: Dataset) {
    forall r :: r in y.active ==> !Overlaps(r, root)
  }

  function Begun(y: System, root: Dataset, plan: Result<seq<Write>>, supplied: set<(Mark, nat)>): System {
    y.(log := y.log + supplied, active := if plan.Ok? then y.active[root := plan.value] else y.active)
  }

  function Advanced(y: System, root: Dataset): System {
    if root !in y.active then y
    else if y.active[root] == [] || !Accepts(y.state, y.active[root][0]) then y.(active := y.active - {root})
    else y.(state := Apply(y.state, y.active[root][0]), active := y.active[root := y.active[root][1..]])
  }

  function Step(y: System, e: Event): System {
    match e
    case Begin(root, op) => if Free(y, root) then Begun(y, root, Plan(y.state, root, op), Supplied(op)) else y
    case Advance(root) => Advanced(y, root)
    case Abandon(root) => y.(active := y.active - {root})
    case Crash => y.(active := map[])
  }

  function Run(y: System, es: seq<Event>): System {
    if es == [] then y else Step(Run(y, es[..|es| - 1]), es[|es| - 1])
  }

  function Remaining(y: System, root: Dataset): seq<Write> {
    if root in y.active then y.active[root] else []
  }

  /** Only owned roots are worked on, and each operation writes within its own. */
  ghost predicate InPlace(y: System) {
    && (forall r :: r in y.active ==> r in y.state.authority)
    && (forall r, i :: r in y.active && 0 <= i < |y.active[r]| ==> Placed(y.active[r][i], r))
  }

  ghost predicate Sound(y: System) {
    && WellFormed(y.state)
    && InPlace(y)
    && (forall r :: r in y.state.authority ==> Throughout(Coverage, y.state, r, Remaining(y, r)))
    && (forall r :: r in y.state.authority ==> Throughout(Logged(y.log), y.state, r, Remaining(y, r)))
  }

  lemma {:induction false} LogGrows(s: State, root: Dataset, log: set<(Mark, nat)>, more: set<(Mark, nat)>, ws: seq<Write>)
    requires log <= more && Throughout(Logged(log), s, root, ws)
    ensures Throughout(Logged(more), s, root, ws)
    decreases |ws|
  {
    if ws != [] && Accepts(s, ws[0]) { LogGrows(Apply(s, ws[0]), root, log, more, ws[1..]); }
  }

  lemma BegunElsewhere(y: System, root: Dataset, plan: Result<seq<Write>>, supplied: set<(Mark, nat)>, r: Dataset)
    requires root != r
    ensures Begun(y, root, plan, supplied).state == y.state && Remaining(Begun(y, root, plan, supplied), r) == Remaining(y, r)
  {}

  lemma AdvancedElsewhere(y: System, root: Dataset, c: Claim, r: Dataset)
    requires Sound(y) && r in y.state.authority && Throughout(c, y.state, r, Remaining(y, r))
    ensures Throughout(c, Advanced(y, root).state, r, Remaining(Advanced(y, root), r))
  {
    if root in y.active && y.active[root] != [] && Accepts(y.state, y.active[root][0]) && root != r {
      var w := y.active[root][0];
      assert Placed(w, root);
      ApplyElsewhere(y.state, w, r, root);
      ThroughoutFrame(c, y.state, Apply(y.state, w), r, Remaining(y, r));
    }
  }

  /** A root's claim survives any event that does not plan a new operation on it. */
  lemma OtherEvents(y: System, e: Event, c: Claim, r: Dataset)
    requires Sound(y) && r in y.state.authority && Throughout(c, y.state, r, Remaining(y, r))
    requires !(e.Begin? && e.root == r)
    ensures Throughout(c, Step(y, e).state, r, Remaining(Step(y, e), r))
  {
    match e
    case Begin(root, op) => BegunElsewhere(y, root, Plan(y.state, root, op), Supplied(op), r);
    case Advance(root) => AdvancedElsewhere(y, root, c, r);
    case Abandon(root) =>
    case Crash =>
  }

  lemma StepClaims(y: System, e: Event, r: Dataset)
    requires Sound(y) && r in y.state.authority
    ensures var z := Step(y, e);
      Throughout(Coverage, z.state, r, Remaining(z, r)) && Throughout(Logged(z.log), z.state, r, Remaining(z, r))
  {
    var z := Step(y, e);
    if e.Begin? && e.root == r {
      if Free(y, r) && Plan(y.state, r, e.op).Ok? {
        BeginSound(y, r, e.op);
      } else {
        LogGrows(y.state, r, y.log, z.log, Remaining(y, r));
      }
    } else {
      OtherEvents(y, e, Coverage, r);
      OtherEvents(y, e, Logged(y.log), r);
      LogGrows(z.state, r, y.log, z.log, Remaining(z, r));
    }
  }

  lemma AdvancedWellFormed(y: System, root: Dataset)
    requires WellFormed(y.state)
    ensures WellFormed(Advanced(y, root).state)
  {
    if root in y.active && y.active[root] != [] && Accepts(y.state, y.active[root][0]) {
      ApplyWellFormed(y.state, y.active[root][0]);
    }
  }

  lemma BegunInPlace(y: System, root: Dataset, plan: Result<seq<Write>>, supplied: set<(Mark, nat)>)
    requires InPlace(y)
    requires plan.Ok? ==> root in y.state.authority && forall i :: 0 <= i < |plan.value| ==> Placed(plan.value[i], root)
    ensures InPlace(Begun(y, root, plan, supplied))
  {}

  lemma AdvancedInPlace(y: System, root: Dataset)
    requires InPlace(y)
    ensures InPlace(Advanced(y, root))
  {
    if root in y.active && y.active[root] != [] {
      var rest := y.active[root][1..];
      assert forall i :: 0 <= i < |rest| ==> rest[i] == y.active[root][i + 1];
    }
  }

  lemma StepInPlace(y: System, e: Event)
    requires Sound(y)
    ensures InPlace(Step(y, e)) && WellFormed(Step(y, e).state)
  {
    match e
    case Begin(root, op) =>
      if Free(y, root) {
        if Plan(y.state, root, op).Ok? {
          BeginSound(y, root, op);
        }
        BegunInPlace(y, root, Plan(y.state, root, op), Supplied(op));
      }
    case Advance(root) =>
      AdvancedInPlace(y, root);
      AdvancedWellFormed(y, root);
    case Abandon(root) =>
    case Crash =>
  }

  lemma StepSound(y: System, e: Event)
    requires Sound(y)
    ensures Sound(Step(y, e))
  {
    StepAuthority(y, e);
    StepInPlace(y, e);
    var z := Step(y, e);
    forall r | r in z.state.authority
      ensures Throughout(Coverage, z.state, r, Remaining(z, r)) && Throughout(Logged(z.log), z.state, r, Remaining(z, r))
    {
      StepClaims(y, e, r);
    }
  }

  lemma BeginSound(y: System, root: Dataset, op: Op)
    requires Sound(y) && Free(y, root) && Plan(y.state, root, op).Ok?
    ensures root in y.state.authority
    ensures var ws := Plan(y.state, root, op).value;
            && (forall i :: 0 <= i < |ws| ==> Placed(ws[i], root))
            && Throughout(Coverage, y.state, root, ws)
            && Throughout(Logged(y.log + Supplied(op)), y.state, root, ws)
  {
    assert root in y.state.authority by { PlanNeedsAuthority(y.state, root, op); }
    assert Covered(y.state, root);
    PlanPlaced(y.state, root, op);
    PlanCovered(y.state, root, op);
    assert Claimed(Logged(y.log), y.state, root);
    PlanLogged(y.state, root, op, Logged(y.log + Supplied(op)));
  }

  lemma PlanNeedsAuthority(s: State, root: Dataset, op: Op)
    requires Plan(s, root, op).Ok?
    ensures root in s.authority
  {
  }

  lemma {:induction false} RunSound(y: System, es: seq<Event>)
    requires Sound(y)
    ensures Sound(Run(y, es))
    decreases |es|
  {
    if es != [] {
      RunSound(y, es[..|es| - 1]);
      StepSound(Run(y, es[..|es| - 1]), es[|es| - 1]);
    }
  }

  /** A system with no operation in flight and nothing protected yet. */
  predicate Fresh(y: System) {
    y.active == map[] && (forall h :: h in y.state.holds ==> !h.tag.Target?) && y.state.marks == map[] && y.log == {}
  }

  /** In every run, at every write and crash: each hold and checkpoint bookmark
      is accounted for by a stored record, and each bookmark carries a GUID that
      a checkpoint call supplied as verified on the destination. */
  lemma ProofsAlwaysCover(y: System, es: seq<Event>, root: Dataset)
    requires WellFormed(y.state) && Fresh(y) && root in y.state.authority
    ensures Covered(Run(y, es).state, root)
    ensures forall mk :: mk in Run(y, es).state.marks && Inside(mk.dataset, root) ==>
              (mk, Run(y, es).state.marks[mk]) in Run(y, es).log
  {
    RunSound(y, es);
    RunAuthority(y, es);
    assert Throughout(Coverage, Run(y, es).state, root, Remaining(Run(y, es), root));
    assert Throughout(Logged(Run(y, es).log), Run(y, es).state, root, Remaining(Run(y, es), root));
  }

  lemma StepAuthority(y: System, e: Event)
    ensures Step(y, e).state.authority == y.state.authority && Step(y, e).state.datasets == y.state.datasets
  {
    match e
    case Begin(root, op) => assert Step(y, e).state == y.state;
    case Advance(root) =>
    case Abandon(root) =>
    case Crash =>
  }

  lemma {:induction false} RunAuthority(y: System, es: seq<Event>)
    ensures Run(y, es).state.authority == y.state.authority && Run(y, es).state.datasets == y.state.datasets
    decreases |es|
  {
    if es != [] {
      RunAuthority(y, es[..|es| - 1]);
      StepAuthority(Run(y, es[..|es| - 1]), es[|es| - 1]);
    }
  }

  /** Once held under a proof, a source stays held or bookmarked with the same
      GUID through every run that releases no proof covering it. */
  lemma {:induction false} AnchoredUntilReleased(y: System, es: seq<Event>, root: Dataset, c: Claim)
    requires Sound(y) && root in y.state.authority && c.Anchor? && Throughout(c, y.state, root, Remaining(y, root))
    requires forall i :: 0 <= i < |es| ==> !(es[i].Begin? && es[i].root == root && Retires(es[i].op, c))
    ensures Throughout(c, Run(y, es).state, root, Remaining(Run(y, es), root))
    decreases |es|
  {
    if es != [] {
      var init, e := es[..|es| - 1], es[|es| - 1];
      AnchoredUntilReleased(y, init, root, c);
      RunSound(y, init);
      RunAuthority(y, init);
      var z := Run(y, init);
      if e.Begin? && e.root == root {
        if Free(z, root) && Plan(z.state, root, e.op).Ok? {
          PlanSpares(z.state, root, e.op, c);
        }
      } else {
        OtherEvents(z, e, c, root);
      }
    }
  }
}
