/** Exactly which roots migrate and which are blocked, read off their records:
    an account that names none of the steps of migration. */
module Upgrade {
  import opened Names
  import opened Zfs
  import opened Migrate
  import Proofs

  /** A source as v1 lists it for the proof `r`: of its endpoint, within its
      stream, and contradicted by nothing that still exists. */
  predicate Listed(s: State, r: Proofs.Reference, src: V1Source) {
    && src.guid != 0 && src.meta == r.meta && Inside(src.dataset, r.dataset)
    && (var id := SnapId(src.dataset, Stamped(r.meta.created, r.meta.snapshot.short)); id in s.snaps ==> s.snaps[id].guid == src.guid)
    && (var mk := Zfs.Mark(src.dataset, r.target, r.meta.snapshot); mk in s.marks ==> s.marks[mk] == src.guid)
  }

  /** The record is the v1 form of the proof `r` under the root. */
  predicate Fits(c: Scope, row: Row, r: Proofs.Reference) {
    && row.value.V1Proof? && row.value.target == Some(r.target) && row.value.dataset == r.dataset && row.value.meta == r.meta
    && row.prop == Prop.Proof(r.target, r.dataset, r.meta.snapshot)
    && c.lineage == Some(r.meta.lineage) && r.meta.created != 0 && Inside(r.dataset, c.name)
    && row.value.sources != [] && row.value.sources[0].dataset == r.dataset && r.recursive == (|row.value.sources| > 1)
    && forall src :: src in row.value.sources ==> Listed(c.objects, r, src)
  }

  /** The record is a v1 binding, complete and under its own key. */
  predicate FitsBinding(row: Row) {
    && row.value.V1Binding? && row.value.version == 1 && row.prop == Prop.Binding(row.value.canonical)
    && row.value.pool != 0 && row.value.anchorGuid != 0 && Inside(row.value.mapped, row.value.anchor)
  }

  /** A proof in v2 that its key agrees with. */
  predicate Reads(c: Scope, row: Row) {
    && row.prop.Proof? && row.value.V2Proof? && c.lineage.Some?
    && row.value.record.created > 0 && c.name + row.value.record.relative == row.prop.stream
  }

  /** The record is in v2 already, or in v1 and can be migrated, or of no concern. */
  ghost predicate Sound(c: Scope, row: Row) {
    match row.prop
    case Proof(_, _, _) => Reads(c, row) || exists r :: Fits(c, row, r) && r.meta.created > 0
    case OddProof(_) => false
    case Binding(_) => row.value.V2Binding? || FitsBinding(row)
    case OddBinding(_) => row.value.V2Binding?
    case Suspended(_) => true
    case Plain(_) => true
  }

  /** The root holds something of the product's. */
  predicate Holds(root: Root) {
    root.owner || exists i :: 0 <= i < |root.rows| && !root.rows[i].prop.Plain?
  }

  lemma ListedExact(c: Scope, r: Proofs.Reference, src: V1Source)
    ensures Listed(c.objects, r, src) <==> src.guid != 0 && src.meta == r.meta && Inside(src.dataset, r.dataset) && Agrees(c.objects, r.target, r.meta, src)
  {}

  lemma FitsAccepted(c: Scope, row: Row, r: Proofs.Reference)
    requires Fits(c, row, r)
    ensures MigrateProof(c, row) == Ok(Some(V2Proof(Proofs.Encode(c.name, r))))
  {
    var sources := row.value.sources;
    forall i | 0 <= i < |sources|
      ensures sources[i].guid != 0 && sources[i].meta == r.meta && Inside(sources[i].dataset, r.dataset) && Agrees(c.objects, r.target, r.meta, sources[i])
    {
      assert sources[i] in sources;
      ListedExact(c, r, sources[i]);
    }
  }

  lemma AcceptedFits(c: Scope, row: Row)
    requires row.value.V1Proof? && MigrateProof(c, row).Ok?
    ensures row.value.target.Some? && Fits(c, row, Proofs.Reference(row.value.target.value, row.value.dataset, row.value.meta, |row.value.sources| > 1))
  {
    var r := Proofs.Reference(row.value.target.value, row.value.dataset, row.value.meta, |row.value.sources| > 1);
    forall src | src in row.value.sources ensures Listed(c.objects, r, src) {
      var i :| 0 <= i < |row.value.sources| && row.value.sources[i] == src;
      ListedExact(c, r, row.value.sources[i]);
    }
  }

  /** A v1 proof migrates exactly when it fits a proof, and becomes that proof's record. */
  lemma ProofMigratesExactly(c: Scope, row: Row, v: Value)
    ensures MigrateProof(c, row) == Ok(Some(v)) <==> exists r :: Fits(c, row, r) && v == V2Proof(Proofs.Encode(c.name, r))
  {
    if MigrateProof(c, row) == Ok(Some(v)) {
      AcceptedFits(c, row);
      FitsAccepted(c, row, Proofs.Reference(row.value.target.value, row.value.dataset, row.value.meta, |row.value.sources| > 1));
    }
    if r :| Fits(c, row, r) && v == V2Proof(Proofs.Encode(c.name, r)) {
      FitsAccepted(c, row, r);
    }
  }

  lemma FittedSound(c: Scope, row: Row)
    requires row.prop.Proof? && row.value.V1Proof?
    ensures (exists r :: Fits(c, row, r) && r.meta.created > 0) <==>
              V1ToV2(c)(row).Ok? && ReadsProof(c, Rewritten(V1ToV2(c), row))
  {
    if V1ToV2(c)(row).Ok? {
      AcceptedFits(c, row);
      MigratedReads(c, row);
    }
    if r :| Fits(c, row, r) {
      FitsAccepted(c, row, r);
    }
  }

  lemma SoundExact(c: Scope, row: Row)
    ensures Sound(c, row) <==> V1ToV2(c)(row).Ok? && ReadsProof(c, Rewritten(V1ToV2(c), row))
  {
    if row.prop.Proof? && row.value.V1Proof? { FittedSound(c, row); }
  }

  lemma AllSoundExact(c: Scope, rows: seq<Row>)
    ensures (forall i :: 0 <= i < |rows| ==> Sound(c, rows[i])) <==> Migratable(V1ToV2(c), rows) && ReadsProofs(c, AllRewritten(V1ToV2(c), rows))
  {
    forall i | 0 <= i < |rows|
      ensures Sound(c, rows[i]) <==> V1ToV2(c)(rows[i]).Ok? && ReadsProof(c, AllRewritten(V1ToV2(c), rows)[i])
    {
      SoundExact(c, rows[i]);
    }
  }

  /** A root is migrated exactly when it is in the first format, holds something
      of the product's and every record is sound; it is blocked exactly when its
      marker is unreadable or of a later format, or a record is not sound. */
  lemma PlannedExactly(root: Root)
    ensures var status := PlanRoot(root).status;
            var first := root.marker == Absent || root.marker == Version(1);
            var sound := forall i :: 0 <= i < |root.rows| ==> Sound(root.scope, root.rows[i]);
            && (status == Pending <==> first && Holds(root) && sound)
            && (status == Unmanaged <==> first && !Holds(root))
            && (status == Current <==> root.marker == Version(2))
            && (status == Blocked <==> root.marker == Invalid || root.marker == Version(0) || (root.marker.Version? && root.marker.n > 2) || (first && Holds(root) && !sound))
  {
    AllSoundExact(root.scope, root.rows);
  }

  /** A binding keeps its pool, dataset and anchor exactly when it fits. */
  lemma BindingMigratesExactly(row: Row, v: Value)
    ensures MigrateBinding(row) == Ok(Some(v)) <==>
              && FitsBinding(row) && v.V2Binding? && v.pool == row.value.pool && v.mapped == row.value.mapped && v.anchorGuid == row.value.anchorGuid
              && v.elsewhere == (if row.value.anchor == row.value.mapped then None else Some(row.value.anchor))
  {}

  // ---------------------------------------------------------------- each write

  lemma {:induction false} LocalExactly(rows: seq<Row>, prop: Prop, value: Value)
    requires Unique(rows)
    ensures LocalValue(rows, prop) == Some(value) <==> Row(prop, value) in rows
  {
    if rows != [] {
      assert rows == [rows[0]] + rows[1..];
      LocalExactly(rows[1..], prop, value);
      if Row(prop, value) in rows[1..] {
        var i :| 0 < i < |rows| && rows[i] == Row(prop, value);
        assert rows[0].prop != prop;
      }
    }
  }

  /** A write goes ahead exactly when the record still has the value that was
      read, and counts as done exactly when its own value is there afterwards. */
  lemma WriteReadsExactly(root: Root, prop: Prop, previous: Value, value: Value)
    requires Unique(root.rows)
    ensures Ready(root, Rewrite(prop, previous, value)) <==> Row(prop, previous) in root.rows
    ensures Shows(root, Rewrite(prop, previous, value)) <==> Row(prop, value) in root.rows
  {
    LocalExactly(root.rows, prop, previous);
    LocalExactly(root.rows, prop, value);
  }
}
