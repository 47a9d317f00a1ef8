/** Migration of one root's state from format v1 to format v2.

    A plan lists one rewrite for each record still in v1, in order of property
    name, and the version marker last. Only the values of proofs and bindings
    differ between the formats. `rows` are the root's own local records in
    order of name; a record is a value of one of the two formats or of neither. */
module Migrate {
  import opened Names
  import opened Zfs
  import Proofs

  const CURRENT := 2

  /** Property names. An odd one has the prefix but not the form of its kind. */
  datatype Prop =
    | Proof(target: nat, stream: Dataset, snapshot: UUID)
    | OddProof(text: string)
    | Binding(target: nat)
    | OddBinding(text: string)
    | Suspended(target: nat)
    | Plain(text: string)

  datatype V1Source = V1Source(dataset: Dataset, guid: nat, meta: Metadata)

  /** A v1 proof's or binding's target is absent when its text is empty. */
  datatype Value =
    | V1Proof(target: Option<nat>, dataset: Dataset, meta: Metadata, sources: seq<V1Source>)
    | V2Proof(record: Record)
    | V1Binding(version: int, canonical: nat, mapped: Dataset, pool: nat, anchor: Dataset, anchorGuid: nat)
    | V2Binding(pool: nat, mapped: Dataset, anchorGuid: nat, elsewhere: Option<Dataset>)
    | Unknown(text: string)

  datatype Row = Row(prop: Prop, value: Value)

  datatype Marker = Absent | Version(n: nat) | Invalid

  /** What migrating a record depends on. */
  datatype Scope = Scope(name: Dataset, lineage: Option<nat>, objects: State)

  datatype Root = Root(scope: Scope, rows: seq<Row>, marker: Marker, owner: bool)

  type Step = Row -> Result<Option<Value>>

  predicate Unique(rows: seq<Row>) {
    forall i, j :: 0 <= i < j < |rows| ==> rows[i].prop != rows[j].prop
  }

  // One record.

  predicate Agrees(s: State, target: nat, m: Metadata, src: V1Source) {
    var id, mk := SnapId(src.dataset, NameOf(m)), Mark(src.dataset, target, m.snapshot);
    (id in s.snaps ==> s.snaps[id].guid == src.guid) && (mk in s.marks ==> s.marks[mk] == src.guid)
  }

  /** The v2 form of a v1 proof; nothing for one already in v2. */
  function MigrateProof(c: Scope, row: Row): Result<Option<Value>> {
    match row.value
    case V2Proof(_) => Ok(None)
    case V1Proof(target, dataset, m, sources) =>
      if c.lineage != Some(m.lineage) then Err("proof is not of the root's lineage")
      else if target.None? || m.created == 0 || !Inside(dataset, c.name) then Err("proof is incomplete")
      else if row.prop != Proof(target.value, dataset, m.snapshot) then Err("proof does not match its key")
      else if sources == [] || sources[0].dataset != dataset then Err("proof does not lead with its stream's snapshot")
      else if exists i :: 0 <= i < |sources| && (sources[i].guid == 0 || sources[i].meta != m || !Inside(sources[i].dataset, dataset)) then Err("source is not of the proof's endpoint")
      else if exists i :: 0 <= i < |sources| && !Agrees(c.objects, target.value, m, sources[i]) then Err("object has another GUID than the proof recorded")
      else Ok(Some(V2Proof(Record(dataset[|c.name|..], m.created, |sources| > 1))))
    case _ => Err("proof is in neither format v1 nor v2")
  }

  function MigrateBinding(row: Row): Result<Option<Value>> {
    match row.value
    case V2Binding(_, _, _, _) => Ok(None)
    case V1Binding(version, canonical, mapped, pool, anchor, anchorGuid) =>
      if version != 1 then Err("binding is not format v1")
      else if row.prop != Binding(canonical) then Err("binding does not match its key")
      else if pool == 0 || anchorGuid == 0 || !Inside(mapped, anchor) then Err("binding is incomplete")
      else Ok(Some(V2Binding(pool, mapped, anchorGuid, if anchor == mapped then None else Some(anchor))))
    case _ => Err("binding is in neither format v1 nor v2")
  }

  function MigrateRow(c: Scope, row: Row): Result<Option<Value>> {
    match row.prop
    case Proof(_, _, _) => MigrateProof(c, row)
    case OddProof(_) => MigrateProof(c, row)
    case Binding(_) => MigrateBinding(row)
    case OddBinding(_) => MigrateBinding(row)
    case Suspended(_) => Ok(None)
    case Plain(_) => Ok(None)
  }

  /** The step as a function of the record alone. */
  function V1ToV2(c: Scope): Step {
    row => MigrateRow(c, row)
  }

  // The plan.

  datatype Action = Rewrite(prop: Prop, previous: Value, value: Value) | Mark2

  function Needed(f: Step, row: Row): seq<Action> {
    if f(row).Ok? && f(row).value.Some? then [Rewrite(row.prop, row.value, f(row).value.value)] else []
  }

  function Actions(f: Step, rows: seq<Row>): seq<Action> {
    if rows == [] then [] else Actions(f, rows[..|rows| - 1]) + Needed(f, rows[|rows| - 1])
  }

  predicate Migratable(f: Step, rows: seq<Row>) {
    forall i :: 0 <= i < |rows| ==> f(rows[i]).Ok?
  }

  function Rewritten(f: Step, row: Row): Row {
    if f(row).Ok? && f(row).value.Some? then row.(value := f(row).value.value) else row
  }

  function AllRewritten(f: Step, rows: seq<Row>): seq<Row> {
    seq(|rows|, i requires 0 <= i < |rows| => Rewritten(f, rows[i]))
  }

  /** The current format reads a proof: its key and value name one stream, in the root's lineage. */
  predicate ReadsProof(c: Scope, row: Row) {
    match row.prop
    case Proof(_, stream, _) =>
      c.lineage.Some? && row.value.V2Proof? && row.value.record.created > 0 && c.name + row.value.record.relative == stream
    case OddProof(_) => false
    case _ => true
  }

  predicate ReadsProofs(c: Scope, rows: seq<Row>) {
    forall i :: 0 <= i < |rows| ==> ReadsProof(c, rows[i])
  }

  predicate Managed(root: Root) {
    root.owner || exists i :: 0 <= i < |root.rows| && !root.rows[i].prop.Plain?
  }

  /** A root without a marker is in the first format. */
  function StateVersion(root: Root): Option<nat> {
    match root.marker
    case Absent => Some(1)
    case Version(n) => if n < 1 then None else Some(n)
    case Invalid => None
  }

  datatype Status = Unmanaged | Current | Pending | Blocked

  datatype Plan = Plan(status: Status, from: nat, actions: seq<Action>)

  function PlanRoot(root: Root): Plan {
    var version, f := StateVersion(root), V1ToV2(root.scope);
    if version.None? then Plan(Blocked, 0, [])
    else if version.value > CURRENT then Plan(Blocked, version.value, [])
    else if version.value == CURRENT then Plan(Current, version.value, [])
    else if !Managed(root) then Plan(Unmanaged, 0, [])
    else if !Migratable(f, root.rows) then Plan(Blocked, version.value, Actions(f, root.rows))
    else if !ReadsProofs(root.scope, AllRewritten(f, root.rows)) then Plan(Blocked, version.value, Actions(f, root.rows) + [Mark2])
    else Plan(Pending, version.value, Actions(f, root.rows) + [Mark2])
  }

  /** The loop over the records: a rewrite for each in v1, and whether any is refused. */
  method CollectActions(c: Scope, rows: seq<Row>) returns (actions: seq<Action>, blocked: bool)
    ensures actions == Actions(V1ToV2(c), rows) && blocked == !Migratable(V1ToV2(c), rows)
  {
    actions, blocked := [], false;
    for i := 0 to |rows|
      invariant actions == Actions(V1ToV2(c), rows[..i]) && blocked == !Migratable(V1ToV2(c), rows[..i])
    {
      assert rows[..i + 1][..i] == rows[..i];
      var r := V1ToV2(c)(rows[i]);
      if r.Err? {
        assert rows[..i + 1][i] == rows[i];
        blocked := true;
      } else if r.value.Some? {
        actions := actions + [Rewrite(rows[i].prop, rows[i].value, r.value.value)];
      }
    }
    assert rows[..|rows|] == rows;
  }

  // The writes.

  function Replace(rows: seq<Row>, prop: Prop, value: Value): seq<Row> {
    seq(|rows|, i requires 0 <= i < |rows| => if rows[i].prop == prop then Row(prop, value) else rows[i])
  }

  function Written(root: Root, a: Action): Root {
    match a
    case Rewrite(prop, _, value) => root.(rows := Replace(root.rows, prop, value))
    case Mark2 => root.(marker := Version(CURRENT))
  }

  function After(root: Root, actions: seq<Action>): Root {
    if actions == [] then root else Written(After(root, actions[..|actions| - 1]), actions[|actions| - 1])
  }

  /** A rewritten record needs nothing more. */
  ghost predicate Idempotent(f: Step) {
    forall row :: f(row).Ok? ==> f(Rewritten(f, row)) == Ok(None)
  }

  lemma RewrittenIsDone(c: Scope, row: Row)
    requires MigrateRow(c, row).Ok?
    ensures MigrateRow(c, if MigrateRow(c, row).value.Some? then row.(value := MigrateRow(c, row).value.value) else row) == Ok(None)
  {}

  lemma V1ToV2Idempotent(c: Scope)
    ensures Idempotent(V1ToV2(c))
  {
    forall row | V1ToV2(c)(row).Ok? ensures V1ToV2(c)(Rewritten(V1ToV2(c), row)) == Ok(None) {
      RewrittenIsDone(c, row);
    }
  }

  /** The first `p` records rewritten. */
  function Halfway(f: Step, rows: seq<Row>, p: nat): seq<Row>
    requires p <= |rows|
  {
    AllRewritten(f, rows[..p]) + rows[p..]
  }

  lemma {:induction false} ActionsJoin(f: Step, a: seq<Row>, b: seq<Row>)
    ensures Actions(f, a + b) == Actions(f, a) + Actions(f, b)
    decreases |b|
  {
    if b == [] {
      assert a + b == a;
    } else {
      var front, last := b[..|b| - 1], b[|b| - 1];
      assert a + b == (a + front) + [last] && b == front + [last];
      ActionsJoin(f, a, front);
      ActionsAppend(f, a + front, last);
      ActionsAppend(f, front, last);
      JoinAssociates(Actions(f, a), Actions(f, front), Needed(f, last));
    }
  }

  lemma ActionsAppend(f: Step, rows: seq<Row>, last: Row)
    ensures Actions(f, rows + [last]) == Actions(f, rows) + Needed(f, last)
  {
    assert (rows + [last])[..|rows|] == rows;
  }

  lemma JoinAssociates(a: seq<Action>, b: seq<Action>, c: seq<Action>)
    ensures a + b + c == a + (b + c)
  {}

  lemma {:induction false} DoneNeedsNothing(f: Step, rows: seq<Row>)
    requires Idempotent(f) && Migratable(f, rows)
    ensures Actions(f, AllRewritten(f, rows)) == []
  {
    if rows != [] {
      var front, all := rows[..|rows| - 1], AllRewritten(f, rows);
      DoneNeedsNothing(f, front);
      assert all[..|all| - 1] == AllRewritten(f, front);
    }
  }

  lemma HalfwayRows(f: Step, rows: seq<Row>, p: nat)
    requires Idempotent(f) && p <= |rows| && Migratable(f, rows)
    ensures var half := Halfway(f, rows, p);
      && (forall i :: 0 <= i < |rows| ==> half[i].prop == rows[i].prop)
      && Migratable(f, half) && AllRewritten(f, half) == AllRewritten(f, rows)
      && Actions(f, half) == Actions(f, rows[p..])
  {
    var half := Halfway(f, rows, p);
    forall i | 0 <= i < |rows|
      ensures half[i].prop == rows[i].prop && f(half[i]).Ok? && Rewritten(f, half[i]) == Rewritten(f, rows[i])
    {
      HalfwayRow(f, rows, p, i);
    }
    HalfwayActions(f, rows, p);
  }

  /** Each row is as it was, or rewritten, which rewriting leaves alone. */
  lemma HalfwayRow(f: Step, rows: seq<Row>, p: nat, i: nat)
    requires Idempotent(f) && p <= |rows| && i < |rows| && f(rows[i]).Ok?
    ensures var row := Halfway(f, rows, p)[i];
      row.prop == rows[i].prop && f(row).Ok? && Rewritten(f, row) == Rewritten(f, rows[i])
  {
    assert Halfway(f, rows, p)[i] == if i < p then Rewritten(f, rows[i]) else rows[i];
  }

  lemma HalfwayActions(f: Step, rows: seq<Row>, p: nat)
    requires Idempotent(f) && p <= |rows| && Migratable(f, rows)
    ensures Actions(f, Halfway(f, rows, p)) == Actions(f, rows[p..])
  {
    ActionsJoin(f, AllRewritten(f, rows[..p]), rows[p..]);
    DoneNeedsNothing(f, rows[..p]);
  }

  /** Writing a record's rewrite moves halfway on by one record. */
  lemma WriteNext(f: Step, rows: seq<Row>, p: nat)
    requires Unique(rows) && p < |rows|
    ensures if Needed(f, rows[p]) == [] then Halfway(f, rows, p + 1) == Halfway(f, rows, p)
      else Replace(Halfway(f, rows, p), rows[p].prop, Needed(f, rows[p])[0].value) == Halfway(f, rows, p + 1)
  {
    var half, next := Halfway(f, rows, p), Halfway(f, rows, p + 1);
    forall i | 0 <= i < |rows| ensures next[i] == if i <= p then Rewritten(f, rows[i]) else rows[i] {}
    forall i | 0 <= i < |rows| ensures half[i] == if i < p then Rewritten(f, rows[i]) else rows[i] {}
    if Needed(f, rows[p]) == [] {
      assert half == next;
    } else {
      assert Replace(half, rows[p].prop, Needed(f, rows[p])[0].value) == next;
    }
  }

  lemma ActionsFirst(f: Step, rows: seq<Row>, p: nat)
    requires p < |rows|
    ensures Actions(f, rows[p..]) == Needed(f, rows[p]) + Actions(f, rows[p + 1..])
  {
    assert rows[p..] == [rows[p]] + rows[p + 1..];
    ActionsJoin(f, [rows[p]], rows[p + 1..]);
    assert [rows[p]][..0] == [] && Actions(f, [rows[p]]) == Actions(f, []) + Needed(f, rows[p]);
  }

  lemma AfterOne(root: Root, actions: seq<Action>, k: nat)
    requires 0 < k <= |actions|
    ensures After(root, actions[..k]) == Written(After(root, actions[..k - 1]), actions[k - 1])
    ensures actions[k - 1..] == [actions[k - 1]] + actions[k..]
  {
    assert actions[..k][..k - 1] == actions[..k - 1];
  }

  lemma OneMore(f: Step, root: Root, p: nat)
    requires Unique(root.rows) && p < |root.rows| && Needed(f, root.rows[p]) != []
    ensures var a := Needed(f, root.rows[p])[0];
      && Actions(f, root.rows[p..]) == [a] + Actions(f, root.rows[p + 1..])
      && Written(root.(rows := Halfway(f, root.rows, p)), a) == root.(rows := Halfway(f, root.rows, p + 1))
  {
    ActionsFirst(f, root.rows, p);
    WriteNext(f, root.rows, p);
  }

  /** After the first `k` writes the first `p` records are rewritten, and what
      is left to do is the rewrites of the others. */
  ghost predicate Reached(f: Step, root: Root, actions: seq<Action>, k: nat, p: nat)
    requires k <= |actions|
  {
    p <= |root.rows| && After(root, actions[..k]) == root.(rows := Halfway(f, root.rows, p)) && Actions(f, root.rows[p..]) == actions[k..]
  }

  lemma ReachNext(f: Step, root: Root, actions: seq<Action>, k: nat, p: nat)
    requires Unique(root.rows) && k < |actions| && Reached(f, root, actions, k, p) && p < |root.rows| && Needed(f, root.rows[p]) != []
    ensures Reached(f, root, actions, k + 1, p + 1)
  {
    AfterOne(root, actions, k + 1);
    OneMore(f, root, p);
    assert actions[k..][0] == actions[k] && actions[k..][1..] == actions[k + 1..];
    var rest := Actions(f, root.rows[p + 1..]);
    assert ([Needed(f, root.rows[p])[0]] + rest)[1..] == rest;
  }

  lemma ReachSkip(f: Step, root: Root, actions: seq<Action>, k: nat, p: nat) returns (q: nat)
    requires Unique(root.rows) && k < |actions| && Reached(f, root, actions, k, p)
    ensures Reached(f, root, actions, k, q) && q < |root.rows| && Needed(f, root.rows[q]) != []
  {
    assert |actions[k..]| > 0;
    q := SkipTo(f, root.rows, p);
  }

  lemma ReachStart(f: Step, root: Root)
    ensures Reached(f, root, Actions(f, root.rows), 0, 0)
  {
    assert root.rows[0..] == root.rows && Halfway(f, root.rows, 0) == root.rows;
    assert Actions(f, root.rows)[..0] == [] && Actions(f, root.rows)[0..] == Actions(f, root.rows);
  }

  /** Wherever the writes stop, some number of records is rewritten. */
  lemma {:induction false} AfterIsHalfway(f: Step, root: Root, k: nat) returns (p: nat)
    requires Unique(root.rows) && k <= |Actions(f, root.rows)|
    ensures Reached(f, root, Actions(f, root.rows), k, p)
  {
    if k == 0 {
      ReachStart(f, root);
      p := 0;
    } else {
      var before := AfterIsHalfway(f, root, k - 1);
      var q := ReachSkip(f, root, Actions(f, root.rows), k - 1, before);
      ReachNext(f, root, Actions(f, root.rows), k - 1, q);
      p := q + 1;
    }
  }

  /** Skips the records that need nothing. */
  lemma {:induction false} SkipTo(f: Step, rows: seq<Row>, p: nat) returns (q: nat)
    requires Unique(rows) && p <= |rows| && Actions(f, rows[p..]) != []
    ensures p <= q < |rows| && Needed(f, rows[q]) != [] && Halfway(f, rows, q) == Halfway(f, rows, p)
    ensures Actions(f, rows[q..]) == Actions(f, rows[p..])
    decreases |rows| - p
  {
    assert |rows[p..]| > 0;
    ActionsFirst(f, rows, p);
    if Needed(f, rows[p]) != [] {
      q := p;
    } else {
      WriteNext(f, rows, p);
      q := SkipTo(f, rows, p + 1);
    }
  }

  lemma PendingMeans(root: Root)
    ensures var f := V1ToV2(root.scope);
      PlanRoot(root).status == Pending <==>
        StateVersion(root) == Some(1) && Managed(root) && Migratable(f, root.rows) && ReadsProofs(root.scope, AllRewritten(f, root.rows))
    ensures PlanRoot(root).status == Pending ==> PlanRoot(root) == Plan(Pending, 1, Actions(V1ToV2(root.scope), root.rows) + [Mark2])
  {}

  /** Halfway through, the plan is what is left of the first plan. */
  lemma HalfwayPlan(root: Root, p: nat)
    requires p <= |root.rows| && PlanRoot(root).status == Pending
    ensures var f := V1ToV2(root.scope);
      PlanRoot(root.(rows := Halfway(f, root.rows, p))) == Plan(Pending, 1, Actions(f, root.rows[p..]) + [Mark2])
  {
    var f := V1ToV2(root.scope);
    var half := root.(rows := Halfway(f, root.rows, p));
    V1ToV2Idempotent(root.scope);
    PendingMeans(root);
    PendingMeans(half);
    HalfwayRows(f, root.rows, p);
    SameProps(root, half);
  }

  /** Version and management depend on the scope's own state and which
      properties there are. */
  lemma SameProps(a: Root, b: Root)
    requires b == a.(rows := b.rows) && |b.rows| == |a.rows| && forall i :: 0 <= i < |a.rows| ==> b.rows[i].prop == a.rows[i].prop
    ensures StateVersion(b) == StateVersion(a) && (Managed(a) ==> Managed(b))
  {
    if i :| 0 <= i < |a.rows| && !a.rows[i].prop.Plain? {
      assert !b.rows[i].prop.Plain?;
    }
  }

  /** Stopped after any number of writes short of the marker, the root still
      reads as its old format, and planning again gives exactly the writes that
      are left. */
  lemma InterruptedConverges(root: Root, k: nat)
    requires Unique(root.rows) && PlanRoot(root).status == Pending && k < |PlanRoot(root).actions|
    ensures var actions := PlanRoot(root).actions; var left := After(root, actions[..k]);
      && StateVersion(left) == StateVersion(root) == Some(1)
      && PlanRoot(left) == Plan(Pending, PlanRoot(root).from, actions[k..])
  {
    var f := V1ToV2(root.scope);
    var actions, rewrites := PlanRoot(root).actions, Actions(f, root.rows);
    PendingMeans(root);
    assert actions[..k] == rewrites[..k];
    var p := AfterIsHalfway(f, root, k);
    HalfwayPlan(root, p);
    assert actions[k..] == rewrites[k..] + [Mark2];
  }

  /** With every write made, the root reads as the current format, its proofs
      all read, and planning again gives nothing. */
  lemma CompletedIsCurrent(root: Root)
    requires Unique(root.rows) && PlanRoot(root).status == Pending
    ensures var done := After(root, PlanRoot(root).actions);
      && done == root.(rows := AllRewritten(V1ToV2(root.scope), root.rows), marker := Version(CURRENT))
      && PlanRoot(done) == Plan(Current, CURRENT, [])
      && ReadsProofs(done.scope, done.rows)
  {
    var f := V1ToV2(root.scope);
    PendingMeans(root);
    CompletedIs(f, root);
    MarkedIsCurrent(root.(rows := AllRewritten(f, root.rows), marker := Version(CURRENT)));
  }

  lemma MarkedIsCurrent(root: Root)
    requires root.marker == Version(CURRENT)
    ensures PlanRoot(root) == Plan(Current, CURRENT, [])
  {}

  lemma CompletedIs(f: Step, root: Root)
    requires Unique(root.rows)
    ensures After(root, Actions(f, root.rows) + [Mark2]) == root.(rows := AllRewritten(f, root.rows), marker := Version(CURRENT))
  {
    RewritesDone(f, root);
    AfterMark(root, Actions(f, root.rows));
  }

  /** All rewrites done, every row is rewritten. */
  lemma RewritesDone(f: Step, root: Root)
    requires Unique(root.rows)
    ensures After(root, Actions(f, root.rows)) == root.(rows := AllRewritten(f, root.rows))
  {
    var rewrites := Actions(f, root.rows);
    assert rewrites[..|rewrites|] == rewrites;
    var p := AfterIsHalfway(f, root, |rewrites|);
    NothingLeft(f, root.rows, p);
  }

  lemma AfterMark(root: Root, rewrites: seq<Action>)
    ensures After(root, rewrites + [Mark2]) == After(root, rewrites).(marker := Version(CURRENT))
  {
    assert (rewrites + [Mark2])[..|rewrites|] == rewrites;
  }

  lemma {:induction false} NothingLeft(f: Step, rows: seq<Row>, p: nat)
    requires Unique(rows) && p <= |rows| && Actions(f, rows[p..]) == []
    ensures Halfway(f, rows, p) == AllRewritten(f, rows)
    decreases |rows| - p
  {
    if p == |rows| {
      assert rows[..p] == rows;
    } else {
      ActionsFirst(f, rows, p);
      WriteNext(f, rows, p);
      NothingLeft(f, rows, p + 1);
    }
  }

  // What the proofs mean.

  function ReferenceOf(c: Scope, row: Row): Option<Proofs.Reference> {
    if row.prop.Proof? && row.value.V2Proof? && c.lineage.Some?
    then Proofs.Decode(Key(c.name, row.prop.target, row.prop.stream, row.prop.snapshot), row.value.record, c.lineage.value)
    else None
  }

  /** A migrated proof decodes, and covers every source its v1 form listed. */
  lemma MigratedReads(c: Scope, row: Row)
    requires row.value.V1Proof? && MigrateProof(c, row).Ok?
    ensures row.prop.Proof?
    ensures var r := ReferenceOf(c, Rewritten(V1ToV2(c), row));
      && r == Some(Proofs.Reference(row.prop.target, row.value.dataset, row.value.meta, |row.value.sources| > 1))
      && forall i :: 0 <= i < |row.value.sources| ==> Proofs.Covers(r.value.dataset, r.value.recursive, row.value.sources[i].dataset)
  {
    assert c.name + row.value.dataset[|c.name|..] == row.value.dataset;
  }

  /** Every v1 source still held or bookmarked is derived by the current format
      with the GUID v1 recorded, whenever the derivation succeeds. */
  lemma SourcesKept(c: Scope, row: Row, i: nat)
    requires row.value.V1Proof? && MigrateProof(c, row).Ok? && i < |row.value.sources|
    requires row.value.sources[i].dataset in c.objects.datasets
    ensures var r := ReferenceOf(c, Rewritten(V1ToV2(c), row)); var src := row.value.sources[i];
      && r.Some?
      && (Proofs.Sources(c.objects, r.value).Ok? && (Proofs.HoldOf(r.value, src.dataset) in c.objects.holds || Proofs.MarkOf(r.value, src.dataset) in c.objects.marks) ==>
            Proofs.Source(src.dataset, src.guid) in Proofs.Sources(c.objects, r.value).value)
  {
    MigratedReads(c, row);
    var r, src := ReferenceOf(c, Rewritten(V1ToV2(c), row)).value, row.value.sources[i];
    assert Agrees(c.objects, r.target, r.meta, src);
    if Proofs.Sources(c.objects, r).Ok? {
      Proofs.SourcesExact(c.objects, r, c.objects.datasets);
    }
  }

  /** Where a v2 binding is anchored: the mapped dataset, unless it names another. */
  function AnchorOf(v: Value): Dataset
    requires v.V2Binding?
  {
    if v.elsewhere.Some? then v.elsewhere.value else v.mapped
  }

  /** A migrated binding binds the same pool, mapped dataset and anchor. */
  lemma BindingKept(row: Row)
    requires row.value.V1Binding? && MigrateBinding(row).Ok?
    ensures var r := MigrateBinding(row).value;
      && r.Some? && r.value.V2Binding? && row.prop == Binding(row.value.canonical)
      && r.value.pool == row.value.pool && r.value.mapped == row.value.mapped
      && AnchorOf(r.value) == row.value.anchor && r.value.anchorGuid == row.value.anchorGuid
      && (r.value.elsewhere.Some? ==> r.value.elsewhere.value != r.value.mapped)
  {}

  // Applying.

  function LocalValue(rows: seq<Row>, prop: Prop): Option<Value> {
    if rows == [] then None
    else if rows[0].prop == prop then Some(rows[0].value)
    else LocalValue(rows[1..], prop)
  }

  lemma {:induction false} LocalIs(rows: seq<Row>, i: nat)
    requires Unique(rows) && i < |rows|
    ensures LocalValue(rows, rows[i].prop) == Some(rows[i].value)
  {
    if i > 0 {
      assert Unique(rows[1..]);
      LocalIs(rows[1..], i - 1);
    }
  }

  /** What each write finds and leaves: the value the plan read, then its own. */
  predicate Ready(root: Root, a: Action) {
    match a
    case Rewrite(prop, previous, _) => LocalValue(root.rows, prop) == Some(previous)
    case Mark2 => root.marker == Absent
  }

  lemma HalfwayValue(f: Step, rows: seq<Row>, p: nat)
    requires Unique(rows) && p < |rows|
    ensures LocalValue(Halfway(f, rows, p), rows[p].prop) == Some(rows[p].value)
    ensures LocalValue(Halfway(f, rows, p + 1), rows[p].prop) == Some(Rewritten(f, rows[p]).value)
  {
    var half, next := Halfway(f, rows, p), Halfway(f, rows, p + 1);
    forall i | 0 <= i < |rows| ensures half[i].prop == rows[i].prop && next[i].prop == rows[i].prop {}
    assert half[p] == rows[p] && next[p] == Rewritten(f, rows[p]);
    LocalIs(half, p);
    LocalIs(next, p);
  }

  /** Every rewrite finds what the plan read and leaves its own value. */
  lemma RewriteIsReady(root: Root, k: nat)
    requires Unique(root.rows) && k < |Actions(V1ToV2(root.scope), root.rows)|
    ensures var actions := Actions(V1ToV2(root.scope), root.rows); var left := After(root, actions[..k]);
      actions[k].Rewrite? && Ready(left, actions[k]) && LocalValue(Written(left, actions[k]).rows, actions[k].prop) == Some(actions[k].value)
  {
    var f, rows := V1ToV2(root.scope), root.rows;
    var actions := Actions(f, rows);
    var p := AfterIsHalfway(f, root, k);
    p := SkipTo(f, rows, p);
    ActionsFirst(f, rows, p);
    assert actions[k] == actions[k..][0] == Needed(f, rows[p])[0];
    HalfwayValue(f, rows, p);
    WriteNext(f, rows, p);
  }

  /** The marker comes last, and its write finds none only when the root had none. */
  lemma MarkIsReady(root: Root)
    requires Unique(root.rows)
    ensures Ready(After(root, Actions(V1ToV2(root.scope), root.rows)), Mark2) <==> root.marker == Absent
  {
    var f := V1ToV2(root.scope);
    var actions := Actions(f, root.rows);
    assert actions[..|actions|] == actions;
    var p := AfterIsHalfway(f, root, |actions|);
  }

  /** The root's stored state, which only this process changes. */
  class Backend {
    var root: Root

    constructor (root: Root)
      ensures this.root == root
    {
      this.root := root;
    }

    /** Plans, and makes every write while each finds what the plan read. With
        nobody else writing, a pending root is migrated whole, except that one
        carrying an explicit marker of the first format is refused at the last
        write, with every record already rewritten. */
    method Apply() returns (plan: Plan, applied: nat, ok: bool)
      requires Unique(root.rows)
      modifies this
      ensures plan == PlanRoot(old(root)) && applied <= |plan.actions|
      ensures plan.status == Blocked ==> !ok && root == old(root)
      ensures plan.status == Current || plan.status == Unmanaged ==> ok && root == old(root)
      ensures plan.status == Pending ==> root == After(old(root), plan.actions[..applied])
      ensures plan.status == Pending ==> (ok <==> old(root).marker == Absent)
      ensures plan.status == Pending && ok ==> applied == |plan.actions|
      ensures plan.status == Pending && !ok ==> applied == |plan.actions| - 1
    {
      plan, applied := PlanRoot(root), 0;
      if plan.status == Blocked {
        return plan, 0, false;
      }
      while applied < |plan.actions|
        invariant applied <= |plan.actions|
        invariant root == After(old(root), plan.actions[..applied])
        invariant applied == |plan.actions| && plan.status == Pending ==> old(root).marker == Absent
      {
        var a := plan.actions[applied];
        NextWrite(old(root), applied);
        AfterOne(old(root), plan.actions, applied + 1);
        if !Ready(root, a) {
          return plan, applied, false;
        }
        root := Written(root, a);
        applied := applied + 1;
      }
      ok := true;
    }
  }

  // Applied while others write.

  /** What surrounds one write: the root as read before it, whether it succeeds,
      and the root as read after it. */
  datatype Attempt = Attempt(before: Root, done: bool, after: Root)

  /** The written value is there. */
  predicate Shows(root: Root, a: Action) {
    match a
    case Rewrite(prop, _, value) => LocalValue(root.rows, prop) == Some(value)
    case Mark2 => root.marker == Version(CURRENT)
  }

  predicate Lands(w: Attempt, a: Action) {
    Ready(w.before, a) && w.done && Shows(w.after, a)
  }

  predicate ReadyUpTo(world: nat -> Attempt, actions: seq<Action>, n: nat) {
    n <= |actions| && forall k :: 0 <= k < n ==> Ready(world(k).before, actions[k])
  }

  predicate LandedUpTo(world: nat -> Attempt, actions: seq<Action>, n: nat) {
    n <= |actions| && forall k :: 0 <= k < n ==> Lands(world(k), actions[k])
  }

  /** If the marker is among the first `n`, every rewrite has come before and landed. */
  predicate MarkAfterRewrites(world: nat -> Attempt, actions: seq<Action>, n: nat) {
    n <= |actions| && (Mark2 in actions[..n] ==> forall j :: 0 <= j < |actions| && actions[j].Rewrite? ==> j < n - 1 && Lands(world(j), actions[j]))
  }

  lemma MarkNext(world: nat -> Attempt, actions: seq<Action>, n: nat)
    requires n < |actions| && LandedUpTo(world, actions, n) && MarkAfterRewrites(world, actions, n)
    requires forall j :: 0 <= j < |actions| ==> (actions[j] == Mark2 <==> j == |actions| - 1)
    ensures MarkAfterRewrites(world, actions, n + 1)
  {
    if Mark2 in actions[..n + 1] {
      var j :| 0 <= j < n + 1 && actions[..n + 1][j] == Mark2;
      assert n == |actions| - 1;
    }
  }

  /** The second look finds the same plan. */
  predicate SamePlan(plan: Plan, again: Plan) {
    again.actions == plan.actions && again.status != Blocked && again.from == plan.from
  }

  /** Whatever else writes, each write is made on the value its plan read, and the
      marker only after every rewrite was made and read back. The run completes
      exactly when both looks agree and every write lands. */
  method ApplyAmong(first: Root, second: Root, world: nat -> Attempt) returns (plan: Plan, issued: nat, ok: bool)
    ensures plan == PlanRoot(first) && issued <= |plan.actions|
    ensures issued > 0 ==> plan.status != Blocked && SamePlan(plan, PlanRoot(second))
    ensures ReadyUpTo(world, plan.actions, issued) && (issued > 0 ==> LandedUpTo(world, plan.actions, issued - 1))
    ensures MarkAfterRewrites(world, plan.actions, issued)
    ensures ok <==> plan.status != Blocked && SamePlan(plan, PlanRoot(second)) && LandedUpTo(world, plan.actions, |plan.actions|)
  {
    plan, issued := PlanRoot(first), 0;
    var again := PlanRoot(second);
    if plan.status == Blocked || !SamePlan(plan, again) {
      return plan, 0, false;
    }
    MarkIsLast(first);
    while issued < |plan.actions|
      invariant issued <= |plan.actions| && LandedUpTo(world, plan.actions, issued) && ReadyUpTo(world, plan.actions, issued)
      invariant MarkAfterRewrites(world, plan.actions, issued)
    {
      MarkNext(world, plan.actions, issued);
      var w, a := world(issued), plan.actions[issued];
      if !Ready(w.before, a) {
        assert !Lands(world(issued), plan.actions[issued]);
        return plan, issued, false;
      }
      issued := issued + 1;
      if !w.done || !Shows(w.after, a) {
        assert !Lands(world(issued - 1), plan.actions[issued - 1]);
        return plan, issued, false;
      }
    }
    ok := true;
  }

  lemma {:induction false} ActionsRewrite(f: Step, rows: seq<Row>)
    ensures forall a :: a in Actions(f, rows) ==> a.Rewrite?
  {
    if rows != [] {
      ActionsRewrite(f, rows[..|rows| - 1]);
    }
  }

  /** A plan's marker comes after all its rewrites. */
  lemma MarkIsLast(root: Root)
    requires PlanRoot(root).status != Blocked
    ensures var actions := PlanRoot(root).actions; forall j :: 0 <= j < |actions| ==> (actions[j] == Mark2 <==> j == |actions| - 1)
  {
    var rewrites := Actions(V1ToV2(root.scope), root.rows);
    ActionsRewrite(V1ToV2(root.scope), root.rows);
    assert forall j :: 0 <= j < |rewrites| ==> rewrites[j] in rewrites;
  }

  lemma NextWrite(root: Root, k: nat)
    requires Unique(root.rows) && k < |PlanRoot(root).actions| && PlanRoot(root).status != Blocked
    ensures PlanRoot(root).status == Pending
    ensures var actions := PlanRoot(root).actions; var left := After(root, actions[..k]);
      if k == |actions| - 1 then actions[k] == Mark2 && (Ready(left, Mark2) <==> root.marker == Absent)
      else actions[k].Rewrite? && Ready(left, actions[k])
  {
    var actions, rewrites := PlanRoot(root).actions, Actions(V1ToV2(root.scope), root.rows);
    PendingMeans(root);
    assert actions[..k] == rewrites[..k];
    if k < |rewrites| {
      RewriteIsReady(root, k);
    } else {
      assert rewrites[..k] == rewrites;
      MarkIsReady(root);
    }
  }

  /** A root marked as the first format outright: the plan promises its marker,
      and the write that would set it is refused. */
  lemma ExplicitFirstFormatStalls()
    ensures var root := Root(Scope(["tank"], Some(1), State([], map[], {}, map[], map[], map[], {})), [], Version(1), true);
      && PlanRoot(root) == Plan(Pending, 1, [Mark2])
      && !Ready(root, Mark2)
  {
    var root := Root(Scope(["tank"], Some(1), State([], map[], {}, map[], map[], map[], {})), [], Version(1), true);
    assert Actions(V1ToV2(root.scope), []) == [];
  }
}
