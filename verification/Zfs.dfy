/** The part of ZFS state that recovery proofs live in, and the single writes
    that change it.

    Hashes and UUIDs are injective tokens. A UUID keeps the eight characters a
    snapshot name carries apart from the rest, because names carry only those
    while bookmarks and record keys carry the whole. */
module Zfs {
  import opened Names

  datatype UUID = UUID(short: nat, rest: nat)

  datatype Metadata = Metadata(lineage: nat, snapshot: UUID, created: int)

  datatype SnapName = Stamped(created: int, short: nat) | Other(text: string)

  datatype SnapId = SnapId(dataset: Dataset, name: SnapName)

  /** `stored` is the ownership metadata stored on the snapshot: lineage and UUID. */
  datatype Snap = Snap(guid: nat, stored: Option<(nat, UUID)>)

  datatype Tag = Target(id: nat) | Foreign(text: string)

  datatype Hold = Hold(snap: SnapId, tag: Tag)

  /** A checkpoint bookmark: one target's cursor for one snapshot of a dataset. */
  datatype Mark = Mark(dataset: Dataset, target: nat, snapshot: UUID)

  /** The name of a proof property, and the root it is stored on. */
  datatype Key = Key(root: Dataset, target: nat, stream: Dataset, snapshot: UUID)

  /** The value of a proof property. The stream is relative to the root. */
  datatype Record = Record(relative: seq<string>, created: int, recursive: bool)

  /** `datasets` is the sorted inventory; `authority` maps each root this
      installation owns, in the current state format, to its lineage;
      `tokens` are the datasets with a resumable receive. */
  datatype State = State(
    datasets: seq<Dataset>,
    snaps: map<SnapId, Snap>,
    holds: set<Hold>,
    marks: map<Mark, nat>,
    records: map<Key, Record>,
    authority: map<Dataset, nat>,
    tokens: set<Dataset>)

  function NameOf(m: Metadata): SnapName {
    Stamped(m.created, m.snapshot.short)
  }

  /** The complete name, metadata and lineage contract of an owned snapshot. */
  function Ownership(name: SnapName, snap: Snap, lineage: nat): (m: Option<Metadata>)
    ensures m.Some? ==> NameOf(m.value) == name && m.value.lineage == lineage && snap.guid != 0
  {
    if snap.guid == 0 || !name.Stamped? || snap.stored.None? || snap.stored.value.0 != lineage then None
    else
      var m := Metadata(lineage, snap.stored.value.1, name.created);
      if NameOf(m) == name then Some(m) else None
  }

  function FindOwned(s: State, id: SnapId, lineage: nat): (m: Option<Metadata>)
    ensures m.Some? ==> id in s.snaps && NameOf(m.value) == id.name && m.value.lineage == lineage
  {
    if id in s.snaps then Ownership(id.name, s.snaps[id], lineage) else None
  }

  datatype Write =
    | SetRecord(key: Key, record: Record)
    | AddHold(hold: Hold)
    | AddMark(snap: SnapId, mark: Mark)
    | DropMark(mark: Mark)
    | DropHold(hold: Hold)
    | DropRecord(key: Key)
    | AddSnap(snap: SnapId, info: Snap)
    | DropSnap(snap: SnapId)

  /** ZFS accepts the write. A held snapshot cannot be destroyed, and a
      bookmark is made from an existing snapshot of the same dataset. */
  predicate Accepts(s: State, w: Write) {
    match w
    case SetRecord(_, _) => true
    case AddHold(h) => h.snap in s.snaps && h !in s.holds
    case AddMark(id, mk) => id in s.snaps && mk !in s.marks && mk.dataset == id.dataset
    case DropMark(mk) => mk in s.marks
    case DropHold(h) => h in s.holds
    case DropRecord(_) => true
    case AddSnap(id, info) => id.dataset in s.datasets && id !in s.snaps && info.guid != 0
    case DropSnap(id) => id in s.snaps && forall h :: h in s.holds ==> h.snap != id
  }

  function Apply(s: State, w: Write): State
    requires Accepts(s, w)
  {
    match w
    case SetRecord(k, v) => s.(records := s.records[k := v])
    case AddHold(h) => s.(holds := s.holds + {h})
    case AddMark(id, mk) => s.(marks := s.marks[mk := s.snaps[id].guid])
    case DropMark(mk) => s.(marks := s.marks - {mk})
    case DropHold(h) => s.(holds := s.holds - {h})
    case DropRecord(k) => s.(records := s.records - {k})
    case AddSnap(id, info) => s.(snaps := s.snaps[id := info])
    case DropSnap(id) => s.(snaps := s.snaps - {id})
  }

  /** The dataset a write touches; a record's is its root. */
  function Site(w: Write): Dataset {
    match w
    case SetRecord(k, _) => k.root
    case AddHold(h) => h.snap.dataset
    case AddMark(id, _) => id.dataset
    case DropMark(mk) => mk.dataset
    case DropHold(h) => h.snap.dataset
    case DropRecord(k) => k.root
    case AddSnap(id, _) => id.dataset
    case DropSnap(id) => id.dataset
  }

  ghost predicate WellFormed(s: State) {
    && ParentsFirst(s.datasets)
    && (forall id :: id in s.snaps ==> id.dataset in s.datasets && s.snaps[id].guid != 0)
    && (forall h :: h in s.holds ==> h.snap in s.snaps)
    && (forall mk :: mk in s.marks ==> mk.dataset in s.datasets && s.marks[mk] != 0)
    && (forall a, b :: a in s.authority && b in s.authority && a != b ==> !Overlaps(a, b))
  }

  lemma ApplyWellFormed(s: State, w: Write)
    requires WellFormed(s) && Accepts(s, w)
    ensures WellFormed(Apply(s, w))
    ensures Apply(s, w).authority == s.authority
  {
  }

  /** Equal as far as `root`, its subtree and its records are concerned. */
  ghost predicate SameOn(s: State, t: State, root: Dataset) {
    && s.authority == t.authority && s.datasets == t.datasets
    && (forall id: SnapId :: Inside(id.dataset, root) ==> (id in s.snaps <==> id in t.snaps))
    && (forall id :: id in s.snaps && Inside(id.dataset, root) ==> s.snaps[id] == t.snaps[id])
    && (forall h: Hold :: Inside(h.snap.dataset, root) ==> (h in s.holds <==> h in t.holds))
    && (forall mk: Mark :: Inside(mk.dataset, root) ==> (mk in s.marks <==> mk in t.marks))
    && (forall mk :: mk in s.marks && Inside(mk.dataset, root) ==> s.marks[mk] == t.marks[mk])
    && (forall k: Key :: k.root == root ==> (k in s.records <==> k in t.records))
    && (forall k :: k in s.records && k.root == root ==> s.records[k] == t.records[k])
  }

  /** A write elsewhere leaves root's part of the state alone. */
  lemma ApplyElsewhere(s: State, w: Write, root: Dataset, other: Dataset)
    requires Accepts(s, w) && Inside(Site(w), other) && !Overlaps(root, other)
    ensures SameOn(s, Apply(s, w), root)
  {
    NotInBoth(Site(w), other, root);
  }
}
