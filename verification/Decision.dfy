/** When a stream is planned and what the plan says, read off the inventories:
    an account of planning that names none of the steps that compute it. */
module Decision {
  import opened Names
  import opened Transfer
  import Replicate

  function Root(q: Request): Dataset { MapReceive(q.source, q.root, q.discard) }

  ghost predicate HasDataset(objects: seq<Object>, d: Dataset) {
    exists o :: o in objects && o.name == OfDataset(d) && o.guid != 0 && (o.kind.Filesystem? || o.kind.Volume?)
  }

  /** The request and both inventories are fit to plan on. */
  ghost predicate Admissible(q: Request, v: View) {
    && q.admitted && Inside(q.stream, q.source)
    && (q.local ==> !Inside(Root(q), q.source) && !Inside(q.source, Root(q)))
    && HasDataset(v.source.objects, q.source) && HasDataset(v.source.objects, q.stream)
    && (forall o :: o in v.source.objects ==> Inside(o.name.dataset, q.source))
    && (forall o :: o in v.destination.objects ==> Inside(o.name.dataset, MapStream(q)))
    && v.source.tokens == {} && v.destination.tokens == {}
    && (v.present ==> exists o :: o in v.destination.objects && o.name == OfDataset(MapStream(q)))
  }

  predicate Identifies(id: Identity, b: Binding) {
    id.name == b.anchor && id.pool == b.pool && id.guid == b.guid
  }

  /** `b` is the root's binding: the stored one where the live destination still
      is what it names, otherwise a new one of the destination as it is. */
  predicate Binds(q: Request, v: View, b: Binding, isNew: bool) {
    && (v.rootExists ==> v.rootIdentity.name == Root(q)) && Inside(Root(q), v.rootIdentity.name)
    && b.mapped == Root(q) && Inside(b.mapped, b.anchor)
    && isNew == v.source.binding.None?
    && (if isNew then Identifies(v.rootIdentity, b)
        else && b == v.source.binding.value && b.pool != 0 && b.guid != 0
             && (if v.rootExists then Identifies(v.rootIdentity, b) else v.bound.Some? && Identifies(v.bound.value, b)))
  }

  /** A snapshot of the stream that is owned, and is the one asked for if one is. */
  predicate Selectable(q: Request, s: Side, o: Object) {
    o in s.objects && o.kind.Snapshot? && o.name.dataset == q.stream && o.name in s.owned && (q.pinned == None || q.pinned == Some(o.name))
  }

  /** The newest of those. */
  ghost predicate Ends(q: Request, s: Side, e: Object) {
    Selectable(q, s, e) && forall o :: Selectable(q, s, o) ==> o.txg <= e.txg
  }

  /** An existing replica is of one kind and lineage with its source. */
  ghost predicate Agree(q: Request, v: View)
    requires Inside(q.stream, q.source)
  {
    && (q.stream in v.source.lineages ==> v.source.lineages[q.stream] == q.lineage)
    && forall o, x :: o in v.source.objects && o.name == OfDataset(q.stream) && x in v.destination.objects && x.name == OfDataset(MapStream(q)) ==>
         o.kind == x.kind && (MapStream(q) in v.destination.lineages ==> v.destination.lineages[MapStream(q)] == q.lineage)
  }

  /** A full receive has a dataset to be received under: the parent of the
      target root where the replica is the target root itself, else that root. */
  predicate HasParent(q: Request, v: View) {
    if q.discard == Off && (q.local || q.stream == q.source) then |q.root| > 1 && q.root[..|q.root| - 1] in v.inventory
    else q.root in v.inventory
  }

  ghost predicate Latest(q: Request, v: View, x: Object)
    requires Inside(q.stream, q.source)
  {
    && x in v.destination.objects && x.kind.Snapshot? && x.name.dataset == MapStream(q)
    && forall o :: o in v.destination.objects && o.kind.Snapshot? && o.name.dataset == MapStream(q) ==> o.txg <= x.txg
  }

  /** An owned snapshot older than the endpoint, and the destination's newest. */
  predicate HeldBase(q: Request, s: Side, o: Object, latest: Object, e: Object) {
    o in s.objects && o.kind.Snapshot? && o.name.dataset == q.stream && o.name in s.owned && o.guid == latest.guid && o.txg < e.txg
  }

  /** A bookmark in the same place that a proof of this stream and target names. */
  ghost predicate MarkedBase(q: Request, s: Side, o: Object, latest: Object, e: Object) {
    && o in s.objects && o.kind.Bookmark? && o.guid == latest.guid && 0 < o.txg < e.txg
    && exists p :: p in s.proofs && p.target == q.target && p.stream == q.stream && o.name == OfBookmark(p.stream, p.component)
  }

  ghost predicate Continues(q: Request, s: Side, o: Object, latest: Object, e: Object) {
    HeldBase(q, s, o, latest, e) || (q.incremental == Incremental.Latest && MarkedBase(q, s, o, latest, e))
  }

  /** The destination has a snapshot by the endpoint's name. */
  ghost predicate Arrived(q: Request, v: View, e: Object)
    requires Inside(q.stream, q.source)
  {
    exists o :: o in v.destination.objects && o.name == OfSnapshot(MapStream(q), Component(e.name))
  }

  function Component(n: Name): string { if n.OfDataset? then "" else n.component }

  ghost predicate HasBase(q: Request, v: View, e: Object)
    requires Inside(q.stream, q.source)
  {
    exists x, o :: Latest(q, v, x) && Continues(q, v.source, o, x, e)
  }

  ghost predicate Sendable(q: Request, v: View, e: Object)
    requires Inside(q.stream, q.source)
  {
    && Agree(q, v)
    && (forall o :: o in v.destination.objects && o.name == OfSnapshot(MapStream(q), Component(e.name)) ==> o.guid == e.guid)
    && (if v.present then Arrived(q, v, e) || HasBase(q, v, e) else HasParent(q, v))
  }

  // ---------------------------------------------------------------- the account is exact

  lemma FindNamed(objects: seq<Object>, name: Name)
    requires Valid(objects)
    ensures forall o :: o in objects && o.name == name ==> Find(objects, name) == Some(o)
    ensures Find(objects, name).Some? ==> Find(objects, name).value in objects && Find(objects, name).value.name == name
  {
    FindExact(objects, name);
    forall o | o in objects && o.name == name ensures Find(objects, name) == Some(o) {
      FindUnique(objects, o);
    }
  }

  lemma HasDatasetExact(objects: seq<Object>, d: Dataset)
    requires Valid(objects)
    ensures IsDataset(Find(objects, OfDataset(d))) <==> HasDataset(objects, d)
  {
    FindNamed(objects, OfDataset(d));
  }

  lemma BindExact(q: Request, v: View)
    ensures Bind(q, v).Ok? ==> Binds(q, v, Bind(q, v).value.0, Bind(q, v).value.1)
    ensures forall b, isNew :: Binds(q, v, b, isNew) ==> Bind(q, v) == Ok((b, isNew))
  {
  }

  lemma PreflightExact(q: Request, v: View)
    requires Valid(v.source.objects) && Valid(v.destination.objects)
    ensures Preflight(q, v).Ok? ==> Admissible(q, v) && Preflight(q, v) == Bind(q, v)
    ensures Admissible(q, v) ==> Preflight(q, v) == Bind(q, v)
  {
    HasDatasetExact(v.source.objects, q.source);
    HasDatasetExact(v.source.objects, q.stream);
    if Inside(q.stream, q.source) {
      FindNamed(v.destination.objects, OfDataset(MapStream(q)));
      assert SourceInScope(q, v) <==> forall o :: o in v.source.objects ==> Inside(o.name.dataset, q.source);
      assert DestinationInScope(q, v) <==> forall o :: o in v.destination.objects ==> Inside(o.name.dataset, MapStream(q));
    }
  }

  lemma EndsExact(q: Request, s: Side, e: Object)
    requires Valid(s.objects)
    ensures Endpoint(q, s, s.objects) == Ok(Some(e)) <==> Ends(q, s, e)
    ensures Endpoint(q, s, s.objects).Ok?
  {
    EndpointNewest(q, s, s.objects);
    assert forall o :: Selectable(q, s, o) <==> o in s.objects && Candidate(q, s, o);
  }

  lemma AgreeExact(q: Request, v: View)
    requires Valid(v.source.objects) && Valid(v.destination.objects) && Inside(q.stream, q.source)
    ensures Compatible(q, v) <==> Agree(q, v)
  {
    FindNamed(v.source.objects, OfDataset(q.stream));
    FindNamed(v.destination.objects, OfDataset(MapStream(q)));
  }

  lemma LatestExact(q: Request, v: View, x: Object)
    requires Valid(v.destination.objects) && Inside(q.stream, q.source)
    ensures Newest(MapStream(q), v.destination.objects) == Some(x) <==> Latest(q, v, x)
  {
    NewestExact(MapStream(q), v.destination.objects);
  }

  lemma {:induction false} MarkedExact(q: Request, s: Side, proofs: seq<Proof>, latest: Object, e: Object)
    requires Valid(s.objects) && forall p :: p in proofs ==> p in s.proofs
    ensures var r := BookmarkBase(q, s, proofs, latest, e);
            && (r.Some? ==> MarkedBase(q, s, r.value, latest, e))
            && (r.None? ==> forall p, o :: p in proofs && p.target == q.target && p.stream == q.stream && o in s.objects && o.name == OfBookmark(p.stream, p.component) ==>
                  !(o.kind.Bookmark? && o.guid == latest.guid && 0 < o.txg < e.txg))
  {
    if proofs != [] {
      FindNamed(s.objects, proofs[0].Cursor());
      MarkedExact(q, s, proofs[1..], latest, e);
      assert proofs == [proofs[0]] + proofs[1..];
    }
  }

  /** The base continues the destination, and is a snapshot where one can be. */
  lemma BaseChoice(q: Request, s: Side, latest: Object, e: Object)
    requires Valid(s.objects)
    ensures var r := Base(q, s, latest, e);
            && (r.Some? ==> Continues(q, s, r.value, latest, e) && ((exists o :: HeldBase(q, s, o, latest, e)) ==> HeldBase(q, s, r.value, latest, e)))
            && (r.None? ==> forall o :: !Continues(q, s, o, latest, e))
  {
    SnapshotBaseExact(q, s, s.objects, latest, e);
    MarkedExact(q, s, s.proofs, latest, e);
    assert forall o :: HeldBase(q, s, o, latest, e) <==> o in s.objects && BaseSnapshot(q, s, o, latest, e);
  }

  lemma HasBaseExact(q: Request, v: View, e: Object)
    requires Valid(v.source.objects) && Valid(v.destination.objects) && Inside(q.stream, q.source)
    ensures var latest := Newest(MapStream(q), v.destination.objects);
            HasBase(q, v, e) <==> latest.Some? && Base(q, v.source, latest.value, e).Some?
  {
    var latest := Newest(MapStream(q), v.destination.objects);
    if latest.Some? {
      LatestExact(q, v, latest.value);
      BaseChoice(q, v.source, latest.value, e);
    }
    if HasBase(q, v, e) {
      var x, o :| Latest(q, v, x) && Continues(q, v.source, o, x, e);
      LatestExact(q, v, x);
    }
  }

  lemma SendableExact(q: Request, v: View, e: Object, b: Binding, isNew: bool)
    requires Valid(v.source.objects) && Valid(v.destination.objects) && Inside(q.stream, q.source)
    ensures Finish(q, v, e, b, isNew).Ok? <==> Sendable(q, v, e)
  {
    AgreeExact(q, v);
    FindNamed(v.destination.objects, OfSnapshot(MapStream(q), Component(e.name)));
    HasBaseExact(q, v, e);
  }

  /** A stream is planned exactly when the request is admissible, its root's
      binding stands, an owned snapshot is selected and it can be sent. */
  lemma PlannedExactly(q: Request, v: View)
    requires Valid(v.source.objects) && Valid(v.destination.objects)
    ensures Build(q, v).Ok? <==>
              Admissible(q, v) && (exists b, isNew :: Binds(q, v, b, isNew)) && exists e :: Ends(q, v.source, e) && Sendable(q, v, e)
  {
    PreflightExact(q, v);
    BindExact(q, v);
    if Build(q, v).Ok? {
      var e := Endpoint(q, v.source, v.source.objects).value.value;
      EndsExact(q, v.source, e);
      SendableExact(q, v, e, Preflight(q, v).value.0, Preflight(q, v).value.1);
    }
    if Admissible(q, v) && (exists b, isNew :: Binds(q, v, b, isNew)) && exists e :: Ends(q, v.source, e) && Sendable(q, v, e) {
      var b, isNew :| Binds(q, v, b, isNew);
      var e :| Ends(q, v.source, e) && Sendable(q, v, e);
      EndsExact(q, v.source, e);
      SendableExact(q, v, e, b, isNew);
    }
  }

  // ---------------------------------------------------------------- what the plan says

  /** A snapshot the plan expects, its name and ownership carried to the replica. */
  predicate Expects(q: Request, s: Side, o: Object, x: Expected)
    requires Inside(q.stream, q.source)
  {
    && x.source == o.name && x.destination == OfSnapshot(MapStream(q), Component(o.name)) && x.guid == o.guid
    && x.meta == (if o.name in s.owned then Some(s.owned[o.name]) else None)
  }

  /** The send of `p` is the one the destination calls for. */
  ghost predicate Sends(q: Request, v: View, e: Object, p: Plan)
    requires Inside(q.stream, q.source)
  {
    if !v.present then p.mode == Full && p.send == Send(e.name, None, false)
    else if Arrived(q, v, e) then p.mode == UpToDate
    else
      && p.mode == (if q.incremental == Every then IncrementalAll else IncrementalLatest)
      && exists x, o :: Latest(q, v, x) && Continues(q, v.source, o, x, e) && p.send == Send(e.name, Some(o.name), q.incremental == Every)
  }

  /** The plan of a chosen endpoint: expected with its ownership, and sent as
      the destination calls for. */
  ghost predicate PlansFor(q: Request, v: View, e: Object, p: Plan) {
    && Inside(q.stream, q.source) && p.destination == MapStream(q) && p.endpoint == e.name
    && |p.endpoints| == 1 && Expects(q, v.source, e, p.endpoints[0]) && Sends(q, v, e, p)
  }

  lemma FinishSends(q: Request, v: View, e: Object, b: Binding, isNew: bool)
    requires Valid(v.source.objects) && Valid(v.destination.objects) && Inside(q.stream, q.source)
    requires Finish(q, v, e, b, isNew).Ok?
    ensures Sends(q, v, e, Finish(q, v, e, b, isNew).value)
  {
    FindNamed(v.destination.objects, OfSnapshot(MapStream(q), Component(e.name)));
    var latest := Newest(MapStream(q), v.destination.objects);
    if v.present && latest.Some? {
      LatestExact(q, v, latest.value);
      BaseChoice(q, v.source, latest.value, e);
    }
  }

  lemma FinishPlans(q: Request, v: View, e: Object, b: Binding, isNew: bool)
    requires Valid(v.source.objects) && Valid(v.destination.objects) && Inside(q.stream, q.source)
    requires Finish(q, v, e, b, isNew).Ok?
    ensures var p := Finish(q, v, e, b, isNew).value; PlansFor(q, v, e, p) && p.binding == b && p.bindingNew == isNew
  {
    FinishSends(q, v, e, b, isNew);
  }

  /** A plan ends at the newest selected snapshot, expects it with its
      ownership, sends what the destination calls for and keeps the binding. */
  lemma PlanSays(q: Request, v: View, p: Plan)
    requires Valid(v.source.objects) && Valid(v.destination.objects) && Build(q, v) == Ok(p)
    ensures Binds(q, v, p.binding, p.bindingNew)
    ensures exists e :: Ends(q, v.source, e) && PlansFor(q, v, e, p)
  {
    PreflightExact(q, v);
    BindExact(q, v);
    var e := Endpoint(q, v.source, v.source.objects).value.value;
    EndsExact(q, v.source, e);
    var (b, isNew) := Preflight(q, v).value;
    FinishPlans(q, v, e, b, isNew);
  }

  lemma {:induction false} ExpectedOwned(q: Request, s: Side, objects: seq<Object>, e: Object, baseTxg: nat, all: bool)
    requires Inside(q.stream, q.source)
    ensures forall x :: x in ExpectedIn(q, s, objects, e, baseTxg, all) ==> exists o :: o in objects && Expects(q, s, o, x)
  {
    if objects != [] {
      var o := objects[|objects| - 1];
      ExpectedOwned(q, s, objects[..|objects| - 1], e, baseTxg, all);
      assert objects == objects[..|objects| - 1] + [o];
      assert Expects(q, s, o, Expect(q, s, o));
    }
  }

  /** Whatever the plan expects is a source snapshot with its ownership. */
  lemma PlanExpects(q: Request, v: View, p: Plan)
    requires Build(q, v) == Ok(p) && Inside(q.stream, q.source)
    ensures forall x :: x in p.expected ==> exists o :: o in v.source.objects && Expects(q, v.source, o, x)
  {
    var e := Endpoint(q, v.source, v.source.objects).value.value;
    EndpointNewest(q, v.source, v.source.objects);
    assert Expects(q, v.source, e, Expect(q, v.source, e));
    ExpectedOwned(q, v.source, v.source.objects, e, 0, false);
    var latest := Newest(MapStream(q), v.destination.objects);
    if latest.Some? {
      var base := Base(q, v.source, latest.value, e);
      if base.Some? { ExpectedOwned(q, v.source, v.source.objects, e, base.value.txg, q.incremental.Every?); }
    }
  }

  // ---------------------------------------------------------------- a recursive stream

  /** The request for one dataset beneath the root. */
  function At(q: Request, d: Dataset): Request { q.(stream := d) }

  ghost predicate Beneath(q: Request, v: View, d: Dataset) {
    Inside(d, q.source) && exists o :: o in v.source.objects && o.name.dataset == d && (o.kind.Filesystem? || o.kind.Volume?)
  }

  /** `d` agrees with its replica and has an owned snapshot of that name. */
  ghost predicate Joins(q: Request, v: View, d: Dataset, component: string)
    requires Inside(d, q.source)
  {
    Agree(At(q, d), v) && exists o :: o in v.source.objects && o.name == OfSnapshot(d, component) && o.name in v.source.owned
  }

  /** `x` is on the destination what `o` is on the source. */
  predicate Pairs(q: Request, v: View, d: Dataset, component: string, o: Object, x: Object)
    requires Inside(d, q.source)
  {
    o in v.source.objects && x in v.destination.objects && o.name == OfSnapshot(d, component) && x.name == OfSnapshot(MapStream(At(q, d)), component)
  }

  ghost predicate Parallel(q: Request, v: View, d: Dataset, component: string)
    requires Inside(d, q.source)
  {
    forall o, x :: Pairs(q, v, d, component, o, x) ==> o.guid == x.guid
  }

  ghost predicate Landed(q: Request, v: View, d: Dataset, component: string)
    requires Inside(d, q.source)
  {
    exists o, x :: Pairs(q, v, d, component, o, x) && o.guid == x.guid
  }

  ghost predicate AllJoin(q: Request, v: View, component: string) {
    forall d :: Beneath(q, v, d) ==> Joins(q, v, d, component)
  }

  ghost predicate AllParallel(q: Request, v: View, component: string) {
    forall d :: Beneath(q, v, d) ==> Parallel(q, v, d, component)
  }

  ghost predicate AllLanded(q: Request, v: View, component: string) {
    forall d :: Beneath(q, v, d) ==> Landed(q, v, d, component)
  }

  ghost predicate HasHeldBase(q: Request, v: View, e: Object)
    requires Inside(q.stream, q.source)
  {
    exists x, o :: Latest(q, v, x) && HeldBase(q, v.source, o, x, e)
  }

  /** Every dataset beneath the root joins, none contradicts its replica, and
      there is a way to send. */
  ghost predicate Replicable(q: Request, v: View, e: Object)
    requires q.stream == q.source && e.name.OfSnapshot?
  {
    && AllJoin(q, v, e.name.component) && AllParallel(q, v, e.name.component)
    && (if v.present then AllLanded(q, v, e.name.component) || HasHeldBase(q, v, e) else HasParent(q, v))
  }

  lemma JoinsExact(q: Request, v: View, o: Object, component: string)
    requires Valid(v.source.objects) && Valid(v.destination.objects) && Inside(o.name.dataset, q.source)
    ensures Replicate.TakesPart(q, v, o, component) <==> Joins(q, v, o.name.dataset, component)
  {
    AgreeExact(At(q, o.name.dataset), v);
    FindNamed(v.source.objects, OfSnapshot(o.name.dataset, component));
  }

  lemma PairExact(q: Request, v: View, o: Object, component: string, e: Expected)
    requires Valid(v.source.objects) && Valid(v.destination.objects) && Inside(o.name.dataset, q.source)
    requires Replicate.EndpointOf(q, v, o, component, e)
    ensures Replicate.Clashes(v.destination, e) <==> !Parallel(q, v, o.name.dataset, component)
    ensures Replicate.Has(v.destination, e) <==> Landed(q, v, o.name.dataset, component)
  {
    var d := o.name.dataset;
    FindNamed(v.source.objects, OfSnapshot(d, component));
    FindNamed(v.destination.objects, OfSnapshot(MapStream(At(q, d)), component));
    var snap := Replicate.SnapshotOn(v.source, o, component).value;
    var found := Find(v.destination.objects, e.destination);
    assert e.destination == OfSnapshot(MapStream(At(q, d)), component);
    if found.Some? { assert Pairs(q, v, d, component, snap, found.value); }
  }

  /** What the endpoint `e` finds on the destination is what `d` has there. */
  ghost predicate Shows(q: Request, v: View, d: Dataset, component: string, e: Expected) {
    && Beneath(q, v, d)
    && (Replicate.Clashes(v.destination, e) <==> !Parallel(q, v, d, component))
    && (Replicate.Has(v.destination, e) <==> Landed(q, v, d, component))
  }

  lemma EndpointShows(q: Request, v: View, component: string, endpoints: seq<Expected>, e: Expected) returns (d: Dataset)
    requires Valid(v.source.objects) && Valid(v.destination.objects) && Replicate.InScope(q, v.source.objects)
    requires Replicate.EndpointsIn(q, v, v.source.objects, component) == Ok(endpoints) && e in endpoints
    ensures Shows(q, v, d, component, e)
  {
    Replicate.EndpointsAre(q, v, v.source.objects, component, e);
    var o :| o in v.source.objects && Replicate.EndpointOf(q, v, o, component, e);
    PairExact(q, v, o, component, e);
    d := o.name.dataset;
  }

  lemma DatasetShows(q: Request, v: View, component: string, endpoints: seq<Expected>, d: Dataset) returns (e: Expected)
    requires Valid(v.source.objects) && Valid(v.destination.objects) && Replicate.InScope(q, v.source.objects)
    requires Replicate.EndpointsIn(q, v, v.source.objects, component) == Ok(endpoints) && Beneath(q, v, d)
    ensures e in endpoints && Shows(q, v, d, component, e)
  {
    var o :| o in v.source.objects && o.name.dataset == d && (o.kind.Filesystem? || o.kind.Volume?);
    e := EndpointAt(q, v, o, component, endpoints);
    PairExact(q, v, o, component, e);
  }

  lemma EndpointsClash(q: Request, v: View, component: string, endpoints: seq<Expected>)
    requires Valid(v.source.objects) && Valid(v.destination.objects) && Replicate.InScope(q, v.source.objects)
    requires Replicate.EndpointsIn(q, v, v.source.objects, component) == Ok(endpoints)
    ensures (exists e :: e in endpoints && Replicate.Clashes(v.destination, e)) <==> !AllParallel(q, v, component)
  {
    if e :| e in endpoints && Replicate.Clashes(v.destination, e) {
      var d := EndpointShows(q, v, component, endpoints, e);
    }
    if d :| Beneath(q, v, d) && !Parallel(q, v, d, component) {
      var e := DatasetShows(q, v, component, endpoints, d);
    }
  }

  lemma EndpointsLand(q: Request, v: View, component: string, endpoints: seq<Expected>)
    requires Valid(v.source.objects) && Valid(v.destination.objects) && Replicate.InScope(q, v.source.objects)
    requires Replicate.EndpointsIn(q, v, v.source.objects, component) == Ok(endpoints)
    ensures (forall e :: e in endpoints ==> Replicate.Has(v.destination, e)) <==> AllLanded(q, v, component)
  {
    if e :| e in endpoints && !Replicate.Has(v.destination, e) {
      var d := EndpointShows(q, v, component, endpoints, e);
    }
    if d :| Beneath(q, v, d) && !Landed(q, v, d, component) {
      var e := DatasetShows(q, v, component, endpoints, d);
    }
  }

  lemma EndpointAt(q: Request, v: View, o: Object, component: string, endpoints: seq<Expected>) returns (e: Expected)
    requires Replicate.InScope(q, v.source.objects) && o in v.source.objects && Replicate.IsDatasetObject(o)
    requires Replicate.EndpointsIn(q, v, v.source.objects, component) == Ok(endpoints)
    ensures e in endpoints && Replicate.EndpointOf(q, v, o, component, e)
  {
    Replicate.EndpointsExact(q, v, v.source.objects, component);
    assert Replicate.TakesPart(q, v, o, component);
    FindExact(v.source.objects, OfSnapshot(o.name.dataset, component));
    e := Replicate.ExpectAt(q, v.source, Replicate.SnapshotOn(v.source, o, component).value);
    assert Replicate.EndpointOf(q, v, o, component, e);
    Replicate.EndpointsAre(q, v, v.source.objects, component, e);
  }

  lemma HeldBaseExact(q: Request, v: View, e: Object)
    requires Valid(v.source.objects) && Valid(v.destination.objects) && Inside(q.stream, q.source)
    ensures var latest := Newest(MapStream(q), v.destination.objects);
            HasHeldBase(q, v, e) <==> latest.Some? && SnapshotBase(q, v.source, v.source.objects, latest.value, e).Some?
  {
    var latest := Newest(MapStream(q), v.destination.objects);
    if latest.Some? {
      LatestExact(q, v, latest.value);
      SnapshotBaseExact(q, v.source, v.source.objects, latest.value, e);
      var base := SnapshotBase(q, v.source, v.source.objects, latest.value, e);
      if base.Some? { assert HeldBase(q, v.source, base.value, latest.value, e); }
    }
    if HasHeldBase(q, v, e) {
      var x, o :| Latest(q, v, x) && HeldBase(q, v.source, o, x, e);
      LatestExact(q, v, x);
      assert BaseSnapshot(q, v.source, o, x, e);
    }
  }

  lemma AllJoinExact(q: Request, v: View, component: string)
    requires Valid(v.source.objects) && Valid(v.destination.objects) && Replicate.InScope(q, v.source.objects)
    ensures Replicate.EndpointsIn(q, v, v.source.objects, component).Ok? <==> AllJoin(q, v, component)
  {
    Replicate.EndpointsExact(q, v, v.source.objects, component);
    forall o | o in v.source.objects && Replicate.IsDatasetObject(o)
      ensures Beneath(q, v, o.name.dataset) && (Replicate.TakesPart(q, v, o, component) <==> Joins(q, v, o.name.dataset, component))
    {
      JoinsExact(q, v, o, component);
    }
  }

  /** What the endpoints, once they are there, leave to be decided. */
  lemma EndpointsDecide(q: Request, v: View, e: Object, b: Binding, isNew: bool, endpoints: seq<Expected>)
    requires q.stream == q.source && Replicate.InScope(q, v.source.objects) && e.name.OfSnapshot?
    requires Valid(v.source.objects) && Valid(v.destination.objects)
    requires Replicate.EndpointsIn(q, v, v.source.objects, e.name.component) == Ok(endpoints)
    ensures Replicate.FinishAll(q, v, e, b, isNew).Ok? <==>
              AllParallel(q, v, e.name.component) && (if v.present then AllLanded(q, v, e.name.component) || HasHeldBase(q, v, e) else HasParent(q, v))
    ensures Replicate.FinishAll(q, v, e, b, isNew).Ok? ==> ModeFits(q, v, e, Replicate.FinishAll(q, v, e, b, isNew).value.mode)
  {
    EndpointsClash(q, v, e.name.component, endpoints);
    EndpointsLand(q, v, e.name.component, endpoints);
    HeldBaseExact(q, v, e);
  }

  /** Nothing to send exactly when all has landed, a full stream exactly when
      there is no replica, and else what the policy asks for. */
  ghost predicate ModeFits(q: Request, v: View, e: Object, mode: Mode)
    requires e.name.OfSnapshot?
  {
    && (mode == UpToDate <==> v.present && AllLanded(q, v, e.name.component))
    && (mode == Full <==> !v.present)
    && (mode == IncrementalAll ==> q.incremental == Every)
    && (mode == IncrementalLatest ==> q.incremental == Incremental.Latest)
  }

  /** One recursive stream is planned exactly when every dataset beneath the root
      joins with an owned snapshot of the endpoint's name, none contradicts what
      the destination has, and the destination is complete, can be continued
      from an owned snapshot, or is still to be created under a parent. */
  lemma ReplicatedExactly(q: Request, v: View, e: Object, b: Binding, isNew: bool)
    requires q.stream == q.source && Replicate.InScope(q, v.source.objects) && e.name.OfSnapshot?
    requires Valid(v.source.objects) && Valid(v.destination.objects)
    ensures Replicate.FinishAll(q, v, e, b, isNew).Ok? <==> Replicable(q, v, e)
    ensures Replicate.FinishAll(q, v, e, b, isNew).Ok? ==> ModeFits(q, v, e, Replicate.FinishAll(q, v, e, b, isNew).value.mode)
  {
    AllJoinExact(q, v, e.name.component);
    var endpoints := Replicate.EndpointsIn(q, v, v.source.objects, e.name.component);
    if endpoints.Ok? { EndpointsDecide(q, v, e, b, isNew, endpoints.value); }
  }

  /** The snapshots a recursive stream carries: all there are up to the endpoint
      for a full one, those after the base, or of those the endpoint's own. */
  predicate Within(mode: Mode, baseTxg: nat, e: Object, o: Object) {
    && o.kind.Snapshot? && 0 < o.txg <= e.txg
    && match mode
       case UpToDate => false
       case Full => true
       case IncrementalAll => baseTxg < o.txg
       case IncrementalLatest => baseTxg < o.txg && o.name.OfSnapshot? && e.name.OfSnapshot? && o.name.component == e.name.component
  }

  predicate ExpectsAt(q: Request, s: Side, o: Object, x: Expected) {
    Inside(o.name.dataset, q.source) && Expects(At(q, o.name.dataset), s, o, x)
  }

  lemma ModeSends(q: Request, v: View, e: Object, p: Plan)
    requires q.stream == q.source && Replicate.InScope(q, v.source.objects) && e.name.OfSnapshot?
    requires Replicate.FinishAll(q, v, e, p.binding, p.bindingNew) == Ok(p)
    ensures p.mode == Full ==> p.send.base == None
    ensures p.mode == IncrementalAll || p.mode == IncrementalLatest ==> p.send.base.Some?
    ensures p.mode == IncrementalAll <==> p.send.intermediates
  {}

  /** The plan of a recursive stream expects exactly those, each where it lands
      and with its ownership. */
  lemma ReplicaExpectsExactly(q: Request, v: View, e: Object, p: Plan, x: Expected)
    requires q.stream == q.source && Replicate.InScope(q, v.source.objects) && e.name.OfSnapshot? && Valid(v.source.objects)
    requires Replicate.FinishAll(q, v, e, p.binding, p.bindingNew) == Ok(p) && p.mode != UpToDate
    ensures x in p.expected <==> exists o :: o in v.source.objects && Within(p.mode, Replicate.BaseTxg(v, p), e, o) && ExpectsAt(q, v.source, o, x)
  {
    Replicate.FinishSends(q, v, e, p);
    ModeSends(q, v, e, p);
    var base := Replicate.BaseTxg(v, p);
    Replicate.ExpectedAllExact(q, v.source, v.source.objects, e, base, p.mode == Full, p.send.intermediates);
    forall o | o in v.source.objects
      ensures Replicate.CarriedAll(o, e, base, p.mode == Full, p.send.intermediates) <==> Within(p.mode, base, e, o)
      ensures Inside(o.name.dataset, q.source) && (x == Replicate.ExpectAt(q, v.source, o) <==> ExpectsAt(q, v.source, o, x))
    {}
  }
}
