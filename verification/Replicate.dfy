/** Planning the one recursive stream of a replication root: an endpoint on every
    dataset beneath it, and the snapshots the stream is expected to carry.

    The two lists are made by different filters, and verification looks at the
    expected one alone; here is shown exactly when that covers the endpoints. */
module Replicate {
  import opened Names
  import opened Transfer
  import opened Delivery

  /** A snapshot of any dataset beneath the root, and where it lands. */
  function ExpectAt(q: Request, s: Side, o: Object): Expected
    requires Inside(o.name.dataset, q.source)
  {
    Expect(q.(stream := o.name.dataset), s, o)
  }

  predicate InScope(q: Request, objects: seq<Object>) {
    forall o :: o in objects ==> Inside(o.name.dataset, q.source)
  }

  predicate IsDatasetObject(o: Object) {
    o.kind.Filesystem? || o.kind.Volume?
  }

  // ---------------------------------------------------------------- endpoints

  /** The endpoint's snapshot on a dataset. */
  function SnapshotOn(s: Side, o: Object, component: string): Option<Object> {
    Find(s.objects, OfSnapshot(o.name.dataset, component))
  }

  /** A dataset that can take part: its lineage and its replica agree, and it has
      an owned snapshot of the endpoint's name. */
  predicate TakesPart(q: Request, v: View, o: Object, component: string)
    requires Inside(o.name.dataset, q.source)
  {
    var snap := SnapshotOn(v.source, o, component);
    Compatible(q.(stream := o.name.dataset), v) && snap.Some? && snap.value.name in v.source.owned
  }

  function EndpointsIn(q: Request, v: View, objects: seq<Object>, component: string): Result<seq<Expected>>
    requires InScope(q, objects)
  {
    if objects == [] then Ok([])
    else
      var o := objects[|objects| - 1];
      assert o in objects;
      var init := EndpointsIn(q, v, objects[..|objects| - 1], component);
      if init.Err? || !IsDatasetObject(o) then init
      else if !TakesPart(q, v, o, component) then Err("replication endpoint missing, foreign or in conflict")
      else
        FindExact(v.source.objects, OfSnapshot(o.name.dataset, component));
        Ok(init.value + [ExpectAt(q, v.source, SnapshotOn(v.source, o, component).value)])
  }

  /** There is an endpoint list exactly when every dataset can take part. */
  lemma {:induction false} EndpointsExact(q: Request, v: View, objects: seq<Object>, component: string)
    requires InScope(q, objects)
    ensures EndpointsIn(q, v, objects, component).Ok? <==> forall o :: o in objects && IsDatasetObject(o) ==> TakesPart(q, v, o, component)
  {
    if objects != [] {
      assert objects == objects[..|objects| - 1] + [objects[|objects| - 1]];
      EndpointsExact(q, v, objects[..|objects| - 1], component);
    }
  }

  /** It then has one endpoint for each. */
  lemma {:induction false} EndpointsAre(q: Request, v: View, objects: seq<Object>, component: string, e: Expected)
    requires InScope(q, objects) && EndpointsIn(q, v, objects, component).Ok?
    ensures e in EndpointsIn(q, v, objects, component).value <==> exists o :: o in objects && EndpointOf(q, v, o, component, e)
  {
    if objects != [] {
      var init, o := objects[..|objects| - 1], objects[|objects| - 1];
      assert objects == init + [o];
      EndpointsAre(q, v, init, component, e);
      OwnEndpoint(q, v, o, component, e);
      if e in EndpointsIn(q, v, init, component).value {
        var x :| x in init && EndpointOf(q, v, x, component, e);
        assert x in objects;
      }
      if x :| x in objects && EndpointOf(q, v, x, component, e) && x !in init {
        assert x == o;
      }
    }
  }

  lemma OwnEndpoint(q: Request, v: View, o: Object, component: string, e: Expected)
    requires Inside(o.name.dataset, q.source)
    ensures var snap := SnapshotOn(v.source, o, component);
      && (snap.Some? ==> snap.value.name == OfSnapshot(o.name.dataset, component))
      && (EndpointOf(q, v, o, component, e) <==> IsDatasetObject(o) && snap.Some? && e == ExpectAt(q, v.source, snap.value))
  {
    FindExact(v.source.objects, OfSnapshot(o.name.dataset, component));
  }

  predicate EndpointOf(q: Request, v: View, o: Object, component: string, e: Expected) {
    var snap := SnapshotOn(v.source, o, component);
    IsDatasetObject(o) && snap.Some? && Inside(snap.value.name.dataset, q.source) && e == ExpectAt(q, v.source, snap.value)
  }

  lemma {:induction false} EndpointsFail(q: Request, v: View, objects: seq<Object>, component: string, i: nat)
    requires InScope(q, objects) && i < |objects| && EndpointsIn(q, v, objects[..i + 1], component).Err?
    ensures EndpointsIn(q, v, objects, component) == EndpointsIn(q, v, objects[..i + 1], component)
    decreases |objects|
  {
    if i + 1 < |objects| {
      assert objects[..|objects| - 1][..i + 1] == objects[..i + 1];
      EndpointsFail(q, v, objects[..|objects| - 1], component, i);
    } else {
      assert objects[..i + 1] == objects;
    }
  }

  method CollectEndpoints(q: Request, v: View, component: string) returns (res: Result<seq<Expected>>)
    requires InScope(q, v.source.objects)
    ensures res == EndpointsIn(q, v, v.source.objects, component)
  {
    var objects := v.source.objects;
    var endpoints: seq<Expected> := [];
    for i := 0 to |objects|
      invariant EndpointsIn(q, v, objects[..i], component) == Ok(endpoints)
    {
      assert objects[..i + 1][..i] == objects[..i];
      var o := objects[i];
      if !IsDatasetObject(o) { continue; }
      if !TakesPart(q, v, o, component) {
        EndpointsFail(q, v, objects, component, i);
        return Err("replication endpoint missing, foreign or in conflict");
      }
      FindExact(objects, OfSnapshot(o.name.dataset, component));
      endpoints := endpoints + [ExpectAt(q, v.source, SnapshotOn(v.source, o, component).value)];
    }
    assert objects[..|objects|] == objects;
    return Ok(endpoints);
  }

  // ---------------------------------------------------------------- expected snapshots

  /** Whether the recursive stream is expected to carry the snapshot. A full one
      carries all there is up to the endpoint. */
  predicate CarriedAll(o: Object, endpoint: Object, baseTxg: nat, full: bool, all: bool) {
    && o.kind.Snapshot? && 0 < o.txg <= endpoint.txg
    && (if all then o.txg > baseTxg else full || (o.txg > baseTxg && SameComponent(o.name, endpoint.name)))
  }

  predicate SameComponent(a: Name, b: Name) {
    a.OfSnapshot? && b.OfSnapshot? && a.component == b.component
  }

  function ExpectedAll(q: Request, s: Side, objects: seq<Object>, endpoint: Object, baseTxg: nat, full: bool, all: bool): seq<Expected>
    requires InScope(q, objects)
  {
    if objects == [] then []
    else
      var o := objects[|objects| - 1];
      assert o in objects;
      ExpectedAll(q, s, objects[..|objects| - 1], endpoint, baseTxg, full, all)
      + (if CarriedAll(o, endpoint, baseTxg, full, all) then [ExpectAt(q, s, o)] else [])
  }

  lemma {:induction false} ExpectedAllExact(q: Request, s: Side, objects: seq<Object>, endpoint: Object, baseTxg: nat, full: bool, all: bool)
    requires InScope(q, objects)
    ensures forall e :: e in ExpectedAll(q, s, objects, endpoint, baseTxg, full, all) <==>
      exists o :: o in objects && CarriedAll(o, endpoint, baseTxg, full, all) && e == ExpectAt(q, s, o)
  {
    if objects != [] {
      assert objects == objects[..|objects| - 1] + [objects[|objects| - 1]];
      ExpectedAllExact(q, s, objects[..|objects| - 1], endpoint, baseTxg, full, all);
    }
  }

  method CollectAll(q: Request, s: Side, endpoint: Object, baseTxg: nat, full: bool, all: bool) returns (expected: seq<Expected>)
    requires InScope(q, s.objects)
    ensures expected == ExpectedAll(q, s, s.objects, endpoint, baseTxg, full, all)
  {
    expected := [];
    for i := 0 to |s.objects|
      invariant expected == ExpectedAll(q, s, s.objects[..i], endpoint, baseTxg, full, all)
    {
      assert s.objects[..i + 1][..i] == s.objects[..i];
      if CarriedAll(s.objects[i], endpoint, baseTxg, full, all) { expected := expected + [ExpectAt(q, s, s.objects[i])]; }
    }
    assert s.objects[..|s.objects|] == s.objects;
  }

  // ---------------------------------------------------------------- the plan

  predicate Clashes(d: Side, e: Expected) {
    var found := Find(d.objects, e.destination);
    found.Some? && found.value.guid != e.guid
  }

  predicate Has(d: Side, e: Expected) {
    var found := Find(d.objects, e.destination);
    found.Some? && found.value.guid == e.guid
  }

  /** The plan for a chosen endpoint of the root. A recursive stream is never
      resumed from a bookmark. */
  function FinishAll(q: Request, v: View, endpoint: Object, binding: Binding, isNew: bool): Result<Plan>
    requires q.stream == q.source && InScope(q, v.source.objects) && endpoint.name.OfSnapshot?
  {
    var target := MapStream(q);
    match EndpointsIn(q, v, v.source.objects, endpoint.name.component)
    case Err(e) => Err(e)
    case Ok(endpoints) =>
      if exists e :: e in endpoints && Clashes(v.destination, e) then Err("destination snapshot name has a different GUID")
      else if v.present && forall e :: e in endpoints ==> Has(v.destination, e) then
        Ok(Plan(target, endpoint.name, UpToDate, Send(endpoint.name, None, false), endpoints, endpoints, binding, isNew))
      else if !v.present then
        if !ParentReady(q, v) then Err("receive parent does not exist")
        else Ok(Plan(target, endpoint.name, Full, Send(endpoint.name, None, false),
                     ExpectedAll(q, v.source, v.source.objects, endpoint, 0, true, false), endpoints, binding, isNew))
      else
        match Newest(target, v.destination.objects)
        case None => Err("existing destination has no common base")
        case Some(latest) =>
          var base := SnapshotBase(q, v.source, v.source.objects, latest, endpoint);
          if base.None? then Err("destination latest snapshot has no eligible common source base")
          else
            var all := q.incremental.Every?;
            Ok(Plan(target, endpoint.name, if all then IncrementalAll else IncrementalLatest, Send(endpoint.name, Some(base.value.name), all),
                    ExpectedAll(q, v.source, v.source.objects, endpoint, base.value.txg, false, all), endpoints, binding, isNew))
  }

  /** Where the base of a plan stands in the source's history. */
  function BaseTxg(v: View, plan: Plan): nat {
    if plan.send.base.Some? && Find(v.source.objects, plan.send.base.value).Some? then Find(v.source.objects, plan.send.base.value).value.txg else 0
  }

  /** The dataset's endpoint lies between base and stream endpoint. */
  predicate InWindow(v: View, plan: Plan, endpoint: Object, o: Object) {
    var snap := SnapshotOn(v.source, o, if endpoint.name.OfSnapshot? then endpoint.name.component else "");
    snap.Some? ==> BaseTxg(v, plan) < snap.value.txg <= endpoint.txg
  }

  /** What a plan that sends something consists of. */
  ghost predicate Sends(q: Request, v: View, plan: Plan, endpoint: Object) {
    && endpoint.name.OfSnapshot? && InScope(q, v.source.objects) && Valid(v.source.objects)
    && EndpointsIn(q, v, v.source.objects, endpoint.name.component) == Ok(plan.endpoints)
    && plan.expected == ExpectedAll(q, v.source, v.source.objects, endpoint, BaseTxg(v, plan), plan.mode.Full?, plan.send.intermediates)
    && (plan.mode.Full? ==> BaseTxg(v, plan) == 0 && !plan.send.intermediates)
  }

  lemma FinishSends(q: Request, v: View, endpoint: Object, plan: Plan)
    requires q.stream == q.source && InScope(q, v.source.objects) && Valid(v.source.objects) && endpoint.name.OfSnapshot?
    requires FinishAll(q, v, endpoint, plan.binding, plan.bindingNew) == Ok(plan)
    ensures plan.mode.UpToDate? ==> plan.expected == plan.endpoints
    ensures !plan.mode.UpToDate? ==> Sends(q, v, plan, endpoint)
  {
    if plan.send.base.Some? {
      var latest := Newest(MapStream(q), v.destination.objects).value;
      SnapshotBaseExact(q, v.source, v.source.objects, latest, endpoint);
      FindUnique(v.source.objects, SnapshotBase(q, v.source, v.source.objects, latest, endpoint).value);
    }
  }

  /** The endpoint of one dataset is expected exactly when it is in the window. */
  lemma EndpointExpected(q: Request, v: View, plan: Plan, endpoint: Object, o: Object)
    requires Sends(q, v, plan, endpoint) && o in v.source.objects && IsDatasetObject(o)
    ensures SnapshotOn(v.source, o, endpoint.name.component).Some?
    ensures var snap := SnapshotOn(v.source, o, endpoint.name.component).value;
      Inside(snap.name.dataset, q.source) && (ExpectAt(q, v.source, snap) in plan.expected <==> InWindow(v, plan, endpoint, o))
  {
    var component, objects := endpoint.name.component, v.source.objects;
    EndpointsExact(q, v, objects, component);
    assert TakesPart(q, v, o, component);
    FindExact(objects, OfSnapshot(o.name.dataset, component));
    var snap := SnapshotOn(v.source, o, component).value;
    CarriedIsExpected(q, v, plan, endpoint, snap);
    CarriedInWindow(snap, endpoint, BaseTxg(v, plan), plan.mode.Full?, plan.send.intermediates);
  }

  lemma CarriedIsExpected(q: Request, v: View, plan: Plan, endpoint: Object, snap: Object)
    requires Sends(q, v, plan, endpoint) && snap in v.source.objects && Inside(snap.name.dataset, q.source)
    ensures ExpectAt(q, v.source, snap) in plan.expected <==> CarriedAll(snap, endpoint, BaseTxg(v, plan), plan.mode.Full?, plan.send.intermediates)
  {
    ExpectedAllExact(q, v.source, v.source.objects, endpoint, BaseTxg(v, plan), plan.mode.Full?, plan.send.intermediates);
    if x :| x in v.source.objects && CarriedAll(x, endpoint, BaseTxg(v, plan), plan.mode.Full?, plan.send.intermediates) && ExpectAt(q, v.source, snap) == ExpectAt(q, v.source, x) {
      assert x.name == snap.name;
    }
  }

  /** A snapshot of the endpoint's name is carried exactly when in the window. */
  lemma CarriedInWindow(snap: Object, endpoint: Object, baseTxg: nat, full: bool, all: bool)
    requires snap.kind.Snapshot? && snap.txg > 0 && SameComponent(snap.name, endpoint.name) && (full ==> baseTxg == 0 && !all)
    ensures CarriedAll(snap, endpoint, baseTxg, full, all) <==> baseTxg < snap.txg <= endpoint.txg
  {}

  /** A plan's endpoints are all among what it verifies exactly when every
      dataset's endpoint is newer than the base and no newer than the root's. */
  lemma EndpointsExpectedExactly(q: Request, v: View, plan: Plan, endpoint: Object)
    requires Sends(q, v, plan, endpoint)
    ensures (forall e :: e in plan.endpoints ==> e in plan.expected) <==>
      forall o :: o in v.source.objects && IsDatasetObject(o) ==> InWindow(v, plan, endpoint, o)
  {
    var component, objects := endpoint.name.component, v.source.objects;
    if forall o :: o in objects && IsDatasetObject(o) ==> InWindow(v, plan, endpoint, o) {
      forall e | e in plan.endpoints ensures e in plan.expected {
        EndpointsAre(q, v, objects, component, e);
        var o :| o in objects && EndpointOf(q, v, o, component, e);
        EndpointExpected(q, v, plan, endpoint, o);
      }
    }
    if forall e :: e in plan.endpoints ==> e in plan.expected {
      forall o | o in objects && IsDatasetObject(o) ensures InWindow(v, plan, endpoint, o) {
        EndpointExpected(q, v, plan, endpoint, o);
        var e := ExpectAt(q, v.source, SnapshotOn(v.source, o, component).value);
        EndpointsAre(q, v, objects, component, e);
        assert EndpointOf(q, v, o, component, e);
      }
    }
  }

  /** So then a settled and verified recursive transfer has every endpoint on the
      destination with its source GUID. */
  lemma ReplicaHasEndpoints(q: Request, v: View, plan: Plan, endpoint: Object, received: Side, remaining: Side)
    requires Sends(q, v, plan, endpoint) && VerifyGUIDs(Settle(plan, received, remaining), received)
    requires forall o :: o in v.source.objects && IsDatasetObject(o) ==> InWindow(v, plan, endpoint, o)
    ensures forall e :: e in plan.endpoints ==> There(e, received)
  {
    EndpointsExpectedExactly(q, v, plan, endpoint);
    SettledSound(plan, received, remaining);
  }

  /** The objects but those of one name. */
  function Lacking(objects: seq<Object>, name: Name): seq<Object> {
    if objects == [] then []
    else Lacking(objects[..|objects| - 1], name) + if objects[|objects| - 1].name == name then [] else [objects[|objects| - 1]]
  }

  lemma {:induction false} LackingFinds(objects: seq<Object>, name: Name, other: Name)
    ensures Find(Lacking(objects, name), other) == if other == name then None else Find(objects, other)
  {
    if objects != [] {
      var init, o := objects[..|objects| - 1], objects[|objects| - 1];
      LackingFinds(init, name, other);
      FindAppend(Lacking(init, name), if o.name == name then [] else [o], other);
    }
  }

  /** Different snapshots land under different names. */
  lemma LandsApart(q: Request, s: Side, a: Object, b: Object)
    requires Inside(a.name.dataset, q.source) && Inside(b.name.dataset, q.source) && a.name.OfSnapshot? && b.name.OfSnapshot?
    ensures ExpectAt(q, s, a).destination == ExpectAt(q, s, b).destination ==> a.name == b.name
  {
    var m, n, x, y := MapReceive(q.source, q.root, q.discard), |q.source|, a.name.dataset, b.name.dataset;
    if m + x[n..] == m + y[n..] {
      assert x[n..] == (m + x[n..])[|m|..] == (m + y[n..])[|m|..] == y[n..];
      assert x == q.source + x[n..] && y == q.source + y[n..];
    }
  }

  /** An endpoint outside the window is not verified: what verifies would verify
      without it. */
  lemma OutsideIsUnverified(q: Request, v: View, plan: Plan, endpoint: Object, o: Object, received: Side)
    requires Sends(q, v, plan, endpoint) && o in v.source.objects && IsDatasetObject(o) && !InWindow(v, plan, endpoint, o)
    requires VerifyGUIDs(plan.expected, received)
    ensures SnapshotOn(v.source, o, endpoint.name.component).Some?
    ensures var snap := SnapshotOn(v.source, o, endpoint.name.component).value;
      && Inside(snap.name.dataset, q.source)
      && var e := ExpectAt(q, v.source, snap);
         var without := received.(objects := Lacking(received.objects, e.destination));
         e in plan.endpoints && VerifyGUIDs(plan.expected, without) && !There(e, without)
  {
    var component, objects := endpoint.name.component, v.source.objects;
    EndpointExpected(q, v, plan, endpoint, o);
    var snap := SnapshotOn(v.source, o, component).value;
    var e := ExpectAt(q, v.source, snap);
    EndpointsAre(q, v, objects, component, e);
    assert EndpointOf(q, v, o, component, e);
    FindExact(objects, snap.name);
    FindExact(objects, OfSnapshot(o.name.dataset, component));
    LackingFinds(received.objects, e.destination, e.destination);
    forall i | 0 <= i < |plan.expected|
      ensures Find(Lacking(received.objects, e.destination), plan.expected[i].destination) == Find(received.objects, plan.expected[i].destination)
    {
      ExpectedElsewhere(q, v, plan, endpoint, snap, plan.expected[i]);
      LackingFinds(received.objects, e.destination, plan.expected[i].destination);
    }
  }

  lemma ExpectedElsewhere(q: Request, v: View, plan: Plan, endpoint: Object, snap: Object, x: Expected)
    requires Sends(q, v, plan, endpoint) && snap in v.source.objects && snap.name.OfSnapshot? && Inside(snap.name.dataset, q.source)
    requires x in plan.expected && ExpectAt(q, v.source, snap) !in plan.expected
    ensures x.destination != ExpectAt(q, v.source, snap).destination
  {
    ExpectedAllExact(q, v.source, v.source.objects, endpoint, BaseTxg(v, plan), plan.mode.Full?, plan.send.intermediates);
    var y :| y in v.source.objects && CarriedAll(y, endpoint, BaseTxg(v, plan), plan.mode.Full?, plan.send.intermediates) && x == ExpectAt(q, v.source, y);
    LandsApart(q, v.source, y, snap);
  }
}
