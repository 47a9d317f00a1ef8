/** Planner, sender, receiver and verifier agree. */
module Delivery {
  import opened Names
  import opened Transfer

  /** A plan that sends something, from a well-formed source. */
  ghost predicate Planned(q: Request, v: View, plan: Plan) {
    Valid(v.source.objects) && Build(q, v) == Ok(plan)
  }

  /** A plan is made for the endpoint that is selected. */
  lemma PlanIsFinish(q: Request, v: View, plan: Plan) returns (endpoint: Object)
    requires Planned(q, v, plan)
    ensures Inside(q.stream, q.source) && Endpoint(q, v.source, v.source.objects) == Ok(Some(endpoint))
    ensures Finish(q, v, endpoint, plan.binding, plan.bindingNew) == Ok(plan)
  {
    endpoint := Endpoint(q, v.source, v.source.objects).value.value;
  }

  lemma FinishNames(q: Request, v: View, endpoint: Object, plan: Plan)
    requires Inside(q.stream, q.source) && Finish(q, v, endpoint, plan.binding, plan.bindingNew) == Ok(plan)
    ensures endpoint.name == plan.endpoint == plan.send.snapshot && plan.endpoints == [Expect(q, v.source, endpoint)]
    ensures plan.destination == MapStream(q)
  {}

  /** The endpoint object of a plan. */
  lemma PlanEndpoint(q: Request, v: View, plan: Plan) returns (endpoint: Object)
    requires Planned(q, v, plan)
    ensures endpoint in v.source.objects && Candidate(q, v.source, endpoint) && endpoint.txg > 0 && endpoint.name == plan.endpoint
    ensures Endpoint(q, v.source, v.source.objects) == Ok(Some(endpoint)) && Find(v.source.objects, plan.endpoint) == Some(endpoint)
    ensures plan.endpoints == [Expect(q, v.source, endpoint)] && endpoint.name.OfSnapshot? && plan.send.snapshot == plan.endpoint
    ensures forall o :: o in v.source.objects && Candidate(q, v.source, o) ==> o.txg <= endpoint.txg
  {
    endpoint := PlanIsFinish(q, v, plan);
    FinishNames(q, v, endpoint, plan);
    EndpointNewest(q, v.source, v.source.objects);
    FindUnique(v.source.objects, endpoint);
  }

  lemma FinishBase(q: Request, v: View, endpoint: Object, plan: Plan) returns (base: Object)
    requires Valid(v.source.objects) && Inside(q.stream, q.source) && Finish(q, v, endpoint, plan.binding, plan.bindingNew) == Ok(plan) && plan.send.base.Some?
    ensures base in v.source.objects && base.name == plan.send.base.value && Find(v.source.objects, base.name) == Some(base)
    ensures base.txg < endpoint.txg && base.name.dataset == q.stream
    ensures v.present && Newest(plan.destination, v.destination.objects).Some?
    ensures base.guid == Newest(plan.destination, v.destination.objects).value.guid
    ensures base.name.OfSnapshot? || (base.name.OfBookmark? && plan.mode.IncrementalLatest?)
    ensures plan.send.intermediates <==> plan.mode.IncrementalAll?
    ensures plan.expected == ExpectedIn(q, v.source, v.source.objects, endpoint, base.txg, plan.send.intermediates)
  {
    var latest := Newest(plan.destination, v.destination.objects).value;
    base := Base(q, v.source, latest, endpoint).value;
    BaseExact(q, v.source, latest, endpoint);
  }

  /** An incremental base is the destination's newest snapshot by GUID and precedes the endpoint. */
  lemma PlanBase(q: Request, v: View, plan: Plan, endpoint: Object) returns (base: Object)
    requires Planned(q, v, plan) && plan.send.base.Some? && Endpoint(q, v.source, v.source.objects) == Ok(Some(endpoint))
    ensures base in v.source.objects && base.name == plan.send.base.value && Find(v.source.objects, base.name) == Some(base)
    ensures base.txg < endpoint.txg && base.name.dataset == q.stream
    ensures v.present && Newest(plan.destination, v.destination.objects).Some?
    ensures base.guid == Newest(plan.destination, v.destination.objects).value.guid
    ensures base.name.OfSnapshot? || (base.name.OfBookmark? && plan.mode.IncrementalLatest?)
    ensures plan.send.intermediates <==> plan.mode.IncrementalAll?
    ensures plan.expected == ExpectedIn(q, v.source, v.source.objects, endpoint, base.txg, plan.send.intermediates)
  {
    var same := PlanIsFinish(q, v, plan);
    base := FinishBase(q, v, endpoint, plan);
  }

  /** Every plan's send options are accepted. */
  lemma PlanSendAccepted(q: Request, v: View, plan: Plan)
    requires Planned(q, v, plan)
    ensures SendAccepted(plan.send)
  {
    var endpoint := PlanEndpoint(q, v, plan);
    if plan.send.base.Some? {
      var base := PlanBase(q, v, plan, endpoint);
      assert base.name == endpoint.name ==> base == endpoint;
    }
  }

  /** The planner's filter is the sender's. */
  lemma {:induction false} ExpectedIsDelivered(q: Request, s: Side, objects: seq<Object>, endpoint: Object, baseTxg: nat, all: bool)
    requires Inside(q.stream, q.source) && endpoint.name.dataset == q.stream && endpoint.txg > 0
    requires forall o :: o in objects && o.kind.Snapshot? ==> o.txg > 0
    requires forall o :: o in objects && o.name == endpoint.name ==> o == endpoint
    ensures var e, d := ExpectedIn(q, s, objects, endpoint, baseTxg, all), Deliver(objects, endpoint, baseTxg, all);
            |e| == |d| && forall i :: 0 <= i < |e| ==> e[i] == Expect(q, s, d[i])
  {
    if objects != [] {
      var init, o := objects[..|objects| - 1], objects[|objects| - 1];
      assert objects == init + [o];
      ExpectedIsDelivered(q, s, init, endpoint, baseTxg, all);
      assert Carried(q, o, endpoint, baseTxg, all) <==> Sent(o, endpoint, baseTxg, all);
    }
  }

  lemma {:induction false} DeliverExact(objects: seq<Object>, endpoint: Object, baseTxg: nat, all: bool)
    ensures forall o :: o in Deliver(objects, endpoint, baseTxg, all) <==> o in objects && Sent(o, endpoint, baseTxg, all)
  {
    if objects != [] {
      DeliverExact(objects[..|objects| - 1], endpoint, baseTxg, all);
      assert objects == objects[..|objects| - 1] + [objects[|objects| - 1]];
    }
  }

  predicate DistinctNames(objects: seq<Object>) {
    forall i, j :: 0 <= i < j < |objects| ==> objects[i].name != objects[j].name
  }

  lemma {:induction false} DeliverDistinct(objects: seq<Object>, endpoint: Object, baseTxg: nat, all: bool)
    requires DistinctNames(objects)
    ensures DistinctNames(Deliver(objects, endpoint, baseTxg, all))
  {
    if objects != [] {
      var init, o := objects[..|objects| - 1], objects[|objects| - 1];
      DeliverDistinct(init, endpoint, baseTxg, all);
      DeliverExact(init, endpoint, baseTxg, all);
      var d := Deliver(init, endpoint, baseTxg, all);
      forall i | 0 <= i < |d| ensures d[i].name != o.name {
        assert d[i] in d;
        var k :| 0 <= k < |init| && init[k] == d[i];
        assert objects[k].name != objects[|objects| - 1].name;
      }
      var e := Deliver(objects, endpoint, baseTxg, all);
      forall i, j | 0 <= i < j < |e| ensures e[i].name != e[j].name {
        assert j < |d| ==> e[i] == d[i] && e[j] == d[j];
      }
    }
  }

  /** What a plan that sends something amounts to: an endpoint, where the base
      is in the source's history, and what the destination had. */
  ghost predicate Shape(q: Request, v: View, plan: Plan, endpoint: Object, baseTxg: nat) {
    && Valid(v.source.objects) && Inside(q.stream, q.source) && plan.destination == MapStream(q)
    && endpoint in v.source.objects && endpoint.kind.Snapshot? && endpoint.name.dataset == q.stream && endpoint.name == plan.endpoint
    && plan.expected == ExpectedIn(q, v.source, v.source.objects, endpoint, baseTxg, plan.send.intermediates)
    && Stream(v.source, plan.send) == Some(Deliver(v.source.objects, endpoint, baseTxg, plan.send.intermediates))
    && baseTxg < endpoint.txg
    && (v.present <==> plan.send.base.Some?)
    && (plan.send.intermediates ==> plan.send.base.Some?)
    && (plan.send.base.Some? ==> BaseIsNewest(v, plan))
    && Find(v.destination.objects, Expect(q, v.source, endpoint).destination).None?
    && plan.endpoints == [Expect(q, v.source, endpoint)]
  }

  /** The base is on both ends: the destination's newest snapshot has its GUID. */
  predicate BaseIsNewest(v: View, plan: Plan)
    requires plan.send.base.Some?
  {
    var base, newest := Find(v.source.objects, plan.send.base.value), Newest(plan.destination, v.destination.objects);
    base.Some? && newest.Some? && base.value.guid == newest.value.guid
  }

  lemma FinishKind(q: Request, v: View, endpoint: Object, plan: Plan)
    requires Inside(q.stream, q.source) && Finish(q, v, endpoint, plan.binding, plan.bindingNew) == Ok(plan)
    requires !plan.mode.UpToDate? && (!v.present ==> v.destination.objects == [])
    ensures v.present <==> plan.send.base.Some?
    ensures Find(v.destination.objects, Expect(q, v.source, endpoint).destination).None?
    ensures !v.present ==> !plan.send.intermediates && plan.expected == ExpectedIn(q, v.source, v.source.objects, endpoint, 0, false)
  {}

  lemma ShapeOf(q: Request, v: View, plan: Plan) returns (endpoint: Object, baseTxg: nat)
    requires Planned(q, v, plan) && !plan.mode.UpToDate? && (!v.present ==> v.destination.objects == [])
    ensures Shape(q, v, plan, endpoint, baseTxg)
  {
    endpoint := PlanIsFinish(q, v, plan);
    var same := PlanEndpoint(q, v, plan);
    FinishNames(q, v, endpoint, plan);
    FinishKind(q, v, endpoint, plan);
    baseTxg := 0;
    if plan.send.base.Some? {
      var base := FinishBase(q, v, endpoint, plan);
      baseTxg := base.txg;
    }
  }

  /** What a shaped plan's stream consists of. */
  ghost predicate Consists(q: Request, v: View, plan: Plan, endpoint: Object, delivered: seq<Object>) {
    && Inside(q.stream, q.source) && Stream(v.source, plan.send) == Some(delivered) && endpoint in delivered
    && |delivered| == |plan.expected| && (forall i :: 0 <= i < |delivered| ==> plan.expected[i] == Expect(q, v.source, delivered[i]))
    && (forall o :: o in delivered ==> o.name.OfSnapshot? && o.name.dataset == q.stream && 0 < o.txg <= endpoint.txg)
    && (forall o :: o in delivered ==> o in v.source.objects && (o.txg == endpoint.txg ==> o == endpoint))
    && (forall i, j :: 0 <= i < j < |delivered| ==> delivered[i].name != delivered[j].name)
    && (!plan.send.intermediates ==> forall o :: o in delivered ==> o == endpoint)
  }

  /** The sender transmits exactly the snapshots the plan expects. */
  lemma StreamIsExpected(q: Request, v: View, plan: Plan, endpoint: Object, baseTxg: nat) returns (delivered: seq<Object>)
    requires Shape(q, v, plan, endpoint, baseTxg)
    ensures Consists(q, v, plan, endpoint, delivered)
  {
    var all := plan.send.intermediates;
    delivered := Deliver(v.source.objects, endpoint, baseTxg, all);
    ExpectedIsDelivered(q, v.source, v.source.objects, endpoint, baseTxg, all);
    DeliverExact(v.source.objects, endpoint, baseTxg, all);
    DeliverDistinct(v.source.objects, endpoint, baseTxg, all);
    assert forall o :: o in v.source.objects && o.name == endpoint.name ==> o == endpoint;
  }

  /** The receive is refused only when the name of a snapshot between base and
      endpoint is already taken on the destination. */
  lemma ReceiveRefusedExactly(q: Request, v: View, plan: Plan, endpoint: Object, baseTxg: nat, delivered: seq<Object>)
    requires Shape(q, v, plan, endpoint, baseTxg) && Consists(q, v, plan, endpoint, delivered)
    requires forall i :: 0 <= i < |delivered| ==> delivered[i].name.OfSnapshot?
    ensures plan.send.base.Some? ==> Find(v.source.objects, plan.send.base.value).Some?
    ensures var base := if plan.send.base.Some? then Some(Find(v.source.objects, plan.send.base.value).value.guid) else None;
            ReceiveAccepted(v.destination, v.present, plan.destination, base, delivered)
            <==> forall i :: 0 <= i < |plan.expected| && plan.expected[i].source != plan.endpoint ==> Find(v.destination.objects, plan.expected[i].destination).None?
    ensures !plan.send.intermediates ==> forall i :: 0 <= i < |plan.expected| ==> plan.expected[i].source == plan.endpoint
  {
    forall i | 0 <= i < |delivered|
      ensures plan.expected[i].destination == OfSnapshot(plan.destination, delivered[i].name.component)
      ensures plan.expected[i].source == plan.endpoint ==> Find(v.destination.objects, plan.expected[i].destination).None?
      ensures !plan.send.intermediates ==> plan.expected[i].source == plan.endpoint
    {
      assert delivered[i] in delivered;
      assert delivered[i].name == endpoint.name ==> delivered[i] == endpoint;
    }
  }

  // ---------------------------------------------------------------- after the receive

  lemma {:induction false} FindArrival(target: Dataset, delivered: seq<Object>, top: nat, i: nat)
    requires forall j :: 0 <= j < |delivered| ==> delivered[j].name.OfSnapshot?
    requires forall j :: 0 <= j < |delivered| ==> delivered[j].name.dataset == delivered[0].name.dataset
    requires forall j, k :: 0 <= j < k < |delivered| ==> delivered[j].name != delivered[k].name
    requires i < |delivered|
    ensures Find(Arrivals(target, delivered, top), OfSnapshot(target, delivered[i].name.component)) == Some(Arrival(target, delivered[i], top))
  {
    var arrivals := Arrivals(target, delivered, top);
    forall j, k | 0 <= j < k < |arrivals| ensures arrivals[j].name != arrivals[k].name {
      assert delivered[j].name != delivered[k].name;
    }
    assert arrivals[i] in arrivals;
    FindUnique(arrivals, arrivals[i]);
  }

  /** The destination once the stream has been received: what it had, the new
      dataset for a full stream, and the arrivals after everything else. */
  ghost predicate Received(v: View, plan: Plan, delivered: seq<Object>, root: Object, top: nat, after: Side) {
    && (forall i :: 0 <= i < |delivered| ==> delivered[i].name.OfSnapshot?)
    && (forall o :: o in v.destination.objects ==> o.txg <= top)
    && root.name == OfDataset(plan.destination)
    && after.objects == Receive(v.destination, v.present, plan.destination, root, delivered, top)
    && after.tokens == {}
  }

  /** Every expected snapshot is found where the plan said, with the source's GUID. */
  lemma ReceivedVerifies(q: Request, v: View, plan: Plan, endpoint: Object, delivered: seq<Object>, root: Object, top: nat, after: Side)
    requires Consists(q, v, plan, endpoint, delivered) && plan.destination == MapStream(q) && Received(v, plan, delivered, root, top, after)
    ensures VerifyGUIDs(plan.expected, after)
  {
    forall i | 0 <= i < |plan.expected|
      ensures Find(after.objects, plan.expected[i].destination) == Some(Arrival(plan.destination, delivered[i], top))
    {
      assert forall j :: 0 <= j < |delivered| ==> delivered[j] in delivered;
      FindArrival(plan.destination, delivered, top, i);
      FindAppend(v.destination.objects + (if v.present then [] else [root]), Arrivals(plan.destination, delivered, top), plan.expected[i].destination);
    }
  }

  /** The endpoint is then the destination's newest snapshot, so it is what the
      next incremental stream starts from. */
  lemma EndpointBecomesNewest(q: Request, v: View, plan: Plan, endpoint: Object, delivered: seq<Object>, root: Object, top: nat, after: Side)
    requires Consists(q, v, plan, endpoint, delivered) && plan.destination == MapStream(q) && Received(v, plan, delivered, root, top, after)
    requires root.kind.Filesystem? || root.kind.Volume?
    ensures Newest(plan.destination, after.objects) == Some(Arrival(plan.destination, endpoint, top))
  {
    var newest, mine := Newest(plan.destination, after.objects), Arrival(plan.destination, endpoint, top);
    ArrivalIsThere(v, plan, delivered, root, top, after, endpoint);
    NewestExact(plan.destination, after.objects);
    assert newest.Some? && newest.value.txg >= mine.txg > top;
    var o := LateIsArrival(v, plan, delivered, root, top, after, newest.value);
    assert o.txg <= endpoint.txg;
  }

  lemma ArrivalIsThere(v: View, plan: Plan, delivered: seq<Object>, root: Object, top: nat, after: Side, o: Object)
    requires Received(v, plan, delivered, root, top, after) && o in delivered && o.name.OfSnapshot?
    ensures Arrival(plan.destination, o, top) in after.objects
  {
    var i :| 0 <= i < |delivered| && delivered[i] == o;
    assert Arrivals(plan.destination, delivered, top)[i] == Arrival(plan.destination, o, top);
  }

  /** A snapshot later than everything before came with the stream. */
  lemma LateIsArrival(v: View, plan: Plan, delivered: seq<Object>, root: Object, top: nat, after: Side, a: Object) returns (o: Object)
    requires Received(v, plan, delivered, root, top, after) && a in after.objects && a.txg > top && a.kind.Snapshot?
    requires root.kind.Filesystem? || root.kind.Volume?
    ensures o in delivered && o.name.OfSnapshot? && a == Arrival(plan.destination, o, top)
  {
    var arrivals := Arrivals(plan.destination, delivered, top);
    assert a in arrivals;
    var j :| 0 <= j < |arrivals| && arrivals[j] == a;
    o := delivered[j];
  }

  /** The view a later planning pass reads once the transfer has been recorded:
      the received replica with its lineage, checkpoint bookmarks on the source,
      and the binding, promoted to the root's replica if that now exists. */
  ghost predicate Recorded(q: Request, v: View, plan: Plan, after: Side, w: View, marks: seq<Object>) {
    && Inside(q.stream, q.source)
    && (forall o :: o in marks ==> o.kind.Bookmark? && o.name.OfBookmark? && Inside(o.name.dataset, q.source))
    && w.source.objects == v.source.objects + marks && w.source.owned == v.source.owned && w.source.lineages == v.source.lineages && w.source.tokens == {}
    && w.destination == after.(lineages := after.lineages[plan.destination := q.lineage]) && w.present
    && var mapped := MapReceive(q.source, q.root, q.discard);
       && w.rootExists == (v.rootExists || q.stream == q.source)
       && Inside(mapped, w.rootIdentity.name) && w.rootIdentity.pool != 0 && w.rootIdentity.guid != 0
       && (w.rootExists ==> w.rootIdentity.name == mapped && w.rootIdentity.pool == plan.binding.pool)
       && (v.rootExists ==> w.rootIdentity == v.rootIdentity)
       && plan.binding.pool != 0 && plan.binding.guid != 0
       && w.source.binding == Some(if w.rootExists then Binding(mapped, w.rootIdentity.pool, mapped, w.rootIdentity.guid) else plan.binding)
       && (!w.rootExists ==> w.bound == Some(Identity(plan.binding.anchor, plan.binding.pool, plan.binding.guid)))
  }

  lemma BuildFacts(q: Request, v: View, plan: Plan)
    requires Build(q, v) == Ok(plan)
    ensures Preflight(q, v) == Ok((plan.binding, plan.bindingNew)) && Inside(q.stream, q.source) && plan.destination == MapStream(q)
    ensures Compatible(q, v)
    ensures Endpoint(q, v.source, v.source.objects).Ok? && Endpoint(q, v.source, v.source.objects).value.Some?
    ensures plan.endpoint == Endpoint(q, v.source, v.source.objects).value.value.name
    ensures plan.mode.UpToDate? ==> v.present && plan.expected == plan.endpoints == [Expect(q, v.source, Endpoint(q, v.source, v.source.objects).value.value)]
    ensures plan.mode.UpToDate? ==> Find(v.destination.objects, plan.endpoints[0].destination).Some?
                                    && Find(v.destination.objects, plan.endpoints[0].destination).value.guid == plan.endpoints[0].guid
  {
  }

  lemma {:induction false} EndpointIgnoresBookmarks(q: Request, s: Side, objects: seq<Object>, marks: seq<Object>)
    requires forall o :: o in marks ==> o.kind.Bookmark?
    ensures Endpoint(q, s, objects + marks) == Endpoint(q, s, objects)
    decreases |marks|
  {
    if marks == [] {
      assert objects + marks == objects;
    } else {
      assert (objects + marks)[..|objects + marks| - 1] == objects + marks[..|marks| - 1];
      assert marks[|marks| - 1] in marks;
      EndpointIgnoresBookmarks(q, s, objects, marks[..|marks| - 1]);
    }
  }

  /** Endpoint selection reads the snapshots and their ownership, nothing else. */
  lemma {:induction false} EndpointReads(q: Request, s: Side, t: Side, objects: seq<Object>)
    requires s.owned == t.owned
    ensures Endpoint(q, s, objects) == Endpoint(q, t, objects)
  {
    if objects != [] { EndpointReads(q, s, t, objects[..|objects| - 1]); }
  }

  /** The binding a transfer leaves is the one the next pass verifies. */
  lemma RecordedBinds(q: Request, v: View, plan: Plan, after: Side, w: View, marks: seq<Object>)
    requires Recorded(q, v, plan, after, w, marks) && Bind(q, v) == Ok((plan.binding, plan.bindingNew))
    ensures Bind(q, w) == Ok((w.source.binding.value, false))
  {
  }

  /** Datasets are found on the source as before. */
  lemma SourceUnchanged(q: Request, v: View, plan: Plan, after: Side, w: View, marks: seq<Object>, d: Dataset)
    requires Recorded(q, v, plan, after, w, marks)
    ensures Find(w.source.objects, OfDataset(d)) == Find(v.source.objects, OfDataset(d))
    ensures SourceInScope(q, v) ==> SourceInScope(q, w)
  {
    FindAppend(v.source.objects, marks, OfDataset(d));
    FindExact(marks, OfDataset(d));
    if SourceInScope(q, v) {
      forall i | 0 <= i < |w.source.objects| ensures Inside(w.source.objects[i].name.dataset, q.source) {
        if i >= |v.source.objects| { assert marks[i - |v.source.objects|] in marks; }
      }
    }
  }

  /** What the next pass requires of the destination. */
  ghost predicate Landed(q: Request, v: View, after: Side, endpoint: Object)
    requires Inside(q.stream, q.source)
  {
    var target := MapStream(q);
    var there, here, found := Find(after.objects, OfDataset(target)), Find(v.source.objects, OfDataset(q.stream)), Find(after.objects, Expect(q, v.source, endpoint).destination);
    && after.tokens == {}
    && (forall o :: o in after.objects ==> Inside(o.name.dataset, target))
    && there.Some? && (here.Some? ==> there.value.kind == here.value.kind)
    && found.Some? && found.value.guid == endpoint.guid
  }

  lemma ReceivedInScope(q: Request, v: View, plan: Plan, delivered: seq<Object>, root: Object, top: nat, after: Side)
    requires Inside(q.stream, q.source) && plan.destination == MapStream(q) && Received(v, plan, delivered, root, top, after) && DestinationInScope(q, v)
    ensures forall o :: o in after.objects ==> Inside(o.name.dataset, plan.destination)
  {
    forall o | o in after.objects ensures Inside(o.name.dataset, plan.destination) {
      if o in v.destination.objects {
        var i :| 0 <= i < |v.destination.objects| && v.destination.objects[i] == o;
      }
    }
  }

  /** The replica's own dataset is the one that was there, or the one created. */
  lemma ReceivedDataset(v: View, plan: Plan, delivered: seq<Object>, root: Object, top: nat, after: Side)
    requires Received(v, plan, delivered, root, top, after)
    ensures var name := OfDataset(plan.destination);
      Find(after.objects, name) == if !v.present then Some(root) else Find(v.destination.objects, name)
  {
    var prior, arrivals := v.destination.objects + (if v.present then [] else [root]), Arrivals(plan.destination, delivered, top);
    var name := OfDataset(plan.destination);
    FindExact(arrivals, name);
    FindAppend(prior, arrivals, name);
    FindAppend(v.destination.objects, if v.present then [] else [root], name);
  }

  lemma ReceivedLands(q: Request, v: View, plan: Plan, endpoint: Object, delivered: seq<Object>, root: Object, top: nat, after: Side)
    requires Consists(q, v, plan, endpoint, delivered) && plan.destination == MapStream(q) && Received(v, plan, delivered, root, top, after)
    requires Compatible(q, v) && DestinationInScope(q, v) && (v.present ==> Find(v.destination.objects, OfDataset(plan.destination)).Some?)
    requires Find(v.source.objects, OfDataset(q.stream)).Some? && root.kind == Find(v.source.objects, OfDataset(q.stream)).value.kind
    ensures Landed(q, v, after, endpoint)
  {
    ReceivedInScope(q, v, plan, delivered, root, top, after);
    ReceivedDataset(v, plan, delivered, root, top, after);
    ReceivedVerifies(q, v, plan, endpoint, delivered, root, top, after);
    var i :| 0 <= i < |delivered| && delivered[i] == endpoint;
    assert plan.expected[i] == Expect(q, v.source, endpoint);
  }

  lemma LandedPreflight(q: Request, v: View, plan: Plan, after: Side, w: View, marks: seq<Object>, endpoint: Object)
    requires Recorded(q, v, plan, after, w, marks) && Preflight(q, v) == Ok((plan.binding, plan.bindingNew)) && Landed(q, v, after, endpoint)
    ensures Preflight(q, w) == Ok((w.source.binding.value, false))
  {
    SourceUnchanged(q, v, plan, after, w, marks, q.source);
    SourceUnchanged(q, v, plan, after, w, marks, q.stream);
    RecordedBinds(q, v, plan, after, w, marks);
    forall i | 0 <= i < |w.destination.objects| ensures Inside(w.destination.objects[i].name.dataset, MapStream(q)) {
      assert w.destination.objects[i] in after.objects;
    }
  }

  /** Planning again after a transfer finds the same endpoint already there. */
  lemma LandedIsUpToDate(q: Request, v: View, plan: Plan, after: Side, w: View, marks: seq<Object>, endpoint: Object)
    requires Recorded(q, v, plan, after, w, marks) && plan.destination == MapStream(q)
    requires Preflight(q, v) == Ok((plan.binding, plan.bindingNew)) && Compatible(q, v)
    requires Endpoint(q, v.source, v.source.objects) == Ok(Some(endpoint)) && Landed(q, v, after, endpoint)
    ensures Build(q, w).Ok? && Build(q, w).value.mode.UpToDate? && Build(q, w).value.endpoint == endpoint.name
  {
    LandedPreflight(q, v, plan, after, w, marks, endpoint);
    EndpointIgnoresBookmarks(q, v.source, v.source.objects, marks);
    EndpointReads(q, v.source, w.source, w.source.objects);
    SourceUnchanged(q, v, plan, after, w, marks, q.stream);
    assert Compatible(q, w);
    assert Expect(q, w.source, endpoint) == Expect(q, v.source, endpoint);
  }

  lemma UpToDateLands(q: Request, v: View, plan: Plan, endpoint: Object)
    requires Preflight(q, v).Ok? && Compatible(q, v) && v.present && plan.expected == [Expect(q, v.source, endpoint)] && Valid(v.destination.objects)
    requires Find(v.destination.objects, plan.expected[0].destination).Some? && Find(v.destination.objects, plan.expected[0].destination).value.guid == endpoint.guid
    ensures Landed(q, v, v.destination, endpoint) && VerifyGUIDs(plan.expected, v.destination)
  {
    FindExact(v.destination.objects, plan.expected[0].destination);
    forall o | o in v.destination.objects ensures Inside(o.name.dataset, MapStream(q)) {
      var i :| 0 <= i < |v.destination.objects| && v.destination.objects[i] == o;
    }
  }

  /** What the destination is after carrying out the plan. */
  ghost predicate CarriedOut(q: Request, v: View, plan: Plan, root: Object, top: nat, after: Side) {
    && (!v.present ==> v.destination.objects == []) && Valid(v.destination.objects)
    && (Find(v.source.objects, OfDataset(q.stream)).Some? ==> root.kind == Find(v.source.objects, OfDataset(q.stream)).value.kind)
    && (if plan.mode.UpToDate? then after == v.destination
        else Stream(v.source, plan.send).Some? ==> Received(v, plan, Stream(v.source, plan.send).value, root, top, after))
  }

  lemma SentLands(q: Request, v: View, plan: Plan, root: Object, top: nat, after: Side, endpoint: Object, baseTxg: nat)
    requires Shape(q, v, plan, endpoint, baseTxg) && CarriedOut(q, v, plan, root, top, after) && !plan.mode.UpToDate?
    requires Preflight(q, v).Ok? && Compatible(q, v)
    ensures VerifyGUIDs(plan.expected, after) && Landed(q, v, after, endpoint)
  {
    var delivered := SentReceived(q, v, plan, root, top, after, endpoint, baseTxg);
    ReceivedVerifies(q, v, plan, endpoint, delivered, root, top, after);
    PreflightScope(q, v);
    ReceivedLands(q, v, plan, endpoint, delivered, root, top, after);
  }

  lemma SentReceived(q: Request, v: View, plan: Plan, root: Object, top: nat, after: Side, endpoint: Object, baseTxg: nat) returns (delivered: seq<Object>)
    requires Shape(q, v, plan, endpoint, baseTxg) && CarriedOut(q, v, plan, root, top, after) && !plan.mode.UpToDate?
    ensures Consists(q, v, plan, endpoint, delivered) && Received(v, plan, delivered, root, top, after) && plan.destination == MapStream(q)
  {
    delivered := StreamIsExpected(q, v, plan, endpoint, baseTxg);
  }

  /** What the preflight has seen of both ends. */
  lemma PreflightScope(q: Request, v: View)
    requires Preflight(q, v).Ok? && Inside(q.stream, q.source)
    ensures DestinationInScope(q, v) && (v.present ==> Find(v.destination.objects, OfDataset(MapStream(q))).Some?)
    ensures Find(v.source.objects, OfDataset(q.stream)).Some?
  {}

  lemma CarriedOutLands(q: Request, v: View, plan: Plan, root: Object, top: nat, after: Side) returns (endpoint: Object)
    requires Planned(q, v, plan) && CarriedOut(q, v, plan, root, top, after)
    ensures VerifyGUIDs(plan.expected, after)
    ensures Inside(q.stream, q.source) && plan.destination == MapStream(q) && endpoint.name == plan.endpoint
    ensures Preflight(q, v) == Ok((plan.binding, plan.bindingNew)) && Compatible(q, v)
    ensures Endpoint(q, v.source, v.source.objects) == Ok(Some(endpoint)) && Landed(q, v, after, endpoint)
    ensures plan.send.base.Some? ==> BaseIsNewest(v, plan)
  {
    BuildFacts(q, v, plan);
    if plan.mode.UpToDate? {
      endpoint := PlanEndpoint(q, v, plan);
      UpToDateLands(q, v, plan, endpoint);
    } else {
      var baseTxg;
      endpoint, baseTxg := ShapeOf(q, v, plan);
      SentLands(q, v, plan, root, top, after, endpoint, baseTxg);
      EndpointNewest(q, v.source, v.source.objects);
    }
  }

  /** The base's place in the source's history. */
  predicate BasePrecedes(v: View, plan: Plan)
    requires plan.send.base.Some?
  {
    var base, endpoint := Find(v.source.objects, plan.send.base.value), Find(v.source.objects, plan.endpoint);
    base.Some? && endpoint.Some? && base.value.txg < endpoint.value.txg
  }

  /** The GUID the receiver must find at the destination's end, if any. */
  function BaseGuid(v: View, plan: Plan): Option<nat> {
    if plan.send.base.Some? && Find(v.source.objects, plan.send.base.value).Some?
    then Some(Find(v.source.objects, plan.send.base.value).value.guid) else None
  }

  /** No snapshot before the endpoint would take a name in use. */
  predicate NamesFree(v: View, plan: Plan) {
    forall i :: 0 <= i < |plan.expected| && plan.expected[i].source != plan.endpoint ==> Find(v.destination.objects, plan.expected[i].destination).None?
  }

  /** The stream is exactly what the plan expects, and is received exactly when
      the names between base and endpoint are free. */
  ghost predicate SendsExpected(q: Request, v: View, plan: Plan) {
    && Inside(q.stream, q.source) && Stream(v.source, plan.send).Some?
    && var delivered := Stream(v.source, plan.send).value;
       && |delivered| == |plan.expected|
       && (forall i :: 0 <= i < |delivered| ==> delivered[i].name.OfSnapshot? && plan.expected[i] == Expect(q, v.source, delivered[i]))
       && (ReceiveAccepted(v.destination, v.present, plan.destination, BaseGuid(v, plan), delivered) <==> NamesFree(v, plan))
  }

  lemma PlanSendsExpected(q: Request, v: View, plan: Plan)
    requires Planned(q, v, plan) && !plan.mode.UpToDate? && (!v.present ==> v.destination.objects == [])
    ensures SendsExpected(q, v, plan)
  {
    var endpoint, baseTxg := ShapeOf(q, v, plan);
    var delivered := StreamIsExpected(q, v, plan, endpoint, baseTxg);
    forall i | 0 <= i < |delivered| ensures delivered[i].name.OfSnapshot? {
      assert delivered[i] in delivered;
    }
    ReceiveRefusedExactly(q, v, plan, endpoint, baseTxg, delivered);
  }

  lemma PlanBasePrecedes(q: Request, v: View, plan: Plan)
    requires Planned(q, v, plan) && plan.send.base.Some?
    ensures BasePrecedes(v, plan)
  {
    var endpoint := PlanEndpoint(q, v, plan);
    var base := PlanBase(q, v, plan, endpoint);
  }

  /** The whole of one transfer of a non-recursive stream: the options are
      accepted, an incremental base is the destination's newest snapshot and
      precedes the endpoint, what is sent is exactly what the plan expects and is
      received unless a name is taken, what arrives verifies, and planning again from what is recorded is up to date at the
      same endpoint. */
  lemma TransferConverges(q: Request, v: View, plan: Plan, root: Object, top: nat, after: Side, w: View, marks: seq<Object>)
    requires Planned(q, v, plan) && CarriedOut(q, v, plan, root, top, after) && Recorded(q, v, plan, after, w, marks)
    ensures SendAccepted(plan.send)
    ensures plan.send.base.Some? ==> BaseIsNewest(v, plan) && BasePrecedes(v, plan)
    ensures !plan.mode.UpToDate? ==> SendsExpected(q, v, plan)
    ensures VerifyGUIDs(plan.expected, after)
    ensures Build(q, w).Ok? && Build(q, w).value.mode.UpToDate? && Build(q, w).value.endpoint == plan.endpoint
  {
    PlanSendAccepted(q, v, plan);
    if plan.send.base.Some? {
      PlanBasePrecedes(q, v, plan);
    }
    if !plan.mode.UpToDate? {
      PlanSendsExpected(q, v, plan);
    }
    var endpoint := CarriedOutLands(q, v, plan, root, top, after);
    LandedIsUpToDate(q, v, plan, after, w, marks, endpoint);
  }

  // ---------------------------------------------------------------- pruning during the transfer

  /** An expected snapshot that neither arrived nor is an endpoint. */
  predicate Absent(e: Expected, endpoints: seq<Expected>, received: Side) {
    Find(received.objects, e.destination).None? && forall i :: 0 <= i < |endpoints| ==> endpoints[i].source != e.source
  }

  /** Leave out what is absent here and gone from the source too. */
  function SettleIn(es: seq<Expected>, endpoints: seq<Expected>, received: Side, remaining: Side): seq<Expected> {
    if es == [] then []
    else
      var e := es[|es| - 1];
      SettleIn(es[..|es| - 1], endpoints, received, remaining)
      + (if Absent(e, endpoints, received) && Find(remaining.objects, e.source).None? then [] else [e])
  }

  function Settle(plan: Plan, received: Side, remaining: Side): seq<Expected> {
    if plan.send.intermediates then SettleIn(plan.expected, plan.endpoints, received, remaining) else plan.expected
  }

  lemma {:induction false} SettleExact(es: seq<Expected>, endpoints: seq<Expected>, received: Side, remaining: Side)
    ensures forall e :: e in SettleIn(es, endpoints, received, remaining) <==>
              e in es && !(Absent(e, endpoints, received) && Find(remaining.objects, e.source).None?)
  {
    if es != [] {
      SettleExact(es[..|es| - 1], endpoints, received, remaining);
      assert es == es[..|es| - 1] + [es[|es| - 1]];
    }
  }

  predicate There(e: Expected, received: Side) {
    var o := Find(received.objects, e.destination);
    o.Some? && o.value.kind.Snapshot? && o.value.guid == e.guid
  }

  lemma VerifiedThere(es: seq<Expected>, received: Side)
    requires VerifyGUIDs(es, received)
    ensures forall e :: e in es ==> There(e, received)
  {
  }

  /** When settling and verifying succeed, whatever the plan, every endpoint it
      expects is on the destination with its source GUID, and every other
      snapshot it expected is there too or was already gone from the source when
      it was read again. */
  lemma SettledSound(plan: Plan, received: Side, remaining: Side)
    requires VerifyGUIDs(Settle(plan, received, remaining), received)
    ensures forall e :: e in plan.endpoints && e in plan.expected ==> There(e, received)
    ensures forall e :: e in plan.expected ==> There(e, received) || (plan.send.intermediates && Find(remaining.objects, e.source).None?)
  {
    SettleExact(plan.expected, plan.endpoints, received, remaining);
    VerifiedThere(Settle(plan, received, remaining), received);
  }

  /** A plan for one stream expects its endpoint. */
  lemma EndpointIsExpected(q: Request, v: View, plan: Plan, endpoint: Object, baseTxg: nat)
    requires Shape(q, v, plan, endpoint, baseTxg)
    ensures forall e :: e in plan.endpoints ==> e in plan.expected
  {
    var delivered := StreamIsExpected(q, v, plan, endpoint, baseTxg);
    var i :| 0 <= i < |delivered| && delivered[i] == endpoint;
    assert plan.expected[i] == plan.endpoints[0];
  }

  /** What of an expected list was sent is there, and the name of what was not is free. */
  ghost predicate Arrived(plan: Plan, sent: set<Name>, received: Side) {
    && received.tokens == {}
    && (forall e :: e in plan.expected && e.source in sent ==> There(e, received))
    && (forall e :: e in plan.expected && e.source !in sent ==> Find(received.objects, e.destination).None?)
  }

  /** Held endpoints are sent, and what the source still has was there to be sent. */
  ghost predicate HeldOrGone(plan: Plan, sent: set<Name>, remaining: Side) {
    && (forall e :: e in plan.endpoints ==> e.source in sent)
    && (forall e :: e in plan.expected && Find(remaining.objects, e.source).Some? ==> e.source in sent)
  }

  /** Whatever the plan, pruning between planning and sending fails no transfer
      with intermediates; one without verifies exactly when all it expected was
      sent. */
  lemma SettlesExactly(plan: Plan, sent: set<Name>, received: Side, remaining: Side)
    requires Arrived(plan, sent, received) && HeldOrGone(plan, sent, remaining)
    ensures VerifyGUIDs(Settle(plan, received, remaining), received) <==>
      plan.send.intermediates || forall e :: e in plan.expected ==> e.source in sent
  {
    var settled := Settle(plan, received, remaining);
    SettleExact(plan.expected, plan.endpoints, received, remaining);
    if plan.send.intermediates {
      forall i | 0 <= i < |settled| ensures There(settled[i], received) {
        var e := settled[i];
        assert e in settled;
        if e.source !in sent {
          forall j | 0 <= j < |plan.endpoints| ensures plan.endpoints[j].source != e.source {
            assert plan.endpoints[j] in plan.endpoints;
          }
        }
      }
    } else {
      forall i | 0 <= i < |settled| ensures There(settled[i], received) <==> settled[i].source in sent {
        assert settled[i] in plan.expected;
      }
    }
  }

  /** For one stream with intermediates: pruning between planning and sending, and
      again before the source is re-read, never makes a good transfer fail. Held
      snapshots stay, and nothing pruned comes back. */
  lemma SettledComplete(q: Request, v: View, plan: Plan, endpoint: Object, baseTxg: nat, sending: seq<Object>, root: Object, top: nat, received: Side, remaining: Side)
    requires Shape(q, v, plan, endpoint, baseTxg) && plan.send.intermediates
    requires Valid(sending) && endpoint in sending && forall o :: o in sending ==> o in v.source.objects
    requires forall o :: o in remaining.objects ==> (o in sending || forall e :: e in plan.expected ==> e.source != o.name)
    requires forall i :: 0 <= i < |plan.expected| ==> Find(v.destination.objects, plan.expected[i].destination).None?
    requires Received(v, plan, Deliver(sending, endpoint, baseTxg, true), root, top, received)
    ensures VerifyGUIDs(Settle(plan, received, remaining), received)
  {
    var settled := Settle(plan, received, remaining);
    SettleExact(plan.expected, plan.endpoints, received, remaining);
    forall i | 0 <= i < |settled| ensures There(settled[i], received) {
      assert settled[i] in settled;
      KeptIsThere(q, v, plan, endpoint, baseTxg, sending, root, top, received, remaining, settled[i]);
    }
  }

  /** What settling keeps has arrived. */
  lemma KeptIsThere(q: Request, v: View, plan: Plan, endpoint: Object, baseTxg: nat, sending: seq<Object>, root: Object, top: nat, received: Side, remaining: Side, e: Expected)
    requires Shape(q, v, plan, endpoint, baseTxg) && plan.send.intermediates
    requires Valid(sending) && endpoint in sending && forall o :: o in sending ==> o in v.source.objects
    requires forall o :: o in remaining.objects ==> (o in sending || forall x :: x in plan.expected ==> x.source != o.name)
    requires forall i :: 0 <= i < |plan.expected| ==> Find(v.destination.objects, plan.expected[i].destination).None?
    requires Received(v, plan, Deliver(sending, endpoint, baseTxg, true), root, top, received)
    requires e in plan.expected && !(Absent(e, plan.endpoints, received) && Find(remaining.objects, e.source).None?)
    ensures There(e, received)
  {
    var sent := Deliver(sending, endpoint, baseTxg, true);
    var o := ExpectedObject(q, v, plan, endpoint, baseTxg, e);
    DeliverExact(sending, endpoint, baseTxg, true);
    DeliverDistinct(sending, endpoint, baseTxg, true);
    KeptWasSent(q, v, plan, endpoint, sending, sent, root, top, received, remaining, o);
    SentIsThere(q, v, plan, sent, root, top, received, o);
  }

  /** The source snapshot behind an expected one. */
  lemma ExpectedObject(q: Request, v: View, plan: Plan, endpoint: Object, baseTxg: nat, e: Expected) returns (o: Object)
    requires Shape(q, v, plan, endpoint, baseTxg) && plan.send.intermediates && e in plan.expected
    ensures o in v.source.objects && Sent(o, endpoint, baseTxg, true) && o.name.OfSnapshot? && o.name.dataset == q.stream && e == Expect(q, v.source, o)
    ensures Sent(endpoint, endpoint, baseTxg, true)
  {
    var delivered := StreamIsExpected(q, v, plan, endpoint, baseTxg);
    DeliverExact(v.source.objects, endpoint, baseTxg, true);
    var k :| 0 <= k < |plan.expected| && plan.expected[k] == e;
    o := delivered[k];
    assert o in delivered && endpoint in delivered;
  }

  lemma SameObject(objects: seq<Object>, x: Object, o: Object)
    requires DistinctNames(objects) && x in objects && o in objects && x.name == o.name
    ensures x == o
  {
  }

  /** What was sent arrived with its GUID. */
  lemma SentIsThere(q: Request, v: View, plan: Plan, sent: seq<Object>, root: Object, top: nat, received: Side, o: Object)
    requires Inside(q.stream, q.source) && plan.destination == MapStream(q) && Received(v, plan, sent, root, top, received)
    requires DistinctNames(sent) && o in sent && forall x :: x in sent ==> x.name.dataset == q.stream
    ensures There(Expect(q, v.source, o), received)
  {
    var j :| 0 <= j < |sent| && sent[j] == o;
    assert forall k :: 0 <= k < |sent| ==> sent[k] in sent;
    FindArrival(plan.destination, sent, top, j);
    FindAppend(v.destination.objects + (if v.present then [] else [root]), Arrivals(plan.destination, sent, top), Expect(q, v.source, o).destination);
  }

  /** What was found under an expected name that was free before is what was sent. */
  lemma ArrivedWasSent(q: Request, v: View, plan: Plan, sent: seq<Object>, root: Object, top: nat, received: Side, name: Name)
    requires Received(v, plan, sent, root, top, received) && name.OfSnapshot? && name.dataset == plan.destination
    requires Find(v.destination.objects, name).None? && Find(received.objects, name).Some?
    ensures exists x :: x in sent && x.name.OfSnapshot? && x.name.component == name.component
  {
    var prior, arrivals := v.destination.objects + (if v.present then [] else [root]), Arrivals(plan.destination, sent, top);
    FindAppend(prior, arrivals, name);
    FindAppend(v.destination.objects, if v.present then [] else [root], name);
    FindExact(arrivals, name);
    var a := Find(arrivals, name).value;
    var j :| 0 <= j < |arrivals| && arrivals[j] == a;
    assert sent[j] in sent;
  }

  /** A snapshot the settling keeps was among those sent. */
  lemma KeptWasSent(q: Request, v: View, plan: Plan, endpoint: Object, sending: seq<Object>, sent: seq<Object>, root: Object, top: nat, received: Side, remaining: Side, o: Object)
    requires Inside(q.stream, q.source) && plan.destination == MapStream(q) && plan.endpoints == [Expect(q, v.source, endpoint)] && DistinctNames(v.source.objects)
    requires o in v.source.objects && o.name.OfSnapshot? && o.name.dataset == q.stream && Expect(q, v.source, o) in plan.expected
    requires forall x :: x in sending ==> x in v.source.objects
    requires forall x :: x in sent ==> x in sending && x.name.dataset == q.stream
    requires endpoint in sent && (o in sending ==> o in sent)
    requires forall x :: x in remaining.objects ==> (x in sending || forall e :: e in plan.expected ==> e.source != x.name)
    requires Find(v.destination.objects, Expect(q, v.source, o).destination).None?
    requires Received(v, plan, sent, root, top, received)
    requires !(Absent(Expect(q, v.source, o), plan.endpoints, received) && Find(remaining.objects, o.name).None?)
    ensures o in sent
  {
    var e := Expect(q, v.source, o);
    if Find(received.objects, e.destination).Some? {
      ArrivedWasSent(q, v, plan, sent, root, top, received, e.destination);
      var x :| x in sent && x.name.OfSnapshot? && x.name.component == o.name.component;
      SameObject(v.source.objects, x, o);
    } else if o.name == endpoint.name {
      SameObject(v.source.objects, endpoint, o);
    } else {
      FindExact(remaining.objects, o.name);
      var x := Find(remaining.objects, o.name).value;
      assert x.name == e.source && x in sending;
      SameObject(v.source.objects, x, o);
    }
  }
}
