/** The planner, settler and multi-stream executor as loops, proved against the
    definitions of Transfer and Delivery. */
module Planner {
  import opened Names
  import opened Transfer
  import opened Delivery

  lemma {:induction false} EndpointFails(q: Request, s: Side, objects: seq<Object>, i: nat)
    requires i < |objects| && Endpoint(q, s, objects[..i + 1]).Err?
    ensures Endpoint(q, s, objects) == Endpoint(q, s, objects[..i + 1])
    decreases |objects|
  {
    if i + 1 < |objects| {
      assert objects[..|objects| - 1][..i + 1] == objects[..i + 1];
      EndpointFails(q, s, objects[..|objects| - 1], i);
    } else {
      assert objects[..i + 1] == objects;
    }
  }

  method SelectEndpoint(q: Request, s: Side) returns (res: Result<Option<Object>>)
    ensures res == Endpoint(q, s, s.objects)
  {
    var endpoint: Option<Object> := None;
    for i := 0 to |s.objects|
      invariant Endpoint(q, s, s.objects[..i]) == Ok(endpoint)
    {
      assert s.objects[..i + 1][..i] == s.objects[..i];
      var o := s.objects[i];
      if !Candidate(q, s, o) { continue; }
      if o.txg == 0 {
        EndpointFails(q, s, s.objects, i);
        return Err("snapshot creation transaction is missing");
      }
      if endpoint.None? || o.txg > endpoint.value.txg { endpoint := Some(o); }
    }
    assert s.objects[..|s.objects|] == s.objects;
    return Ok(endpoint);
  }

  method SelectNewest(target: Dataset, objects: seq<Object>) returns (latest: Option<Object>)
    ensures latest == Newest(target, objects)
  {
    latest := None;
    for i := 0 to |objects|
      invariant latest == Newest(target, objects[..i])
    {
      assert objects[..i + 1][..i] == objects[..i];
      var o := objects[i];
      if o.kind.Snapshot? && o.name.dataset == target && o.txg > (if latest.Some? then latest.value.txg else 0) { latest := Some(o); }
    }
    assert objects[..|objects|] == objects;
  }

  method SelectBase(q: Request, s: Side, latest: Object, endpoint: Object) returns (base: Option<Object>)
    ensures base == Base(q, s, latest, endpoint)
  {
    base := None;
    var i := 0;
    while i < |s.objects|
      invariant 0 <= i <= |s.objects|
      invariant SnapshotBase(q, s, s.objects, latest, endpoint) == SnapshotBase(q, s, s.objects[i..], latest, endpoint)
    {
      if BaseSnapshot(q, s, s.objects[i], latest, endpoint) { return Some(s.objects[i]); }
      assert s.objects[i..][1..] == s.objects[i + 1..];
      i := i + 1;
    }
    if !q.incremental.Latest? { return None; }
    i := 0;
    while i < |s.proofs|
      invariant 0 <= i <= |s.proofs|
      invariant BookmarkBase(q, s, s.proofs, latest, endpoint) == BookmarkBase(q, s, s.proofs[i..], latest, endpoint)
    {
      if BaseBookmark(q, s, s.proofs[i], latest, endpoint) { return Find(s.objects, s.proofs[i].Cursor()); }
      assert s.proofs[i..][1..] == s.proofs[i + 1..];
      i := i + 1;
    }
  }

  method CollectExpected(q: Request, s: Side, endpoint: Object, baseTxg: nat, all: bool) returns (expected: seq<Expected>)
    requires Inside(q.stream, q.source)
    ensures expected == ExpectedIn(q, s, s.objects, endpoint, baseTxg, all)
  {
    expected := [];
    for i := 0 to |s.objects|
      invariant expected == ExpectedIn(q, s, s.objects[..i], endpoint, baseTxg, all)
    {
      assert s.objects[..i + 1][..i] == s.objects[..i];
      if Carried(q, s.objects[i], endpoint, baseTxg, all) { expected := expected + [Expect(q, s, s.objects[i])]; }
    }
    assert s.objects[..|s.objects|] == s.objects;
  }

  /** Where an accepted plan receives, by the names alone. */
  predicate LandsByText(q: Request, plan: Plan) {
    && Text(q.source) <= Text(q.stream)
    && Text(plan.destination) == MapText(Text(q.source), Text(q.root), q.discard) + Text(q.stream)[|Text(q.source)|..]
  }

  lemma PlanLands(q: Request, v: View)
    requires Build(q, v).Ok? && ValidName(q.source)
    ensures LandsByText(q, Build(q, v).value)
  {
    BuildFacts(q, v, Build(q, v).value);
    StreamText(q);
  }

  method BuildPlan(q: Request, v: View) returns (res: Result<Plan>)
    ensures res == Build(q, v)
    ensures res.Ok? && ValidName(q.source) ==> LandsByText(q, res.value)
  {
    if Build(q, v).Ok? && ValidName(q.source) {
      PlanLands(q, v);
    }
    res := PlanStream(q, v);
  }

  method PlanStream(q: Request, v: View) returns (res: Result<Plan>)
    ensures res == Build(q, v)
  {
    var checked := Preflight(q, v);
    if checked.Err? { return Err(checked.reason); }
    var (binding, isNew) := checked.value;
    var selected := SelectEndpoint(q, v.source);
    if selected.Err? { return Err(selected.reason); }
    if selected.value.None? { return Err("no selected owned snapshot exists"); }
    var endpoint := selected.value.value;
    if !Compatible(q, v) { return Err("source and destination disagree"); }
    var target, own := MapStream(q), Expect(q, v.source, endpoint);
    var found := Find(v.destination.objects, own.destination);
    if found.Some? && found.value.guid != endpoint.guid { return Err("destination snapshot name has a different GUID"); }
    if v.present && found.Some? {
      return Ok(Plan(target, endpoint.name, UpToDate, Send(endpoint.name, None, false), [own], [own], binding, isNew));
    }
    if !v.present {
      if !ParentReady(q, v) { return Err("receive parent does not exist"); }
      var expected := CollectExpected(q, v.source, endpoint, 0, false);
      return Ok(Plan(target, endpoint.name, Full, Send(endpoint.name, None, false), expected, [own], binding, isNew));
    }
    var latest := SelectNewest(target, v.destination.objects);
    if latest.None? { return Err("existing destination has no common base"); }
    var base := SelectBase(q, v.source, latest.value, endpoint);
    if base.None? { return Err("destination latest snapshot has no eligible common source base"); }
    var all := q.incremental.Every?;
    var expected := CollectExpected(q, v.source, endpoint, base.value.txg, all);
    return Ok(Plan(target, endpoint.name, if all then IncrementalAll else IncrementalLatest,
                   Send(endpoint.name, Some(base.value.name), all), expected, [own], binding, isNew));
  }

  method SettleIntermediates(plan: Plan, received: Side, remaining: Side) returns (expected: seq<Expected>)
    ensures expected == Settle(plan, received, remaining)
  {
    if !plan.send.intermediates { return plan.expected; }
    expected := [];
    for i := 0 to |plan.expected|
      invariant expected == SettleIn(plan.expected[..i], plan.endpoints, received, remaining)
    {
      assert plan.expected[..i + 1][..i] == plan.expected[..i];
      var e := plan.expected[i];
      if !(Absent(e, plan.endpoints, received) && Find(remaining.objects, e.source).None?) { expected := expected + [e]; }
    }
    assert plan.expected[..|plan.expected|] == plan.expected;
  }

  method CheckGUIDs(expected: seq<Expected>, received: Side) returns (ok: bool)
    ensures ok <==> VerifyGUIDs(expected, received)
  {
    if received.tokens != {} { return false; }
    for i := 0 to |expected|
      invariant forall j :: 0 <= j < i ==> There(expected[j], received)
    {
      if !There(expected[i], received) {
        assert !There(expected[i], received);
        return false;
      }
    }
    return true;
  }

  // ---------------------------------------------------------------- several streams

  /** How a stream's attempt ends; a deferred placeholder is the one failure
      that does not hold back the streams beneath it. */
  datatype Outcome = Verified | Failed | Deferred

  /** No stream above it fails. */
  predicate Unobstructed(streams: seq<Dataset>, outcomes: map<Dataset, Outcome>, stream: Dataset)
    requires forall s :: s in streams ==> s in outcomes
  {
    forall s :: s in streams && s != stream && Inside(stream, s) ==> !outcomes[s].Failed?
  }

  /** Attempts each stream in order, skipping those beneath a failure. A stream
      is attempted exactly when no stream above it would fail, and the whole
      transfer is verified exactly when every stream is. */
  method ApplyStreams(streams: seq<Dataset>, outcomes: map<Dataset, Outcome>) returns (attempted: seq<Dataset>, verified: bool)
    requires ParentsFirst(streams) && forall s :: s in streams ==> s in outcomes
    ensures forall s :: s in attempted <==> s in streams && Unobstructed(streams, outcomes, s)
    ensures verified <==> forall s :: s in streams ==> outcomes[s].Verified?
  {
    var blocked: seq<Dataset> := [];
    attempted, verified := [], true;
    for i := 0 to |streams|
      invariant forall s :: s in attempted <==> s in streams[..i] && Unobstructed(streams, outcomes, s)
      invariant forall s :: s in blocked <==> s in streams[..i] && Unobstructed(streams, outcomes, s) && outcomes[s].Failed?
      invariant verified <==> forall s :: s in streams[..i] ==> outcomes[s].Verified?
    {
      var stream := streams[i];
      assert streams[..i + 1] == streams[..i] + [stream];
      ObstructedBelow(streams, outcomes, i);
      if exists b :: b in blocked && Inside(stream, b) {
        ghost var b :| b in blocked && Inside(stream, b);
        assert b in streams[..i] && outcomes[b].Failed?;
        verified := false;
        continue;
      }
      assert Unobstructed(streams, outcomes, stream);
      attempted := attempted + [stream];
      verified := verified && outcomes[stream].Verified?;
      if outcomes[stream].Failed? { blocked := blocked + [stream]; }
    }
    assert streams[..|streams|] == streams;
  }

  /** A stream with a failing stream above it has an attempted one above it. */
  lemma ObstructedBelow(streams: seq<Dataset>, outcomes: map<Dataset, Outcome>, i: nat)
    requires ParentsFirst(streams) && i < |streams| && forall s :: s in streams ==> s in outcomes
    ensures !Unobstructed(streams, outcomes, streams[i]) <==>
              exists b :: b in streams[..i] && Unobstructed(streams, outcomes, b) && outcomes[b].Failed? && Inside(streams[i], b)
    decreases |streams[i]|
  {
    if !Unobstructed(streams, outcomes, streams[i]) {
      var s :| s in streams && s != streams[i] && Inside(streams[i], s) && outcomes[s].Failed?;
      var j :| 0 <= j < |streams| && streams[j] == s;
      assert j < i;
      if Unobstructed(streams, outcomes, s) {
        assert s in streams[..i];
      } else {
        assert |s| < |streams[i]|;
        ObstructedBelow(streams, outcomes, j);
        var b :| b in streams[..j] && Unobstructed(streams, outcomes, b) && outcomes[b].Failed? && Inside(s, b);
        assert b in streams[..i] && Inside(streams[i], b);
      }
    }
    if exists b :: b in streams[..i] && Unobstructed(streams, outcomes, b) && outcomes[b].Failed? && Inside(streams[i], b) {
      var b :| b in streams[..i] && Unobstructed(streams, outcomes, b) && outcomes[b].Failed? && Inside(streams[i], b);
      var k :| 0 <= k < i && streams[k] == b;
      assert !Inside(streams[k], streams[i]);
    }
  }
}
