/** Planning one non-recursive stream, what a send of that plan delivers, and
    the verification of what was received. */
module Transfer {
  import opened Names

  datatype Kind = Filesystem | Volume | Snapshot | Bookmark

  datatype Name = OfDataset(dataset: Dataset) | OfSnapshot(dataset: Dataset, component: string) | OfBookmark(dataset: Dataset, component: string)

  datatype Object = Object(name: Name, kind: Kind, guid: nat, txg: nat)

  /** A recovery proof as planning reads it: its target, stream and cursor. */
  datatype Proof = Proof(target: nat, stream: Dataset, component: string) {
    function Cursor(): Name { OfBookmark(stream, component) }
  }

  /** The stored identity of a destination: the mapped replica, and the dataset
      it is anchored on until the replica exists. */
  datatype Binding = Binding(mapped: Dataset, pool: nat, anchor: Dataset, guid: nat)

  datatype Identity = Identity(name: Dataset, pool: nat, guid: nat)

  /** `owned` maps the snapshots that satisfy the ownership contract for the
      root's lineage to their metadata, `lineages` is each dataset's own. */
  datatype Side = Side(
    objects: seq<Object>,
    owned: map<Name, nat>,
    lineages: map<Dataset, nat>,
    proofs: seq<Proof>,
    binding: Option<Binding>,
    tokens: set<Dataset>)

  datatype Discard = Off | First | All

  datatype Incremental = Latest | Every

  /** `admitted` stands for the policy and authority checks that read nothing
      below: the root's policy is valid, enabled and names this target, the
      member shares it, encryption options agree, the root's authority yields
      `lineage`, and the target is not suspended. */
  datatype Request = Request(
    source: Dataset, stream: Dataset, root: Dataset, discard: Discard, incremental: Incremental,
    pinned: Option<Name>, target: nat, local: bool, admitted: bool, lineage: nat)

  datatype View = View(
    source: Side, destination: Side, inventory: set<Dataset>, present: bool,
    rootExists: bool, rootIdentity: Identity, bound: Option<Identity>)

  datatype Expected = Expected(source: Name, destination: Name, guid: nat, meta: Option<nat>)

  datatype Mode = UpToDate | Full | IncrementalLatest | IncrementalAll

  datatype Send = Send(snapshot: Name, base: Option<Name>, intermediates: bool)

  datatype Plan = Plan(
    destination: Dataset, endpoint: Name, mode: Mode, send: Send,
    expected: seq<Expected>, endpoints: seq<Expected>, binding: Binding, bindingNew: bool)

  // ---------------------------------------------------------------- mapping

  function MapReceive(source: Dataset, root: Dataset, discard: Discard): Dataset {
    match discard
    case Off => root
    case First => root + source[1..]
    case All => root + [source[|source| - 1]]
  }

  /** The text after the first slash, if there is one. */
  function AfterFirst(t: string): Option<string> {
    if t == "" then None else if t[0] == '/' then Some(t[1..]) else AfterFirst(t[1..])
  }

  /** The text after the last slash, or all of it. */
  function AfterLast(t: string): string {
    if '/' in t then AfterLast(t[1..]) else t
  }

  /** The mapping as it is written, on text. */
  function MapText(source: string, root: string, discard: Discard): string {
    match discard
    case Off => root
    case First => (match AfterFirst(source) case None => root case Some(suffix) => root + "/" + suffix)
    case All => root + "/" + AfterLast(source)
  }

  lemma {:induction false} TextJoin(a: seq<string>, b: seq<string>)
    requires |a| > 0 && |b| > 0
    ensures Text(a + b) == Text(a) + "/" + Text(b)
  {
    if |a| == 1 {
      assert (a + b)[1..] == b;
    } else {
      assert (a + b)[1..] == a[1..] + b;
      TextJoin(a[1..], b);
      assert a[0] + "/" + (Text(a[1..]) + "/" + Text(b)) == a[0] + "/" + Text(a[1..]) + "/" + Text(b);
    }
  }

  lemma {:induction false} AfterFirstOf(head: string, tail: string)
    requires '/' !in head
    ensures AfterFirst(head) == None && AfterFirst(head + "/" + tail) == Some(tail)
  {
    if head == "" {
      assert head + "/" + tail == "/" + tail;
    } else {
      assert head[0] in head && (head + "/" + tail)[1..] == head[1..] + "/" + tail;
      AfterFirstOf(head[1..], tail);
    }
  }

  lemma {:induction false} AfterLastOf(t: string, last: string)
    requires '/' !in last
    ensures AfterLast(last) == last && AfterLast(t + "/" + last) == last
  {
    var all := t + "/" + last;
    assert all[|t|] == '/';
    if t == "" {
      assert all[1..] == last;
    } else {
      assert all[1..] == t[1..] + "/" + last;
      AfterLastOf(t[1..], last);
    }
  }

  /** A source lands where the textual mapping says: at the root itself, at the
      root followed by what follows the pool, or by the last component alone. */
  lemma MapReceiveText(source: Dataset, root: Dataset, discard: Discard)
    requires ValidName(source)
    ensures Text(MapReceive(source, root, discard)) == MapText(Text(source), Text(root), discard)
  {
    var n := |source|;
    assert ValidComponent(source[0]) && ValidComponent(source[n - 1]);
    match discard
    case Off =>
    case First =>
      if n == 1 {
        AfterFirstOf(source[0], "");
        assert root + source[1..] == root;
      } else {
        AfterFirstOf(source[0], Text(source[1..]));
        TextJoin(root, source[1..]);
      }
    case All =>
      TextJoin(root, [source[n - 1]]);
      if n == 1 {
        AfterLastOf("", source[0]);
      } else {
        assert source == source[..n - 1] + [source[n - 1]];
        TextJoin(source[..n - 1], [source[n - 1]]);
        AfterLastOf(Text(source[..n - 1]), source[n - 1]);
      }
  }

  /** Dropping the pool alone keeps the sources of one pool apart. */
  lemma DropFirstApart(a: Dataset, b: Dataset, root: Dataset)
    requires a[0] == b[0] && MapReceive(a, root, First) == MapReceive(b, root, First)
    ensures a == b
  {
    assert a[1..] == (root + a[1..])[|root|..] == (root + b[1..])[|root|..] == b[1..];
    assert a == [a[0]] + a[1..] && b == [b[0]] + b[1..];
  }

  /** Dropping all does not: sources with one last component share a place. */
  lemma DropAllShares(a: Dataset, b: Dataset, root: Dataset)
    ensures MapReceive(a, root, All) == MapReceive(b, root, All) <==> a[|a| - 1] == b[|b| - 1]
  {
    assert (root + [a[|a| - 1]])[|root|] == a[|a| - 1] && (root + [b[|b| - 1]])[|root|] == b[|b| - 1];
  }

  /** A member lands beneath its root's replica by what follows the root's name. */
  lemma StreamText(q: Request)
    requires Inside(q.stream, q.source) && ValidName(q.source)
    ensures Text(q.source) <= Text(q.stream)
    ensures Text(MapStream(q)) == MapText(Text(q.source), Text(q.root), q.discard) + Text(q.stream)[|Text(q.source)|..]
  {
    var mapped, rest := MapReceive(q.source, q.root, q.discard), q.stream[|q.source|..];
    MapReceiveText(q.source, q.root, q.discard);
    assert q.stream == q.source + rest;
    if rest == [] {
      assert mapped + rest == mapped && q.stream == q.source;
    } else {
      TextJoin(q.source, rest);
      TextJoin(mapped, rest);
      assert Text(q.stream) == Text(q.source) + ("/" + Text(rest));
      assert Text(mapped) + "/" + Text(rest) == Text(mapped) + ("/" + Text(rest));
    }
  }

  function MapStream(q: Request): Dataset
    requires Inside(q.stream, q.source)
  {
    MapReceive(q.source, q.root, q.discard) + q.stream[|q.source|..]
  }

  /** Every member's replica lies beneath its root's, at the same relative path. */
  lemma MembersBeneathRoot(q: Request, a: Dataset, b: Dataset)
    requires Inside(a, q.source) && Inside(b, q.source)
    ensures Inside(MapStream(q.(stream := a)), MapReceive(q.source, q.root, q.discard))
    ensures Inside(a, b) <==> Inside(MapStream(q.(stream := a)), MapStream(q.(stream := b)))
  {
    var m, n := MapReceive(q.source, q.root, q.discard), |q.source|;
    assert MapStream(q.(stream := a)) == m + a[n..] && MapStream(q.(stream := b)) == m + b[n..];
    assert a == q.source + a[n..] && b == q.source + b[n..];
    if Inside(m + a[n..], m + b[n..]) {
      assert (m + a[n..])[|m|..|m| + |b| - n] == (m + b[n..])[|m|..];
      assert (m + a[n..])[|m|..|m| + |b| - n] == a[n..][..|b| - n];
    }
    if Inside(a, b) { assert a[n..][..|b| - n] == b[n..]; }
  }

  // ---------------------------------------------------------------- the loops

  function Find(objects: seq<Object>, name: Name): Option<Object> {
    if objects == [] then None
    else if objects[|objects| - 1].name == name then Some(objects[|objects| - 1])
    else Find(objects[..|objects| - 1], name)
  }

  predicate Candidate(q: Request, s: Side, o: Object) {
    o.kind.Snapshot? && o.name.dataset == q.stream && (q.pinned.Some? ==> o.name == q.pinned.value) && o.name in s.owned
  }

  /** The newest owned candidate so far; an owned candidate without a creation
      transaction is an error. */
  function Endpoint(q: Request, s: Side, objects: seq<Object>): Result<Option<Object>> {
    if objects == [] then Ok(None)
    else
      var o := objects[|objects| - 1];
      var best := Endpoint(q, s, objects[..|objects| - 1]);
      if best.Err? || !Candidate(q, s, o) then best
      else if o.txg == 0 then Err("snapshot creation transaction is missing")
      else if best.value.None? || o.txg > best.value.value.txg then Ok(Some(o))
      else best
  }

  /** The newest snapshot the destination has. */
  function Newest(target: Dataset, objects: seq<Object>): Option<Object> {
    if objects == [] then None
    else
      var o := objects[|objects| - 1];
      var best := Newest(target, objects[..|objects| - 1]);
      if o.kind.Snapshot? && o.name.dataset == target && o.txg > (if best.Some? then best.value.txg else 0) then Some(o) else best
  }

  predicate BaseSnapshot(q: Request, s: Side, o: Object, latest: Object, endpoint: Object) {
    o.kind.Snapshot? && o.name.dataset == q.stream && o.guid == latest.guid && o.txg < endpoint.txg && o.name in s.owned
  }

  /** The first owned source snapshot that is the destination's newest. */
  function SnapshotBase(q: Request, s: Side, objects: seq<Object>, latest: Object, endpoint: Object): Option<Object> {
    if objects == [] then None
    else if BaseSnapshot(q, s, objects[0], latest, endpoint) then Some(objects[0])
    else SnapshotBase(q, s, objects[1..], latest, endpoint)
  }

  predicate BaseBookmark(q: Request, s: Side, proof: Proof, latest: Object, endpoint: Object) {
    && proof.target == q.target && proof.stream == q.stream
    && var o := Find(s.objects, proof.Cursor());
       o.Some? && o.value.kind.Bookmark? && o.value.guid == latest.guid && 0 < o.value.txg < endpoint.txg
  }

  /** The first checkpoint bookmark of this stream and target that is. */
  function BookmarkBase(q: Request, s: Side, proofs: seq<Proof>, latest: Object, endpoint: Object): Option<Object> {
    if proofs == [] then None
    else if BaseBookmark(q, s, proofs[0], latest, endpoint) then Find(s.objects, proofs[0].Cursor())
    else BookmarkBase(q, s, proofs[1..], latest, endpoint)
  }

  function Expect(q: Request, s: Side, o: Object): Expected
    requires Inside(q.stream, q.source)
  {
    Expected(o.name, OfSnapshot(MapStream(q), if o.name.OfDataset? then "" else o.name.component), o.guid,
             if o.name in s.owned then Some(s.owned[o.name]) else None)
  }

  /** Whether the stream carries the snapshot. */
  predicate Carried(q: Request, o: Object, endpoint: Object, baseTxg: nat, intermediates: bool) {
    && o.kind.Snapshot? && 0 < o.txg <= endpoint.txg && o.name.dataset == q.stream
    && (if intermediates then o.txg > baseTxg else o.name == endpoint.name)
  }

  function ExpectedIn(q: Request, s: Side, objects: seq<Object>, endpoint: Object, baseTxg: nat, intermediates: bool): seq<Expected>
    requires Inside(q.stream, q.source)
  {
    if objects == [] then []
    else
      var o := objects[|objects| - 1];
      ExpectedIn(q, s, objects[..|objects| - 1], endpoint, baseTxg, intermediates)
      + (if Carried(q, o, endpoint, baseTxg, intermediates) then [Expect(q, s, o)] else [])
  }

  // ---------------------------------------------------------------- planning

  function Anchored(mapped: Dataset, id: Identity): Result<Binding> {
    if Inside(mapped, id.name) then Ok(Binding(mapped, id.pool, id.name, id.guid))
    else Err("destination anchor does not contain mapped dataset")
  }

  /** The binding proves the root's mapped destination, whichever stream is planned. */
  function Bind(q: Request, v: View): Result<(Binding, bool)> {
    var mapped := MapReceive(q.source, q.root, q.discard);
    if (v.rootExists && v.rootIdentity.name != mapped) || !Inside(mapped, v.rootIdentity.name) then Err("root destination identity does not match")
    else
      match v.source.binding
      case None => (match Anchored(mapped, v.rootIdentity) case Err(e) => Err(e) case Ok(b) => Ok((b, true)))
      case Some(stored) =>
        if stored.mapped != mapped then Err("target mapping changed")
        else if !Inside(mapped, stored.anchor) || stored.pool == 0 || stored.guid == 0 then Err("invalid target binding")
        else if !v.rootExists && v.bound.None? then Err("bound destination identity is missing")
        else
          var live := if v.rootExists then v.rootIdentity else v.bound.value;
          if Anchored(mapped, live) != Ok(stored) then Err("target identity differs from persistent binding")
          else Ok((stored, false))
  }

  predicate SourceInScope(q: Request, v: View) {
    forall i :: 0 <= i < |v.source.objects| ==> Inside(v.source.objects[i].name.dataset, q.source)
  }

  predicate DestinationInScope(q: Request, v: View)
    requires Inside(q.stream, q.source)
  {
    forall i :: 0 <= i < |v.destination.objects| ==> Inside(v.destination.objects[i].name.dataset, MapStream(q))
  }

  predicate IsDataset(o: Option<Object>) {
    o.Some? && o.value.guid != 0 && (o.value.kind.Filesystem? || o.value.kind.Volume?)
  }

  /** The checks before an endpoint is chosen. */
  function Preflight(q: Request, v: View): Result<(Binding, bool)> {
    if !q.admitted || !Inside(q.stream, q.source) then Err("request refused")
    else
      var mapped, target := MapReceive(q.source, q.root, q.discard), MapStream(q);
      if q.local && Overlaps(mapped, q.source) then Err("source and destination scopes overlap")
      else if !IsDataset(Find(v.source.objects, OfDataset(q.source))) then Err("source dataset is missing")
      else if !IsDataset(Find(v.source.objects, OfDataset(q.stream))) then Err("member dataset is missing")
      else if !SourceInScope(q, v) || !DestinationInScope(q, v) then Err("inventory escapes selected scope")
      else if v.source.tokens != {} || v.destination.tokens != {} then Err("resumable receive state requires recovery")
      else if v.present && Find(v.destination.objects, OfDataset(target)).None? then Err("destination identity does not match")
      else Bind(q, v)
  }

  /** The stream's own dataset must agree with an existing replica. */
  predicate Compatible(q: Request, v: View)
    requires Inside(q.stream, q.source)
  {
    var target := MapStream(q);
    var here, there := Find(v.source.objects, OfDataset(q.stream)), Find(v.destination.objects, OfDataset(target));
    && (q.stream in v.source.lineages ==> v.source.lineages[q.stream] == q.lineage)
    && (here.Some? && there.Some? ==> there.value.kind == here.value.kind && (target in v.destination.lineages ==> v.destination.lineages[target] == q.lineage))
  }

  /** Missing receive parents are created from a base that must exist. */
  predicate ParentReady(q: Request, v: View) {
    if q.discard.Off? && (q.local || q.stream == q.source)
    then |q.root| > 1 && q.root[..|q.root| - 1] in v.inventory
    else q.root in v.inventory
  }

  /** A snapshot common with the destination's newest, or a bookmark of it where only the endpoint is sent. */
  function Base(q: Request, s: Side, latest: Object, endpoint: Object): Option<Object> {
    var held := SnapshotBase(q, s, s.objects, latest, endpoint);
    if held.Some? || !q.incremental.Latest? then held else BookmarkBase(q, s, s.proofs, latest, endpoint)
  }

  /** The plan for a chosen endpoint. */
  function Finish(q: Request, v: View, endpoint: Object, binding: Binding, isNew: bool): Result<Plan>
    requires Inside(q.stream, q.source)
  {
    var target, own := MapStream(q), Expect(q, v.source, endpoint);
    var found := Find(v.destination.objects, own.destination);
    if !Compatible(q, v) then Err("source and destination disagree")
    else if found.Some? && found.value.guid != endpoint.guid then Err("destination snapshot name has a different GUID")
    else if v.present && found.Some? then
      Ok(Plan(target, endpoint.name, UpToDate, Send(endpoint.name, None, false), [own], [own], binding, isNew))
    else if !v.present then
      if !ParentReady(q, v) then Err("receive parent does not exist")
      else Ok(Plan(target, endpoint.name, Full, Send(endpoint.name, None, false),
                   ExpectedIn(q, v.source, v.source.objects, endpoint, 0, false), [own], binding, isNew))
    else
      match Newest(target, v.destination.objects)
      case None => Err("existing destination has no common base")
      case Some(latest) =>
        var base := Base(q, v.source, latest, endpoint);
        if base.None? then Err("destination latest snapshot has no eligible common source base")
        else
          var all := q.incremental.Every?;
          Ok(Plan(target, endpoint.name, if all then IncrementalAll else IncrementalLatest, Send(endpoint.name, Some(base.value.name), all),
                  ExpectedIn(q, v.source, v.source.objects, endpoint, base.value.txg, all), [own], binding, isNew))
  }

  function Build(q: Request, v: View): Result<Plan> {
    match Preflight(q, v)
    case Err(e) => Err(e)
    case Ok((binding, isNew)) =>
      match Endpoint(q, v.source, v.source.objects)
      case Err(e) => Err(e)
      case Ok(None) => Err("no selected owned snapshot exists")
      case Ok(Some(endpoint)) => Finish(q, v, endpoint, binding, isNew)
  }

  // ---------------------------------------------------------------- what a send delivers

  /** What an inventory guarantees: distinct names that say what they name,
      and per dataset at most one snapshot in a transaction group. */
  ghost predicate Valid(objects: seq<Object>) {
    && (forall i, j :: 0 <= i < j < |objects| ==> objects[i].name != objects[j].name)
    && (forall o :: o in objects ==> (o.kind.Snapshot? <==> o.name.OfSnapshot?) && (o.kind.Bookmark? <==> o.name.OfBookmark?))
    && (forall o :: o in objects && o.kind.Snapshot? ==> o.txg > 0)
    && (forall o, x :: o in objects && x in objects && o.kind.Snapshot? && x.kind.Snapshot? && o.name.dataset == x.name.dataset && o.txg == x.txg ==> o == x)
  }

  /** `zfs send` of the endpoint alone, from a base with -i, or with -I every
      snapshot of the dataset after the base up to the endpoint. */
  predicate Sent(o: Object, endpoint: Object, baseTxg: nat, intermediates: bool) {
    && o.kind.Snapshot? && o.name.dataset == endpoint.name.dataset
    && (if intermediates then baseTxg < o.txg <= endpoint.txg else o.name == endpoint.name)
  }

  function Deliver(objects: seq<Object>, endpoint: Object, baseTxg: nat, intermediates: bool): seq<Object> {
    if objects == [] then []
    else
      Deliver(objects[..|objects| - 1], endpoint, baseTxg, intermediates)
      + (if Sent(objects[|objects| - 1], endpoint, baseTxg, intermediates) then [objects[|objects| - 1]] else [])
  }

  /** What the options make the sender transmit from `s`, or None when it refuses them. */
  function Stream(s: Side, send: Send): Option<seq<Object>> {
    var endpoint := Find(s.objects, send.snapshot);
    if endpoint.None? then None
    else if send.base.None? then Some(Deliver(s.objects, endpoint.value, 0, false))
    else
      var base := Find(s.objects, send.base.value);
      if base.None? || base.value.txg >= endpoint.value.txg || base.value.name.dataset != endpoint.value.name.dataset then None
      else Some(Deliver(s.objects, endpoint.value, base.value.txg, send.intermediates))
  }

  /** The conditions under which the send arguments are accepted. */
  predicate SendAccepted(send: Send) {
    && send.snapshot.OfSnapshot?
    && (send.base.Some? ==>
          && !send.base.value.OfDataset?
          && !(send.base.value.OfBookmark? && send.intermediates)
          && send.base.value.dataset == send.snapshot.dataset
          && send.base.value != send.snapshot)
  }

  /** A received snapshot: the sender's GUID, created after all the destination had. */
  function Arrival(target: Dataset, o: Object, top: nat): Object
    requires o.name.OfSnapshot?
  {
    Object(OfSnapshot(target, o.name.component), Snapshot, o.guid, top + o.txg)
  }

  function Arrivals(target: Dataset, delivered: seq<Object>, top: nat): seq<Object>
    requires forall i :: 0 <= i < |delivered| ==> delivered[i].name.OfSnapshot?
  {
    seq(|delivered|, i requires 0 <= i < |delivered| => Arrival(target, delivered[i], top))
  }

  /** Receiving without force: a full stream creates the dataset, an incremental
      one needs its base to be the newest snapshot there, and no arriving name
      may be taken. `root` is the dataset object a full receive creates. */
  predicate ReceiveAccepted(d: Side, present: bool, target: Dataset, base: Option<nat>, delivered: seq<Object>)
    requires forall i :: 0 <= i < |delivered| ==> delivered[i].name.OfSnapshot?
  {
    && (base.None? <==> !present)
    && (base.Some? ==> Newest(target, d.objects).Some? && Newest(target, d.objects).value.guid == base.value)
    && (forall i :: 0 <= i < |delivered| ==> Find(d.objects, OfSnapshot(target, delivered[i].name.component)).None?)
  }

  function Receive(d: Side, present: bool, target: Dataset, root: Object, delivered: seq<Object>, top: nat): seq<Object>
    requires forall i :: 0 <= i < |delivered| ==> delivered[i].name.OfSnapshot?
  {
    d.objects + (if present then [] else [root]) + Arrivals(target, delivered, top)
  }

  predicate VerifyGUIDs(expected: seq<Expected>, received: Side) {
    && received.tokens == {}
    && forall i :: 0 <= i < |expected| ==>
         var o := Find(received.objects, expected[i].destination);
         o.Some? && o.value.kind.Snapshot? && o.value.guid == expected[i].guid
  }

  // ---------------------------------------------------------------- lookups

  lemma {:induction false} FindExact(objects: seq<Object>, name: Name)
    ensures Find(objects, name).Some? ==> Find(objects, name).value in objects && Find(objects, name).value.name == name
    ensures Find(objects, name).None? <==> forall o :: o in objects ==> o.name != name
  {
    if objects != [] {
      FindExact(objects[..|objects| - 1], name);
      assert objects == objects[..|objects| - 1] + [objects[|objects| - 1]];
    }
  }

  lemma FindUnique(objects: seq<Object>, o: Object)
    requires o in objects && forall i, j :: 0 <= i < j < |objects| ==> objects[i].name != objects[j].name
    ensures Find(objects, o.name) == Some(o)
  {
    FindExact(objects, o.name);
  }

  lemma {:induction false} FindAppend(a: seq<Object>, b: seq<Object>, name: Name)
    ensures Find(a + b, name) == (if Find(b, name).Some? then Find(b, name) else Find(a, name))
    decreases |b|
  {
    if b == [] {
      assert a + b == a;
    } else {
      assert (a + b)[..|a + b| - 1] == a + b[..|b| - 1];
      FindAppend(a, b[..|b| - 1], name);
    }
  }

  /** The endpoint is an owned candidate, and no candidate is newer. */
  lemma {:induction false} EndpointNewest(q: Request, s: Side, objects: seq<Object>)
    ensures var r := Endpoint(q, s, objects);
            && (r.Ok? && r.value.Some? ==> r.value.value in objects && Candidate(q, s, r.value.value) && r.value.value.txg > 0)
            && (r.Ok? ==> forall o :: o in objects && Candidate(q, s, o) ==> r.value.Some? && 0 < o.txg <= r.value.value.txg)
            && (r.Err? <==> exists o :: o in objects && Candidate(q, s, o) && o.txg == 0)
  {
    if objects != [] {
      EndpointNewest(q, s, objects[..|objects| - 1]);
      assert objects == objects[..|objects| - 1] + [objects[|objects| - 1]];
    }
  }

  lemma {:induction false} NewestExact(target: Dataset, objects: seq<Object>)
    ensures var r := Newest(target, objects);
            && (r.Some? ==> r.value in objects && r.value.kind.Snapshot? && r.value.name.dataset == target && r.value.txg > 0)
            && (forall o :: o in objects && o.kind.Snapshot? && o.name.dataset == target && o.txg > 0 ==> r.Some? && o.txg <= r.value.txg)
  {
    if objects != [] {
      NewestExact(target, objects[..|objects| - 1]);
      assert objects == objects[..|objects| - 1] + [objects[|objects| - 1]];
    }
  }

  lemma {:induction false} SnapshotBaseExact(q: Request, s: Side, objects: seq<Object>, latest: Object, endpoint: Object)
    ensures var r := SnapshotBase(q, s, objects, latest, endpoint);
            && (r.Some? ==> r.value in objects && BaseSnapshot(q, s, r.value, latest, endpoint))
            && (r.None? <==> forall o :: o in objects ==> !BaseSnapshot(q, s, o, latest, endpoint))
  {
    if objects != [] {
      SnapshotBaseExact(q, s, objects[1..], latest, endpoint);
      assert objects == [objects[0]] + objects[1..];
    }
  }

  lemma {:induction false} BookmarkBaseExact(q: Request, s: Side, proofs: seq<Proof>, latest: Object, endpoint: Object)
    ensures var r := BookmarkBase(q, s, proofs, latest, endpoint);
            r.Some? ==> && r.value in s.objects && r.value.kind.Bookmark? && r.value.guid == latest.guid && r.value.txg < endpoint.txg
                        && r.value.name.OfBookmark? && r.value.name.dataset == q.stream
  {
    if proofs != [] {
      FindExact(s.objects, proofs[0].Cursor());
      BookmarkBaseExact(q, s, proofs[1..], latest, endpoint);
    }
  }

  lemma BaseExact(q: Request, s: Side, latest: Object, endpoint: Object)
    requires Valid(s.objects) && Base(q, s, latest, endpoint).Some?
    ensures var base := Base(q, s, latest, endpoint).value;
      && base in s.objects && Find(s.objects, base.name) == Some(base)
      && base.txg < endpoint.txg && base.name.dataset == q.stream && base.guid == latest.guid
      && (base.name.OfSnapshot? || (base.name.OfBookmark? && q.incremental.Latest?))
  {
    SnapshotBaseExact(q, s, s.objects, latest, endpoint);
    BookmarkBaseExact(q, s, s.proofs, latest, endpoint);
    FindUnique(s.objects, Base(q, s, latest, endpoint).value);
  }
}
