/** The bounded, deduplicating round-robin queue of daemon jobs.

    Jobs wait in first-in first-out lists by group, and `order` is the list of
    groups in the order they are next served. `Queue` is the state under the
    mutex; `FairQueue` is the object whose methods update it in place. */
module Queue {
  import opened Names

  datatype Job = Job(id: string, run: nat, group: string, scope: string, runnable: bool)

  type Groups = map<string, seq<Job>>

  datatype Queue = Queue(capacity: nat, count: int, groups: Groups, order: seq<string>, ids: set<string>, closed: bool)

  predicate Complete(job: Job) {
    job.id != "" && job.run != 0 && job.group != "" && job.scope != "" && job.runnable
  }

  predicate Listed(order: seq<string>, groups: Groups) {
    forall g :: g in order ==> g in groups && groups[g] != []
  }

  function JobsOf(groups: Groups, g: string): seq<Job> {
    if g in groups then groups[g] else []
  }

  /** How many jobs the listed groups hold. */
  function Load(order: seq<string>, groups: Groups): nat {
    if order == [] then 0 else Load(order[..|order| - 1], groups) + |JobsOf(groups, order[|order| - 1])|
  }

  lemma {:induction false} LoadFront(order: seq<string>, groups: Groups)
    requires order != []
    ensures Load(order, groups) == |JobsOf(groups, order[0])| + Load(order[1..], groups)
  {
    if |order| > 1 {
      LoadFront(order[..|order| - 1], groups);
      assert order[1..][..|order| - 2] == order[..|order| - 1][1..];
    }
  }

  /** Changing one group's jobs changes the load by its length, if it is listed. */
  lemma {:induction false} LoadUpdate(order: seq<string>, groups: Groups, g: string, after: Groups)
    requires Distinct(order) && forall h :: h in order && h != g ==> JobsOf(after, h) == JobsOf(groups, h)
    ensures Load(order, after) == Load(order, groups) + if g in order then |JobsOf(after, g)| - |JobsOf(groups, g)| else 0
  {
    if order != [] {
      var front, last := order[..|order| - 1], order[|order| - 1];
      assert order == front + [last] && last !in front;
      LoadUpdate(front, groups, g, after);
    }
  }

  /** The order and the groups after the first group has been served once. */
  function Rotated(order: seq<string>, groups: Groups): seq<string>
    requires order != [] && Listed(order, groups)
  {
    var g := order[0];
    if |groups[g]| == 1 then order[1..] else order[1..] + [g]
  }

  function Served(order: seq<string>, groups: Groups): Groups
    requires order != [] && Listed(order, groups)
  {
    var g := order[0];
    if |groups[g]| == 1 then groups - {g} else groups[g := groups[g][1..]]
  }

  lemma RotatedLoad(order: seq<string>, groups: Groups)
    requires order != [] && Distinct(order) && Listed(order, groups)
    ensures Distinct(Rotated(order, groups)) && Listed(Rotated(order, groups), Served(order, groups))
    ensures Load(Rotated(order, groups), Served(order, groups)) == Load(order, groups) - 1
  {
    var g, rest := order[0], order[1..];
    RotatedListed(order, groups);
    LoadFront(order, groups);
    LoadUpdate(rest, groups, g, Served(order, groups));
    assert (rest + [g])[..|rest|] == rest;
  }

  lemma RotatedListed(order: seq<string>, groups: Groups)
    requires order != [] && Distinct(order) && Listed(order, groups)
    ensures Distinct(Rotated(order, groups)) && Listed(Rotated(order, groups), Served(order, groups))
    ensures Distinct(order[1..]) && order[0] !in order[1..]
  {
    assert order == [order[0]] + order[1..];
  }

  /** The jobs that successive pops return. */
  function Turns(order: seq<string>, groups: Groups): seq<Job>
    requires Distinct(order) && Listed(order, groups)
    decreases Load(order, groups)
  {
    if order == [] then []
    else
      RotatedLoad(order, groups);
      [groups[order[0]][0]] + Turns(Rotated(order, groups), Served(order, groups))
  }

  predicate At(groups: Groups, g: string, i: int, id: string) {
    g in groups && 0 <= i < |groups[g]| && groups[g][i].id == id
  }

  ghost predicate Unique(groups: Groups) {
    forall g, i, h, j, id :: At(groups, g, i, id) && At(groups, h, j, id) ==> g == h && i == j
  }

  ghost predicate Indexed(groups: Groups, ids: set<string>) {
    && (forall g, i, id :: At(groups, g, i, id) ==> id in ids)
    && (forall id :: id in ids ==> Held(groups, id))
  }

  ghost predicate Held(groups: Groups, id: string) {
    exists g, i :: At(groups, g, i, id)
  }

  ghost predicate Grouped(groups: Groups) {
    forall g :: g in groups ==> groups[g] != [] && forall i :: 0 <= i < |groups[g]| ==> groups[g][i].group == g
  }

  /** `order` lists exactly the non-empty groups, once each. */
  ghost predicate Shaped(order: seq<string>, groups: Groups) {
    && Distinct(order)
    && (forall g :: g in order <==> g in groups)
    && Grouped(groups)
  }

  /** Also, `ids` and `count` agree with the contents. */
  ghost predicate WellFormed(q: Queue) {
    && Shaped(q.order, q.groups)
    && Unique(q.groups)
    && Indexed(q.groups, q.ids)
    && q.count == Load(q.order, q.groups)
    && q.count <= q.capacity
  }

  datatype Offered = Added | Duplicate | Refused

  function Offering(q: Queue, job: Job): Offered {
    if !Complete(job) || q.closed then Refused
    else if job.id in q.ids then Duplicate
    else if q.count >= q.capacity then Refused
    else Added
  }

  function OfferedGroups(groups: Groups, job: Job): Groups {
    groups[job.group := JobsOf(groups, job.group) + [job]]
  }

  function OfferedOrder(order: seq<string>, groups: Groups, job: Job): seq<string> {
    if JobsOf(groups, job.group) == [] then order + [job.group] else order
  }

  function AfterOffer(q: Queue, job: Job): Queue {
    if Offering(q, job) != Added then q
    else
      q.(groups := OfferedGroups(q.groups, job), order := OfferedOrder(q.order, q.groups, job),
         ids := q.ids + {job.id}, count := q.count + 1)
  }

  function AfterPop(q: Queue): Queue
    requires q.order != [] && Listed(q.order, q.groups)
  {
    q.(order := Rotated(q.order, q.groups), groups := Served(q.order, q.groups),
       ids := q.ids - {q.groups[q.order[0]][0].id}, count := q.count - 1)
  }

  function Kept(jobs: seq<Job>, scope: string): seq<Job> {
    if jobs == [] then []
    else Kept(jobs[..|jobs| - 1], scope) + if jobs[|jobs| - 1].scope == scope then [] else [jobs[|jobs| - 1]]
  }

  function KeptGroups(groups: Groups, scope: string): Groups {
    map g | g in groups && Kept(groups[g], scope) != [] :: Kept(groups[g], scope)
  }

  function KeptOrder(order: seq<string>, groups: Groups): seq<string> {
    if order == [] then []
    else KeptOrder(order[..|order| - 1], groups) + if order[|order| - 1] in groups then [order[|order| - 1]] else []
  }

  lemma {:induction false} KeptOrderIn(order: seq<string>, groups: Groups)
    ensures forall g :: g in KeptOrder(order, groups) <==> g in order && g in groups
  {
    if order != [] {
      assert order == order[..|order| - 1] + [order[|order| - 1]];
      KeptOrderIn(order[..|order| - 1], groups);
    }
  }

  lemma {:induction false} KeptOrderDistinct(order: seq<string>, groups: Groups)
    requires Distinct(order)
    ensures Distinct(KeptOrder(order, groups))
  {
    if order != [] {
      var front, last := order[..|order| - 1], order[|order| - 1];
      KeptOrderDistinct(front, groups);
      KeptOrderIn(front, groups);
      assert last !in front;
      var kept := KeptOrder(front, groups);
      assert forall i :: 0 <= i < |kept| ==> kept[i] in kept;
    }
  }

  lemma {:induction false} KeptOrderLoad(order: seq<string>, groups: Groups)
    ensures Load(KeptOrder(order, groups), groups) == Load(order, groups)
  {
    if order != [] {
      var front, last := order[..|order| - 1], order[|order| - 1];
      KeptOrderLoad(front, groups);
      var kept := KeptOrder(front, groups);
      if last in groups {
        assert (kept + [last])[..|kept|] == kept;
      } else {
        assert kept + [] == kept;
      }
    }
  }

  lemma KeptOrderMembers(order: seq<string>, groups: Groups)
    ensures forall g :: g in KeptOrder(order, groups) <==> g in order && g in groups
    ensures Distinct(order) ==> Distinct(KeptOrder(order, groups))
    ensures Load(KeptOrder(order, groups), groups) == Load(order, groups)
  {
    KeptOrderIn(order, groups);
    KeptOrderLoad(order, groups);
    if Distinct(order) {
      KeptOrderDistinct(order, groups);
    }
  }

  lemma {:induction false} KeptOrderTwice(order: seq<string>, groups: Groups, fewer: Groups)
    requires fewer.Keys <= groups.Keys
    ensures KeptOrder(KeptOrder(order, groups), fewer) == KeptOrder(order, fewer)
  {
    if order != [] {
      var front, last := order[..|order| - 1], order[|order| - 1];
      KeptOrderTwice(front, groups, fewer);
      var kept := KeptOrder(front, groups);
      if last in groups {
        assert (kept + [last])[..|kept|] == kept;
      } else {
        assert KeptOrder(order, groups) == kept;
      }
    }
  }

  lemma {:induction false} KeptOrderAll(order: seq<string>, groups: Groups)
    requires forall g :: g in order ==> g in groups
    ensures KeptOrder(order, groups) == order
  {
    if order != [] {
      assert order == order[..|order| - 1] + [order[|order| - 1]];
      KeptOrderAll(order[..|order| - 1], groups);
    }
  }

  /** Where in `jobs` the k-th kept job stands. */
  ghost function Origin(jobs: seq<Job>, scope: string, k: nat): (j: nat)
    requires k < |Kept(jobs, scope)|
    ensures j < |jobs| && jobs[j] == Kept(jobs, scope)[k] && jobs[j].scope != scope
  {
    if k < |Kept(jobs[..|jobs| - 1], scope)| then Origin(jobs[..|jobs| - 1], scope, k) else |jobs| - 1
  }

  lemma {:induction false} OriginIncreases(jobs: seq<Job>, scope: string, k: nat, l: nat)
    requires k < l < |Kept(jobs, scope)|
    ensures Origin(jobs, scope, k) < Origin(jobs, scope, l)
  {
    if l < |Kept(jobs[..|jobs| - 1], scope)| {
      OriginIncreases(jobs[..|jobs| - 1], scope, k, l);
    }
  }

  lemma {:induction false} KeptHas(jobs: seq<Job>, scope: string, j: nat) returns (k: nat)
    requires j < |jobs| && jobs[j].scope != scope
    ensures k < |Kept(jobs, scope)| && Kept(jobs, scope)[k] == jobs[j]
  {
    if j == |jobs| - 1 {
      k := |Kept(jobs, scope)| - 1;
    } else {
      k := KeptHas(jobs[..|jobs| - 1], scope, j);
    }
  }

  function IdsOf(groups: Groups): set<string> {
    set g, i | g in groups && 0 <= i < |groups[g]| :: groups[g][i].id
  }

  lemma IndexedIs(groups: Groups, ids: set<string>)
    ensures Indexed(groups, ids) <==> ids == IdsOf(groups)
  {
    if Indexed(groups, ids) {
      forall id | id in ids ensures id in IdsOf(groups) {
        var g, i :| At(groups, g, i, id);
        assert groups[g][i].id == id;
      }
      forall id | id in IdsOf(groups) ensures id in ids {
        var g, i :| g in groups && 0 <= i < |groups[g]| && groups[g][i].id == id;
        assert At(groups, g, i, id);
      }
    }
    if ids == IdsOf(groups) {
      forall g, i, id | At(groups, g, i, id) ensures id in ids {
        assert groups[g][i].id == id;
      }
      forall id | id in ids ensures Held(groups, id) {
        var g, i :| g in groups && 0 <= i < |groups[g]| && groups[g][i].id == id;
        assert At(groups, g, i, id);
      }
    }
  }

  /** The queue with these contents: what its counters must then be. */
  function Remade(q: Queue, groups: Groups): Queue {
    var order := KeptOrder(q.order, groups);
    q.(groups := groups, order := order, ids := IdsOf(groups), count := Load(order, groups))
  }

  function FilteredGroup(groups: Groups, g: string, scope: string): Groups
    requires g in groups
  {
    if Kept(groups[g], scope) == [] then groups - {g} else groups[g := Kept(groups[g], scope)]
  }

  function AfterRemove(q: Queue, scope: string): Queue {
    Remade(q, KeptGroups(q.groups, scope))
  }

  function AfterDiscard(q: Queue): Queue {
    q.(groups := map[], order := [], ids := {}, count := 0)
  }

  function Empty(capacity: nat): Queue {
    Queue(capacity, 0, map[], [], {}, false)
  }

  lemma OfferAt(groups: Groups, job: Job, g: string, i: int, id: string)
    requires At(OfferedGroups(groups, job), g, i, id)
    ensures if g == job.group && i == |JobsOf(groups, job.group)| then id == job.id else At(groups, g, i, id)
  {}

  lemma OfferUnique(groups: Groups, ids: set<string>, job: Job)
    requires Unique(groups) && Indexed(groups, ids) && job.id !in ids
    ensures Unique(OfferedGroups(groups, job))
    ensures Indexed(OfferedGroups(groups, job), ids + {job.id})
  {
    var was := JobsOf(groups, job.group);
    var after := OfferedGroups(groups, job);
    forall g, i, id | At(after, g, i, id) ensures id in ids + {job.id} {
      OfferAt(groups, job, g, i, id);
    }
    forall g, i, h, j, id | At(after, g, i, id) && At(after, h, j, id) ensures g == h && i == j {
      OfferAt(groups, job, g, i, id);
      OfferAt(groups, job, h, j, id);
    }
    assert At(after, job.group, |was|, job.id);
    forall id | id in ids ensures Held(after, id) {
      assert Held(groups, id);
      var g, i :| At(groups, g, i, id);
      assert At(after, g, i, id);
    }
  }

  lemma OfferGrouped(groups: Groups, job: Job)
    requires Grouped(groups)
    ensures Grouped(OfferedGroups(groups, job))
  {
    var after: Groups := OfferedGroups(groups, job);
    forall g, i | g in after && 0 <= i < |after[g]| ensures after[g][i].group == g {}
  }

  lemma OfferLoad(order: seq<string>, groups: Groups, job: Job)
    requires Distinct(order) && (job.group in order <==> job.group in groups) && (job.group in groups ==> groups[job.group] != [])
    ensures Load(OfferedOrder(order, groups, job), OfferedGroups(groups, job)) == Load(order, groups) + 1
  {
    LoadUpdate(order, groups, job.group, OfferedGroups(groups, job));
    if job.group !in groups {
      assert (order + [job.group])[..|order|] == order;
    }
  }

  lemma OfferShaped(order: seq<string>, groups: Groups, job: Job)
    requires Shaped(order, groups)
    ensures Shaped(OfferedOrder(order, groups, job), OfferedGroups(groups, job))
    ensures Load(OfferedOrder(order, groups, job), OfferedGroups(groups, job)) == Load(order, groups) + 1
  {
    OfferGrouped(groups, job);
    OfferLoad(order, groups, job);
    var next := OfferedOrder(order, groups, job);
    assert forall g :: g in next <==> g in order || g == job.group;
  }

  lemma OfferWellFormed(q: Queue, job: Job)
    requires WellFormed(q)
    ensures WellFormed(AfterOffer(q, job))
  {
    if Offering(q, job) == Added {
      OfferUnique(q.groups, q.ids, job);
      OfferShaped(q.order, q.groups, job);
    }
  }

  lemma ServedAt(order: seq<string>, groups: Groups, g: string, i: int, id: string)
    requires order != [] && Listed(order, groups) && At(Served(order, groups), g, i, id)
    ensures At(groups, g, if g == order[0] then i + 1 else i, id)
  {}

  lemma PopUnique(order: seq<string>, groups: Groups, ids: set<string>)
    requires order != [] && Listed(order, groups) && Unique(groups) && Indexed(groups, ids)
    ensures Unique(Served(order, groups)) && Indexed(Served(order, groups), ids - {groups[order[0]][0].id})
  {
    var after, first := Served(order, groups), order[0];
    var gone := groups[first][0].id;
    assert At(groups, first, 0, gone);
    forall g, i, id | At(after, g, i, id) ensures id in ids - {gone} {
      ServedAt(order, groups, g, i, id);
    }
    forall g, i, h, j, id | At(after, g, i, id) && At(after, h, j, id) ensures g == h && i == j {
      ServedAt(order, groups, g, i, id);
      ServedAt(order, groups, h, j, id);
    }
    forall id | id in ids - {gone} ensures Held(after, id) {
      assert Held(groups, id);
      var g, i :| At(groups, g, i, id);
      assert At(after, g, if g == first then i - 1 else i, id);
    }
  }

  lemma ServedGrouped(order: seq<string>, groups: Groups)
    requires order != [] && Listed(order, groups) && Grouped(groups)
    ensures Grouped(Served(order, groups))
  {
    var after: Groups := Served(order, groups);
    forall g, i | g in after && 0 <= i < |after[g]| ensures after[g][i].group == g {
      if g == order[0] {
        assert after[g][i] == groups[g][i + 1];
      }
    }
  }

  lemma RotatedIn(order: seq<string>, groups: Groups)
    requires order != [] && Distinct(order) && Listed(order, groups)
    ensures forall g :: g in Rotated(order, groups) <==> g in order && (g == order[0] ==> |groups[g]| > 1)
  {
    assert order == [order[0]] + order[1..];
    assert order[0] !in order[1..];
  }

  lemma PopShaped(order: seq<string>, groups: Groups)
    requires order != [] && Shaped(order, groups)
    ensures Shaped(Rotated(order, groups), Served(order, groups))
    ensures Load(Rotated(order, groups), Served(order, groups)) == Load(order, groups) - 1
  {
    RotatedLoad(order, groups);
    RotatedIn(order, groups);
    ServedGrouped(order, groups);
  }

  lemma PopWellFormed(q: Queue)
    requires WellFormed(q) && q.order != []
    ensures WellFormed(AfterPop(q))
  {
    PopShaped(q.order, q.groups);
    PopUnique(q.order, q.groups, q.ids);
  }

  /** Dropping jobs keeps what is left distinct. */
  lemma FilteredUnique(groups: Groups, after: Groups, scope: string)
    requires Unique(groups) && Grouped(groups)
    requires forall g :: g in after ==> g in groups && after[g] != [] && (after[g] == groups[g] || after[g] == Kept(groups[g], scope))
    ensures Unique(after) && Grouped(after)
  {
    forall g, i, h, j, id | At(after, g, i, id) && At(after, h, j, id) ensures g == h && i == j {
      var a := if after[g] == groups[g] then i else Origin(groups[g], scope, i);
      var b := if after[h] == groups[h] then j else Origin(groups[h], scope, j);
      assert At(groups, g, a, id) && At(groups, h, b, id);
      if after[g] != groups[g] {
        if i < j { OriginIncreases(groups[g], scope, i, j); }
        if j < i { OriginIncreases(groups[g], scope, j, i); }
      }
    }
    forall g, i | g in after && 0 <= i < |after[g]| ensures after[g][i].group == g {
      if after[g] != groups[g] {
        assert after[g][i] == groups[g][Origin(groups[g], scope, i)];
      }
    }
  }

  lemma RemadeWellFormed(q: Queue, after: Groups, scope: string)
    requires WellFormed(q)
    requires forall g :: g in after ==> g in q.groups && after[g] != [] && (after[g] == q.groups[g] || after[g] == Kept(q.groups[g], scope))
    ensures WellFormed(Remade(q, after))
  {
    FilteredUnique(q.groups, after, scope);
    KeptOrderMembers(q.order, after);
    IndexedIs(after, IdsOf(after));
    forall g | g in after ensures |after[g]| <= |q.groups[g]| {
      KeptShorter(q.groups[g], scope);
    }
    LoadShrinks(q.order, q.groups, after);
  }

  lemma {:induction false} KeptShorter(jobs: seq<Job>, scope: string)
    ensures |Kept(jobs, scope)| <= |jobs|
  {
    if jobs != [] {
      KeptShorter(jobs[..|jobs| - 1], scope);
    }
  }

  lemma {:induction false} LoadShrinks(order: seq<string>, groups: Groups, after: Groups)
    requires forall g :: g in after ==> g in groups && |after[g]| <= |groups[g]|
    ensures Load(order, after) <= Load(order, groups)
  {
    if order != [] {
      LoadShrinks(order[..|order| - 1], groups, after);
    }
  }

  datatype Event = Offers(job: Job) | Pops | Removes(scope: string) | Discards | Closes

  function Step(q: Queue, e: Event): Queue {
    match e
    case Offers(job) => AfterOffer(q, job)
    case Pops => if q.order != [] && Listed(q.order, q.groups) then AfterPop(q) else q
    case Removes(scope) => AfterRemove(q, scope)
    case Discards => AfterDiscard(q)
    case Closes => q.(closed := true)
  }

  function Run(q: Queue, es: seq<Event>): Queue
    decreases |es|
  {
    if es == [] then q else Run(Step(q, es[0]), es[1..])
  }

  lemma StepWellFormed(q: Queue, e: Event)
    requires WellFormed(q)
    ensures WellFormed(Step(q, e))
  {
    match e
    case Offers(job) => OfferWellFormed(q, job);
    case Pops => if q.order != [] { PopWellFormed(q); }
    case Removes(scope) => RemadeWellFormed(q, KeptGroups(q.groups, scope), scope);
    case Discards =>
    case Closes =>
  }

  lemma {:induction false} RunWellFormed(q: Queue, es: seq<Event>)
    requires WellFormed(q)
    ensures WellFormed(Run(q, es))
    decreases |es|
  {
    if es != [] {
      StepWellFormed(q, es[0]);
      RunWellFormed(Step(q, es[0]), es[1..]);
    }
  }

  /** Every queue reached from an empty one is well formed. */
  lemma AlwaysWellFormed(capacity: nat, es: seq<Event>)
    ensures WellFormed(Run(Empty(capacity), es))
  {
    RunWellFormed(Empty(capacity), es);
  }

  function Place(order: seq<string>, g: string): nat
    ensures Place(order, g) <= |order|
    ensures g in order <==> Place(order, g) < |order|
    ensures g in order ==> order[Place(order, g)] == g
  {
    if order == [] then 0
    else if order[0] == g then 0
    else
      assert order == [order[0]] + order[1..];
      Place(order[1..], g) + 1
  }

  lemma {:induction false} PlaceIs(order: seq<string>, g: string, i: nat)
    requires Distinct(order) && i < |order| && order[i] == g
    ensures Place(order, g) == i
  {
    if i > 0 {
      assert Distinct(order[1..]);
      PlaceIs(order[1..], g, i - 1);
    }
  }

  lemma {:induction false} KeptPlace(order: seq<string>, groups: Groups, i: nat) returns (k: nat)
    requires i < |order| && order[i] in groups
    ensures k <= i && k < |KeptOrder(order, groups)| && KeptOrder(order, groups)[k] == order[i]
  {
    if i == |order| - 1 {
      KeptOrderShorter(order[..|order| - 1], groups);
      k := |KeptOrder(order[..|order| - 1], groups)|;
    } else {
      k := KeptPlace(order[..|order| - 1], groups, i);
    }
  }

  lemma {:induction false} KeptOrderShorter(order: seq<string>, groups: Groups)
    ensures |KeptOrder(order, groups)| <= |order|
  {
    if order != [] {
      KeptOrderShorter(order[..|order| - 1], groups);
    }
  }

  lemma PopMovesUp(order: seq<string>, groups: Groups, g: string)
    requires order != [] && Shaped(order, groups) && g in order && order[0] != g
    ensures Place(Rotated(order, groups), g) == Place(order, g) - 1
  {
    PopShaped(order, groups);
    PlaceIs(Rotated(order, groups), g, Place(order, g) - 1);
  }

  lemma {:induction false} OfferMovesNobody(order: seq<string>, next: seq<string>, g: string)
    requires order <= next && g in order
    ensures Place(next, g) == Place(order, g)
  {
    if order[0] != g {
      assert order == [order[0]] + order[1..];
      OfferMovesNobody(order[1..], next[1..], g);
    }
  }

  lemma RemoveMovesUp(order: seq<string>, after: Groups, g: string)
    requires Distinct(order) && g in order && g in after
    ensures Place(KeptOrder(order, after), g) <= Place(order, g)
  {
    KeptOrderMembers(order, after);
    var k := KeptPlace(order, after, Place(order, g));
    PlaceIs(KeptOrder(order, after), g, k);
  }

  /** Short of being served or emptied, a group never moves back, and every pop moves it up. */
  lemma MovesUp(q: Queue, e: Event, g: string)
    requires WellFormed(q) && g in q.order && g in Step(q, e).order
    requires !(e.Pops? && q.order[0] == g)
    ensures Place(Step(q, e).order, g) <= Place(q.order, g) - if e.Pops? then 1 else 0
  {
    match e
    case Offers(job) => OfferMovesNobody(q.order, OfferedOrder(q.order, q.groups, job), g);
    case Pops => PopMovesUp(q.order, q.groups, g);
    case Removes(scope) => RemoveScopeMovesUp(q, scope, g);
    case Discards =>
    case Closes =>
  }

  lemma RemoveScopeMovesUp(q: Queue, scope: string, g: string)
    requires WellFormed(q) && g in q.order && g in AfterRemove(q, scope).order
    ensures Place(AfterRemove(q, scope).order, g) <= Place(q.order, g)
  {
    var after := KeptGroups(q.groups, scope);
    KeptOrderMembers(q.order, after);
    RemoveMovesUp(q.order, after, g);
  }

  function PopCount(es: seq<Event>): nat {
    if es == [] then 0 else (if es[0].Pops? then 1 else 0) + PopCount(es[1..])
  }

  /** Some pop of the run serves the group. */
  ghost predicate IsServed(q: Queue, es: seq<Event>, g: string)
    decreases |es|
  {
    es != [] && ((es[0].Pops? && q.order != [] && q.order[0] == g) || IsServed(Step(q, es[0]), es[1..], g))
  }

  /** At some point of the run the group has nothing pending. */
  ghost predicate IsEmptied(q: Queue, es: seq<Event>, g: string)
    decreases |es|
  {
    g !in q.order || (es != [] && IsEmptied(Step(q, es[0]), es[1..], g))
  }

  /** A group at place i is served by one of the next i + 1 pops, whatever offers
      and removals fall between, unless its jobs are all removed first. */
  lemma {:induction false} ServedInTurn(q: Queue, es: seq<Event>, g: string)
    requires WellFormed(q) && g in q.order
    requires PopCount(es) > Place(q.order, g)
    ensures IsServed(q, es, g) || IsEmptied(q, es, g)
    decreases |es|
  {
    if es[0].Pops? && q.order[0] == g {
      return;
    }
    var n := Step(q, es[0]);
    if g in n.order {
      MovesUp(q, es[0], g);
      StepWellFormed(q, es[0]);
      ServedInTurn(n, es[1..], g);
    }
  }

  function Repeat(k: nat): seq<Event> {
    seq(k, _ => Pops)
  }

  /** A pop takes the first of the turns and leaves the others. */
  lemma PoppedTurns(q: Queue)
    requires q.order != [] && Distinct(q.order) && Listed(q.order, q.groups)
    ensures Distinct(AfterPop(q).order) && Listed(AfterPop(q).order, AfterPop(q).groups)
    ensures Turns(q.order, q.groups) == [q.groups[q.order[0]][0]] + Turns(AfterPop(q).order, AfterPop(q).groups)
  {
    RotatedLoad(q.order, q.groups);
  }

  /** The queue after `k` pops. */
  function PopTimes(q: Queue, k: nat): Queue
    decreases k
  {
    if k == 0 || q.order == [] || !Listed(q.order, q.groups) then q else PopTimes(AfterPop(q), k - 1)
  }

  /** That is a run of pops. */
  lemma {:induction false} PopTimesIsRun(q: Queue, k: nat)
    ensures PopTimes(q, k) == Run(q, Repeat(k))
    decreases k
  {
    if k > 0 {
      assert Repeat(k)[0] == Pops && Repeat(k)[1..] == Repeat(k - 1);
      PopTimesIsRun(Step(q, Pops), k - 1);
      if q.order == [] || !Listed(q.order, q.groups) {
        PopNothing(q, k - 1);
      }
    }
  }

  lemma PopNothing(q: Queue, k: nat)
    requires q.order == [] || !Listed(q.order, q.groups)
    ensures PopTimes(q, k) == q
  {}

  /** The job the next pop returns. */
  predicate IsNext(q: Queue, job: Job) {
    q.order != [] && Listed(q.order, q.groups) && q.groups[q.order[0]][0] == job
  }

  lemma FirstTurnIsNext(q: Queue)
    requires Distinct(q.order) && Listed(q.order, q.groups) && |Turns(q.order, q.groups)| > 0
    ensures IsNext(q, Turns(q.order, q.groups)[0])
  {}

  lemma LaterTurns(q: Queue, k: nat)
    requires 0 < k && Distinct(q.order) && Listed(q.order, q.groups) && k < |Turns(q.order, q.groups)|
    ensures q.order != [] && PopTimes(q, k) == PopTimes(AfterPop(q), k - 1)
    ensures var n := AfterPop(q); Distinct(n.order) && Listed(n.order, n.groups) && k - 1 < |Turns(n.order, n.groups)|
    ensures var n := AfterPop(q); Turns(q.order, q.groups)[k] == Turns(n.order, n.groups)[k - 1]
  {
    PoppedTurns(q);
    IndexTail(q.groups[q.order[0]][0], Turns(AfterPop(q).order, AfterPop(q).groups), k);
  }

  /** `job` is the k-th in turn. */
  predicate InTurn(q: Queue, k: nat, job: Job) {
    Distinct(q.order) && Listed(q.order, q.groups) && k < |Turns(q.order, q.groups)| && Turns(q.order, q.groups)[k] == job
  }

  /** One pop brings it one nearer. */
  lemma NearerTurn(q: Queue, k: nat, job: Job)
    requires 0 < k && InTurn(q, k, job)
    ensures q.order != [] && Listed(q.order, q.groups) && PopTimes(q, k) == PopTimes(AfterPop(q), k - 1) && InTurn(AfterPop(q), k - 1, job)
  {
    LaterTurns(q, k);
  }

  lemma {:induction false} PopsReach(q: Queue, k: nat, job: Job)
    requires InTurn(q, k, job)
    ensures IsNext(PopTimes(q, k), job)
    decreases k
  {
    if k == 0 {
      FirstTurnIsNext(q);
    } else {
      NearerTurn(q, k, job);
      PopsReach(AfterPop(q), k - 1, job);
    }
  }

  /** The k-th of successive pops returns the k-th of the jobs in turn. */
  lemma PopsFollowTurns(q: Queue, k: nat)
    requires Distinct(q.order) && Listed(q.order, q.groups) && k < |Turns(q.order, q.groups)|
    ensures IsNext(PopTimes(q, k), Turns(q.order, q.groups)[k])
  {
    PopsReach(q, k, Turns(q.order, q.groups)[k]);
  }

  lemma IndexTail(job: Job, jobs: seq<Job>, k: nat)
    requires 0 < k <= |jobs|
    ensures ([job] + jobs)[k] == jobs[k - 1]
  {}

  /** The turns are as many as the count. */
  lemma {:induction false} TurnsCount(order: seq<string>, groups: Groups)
    requires Distinct(order) && Listed(order, groups)
    ensures |Turns(order, groups)| == Load(order, groups)
    decreases Load(order, groups)
  {
    if order != [] {
      RotatedLoad(order, groups);
      TurnsCount(Rotated(order, groups), Served(order, groups));
    }
  }

  /** The jobs of one group among these, in order. */
  function OfGroup(jobs: seq<Job>, g: string): seq<Job> {
    if jobs == [] then [] else (if jobs[0].group == g then [jobs[0]] else []) + OfGroup(jobs[1..], g)
  }

  lemma OfGroupFront(job: Job, jobs: seq<Job>, g: string)
    ensures OfGroup([job] + jobs, g) == (if job.group == g then [job] else []) + OfGroup(jobs, g)
  {
    assert ([job] + jobs)[1..] == jobs;
  }

  /** The turns are every pending job once, each group's in the order they were offered. */
  lemma {:induction false} TurnsKeepGroups(order: seq<string>, groups: Groups, g: string)
    requires Distinct(order) && Listed(order, groups) && Grouped(groups)
    ensures OfGroup(Turns(order, groups), g) == if g in order then groups[g] else []
    decreases Load(order, groups)
  {
    if order != [] {
      var q := Queue(0, 0, groups, order, {}, false);
      RotatedLoad(order, groups);
      PoppedTurns(q);
      RotatedIn(order, groups);
      ServedGrouped(order, groups);
      TurnsKeepGroups(Rotated(order, groups), Served(order, groups), g);
      OfGroupFront(groups[order[0]][0], Turns(Rotated(order, groups), Served(order, groups)), g);
      ServedOf(order, groups, g);
    }
  }

  lemma ServedOf(order: seq<string>, groups: Groups, g: string)
    requires order != [] && Distinct(order) && Listed(order, groups) && Grouped(groups)
    ensures var first, next, left := groups[order[0]][0], Rotated(order, groups), Served(order, groups);
      (if g in order then groups[g] else []) == (if first.group == g then [first] else []) + (if g in next then JobsOf(left, g) else [])
  {
    RotatedIn(order, groups);
    var jobs := groups[order[0]];
    assert jobs[0].group == order[0];
    assert jobs == [jobs[0]] + jobs[1..];
  }

  function Ids(jobs: seq<Job>): seq<string> {
    seq(|jobs|, i requires 0 <= i < |jobs| => jobs[i].id)
  }

  predicate Agree(order: seq<string>, a: Groups, b: Groups) {
    forall g :: g in order ==> JobsOf(a, g) == JobsOf(b, g)
  }

  lemma AgreeServed(order: seq<string>, a: Groups, b: Groups)
    requires order != [] && Distinct(order) && Listed(order, a) && Listed(order, b) && Agree(order, a, b)
    ensures Rotated(order, a) == Rotated(order, b)
    ensures Agree(Rotated(order, a), Served(order, a), Served(order, b))
  {
    assert order == [order[0]] + order[1..];
    assert order[0] in order && JobsOf(a, order[0]) == JobsOf(b, order[0]);
    forall g | g in Rotated(order, a) ensures JobsOf(Served(order, a), g) == JobsOf(Served(order, b), g) {
      assert g in order && JobsOf(a, g) == JobsOf(b, g);
    }
  }

  /** Only the listed groups matter to the turns. */
  lemma {:induction false} TurnsAgree(order: seq<string>, a: Groups, b: Groups)
    requires Distinct(order) && Listed(order, a) && Listed(order, b) && Agree(order, a, b)
    ensures Turns(order, a) == Turns(order, b)
    decreases Load(order, a)
  {
    if order != [] {
      RotatedLoad(order, a);
      RotatedLoad(order, b);
      AgreeServed(order, a, b);
      TurnsAgree(Rotated(order, a), Served(order, a), Served(order, b));
    }
  }

  /** What the snapshot has listed, and what the rest of its lists would give, make the goal. */
  ghost predicate Listing(pending: seq<string>, order: seq<string>, lists: Groups, goal: seq<string>) {
    Distinct(order) && Listed(order, lists) && pending + Ids(Turns(order, lists)) == goal
  }

  lemma RoundTurns(order: seq<string>, lists: Groups, after: Groups)
    requires order != [] && Distinct(order) && Listed(order, lists)
    requires after == if |lists[order[0]]| > 1 then Served(order, lists) else lists
    ensures var next := Rotated(order, lists);
      && Distinct(next) && Listed(next, after) && Load(next, after) < Load(order, lists)
      && Turns(order, lists) == [lists[order[0]][0]] + Turns(next, after)
  {
    var next, served := Rotated(order, lists), Served(order, lists);
    RotatedLoad(order, lists);
    AgreeAfter(order, lists, after);
    TurnsAgree(next, served, after);
    TurnsCount(next, after);
    TurnsCount(next, served);
    assert Turns(order, lists) == [lists[order[0]][0]] + Turns(next, served);
  }

  lemma IdsFront(job: Job, jobs: seq<Job>)
    ensures Ids([job] + jobs) == [job.id] + Ids(jobs)
  {}

  /** One round of the snapshot loop, which leaves emptied groups in place. */
  lemma SnapshotRound(pending: seq<string>, order: seq<string>, lists: Groups, after: Groups, goal: seq<string>)
    requires order != [] && Listing(pending, order, lists, goal)
    requires after == if |lists[order[0]]| > 1 then Served(order, lists) else lists
    ensures Listing(pending + [lists[order[0]][0].id], Rotated(order, lists), after, goal)
    ensures Load(Rotated(order, lists), after) < Load(order, lists)
  {
    var next := Rotated(order, lists);
    RoundTurns(order, lists, after);
    ListOne(pending, lists[order[0]][0], Turns(order, lists), Turns(next, after), goal);
  }

  lemma ListOne(pending: seq<string>, job: Job, turns: seq<Job>, rest: seq<Job>, goal: seq<string>)
    requires turns == [job] + rest && pending + Ids(turns) == goal
    ensures pending + [job.id] + Ids(rest) == goal
  {
    IdsFront(job, rest);
    assert pending + ([job.id] + Ids(rest)) == pending + [job.id] + Ids(rest);
  }

  lemma AgreeAfter(order: seq<string>, lists: Groups, after: Groups)
    requires order != [] && Distinct(order) && Listed(order, lists)
    requires after == if |lists[order[0]]| > 1 then Served(order, lists) else lists
    ensures Agree(Rotated(order, lists), Served(order, lists), after)
    ensures Listed(Rotated(order, lists), after)
  {
    RotatedLoad(order, lists);
    assert order == [order[0]] + order[1..];
    assert order[0] !in order[1..];
  }

  /** A queue with a count has a first group to serve, and only then. */
  lemma EmptyIff(q: Queue)
    requires WellFormed(q)
    ensures (q.count > 0 <==> q.order != []) && Listed(q.order, q.groups)
  {
    if q.order != [] {
      assert q.order[|q.order| - 1] in q.groups;
    }
  }

  function DroppedJobs(jobs: seq<Job>, scope: string): seq<Job> {
    if jobs == [] then []
    else DroppedJobs(jobs[..|jobs| - 1], scope) + if jobs[|jobs| - 1].scope == scope then [jobs[|jobs| - 1]] else []
  }

  function IdSet(jobs: seq<Job>): set<string> {
    set i | 0 <= i < |jobs| :: jobs[i].id
  }

  lemma {:induction false} DroppedHas(jobs: seq<Job>, scope: string)
    ensures forall j :: 0 <= j < |jobs| && jobs[j].scope == scope ==> jobs[j] in DroppedJobs(jobs, scope)
    ensures forall job :: job in DroppedJobs(jobs, scope) ==> job in jobs && job.scope == scope
    ensures |DroppedJobs(jobs, scope)| + |Kept(jobs, scope)| == |jobs|
  {
    if jobs != [] {
      assert jobs == jobs[..|jobs| - 1] + [jobs[|jobs| - 1]];
      DroppedHas(jobs[..|jobs| - 1], scope);
    }
  }

  lemma DroppedId(jobs: seq<Job>, scope: string, j: int)
    requires 0 <= j < |jobs|
    ensures jobs[j].scope == scope ==> jobs[j].id in IdSet(DroppedJobs(jobs, scope))
  {
    DroppedHas(jobs, scope);
  }

  lemma IdSetAppend(jobs: seq<Job>, job: Job)
    ensures IdSet(jobs + [job]) == IdSet(jobs) + {job.id}
  {
    var all := jobs + [job];
    forall id ensures id in IdSet(all) <==> id in IdSet(jobs) + {job.id} {
      if id in IdSet(jobs) {
        var i :| 0 <= i < |jobs| && jobs[i].id == id;
        assert all[i].id == id;
      }
      assert all[|jobs|].id == job.id;
    }
  }

  /** The ids left are those not dropped, because no other job has a dropped id. */
  lemma FilteredIds(groups: Groups, ids: set<string>, g: string, scope: string)
    requires Unique(groups) && Indexed(groups, ids) && g in groups
    ensures IdsOf(FilteredGroup(groups, g, scope)) == ids - IdSet(DroppedJobs(groups[g], scope))
  {
    var after, dropped := FilteredGroup(groups, g, scope), DroppedJobs(groups[g], scope);
    DroppedHas(groups[g], scope);
    forall id | id in IdsOf(after) ensures id in ids && id !in IdSet(dropped) {
      var h, i :| h in after && 0 <= i < |after[h]| && after[h][i].id == id;
      var j := if h == g then Origin(groups[g], scope, i) else i;
      assert At(groups, h, j, id);
      NotDropped(groups, g, scope, h, j);
    }
    forall id | id in ids && id !in IdSet(dropped) ensures id in IdsOf(after) {
      assert Held(groups, id);
      var h, j :| At(groups, h, j, id);
      if h != g {
        assert after[h][j].id == id;
      } else {
        DroppedId(groups[g], scope, j);
        var k := KeptHas(groups[g], scope, j);
        assert after[g][k].id == id;
      }
    }
  }

  lemma FilterNext(jobs: seq<Job>, i: nat, scope: string)
    requires i < |jobs|
    ensures Kept(jobs[..i + 1], scope) == Kept(jobs[..i], scope) + if jobs[i].scope == scope then [] else [jobs[i]]
    ensures DroppedJobs(jobs[..i + 1], scope) == DroppedJobs(jobs[..i], scope) + if jobs[i].scope == scope then [jobs[i]] else []
  {
    assert jobs[..i + 1][..i] == jobs[..i];
  }

  lemma NotDropped(groups: Groups, g: string, scope: string, h: string, j: int)
    requires Unique(groups) && g in groups && h in groups && 0 <= j < |groups[h]|
    requires h == g ==> groups[h][j].scope != scope
    ensures groups[h][j].id !in IdSet(DroppedJobs(groups[g], scope))
  {
    var id, dropped := groups[h][j].id, DroppedJobs(groups[g], scope);
    DroppedHas(groups[g], scope);
    assert At(groups, h, j, id);
    forall k | 0 <= k < |dropped| ensures dropped[k].id != id {
      assert dropped[k] in dropped;
      var l :| 0 <= l < |groups[g]| && groups[g][l] == dropped[k];
      assert At(groups, g, l, dropped[k].id);
    }
  }

  lemma FilteredLoad(order: seq<string>, groups: Groups, g: string, scope: string)
    requires Shaped(order, groups) && g in groups
    ensures var after := FilteredGroup(groups, g, scope);
      Load(KeptOrder(order, after), after) == Load(order, groups) - |DroppedJobs(groups[g], scope)|
  {
    var after := FilteredGroup(groups, g, scope);
    KeptOrderMembers(order, after);
    LoadUpdate(order, groups, g, after);
    DroppedHas(groups[g], scope);
  }

  /** One group filtered, and the counters less what was dropped. */
  function Filtered(q: Queue, g: string, scope: string): Queue
    requires g in q.groups
  {
    var after, dropped := FilteredGroup(q.groups, g, scope), DroppedJobs(q.groups[g], scope);
    q.(groups := after, order := KeptOrder(q.order, after), ids := q.ids - IdSet(dropped), count := q.count - |dropped|)
  }

  /** These are the counters the queue must then have. */
  lemma FilteredOne(q: Queue, g: string, scope: string)
    requires WellFormed(q) && g in q.groups
    ensures WellFormed(Filtered(q, g, scope))
  {
    FilteredIsRemade(q, g, scope);
    RemadeWellFormed(q, FilteredGroup(q.groups, g, scope), scope);
  }

  lemma FilteredIsRemade(q: Queue, g: string, scope: string)
    requires WellFormed(q) && g in q.groups
    ensures Filtered(q, g, scope) == Remade(q, FilteredGroup(q.groups, g, scope))
  {
    FilteredIds(q.groups, q.ids, g, scope);
    FilteredLoad(q.order, q.groups, g, scope);
  }

  function Deleted(order: seq<string>, g: string): seq<string> {
    if order == [] then []
    else Deleted(order[..|order| - 1], g) + if order[|order| - 1] == g then [] else [order[|order| - 1]]
  }

  lemma {:induction false} DeletedKeeps(order: seq<string>, after: Groups, g: string)
    requires forall h :: h in order ==> (h in after <==> h != g)
    ensures KeptOrder(order, after) == Deleted(order, g)
  {
    if order != [] {
      assert order == order[..|order| - 1] + [order[|order| - 1]];
      DeletedKeeps(order[..|order| - 1], after, g);
    }
  }

  /** The groups when those in `left` are still to be filtered. */
  function Halfway(groups: Groups, left: set<string>, scope: string): Groups {
    map g | g in groups && (g in left || Kept(groups[g], scope) != []) :: if g in left then groups[g] else Kept(groups[g], scope)
  }

  lemma HalfwayStep(groups: Groups, left: set<string>, g: string, scope: string)
    requires g in left && g in groups
    ensures g in Halfway(groups, left, scope)
    ensures FilteredGroup(Halfway(groups, left, scope), g, scope) == Halfway(groups, left - {g}, scope)
  {}

  lemma HalfwayDone(groups: Groups, scope: string)
    ensures Halfway(groups, {}, scope) == KeptGroups(groups, scope)
    ensures Halfway(groups, groups.Keys, scope) == groups
  {}

  /** Removal halfway: the groups in `left` are still to be filtered. */
  ghost predicate Removing(q: Queue, left: set<string>, scope: string, n: Queue) {
    && WellFormed(n) && n.capacity == q.capacity && n.closed == q.closed
    && n.groups == Halfway(q.groups, left, scope) && n.order == KeptOrder(q.order, n.groups)
  }

  lemma StartRemoving(q: Queue, scope: string)
    requires WellFormed(q)
    ensures Removing(q, q.groups.Keys, scope, q)
  {
    HalfwayDone(q.groups, scope);
    KeptOrderAll(q.order, q.groups);
  }

  lemma KeepRemoving(q: Queue, left: set<string>, scope: string, n: Queue, g: string)
    requires Removing(q, left, scope, n) && g in left && left <= q.groups.Keys
    ensures g in n.groups && n.groups[g] == q.groups[g] && (forall h :: h in n.order ==> h in n.groups)
    ensures Removing(q, left - {g}, scope, Filtered(n, g, scope))
  {
    HalfwayStep(q.groups, left, g, scope);
    FilteredOne(n, g, scope);
    KeptOrderTwice(q.order, n.groups, Filtered(n, g, scope).groups);
  }

  lemma RemovedIs(q: Queue, n: Queue, scope: string)
    requires WellFormed(n) && n.capacity == q.capacity && n.closed == q.closed
    requires n.groups == KeptGroups(q.groups, scope) && n.order == KeptOrder(q.order, n.groups)
    ensures n == AfterRemove(q, scope)
  {
    IndexedIs(n.groups, n.ids);
  }

  ghost predicate Waiting(groups: Groups, among: set<string>, job: Job) {
    exists g :: g in among && g in groups && job in groups[g]
  }

  /** `dropped` are exactly the jobs of a scope in some of the groups. */
  ghost predicate Gathered(dropped: seq<Job>, groups: Groups, among: set<string>, scope: string) {
    forall job :: job in dropped <==> job.scope == scope && Waiting(groups, among, job)
  }

  lemma GatherMore(dropped: seq<Job>, groups: Groups, among: set<string>, g: string, scope: string)
    requires Gathered(dropped, groups, among, scope) && g in groups
    ensures Gathered(dropped + DroppedJobs(groups[g], scope), groups, among + {g}, scope)
  {
    DroppedHas(groups[g], scope);
    var more := DroppedJobs(groups[g], scope);
    forall job ensures job in dropped + more <==> job.scope == scope && Waiting(groups, among + {g}, job) {
      if job in groups[g] && job.scope == scope {
        assert job in more;
      }
      if Waiting(groups, among, job) {
        var h :| h in among && h in groups && job in groups[h];
        assert h in among + {g};
      }
    }
  }

  /** What was dropped when the groups in `left` are still to be filtered. */
  ghost predicate Dropped(groups: Groups, left: set<string>, scope: string, n: int, dropped: seq<Job>) {
    |dropped| == n && Gathered(dropped, groups, groups.Keys - left, scope)
  }

  lemma KeepDropping(groups: Groups, left: set<string>, scope: string, n: int, dropped: seq<Job>, g: string)
    requires Dropped(groups, left, scope, n, dropped) && g in left && g in groups
    ensures Dropped(groups, left - {g}, scope, n + |DroppedJobs(groups[g], scope)|, dropped + DroppedJobs(groups[g], scope))
  {
    GatherMore(dropped, groups, groups.Keys - left, g, scope);
    assert groups.Keys - left + {g} == groups.Keys - (left - {g});
  }

  lemma DoneDropping(groups: Groups, scope: string, n: int, dropped: seq<Job>)
    requires Dropped(groups, {}, scope, n, dropped)
    ensures |dropped| == n && Gathered(dropped, groups, groups.Keys, scope)
  {
    assert groups.Keys - {} == groups.Keys;
  }

  lemma DoneRemoving(q: Queue, scope: string, n: Queue)
    requires Removing(q, {}, scope, n)
    ensures n == AfterRemove(q, scope) && WellFormed(n)
  {
    HalfwayDone(q.groups, scope);
    RemovedIs(q, n, scope);
  }

  lemma {:induction false} LoadNothing(order: seq<string>)
    ensures Load(order, map[]) == 0
  {
    if order != [] {
      LoadNothing(order[..|order| - 1]);
    }
  }

  /** Every job of every group, in the order the groups come. */
  method Gather(groups: Groups, ghost order: seq<string>) returns (jobs: seq<Job>)
    ensures forall job :: job in jobs <==> Waiting(groups, groups.Keys, job)
    ensures Distinct(order) && (forall g :: g in groups ==> g in order) ==> |jobs| == Load(order, groups)
  {
    jobs := [];
    var rest := groups;
    while rest.Keys != {}
      invariant rest.Keys <= groups.Keys && forall g :: g in rest ==> rest[g] == groups[g]
      invariant forall job :: job in jobs <==> Waiting(groups, groups.Keys - rest.Keys, job)
      invariant Distinct(order) && (forall g :: g in groups ==> g in order) ==> |jobs| + Load(order, rest) == Load(order, groups)
      decreases rest.Keys
    {
      var g :| g in rest.Keys;
      if Distinct(order) {
        LoadUpdate(order, rest, g, rest - {g});
      }
      WaitingMore(groups, groups.Keys - rest.Keys, g);
      assert groups.Keys - (rest - {g}).Keys == groups.Keys - rest.Keys + {g};
      jobs := jobs + rest[g];
      rest := rest - {g};
    }
    assert rest == map[];
    LoadNothing(order);
    assert groups.Keys - rest.Keys == groups.Keys;
  }

  lemma WaitingMore(groups: Groups, among: set<string>, g: string)
    requires g in groups
    ensures forall job :: Waiting(groups, among + {g}, job) <==> Waiting(groups, among, job) || job in groups[g]
  {
    forall job ensures Waiting(groups, among + {g}, job) <==> Waiting(groups, among, job) || job in groups[g] {
      if Waiting(groups, among, job) {
        var h :| h in among && h in groups && job in groups[h];
        assert h in among + {g};
      }
      assert g in among + {g};
    }
  }

  /** The first group's first job; a group with more goes to the back. */
  method TakeFirst(order: seq<string>, groups: Groups) returns (job: Job, next: seq<string>, left: Groups)
    requires order != [] && Listed(order, groups)
    ensures job == groups[order[0]][0] && next == Rotated(order, groups) && left == Served(order, groups)
  {
    var group := order[0];
    var jobs := groups[group];
    job := jobs[0];
    jobs := jobs[1..];
    next := order[1..];
    if jobs == [] {
      left := groups - {group};
    } else {
      left := groups[group := jobs];
      next := next + [group];
    }
  }

  /** Moves the jobs to keep to the front of the buffer, in place. */
  method Compact(buffer: array<Job>, scope: string) returns (n: nat, dropped: seq<Job>)
    modifies buffer
    ensures n <= buffer.Length && buffer[..n] == Kept(old(buffer[..]), scope) && dropped == DroppedJobs(old(buffer[..]), scope)
  {
    ghost var jobs := buffer[..];
    n, dropped := 0, [];
    for i := 0 to buffer.Length
      invariant n <= i && buffer[..n] == Kept(jobs[..i], scope) && dropped == DroppedJobs(jobs[..i], scope)
      invariant forall k :: i <= k < |jobs| ==> buffer[k] == jobs[k]
    {
      FilterNext(jobs, i, scope);
      if buffer[i].scope == scope {
        dropped := dropped + [buffer[i]];
      } else {
        assert buffer[..n] + [buffer[i]] == Kept(jobs[..i + 1], scope);
        buffer[n] := buffer[i];
        n := n + 1;
      }
    }
    assert jobs[..|jobs|] == jobs;
  }

  /** Files what is left of a group, or drops it with its place. */
  method Refile(order: seq<string>, groups: Groups, group: string, kept: seq<Job>, ghost scope: string) returns (next: seq<string>, left: Groups)
    requires group in groups && kept == Kept(groups[group], scope) && forall g :: g in order ==> g in groups
    ensures left == FilteredGroup(groups, group, scope) && next == KeptOrder(order, left)
  {
    if kept == [] {
      left := groups - {group};
      DeletedKeeps(order, left, group);
      next := Deleted(order, group);
    } else {
      left := groups[group := kept];
      KeptOrderAll(order, left);
      next := order;
    }
  }

  class FairQueue {
    const capacity: nat
    var count: int
    var groups: Groups
    var order: seq<string>
    var ids: set<string>
    var closed: bool

    function View(): Queue
      reads this
    {
      Queue(capacity, count, groups, order, ids, closed)
    }

    constructor (capacity: nat)
      ensures View() == Empty(capacity) && WellFormed(View())
    {
      this.capacity := capacity;
      count, groups, order, ids, closed := 0, map[], [], {}, false;
    }

    method Offer(job: Job) returns (outcome: Offered)
      modifies this
      ensures outcome == Offering(old(View()), job) && View() == AfterOffer(old(View()), job)
    {
      if !Complete(job) || closed {
        return Refused;
      }
      if job.id in ids {
        return Duplicate;
      }
      if count >= capacity {
        return Refused;
      }
      if JobsOf(groups, job.group) == [] {
        order := order + [job.group];
      }
      groups := groups[job.group := JobsOf(groups, job.group) + [job]];
      ids := ids + {job.id};
      count := count + 1;
      return Added;
    }

    /** One pass of the waiting loop: the next job, if any is pending. */
    method Pop() returns (job: Option<Job>)
      requires WellFormed(View())
      modifies this
      ensures job.Some? <==> old(count) > 0
      ensures WellFormed(View())
      ensures job.None? ==> View() == old(View())
      ensures job.Some? ==> View() == AfterPop(old(View())) && job.value == old(groups)[old(order)[0]][0]
    {
      EmptyIff(View());
      if count <= 0 {
        return None;
      }
      PopWellFormed(View());
      var first, next, left := TakeFirst(order, groups);
      order, groups := next, left;
      ids := ids - {first.id};
      count := count - 1;
      return Some(first);
    }

    /** Takes dropped jobs off the counters. */
    method TakeOff(dropped: seq<Job>)
      modifies this`ids, this`count
      ensures ids == old(ids) - IdSet(dropped) && count == old(count) - |dropped|
    {
      for i := 0 to |dropped|
        invariant ids == old(ids) - IdSet(dropped[..i]) && count == old(count) - i
      {
        assert dropped[..i + 1] == dropped[..i] + [dropped[i]];
        IdSetAppend(dropped[..i], dropped[i]);
        ids := ids - {dropped[i].id};
        count := count - 1;
      }
      assert dropped[..|dropped|] == dropped;
    }

    method FilterGroup(group: string, scope: string) returns (dropped: seq<Job>)
      requires group in groups && forall g :: g in order ==> g in groups
      modifies this
      ensures dropped == DroppedJobs(old(groups)[group], scope)
      ensures View() == Filtered(old(View()), group, scope)
    {
      var jobs := groups[group];
      var buffer := new Job[|jobs|](i requires 0 <= i < |jobs| => jobs[i]);
      assert buffer[..] == jobs;
      var n;
      n, dropped := Compact(buffer, scope);
      var kept := buffer[..n];
      TakeOff(dropped);
      order, groups := Refile(order, groups, group, kept, scope);
    }

    /** Discards all queued work for one scope. */
    method RemoveScope(scope: string) returns (dropped: seq<Job>)
      requires WellFormed(View())
      modifies this
      ensures View() == AfterRemove(old(View()), scope) && WellFormed(View())
      ensures |dropped| == old(count) - count && Gathered(dropped, old(groups), old(groups).Keys, scope)
    {
      dropped := [];
      var left := groups.Keys;
      StartRemoving(View(), scope);
      while left != {}
        invariant left <= old(groups).Keys && Removing(old(View()), left, scope, View())
        invariant Dropped(old(groups), left, scope, old(count) - count, dropped)
      {
        var group :| group in left;
        KeepRemoving(old(View()), left, scope, View(), group);
        KeepDropping(old(groups), left, scope, old(count) - count, dropped, group);
        var more := FilterGroup(group, scope);
        dropped := dropped + more;
        left := left - {group};
      }
      DoneRemoving(old(View()), scope, View());
      DoneDropping(old(groups), scope, old(count) - count, dropped);
    }

    /** Removes every job that has not started. */
    method DiscardAll() returns (dropped: seq<Job>)
      modifies this
      ensures View() == AfterDiscard(old(View()))
      ensures forall job :: job in dropped <==> Waiting(old(groups), old(groups).Keys, job)
      ensures WellFormed(old(View())) ==> |dropped| == old(count)
    {
      dropped := Gather(groups, order);
      groups, order, ids, count := map[], [], {}, 0;
    }

    method Close()
      modifies this
      ensures View() == old(View()).(closed := true)
    {
      closed := true;
    }

    /** The pending ids, exactly as successive pops would return their jobs. */
    method Snapshot() returns (pending: seq<string>)
      requires Distinct(order) && Listed(order, groups)
      ensures pending == Ids(Turns(order, groups))
    {
      pending := [];
      var lists, next := groups, order;
      ghost var goal := Ids(Turns(order, groups));
      while next != []
        invariant Listing(pending, next, lists, goal)
        decreases Load(next, lists)
      {
        ghost var was, had := next, lists;
        var group, jobs := next[0], lists[next[0]];
        next := next[1..];
        if |jobs| > 1 {
          lists := lists[group := jobs[1..]];
          next := next + [group];
        }
        SnapshotRound(pending, was, had, lists, goal);
        pending := pending + [jobs[0].id];
      }
    }
  }

  /** A queue needs room for at least one job. */
  method NewFairQueue(capacity: int) returns (r: Result<FairQueue>)
    ensures r.Ok? <==> capacity >= 1
    ensures r.Ok? ==> fresh(r.value) && r.value.View() == Empty(capacity) && WellFormed(r.value.View())
  {
    if capacity < 1 {
      return Err("queue capacity must be positive");
    }
    var q := new FairQueue(capacity);
    return Ok(q);
  }
}

/** What gets into the queue. */
module Admission {
  import opened Names
  import opened Queue

  /** Every job waiting names itself, its run, its group and its scope, and can be run. */
  ghost predicate AllWhole(groups: Groups) {
    forall g, i :: g in groups && 0 <= i < |groups[g]| ==> Whole(groups[g][i])
  }

  predicate Whole(job: Job) {
    job.id != "" && job.run != 0 && job.group != "" && job.scope != "" && job.runnable
  }

  lemma {:induction false} KeptWhole(jobs: seq<Job>, scope: string)
    requires forall i :: 0 <= i < |jobs| ==> Whole(jobs[i])
    ensures forall i :: 0 <= i < |Kept(jobs, scope)| ==> Whole(Kept(jobs, scope)[i])
  {
    if jobs != [] { KeptWhole(jobs[..|jobs| - 1], scope); }
  }

  lemma StepWhole(q: Queue, e: Event)
    requires AllWhole(q.groups)
    ensures AllWhole(Step(q, e).groups)
  {
    if e.Removes? {
      forall g | g in KeptGroups(q.groups, e.scope) ensures forall i :: 0 <= i < |KeptGroups(q.groups, e.scope)[g]| ==> Whole(KeptGroups(q.groups, e.scope)[g][i]) {
        KeptWhole(q.groups[g], e.scope);
      }
    }
  }

  /** In every run, only complete jobs wait, whatever was offered. */
  lemma {:induction false} OnlyWholeJobsWait(q: Queue, es: seq<Event>)
    requires AllWhole(q.groups)
    ensures AllWhole(Run(q, es).groups)
    decreases |es|
  {
    if es != [] {
      StepWhole(q, es[0]);
      OnlyWholeJobsWait(Step(q, es[0]), es[1..]);
    }
  }

  /** A job joins the queue exactly when it is complete and the queue is open,
      has room and holds no job of that id. */
  lemma JoinsExactly(capacity: nat, es: seq<Event>, job: Job)
    ensures var q := Run(Empty(capacity), es);
      Offering(q, job) == Added <==> Whole(job) && !q.closed && Load(q.order, q.groups) < q.capacity && !Held(q.groups, job.id)
  {
    AlwaysWellFormed(capacity, es);
    var q := Run(Empty(capacity), es);
    assert job.id in q.ids <==> Held(q.groups, job.id) by {
      if Held(q.groups, job.id) {
        var g, i :| At(q.groups, g, i, job.id);
      }
    }
  }
}
