/** The lock that keeps lifecycle operations on overlapping roots apart.

    An operation waits while any overlapping root is active, on a channel that
    every release closes and replaces; `changed` numbers those channels, so a
    lower number is closed. Each region under the mutex is one step. */
module Hierarchy {
  import opened Names

  datatype State = State(
    active: map<Dataset, nat>,
    changed: nat,
    held: map<nat, Dataset>,             // by operation
    asleep: map<nat, (Dataset, nat)>)    // what an operation waits for, and on which channel

  datatype Event =
    | Look(op: nat, root: Dataset)
    | Wake(op: nat)
    | Cancel(op: nat)
    | Release(op: nat)

  const FRESH := State(map[], 0, map[], map[])

  predicate Blocked(active: map<Dataset, nat>, root: Dataset) {
    exists r :: r in active && Overlaps(r, root)
  }

  function Count(active: map<Dataset, nat>, root: Dataset): nat {
    if root in active then active[root] else 0
  }

  function Entered(active: map<Dataset, nat>, root: Dataset): map<Dataset, nat> {
    active[root := Count(active, root) + 1]
  }

  function Left(active: map<Dataset, nat>, root: Dataset): map<Dataset, nat> {
    if Count(active, root) <= 1 then active - {root} else active[root := active[root] - 1]
  }

  function Step(s: State, e: Event): State {
    match e
    case Look(op, root) =>
      if op in s.held || op in s.asleep then s
      else if Blocked(s.active, root) then s.(asleep := s.asleep[op := (root, s.changed)])
      else s.(active := Entered(s.active, root), held := s.held[op := root])
    case Wake(op) => if op in s.asleep && s.asleep[op].1 < s.changed then s.(asleep := s.asleep - {op}) else s
    case Cancel(op) => s.(asleep := s.asleep - {op})
    case Release(op) =>
      if op !in s.held then s
      else s.(active := Left(s.active, s.held[op]), held := s.held - {op}, changed := s.changed + 1)
  }

  function Run(es: seq<Event>): State {
    if es == [] then FRESH else Step(Run(es[..|es| - 1]), es[|es| - 1])
  }

  ghost predicate Holds(held: map<nat, Dataset>, root: Dataset) {
    exists op :: op in held && held[op] == root
  }

  /** The active roots are those held, once each, and do not overlap. */
  ghost predicate Exclusive(active: map<Dataset, nat>, held: map<nat, Dataset>) {
    && (forall op :: op in held ==> held[op] in active && active[held[op]] == 1)
    && (forall root :: root in active ==> Holds(held, root))
    && (forall a, b :: a in held && b in held && a != b ==> !Overlaps(held[a], held[b]))
  }

  /** Nobody sleeps on the open channel unless blocked. */
  ghost predicate Woken(s: State) {
    forall op :: op in s.asleep ==> s.asleep[op].1 <= s.changed && (s.asleep[op].1 == s.changed ==> Blocked(s.active, s.asleep[op].0))
  }

  ghost predicate Inv(s: State) {
    Exclusive(s.active, s.held) && Woken(s)
  }

  lemma EnterExclusive(active: map<Dataset, nat>, held: map<nat, Dataset>, op: nat, root: Dataset)
    requires Exclusive(active, held) && op !in held && !Blocked(active, root)
    ensures Exclusive(Entered(active, root), held[op := root])
  {
    assert root !in active by {
      assert Overlaps(root, root);
    }
    var kept := held[op := root];
    forall r | r in Entered(active, root) ensures Holds(kept, r) {
      if r == root {
        assert kept[op] == root;
      } else {
        assert Holds(held, r);
        var a :| a in held && held[a] == r;
        assert kept[a] == r;
      }
    }
    forall a | a in held ensures !Overlaps(held[a], root) && !Overlaps(root, held[a]) {
      assert held[a] in active;
    }
  }

  lemma LeaveExclusive(active: map<Dataset, nat>, held: map<nat, Dataset>, op: nat)
    requires Exclusive(active, held) && op in held
    ensures Exclusive(Left(active, held[op]), held - {op})
  {
    var root, kept := held[op], held - {op};
    forall a | a in kept ensures held[a] != root {
      assert !Overlaps(held[a], root);
    }
    forall r | r in Left(active, root) ensures Holds(kept, r) {
      assert Holds(held, r);
      var a :| a in held && held[a] == r;
      assert kept[a] == r;
    }
  }

  /** Entering only blocks more, so it wakes nobody and need not. */
  lemma EnterWoken(s: State, op: nat, root: Dataset)
    requires Woken(s) && !Blocked(s.active, root)
    ensures Woken(s.(active := Entered(s.active, root), held := s.held[op := root]))
  {
    forall r: Dataset | Blocked(s.active, r) ensures Blocked(Entered(s.active, root), r) {
      var a :| a in s.active && Overlaps(a, r);
      assert a in Entered(s.active, root);
    }
  }

  lemma StepInv(s: State, e: Event)
    requires Inv(s)
    ensures Inv(Step(s, e))
  {
    match e
    case Look(op, root) =>
      if op !in s.held && op !in s.asleep && !Blocked(s.active, root) {
        EnterExclusive(s.active, s.held, op, root);
        EnterWoken(s, op, root);
      }
    case Wake(op) =>
    case Cancel(op) =>
    case Release(op) =>
      if op in s.held {
        LeaveExclusive(s.active, s.held, op);
      }
  }

  lemma {:induction false} RunInv(es: seq<Event>)
    ensures Inv(Run(es))
  {
    if es != [] {
      RunInv(es[..|es| - 1]);
      StepInv(Run(es[..|es| - 1]), es[|es| - 1]);
    }
  }

  /** In every run, no two operations hold overlapping roots, and a waiter that
      could enter is on a channel that is already closed. */
  lemma OverlappingRootsExclude(es: seq<Event>)
    ensures var s := Run(es);
      && (forall a, b :: a in s.held && b in s.held && a != b ==> !Overlaps(s.held[a], s.held[b]))
      && (forall op :: op in s.asleep && !Blocked(s.active, s.asleep[op].0) ==> s.asleep[op].1 < s.changed)
  {
    RunInv(es);
  }

  /** A root is admitted exactly when no held root overlaps it. */
  lemma AdmitsExactlyTheFree(es: seq<Event>, root: Dataset)
    ensures var s := Run(es); Blocked(s.active, root) <==> exists op :: op in s.held && Overlaps(s.held[op], root)
  {
    RunInv(es);
    var s := Run(es);
    if Blocked(s.active, root) {
      var r :| r in s.active && Overlaps(r, root);
      assert Holds(s.held, r);
    }
    if op :| op in s.held && Overlaps(s.held[op], root) {
      assert s.held[op] in s.active;
    }
  }

  /** Whoever waits holds nothing. */
  lemma {:induction false} WaitersHoldNothing(es: seq<Event>, op: nat)
    ensures !(op in Run(es).asleep && op in Run(es).held)
  {
    if es != [] { WaitersHoldNothing(es[..|es| - 1], op); }
  }

  lemma RunNext(es: seq<Event>, e: Event)
    ensures Run(es + [e]) == Step(Run(es), e)
  {
    assert (es + [e])[..|es|] == es;
  }

  /** An operation that waits while nothing held overlaps its root enters as soon as it looks again. */
  lemma FreeWaiterEnters(es: seq<Event>, op: nat)
    requires op in Run(es).asleep
    requires forall other :: other in Run(es).held ==> !Overlaps(Run(es).held[other], Run(es).asleep[op].0)
    ensures var root := Run(es).asleep[op].0;
            var z := Run(es + [Wake(op)] + [Look(op, root)]);
            z.held == Run(es).held[op := root] && z.asleep == Run(es).asleep - {op}
  {
    var root := Run(es).asleep[op].0;
    RunInv(es);
    AdmitsExactlyTheFree(es, root);
    WaitersHoldNothing(es, op);
    RunNext(es, Wake(op));
    RunNext(es + [Wake(op)], Look(op, root));
  }

  /** One that gives up waits no longer, holds nothing, and was in nobody's way. */
  lemma CancelledLeaves(es: seq<Event>, op: nat)
    requires op in Run(es).asleep
    ensures var z := Run(es + [Cancel(op)]);
      op !in z.asleep && op !in z.held && z.held == Run(es).held && forall root :: Blocked(z.active, root) <==> Blocked(Run(es).active, root)
  {
    WaitersHoldNothing(es, op);
    RunNext(es, Cancel(op));
  }

  class HierarchyLocks {
    var active: map<Dataset, nat>
    var changed: nat

    constructor ()
      ensures active == map[] && changed == 0
    {
      active, changed := map[], 0;
    }

    /** One look: enters, or names the channel to wait on. */
    method Acquire(root: Dataset) returns (entered: bool, channel: nat)
      modifies this
      ensures entered == !Blocked(old(active), root)
      ensures active == if entered then Entered(old(active), root) else old(active)
      ensures changed == old(changed) == channel
    {
      channel := changed;
      var left := active.Keys;
      while left != {}
        invariant left <= active.Keys && active == old(active) && changed == old(changed) == channel
        invariant forall r :: r in active && r !in left ==> !Overlaps(r, root)
      {
        var r :| r in left;
        if Overlaps(r, root) {
          return false, channel;
        }
        left := left - {r};
      }
      active := active[root := Count(active, root) + 1];
      entered := true;
    }

    method Release(root: Dataset)
      requires root in active && active[root] > 0
      modifies this
      ensures active == Left(old(active), root) && changed == old(changed) + 1
    {
      active := active[root := active[root] - 1];
      if active[root] == 0 {
        active := active - {root};
      }
      changed := changed + 1;
      assert old(active)[root := 0] - {root} == old(active) - {root};
    }
  }
}
