/** Scoped first-come locks, as the worker pools use them for one key.

    A scope is a dataset path, or the empty path for the whole key. Acquirers
    queue in order of arrival and wait on a channel that every change closes and
    replaces; `changed` numbers those channels, so a lower number is closed. Each
    region under the mutex is one step, and acquirers interleave freely. */
module Locks {
  import opened Names

  type Scope = seq<string>

  /** `id` is the acquirer's place in the order of arrival. */
  datatype Waiter = Waiter(id: nat, scope: Scope, holder: string)

  datatype Locks = Locks(active: map<Scope, nat>, holders: map<Scope, seq<string>>, waiters: seq<Waiter>, changed: nat)

  /** The empty path overlaps everything. */
  predicate Overlap(a: Scope, b: Scope) {
    a <= b || b <= a
  }

  function ScopeText(scope: Scope): string {
    if scope == [] then "" else Text(scope)
  }

  /** The test on text, with the empty text for the whole key. */
  predicate OverlapByText(a: string, b: string) {
    a == "" || b == "" || a == b || b + "/" <= a || a + "/" <= b
  }

  lemma TextNotEmpty(d: Scope)
    requires ValidName(d)
    ensures Text(d) != ""
  {
    assert ValidComponent(d[0]);
  }

  /** The test on text decides overlap of paths. */
  lemma OverlapText(a: Scope, b: Scope)
    requires (a == [] || ValidName(a)) && (b == [] || ValidName(b))
    ensures OverlapByText(ScopeText(a), ScopeText(b)) <==> Overlap(a, b)
  {
    if a != [] && b != [] {
      TextNotEmpty(a);
      TextNotEmpty(b);
      InsideText(a, b);
      InsideText(b, a);
    }
  }

  predicate HeldOff(active: map<Scope, nat>, scope: Scope) {
    exists held :: held in active && Overlap(held, scope)
  }

  /** An earlier waiter overlaps. */
  predicate Behind(waiters: seq<Waiter>, i: nat)
    requires i < |waiters|
  {
    exists j :: 0 <= j < i && Overlap(waiters[j].scope, waiters[i].scope)
  }

  predicate Blocked(l: Locks, i: nat)
    requires i < |l.waiters|
  {
    HeldOff(l.active, l.waiters[i].scope) || Behind(l.waiters, i)
  }

  function Without<T>(xs: seq<T>, i: nat): seq<T>
    requires i < |xs|
  {
    xs[..i] + xs[i + 1..]
  }

  function Leave(l: Locks, i: nat): Locks
    requires i < |l.waiters|
  {
    l.(waiters := Without(l.waiters, i), changed := l.changed + 1)
  }

  function CountOf(active: map<Scope, nat>, scope: Scope): nat {
    if scope in active then active[scope] else 0
  }

  function HoldersOf(holders: map<Scope, seq<string>>, scope: Scope): seq<string> {
    if scope in holders then holders[scope] else []
  }

  function Admit(l: Locks, i: nat): Locks
    requires i < |l.waiters|
  {
    var w := l.waiters[i];
    Locks(l.active[w.scope := CountOf(l.active, w.scope) + 1],
          l.holders[w.scope := HoldersOf(l.holders, w.scope) + [w.holder]],
          Without(l.waiters, i), l.changed + 1)
  }

  function Position(names: seq<string>, name: string): nat
    ensures Position(names, name) <= |names|
    ensures Position(names, name) < |names| ==> names[Position(names, name)] == name
    ensures Position(names, name) == |names| ==> name !in names
  {
    if names == [] || names[0] == name then 0 else Position(names[1..], name) + 1
  }

  function Dropped(names: seq<string>, name: string): seq<string> {
    var i := Position(names, name);
    if i < |names| then Without(names, i) else names
  }

  function Free(l: Locks, scope: Scope, holder: string): Locks
    requires scope in l.active && l.active[scope] > 0
  {
    var count := l.active[scope] - 1;
    var names := Dropped(HoldersOf(l.holders, scope), holder);
    Locks(if count == 0 then l.active - {scope} else l.active[scope := count],
          if names == [] then l.holders - {scope} else l.holders[scope := names],
          l.waiters, l.changed + 1)
  }

  /** An acquirer is about to look at the lock, or asleep on a channel. */
  datatype Phase = Ready | Asleep(channel: nat)

  datatype Entry = Admitted(id: nat) | Cancelled(id: nat) | Released(id: nat)

  datatype State = State(
    locks: Locks,
    arrived: seq<Waiter>,     // every acquirer so far
    phase: map<nat, Phase>,   // of those still waiting
    held: map<nat, Waiter>,   // admitted and not yet released
    cancelled: set<nat>,      // whose context has ended
    log: seq<Entry>)

  datatype Event =
    | Arrive(scope: Scope, holder: string)
    | Look(i: nat)            // the acquirer at this place in the queue
    | Wake(id: nat)
    | Cancel(id: nat)
    | Release(id: nat)
    | OtherKey                // another key's change closes the shared channel

  const FRESH := State(Locks(map[], map[], [], 0), [], map[], map[], {}, [])

  function Looking(s: State, i: nat): State
    requires i < |s.locks.waiters|
  {
    var w := s.locks.waiters[i];
    if w.id in s.cancelled then s.(locks := Leave(s.locks, i), phase := s.phase - {w.id}, log := s.log + [Cancelled(w.id)])
    else if Blocked(s.locks, i) then s.(phase := s.phase[w.id := Asleep(s.locks.changed)])
    else s.(locks := Admit(s.locks, i), phase := s.phase - {w.id}, held := s.held[w.id := w], log := s.log + [Admitted(w.id)])
  }

  predicate CanRelease(s: State, id: nat) {
    id in s.held && s.held[id].scope in s.locks.active && s.locks.active[s.held[id].scope] > 0
  }

  function Step(s: State, e: Event): State {
    match e
    case Arrive(scope, holder) =>
      var w := Waiter(|s.arrived|, scope, holder);
      s.(locks := s.locks.(waiters := s.locks.waiters + [w]), arrived := s.arrived + [w], phase := s.phase[w.id := Ready])
    case Look(i) =>
      if i < |s.locks.waiters| && s.locks.waiters[i].id in s.phase && s.phase[s.locks.waiters[i].id].Ready? then Looking(s, i) else s
    case Wake(id) =>
      if id in s.phase && s.phase[id].Asleep? && (s.phase[id].channel < s.locks.changed || id in s.cancelled)
      then s.(phase := s.phase[id := Ready]) else s
    case Cancel(id) => s.(cancelled := s.cancelled + {id})
    case Release(id) =>
      if CanRelease(s, id)
      then s.(locks := Free(s.locks, s.held[id].scope, s.held[id].holder), held := s.held - {id}, log := s.log + [Released(id)])
      else s
    case OtherKey => s.(locks := s.locks.(changed := s.locks.changed + 1))
  }

  function Run(es: seq<Event>): State {
    if es == [] then FRESH else Step(Run(es[..|es| - 1]), es[|es| - 1])
  }

  /** The count and the holder list of each scope held. */
  ghost predicate Counted(active: map<Scope, nat>, holders: map<Scope, seq<string>>, held: map<nat, Waiter>) {
    forall id :: id in held ==>
      && held[id].scope in active && active[held[id].scope] == 1
      && held[id].scope in holders && holders[held[id].scope] == [held[id].holder]
  }

  ghost predicate Owned(held: map<nat, Waiter>, scope: Scope) {
    exists id :: id in held && held[id].scope == scope
  }

  ghost predicate Apart(held: map<nat, Waiter>) {
    forall a, b :: a in held && b in held && a != b ==> !Overlap(held[a].scope, held[b].scope)
  }

  /** The counts and holder lists are exactly those of the scopes held, no two of which overlap. */
  ghost predicate Exclusive(active: map<Scope, nat>, holders: map<Scope, seq<string>>, held: map<nat, Waiter>) {
    && Counted(active, holders, held)
    && Apart(held)
    && active.Keys == holders.Keys
    && forall scope :: scope in active ==> Owned(held, scope)
  }

  ghost predicate Waits(waiters: seq<Waiter>, id: nat) {
    exists i :: 0 <= i < |waiters| && waiters[i].id == id
  }

  ghost predicate Numbered(arrived: seq<Waiter>) {
    forall i :: 0 <= i < |arrived| ==> arrived[i].id == i
  }

  ghost predicate Increasing(waiters: seq<Waiter>) {
    forall i, j :: 0 <= i < j < |waiters| ==> waiters[i].id < waiters[j].id
  }

  /** Waiters stand in order of arrival, and are those with a phase. */
  ghost predicate Queued(waiters: seq<Waiter>, arrived: seq<Waiter>, waiting: set<nat>) {
    && Increasing(waiters)
    && (forall i :: 0 <= i < |waiters| ==>
          waiters[i].id < |arrived| && arrived[waiters[i].id] == waiters[i] && waiters[i].id in waiting)
    && (forall id :: id in waiting ==> Waits(waiters, id))
  }

  ghost predicate Holding(held: map<nat, Waiter>, arrived: seq<Waiter>, waiting: set<nat>) {
    forall id :: id in held ==> id < |arrived| && held[id] == arrived[id] && id !in waiting
  }

  /** Nobody sleeps on the open channel unless blocked. */
  ghost predicate Woken(l: Locks, phase: map<nat, Phase>) {
    forall i :: 0 <= i < |l.waiters| && l.waiters[i].id in phase && phase[l.waiters[i].id].Asleep? ==>
      && phase[l.waiters[i].id].channel <= l.changed
      && (phase[l.waiters[i].id].channel == l.changed ==> Blocked(l, i))
  }

  predicate Gone(log: seq<Entry>, id: nat) {
    Cancelled(id) in log || Released(id) in log
  }

  /** At entry `j`, everyone who arrived earlier and overlaps had left or
      released, and so had everyone admitted who overlaps. */
  ghost predicate InTurn(arrived: seq<Waiter>, log: seq<Entry>, j: nat)
    requires j < |log|
  {
    log[j].Admitted? ==>
      && log[j].id < |arrived|
      && (forall a :: 0 <= a < log[j].id && Overlap(arrived[a].scope, arrived[log[j].id].scope) ==> Gone(log[..j], a))
      && (forall a :: 0 <= a < |arrived| && Admitted(a) in log[..j] && Overlap(arrived[a].scope, arrived[log[j].id].scope) ==>
            Released(a) in log[..j])
  }

  ghost predicate Logged(arrived: seq<Waiter>, waiting: set<nat>, held: set<nat>, log: seq<Entry>) {
    && (forall id :: 0 <= id < |arrived| && id !in waiting && id !in held ==> Gone(log, id))
    && (forall id :: Admitted(id) in log ==> id !in waiting && (id in held || Released(id) in log))
    && (forall j :: 0 <= j < |log| ==> log[j].id < |arrived| && InTurn(arrived, log, j))
  }

  ghost predicate Inv(s: State) {
    && Exclusive(s.locks.active, s.locks.holders, s.held)
    && Numbered(s.arrived)
    && Queued(s.locks.waiters, s.arrived, s.phase.Keys)
    && Holding(s.held, s.arrived, s.phase.Keys)
    && Woken(s.locks, s.phase)
    && Logged(s.arrived, s.phase.Keys, s.held.Keys, s.log)
  }

  lemma InTurnGrows(arrived: seq<Waiter>, log: seq<Entry>, j: nat, newcomers: seq<Waiter>, more: seq<Entry>)
    requires j < |log| && log[j].id < |arrived| && InTurn(arrived, log, j)
    requires forall k :: 0 <= k < |log| ==> log[k].id < |arrived|
    ensures InTurn(arrived + newcomers, log + more, j)
  {
    assert (log + more)[..j] == log[..j];
    assert forall a :: |arrived| <= a ==> Admitted(a) !in log;
  }

  /** Adding a newcomer or an entry leaves the earlier entries in turn. */
  lemma LogKept(arrived: seq<Waiter>, waiting: set<nat>, held: set<nat>, log: seq<Entry>, newcomers: seq<Waiter>, more: seq<Entry>)
    requires Logged(arrived, waiting, held, log)
    ensures forall j :: 0 <= j < |log| ==> InTurn(arrived + newcomers, log + more, j)
  {
    forall j | 0 <= j < |log| ensures InTurn(arrived + newcomers, log + more, j) {
      InTurnGrows(arrived, log, j, newcomers, more);
    }
  }

  lemma ArriveLogged(arrived: seq<Waiter>, waiting: set<nat>, held: set<nat>, log: seq<Entry>, w: Waiter)
    requires Logged(arrived, waiting, held, log) && w.id == |arrived|
    ensures Logged(arrived + [w], waiting + {w.id}, held, log)
  {
    LogKept(arrived, waiting, held, log, [w], []);
    assert log + [] == log;
  }

  lemma ArriveQueued(waiters: seq<Waiter>, arrived: seq<Waiter>, waiting: set<nat>, w: Waiter)
    requires Queued(waiters, arrived, waiting) && w.id == |arrived|
    ensures Queued(waiters + [w], arrived + [w], waiting + {w.id}) && w.id !in waiting
  {
    var after := waiters + [w];
    forall id | id in waiting + {w.id} ensures Waits(after, id) {
      if id == w.id {
        assert after[|waiters|].id == id;
      } else {
        var i :| 0 <= i < |waiters| && waiters[i].id == id;
        assert after[i].id == id;
      }
    }
  }

  lemma ArriveHolding(held: map<nat, Waiter>, arrived: seq<Waiter>, waiting: set<nat>, w: Waiter)
    requires Holding(held, arrived, waiting) && Numbered(arrived) && w.id == |arrived|
    ensures Holding(held, arrived + [w], waiting + {w.id}) && Numbered(arrived + [w])
  {}

  lemma ArriveInv(s: State, scope: Scope, holder: string)
    requires Inv(s)
    ensures Inv(Step(s, Arrive(scope, holder)))
  {
    var n := Step(s, Arrive(scope, holder));
    var w := Waiter(|s.arrived|, scope, holder);
    ArriveQueued(s.locks.waiters, s.arrived, s.phase.Keys, w);
    ArriveHolding(s.held, s.arrived, s.phase.Keys, w);
    ArriveWoken(s.locks, s.phase, w);
    assert n.phase.Keys == s.phase.Keys + {w.id};
    ArriveLogged(s.arrived, s.phase.Keys, s.held.Keys, s.log, w);
  }

  /** A newcomer stands behind everyone, so it blocks nobody and frees nobody. */
  lemma ArriveWoken(l: Locks, phase: map<nat, Phase>, w: Waiter)
    requires Woken(l, phase)
    requires forall i :: 0 <= i < |l.waiters| ==> l.waiters[i].id != w.id
    ensures Woken(l.(waiters := l.waiters + [w]), phase[w.id := Ready])
  {
    var n := l.(waiters := l.waiters + [w]);
    forall i | 0 <= i < |l.waiters| && Blocked(l, i) ensures Blocked(n, i) {
      if Behind(l.waiters, i) {
        var j :| 0 <= j < i && Overlap(l.waiters[j].scope, l.waiters[i].scope);
        assert n.waiters[j] == l.waiters[j];
      }
    }
  }

  lemma WithoutAt<T>(xs: seq<T>, i: nat)
    requires i < |xs|
    ensures |Without(xs, i)| == |xs| - 1
    ensures forall k :: 0 <= k < |xs| - 1 ==> Without(xs, i)[k] == xs[if k < i then k else k + 1]
  {}

  /** Waiter `i` stops waiting, admitted or not. */
  lemma RemovedQueued(waiters: seq<Waiter>, arrived: seq<Waiter>, waiting: set<nat>, i: nat)
    requires Queued(waiters, arrived, waiting) && i < |waiters|
    ensures Queued(Without(waiters, i), arrived, waiting - {waiters[i].id})
  {
    var after := Without(waiters, i);
    WithoutAt(waiters, i);
    forall id | id in waiting - {waiters[i].id} ensures Waits(after, id) {
      var k :| 0 <= k < |waiters| && waiters[k].id == id;
      assert after[if k < i then k else k - 1].id == id;
    }
  }

  /** When the channel is replaced, every sleeper is on a closed one. */
  lemma SignalWakes(l: Locks, phase: map<nat, Phase>, n: Locks, left: map<nat, Phase>, i: nat)
    requires Woken(l, phase) && n.changed == l.changed + 1
    requires i < |l.waiters| && n.waiters == Without(l.waiters, i) && left == phase - {l.waiters[i].id}
    ensures Woken(n, left)
  {
    WithoutAt(l.waiters, i);
  }

  lemma LeaveLogged(s: State, id: nat)
    requires Inv(s) && id in s.phase
    ensures Logged(s.arrived, s.phase.Keys - {id}, s.held.Keys, s.log + [Cancelled(id)])
  {
    LogKept(s.arrived, s.phase.Keys, s.held.Keys, s.log, [], [Cancelled(id)]);
    assert s.arrived + [] == s.arrived;
    assert (s.log + [Cancelled(id)])[|s.log|] == Cancelled(id);
    assert Waits(s.locks.waiters, id);
  }

  lemma LeaveInv(s: State, i: nat)
    requires Inv(s) && i < |s.locks.waiters| && s.locks.waiters[i].id in s.cancelled
    ensures Inv(Looking(s, i))
  {
    var n, id := Looking(s, i), s.locks.waiters[i].id;
    RemovedQueued(s.locks.waiters, s.arrived, s.phase.Keys, i);
    SignalWakes(s.locks, s.phase, n.locks, n.phase, i);
    LeaveLogged(s, id);
    assert n.phase.Keys == s.phase.Keys - {id};
  }

  lemma NotHeldOff(active: map<Scope, nat>, scope: Scope, held: Scope)
    requires !HeldOff(active, scope) && held in active
    ensures !Overlap(held, scope) && held != scope
  {}

  /** An admitted waiter overlaps no held scope, so the locks stay exclusive. */
  lemma AdmitExclusive(l: Locks, held: map<nat, Waiter>, i: nat)
    requires Exclusive(l.active, l.holders, held) && i < |l.waiters| && !Blocked(l, i) && l.waiters[i].id !in held
    ensures Exclusive(Admit(l, i).active, Admit(l, i).holders, held[l.waiters[i].id := l.waiters[i]])
  {
    var w := l.waiters[i];
    var n, kept := Admit(l, i), held[w.id := w];
    assert w.scope !in l.active by {
      assert Overlap(w.scope, w.scope);
    }
    assert Apart(kept) by {
      AdmitApart(l, held, w);
    }
    AdmitCounted(l, held, i);
    forall scope | scope in n.active ensures Owned(kept, scope) {
      AdmitOwned(held, w, scope);
    }
  }

  lemma AdmitCounted(l: Locks, held: map<nat, Waiter>, i: nat)
    requires i < |l.waiters| && Counted(l.active, l.holders, held) && l.waiters[i].scope !in l.active && l.waiters[i].scope !in l.holders
    ensures Counted(Admit(l, i).active, Admit(l, i).holders, held[l.waiters[i].id := l.waiters[i]])
  {
    assert [] + [l.waiters[i].holder] == [l.waiters[i].holder];
  }

  lemma AdmitOwned(held: map<nat, Waiter>, w: Waiter, scope: Scope)
    requires w.id !in held && (scope == w.scope || Owned(held, scope))
    ensures Owned(held[w.id := w], scope)
  {
    var kept := held[w.id := w];
    if scope == w.scope {
      assert w.id in kept && kept[w.id].scope == scope;
    } else {
      var id :| id in held && held[id].scope == scope;
      assert id in kept && kept[id].scope == scope;
    }
  }

  lemma AdmitApart(l: Locks, held: map<nat, Waiter>, w: Waiter)
    requires Counted(l.active, l.holders, held) && Apart(held) && !HeldOff(l.active, w.scope) && w.id !in held
    ensures Apart(held[w.id := w])
  {
    forall a | a in held ensures !Overlap(held[a].scope, w.scope) && !Overlap(w.scope, held[a].scope) {
      NotHeldOff(l.active, w.scope, held[a].scope);
    }
  }

  /** Nobody who overlaps an admissible waiter holds. */
  lemma ClearOfHolders(s: State, i: nat, a: nat)
    requires Counted(s.locks.active, s.locks.holders, s.held) && Holding(s.held, s.arrived, s.phase.Keys)
    requires i < |s.locks.waiters| && !Blocked(s.locks, i)
    requires a < |s.arrived| && Overlap(s.arrived[a].scope, s.locks.waiters[i].scope)
    ensures a !in s.held
  {
    assert s.arrived[a].scope !in s.locks.active;
  }

  /** Nobody who overlaps an admissible waiter stands before it. */
  lemma ClearOfWaiters(s: State, i: nat, a: nat)
    requires Queued(s.locks.waiters, s.arrived, s.phase.Keys) && Numbered(s.arrived)
    requires i < |s.locks.waiters| && !Blocked(s.locks, i)
    requires a < |s.arrived| && Overlap(s.arrived[a].scope, s.locks.waiters[i].scope)
    requires a < s.locks.waiters[i].id
    ensures !Waits(s.locks.waiters, a)
  {
    forall j | 0 <= j < |s.locks.waiters| ensures s.locks.waiters[j].id != a {
      assert j < i ==> !Overlap(s.locks.waiters[j].scope, s.locks.waiters[i].scope);
      assert i < j ==> s.locks.waiters[i].id < s.locks.waiters[j].id;
    }
  }

  /** Everyone earlier who overlaps has gone when a waiter is admitted. */
  lemma AdmitInTurn(s: State, i: nat)
    requires Inv(s) && i < |s.locks.waiters| && !Blocked(s.locks, i)
    ensures InTurn(s.arrived, s.log + [Admitted(s.locks.waiters[i].id)], |s.log|)
  {
    var w := s.locks.waiters[i];
    assert (s.log + [Admitted(w.id)])[..|s.log|] == s.log;
    forall a | 0 <= a < |s.arrived| && Overlap(s.arrived[a].scope, w.scope)
      ensures a !in s.held && (a < w.id ==> a !in s.phase)
    {
      ClearOfHolders(s, i, a);
      if a < w.id {
        ClearOfWaiters(s, i, a);
      }
    }
  }

  lemma AdmitLogged(s: State, i: nat)
    requires Inv(s) && i < |s.locks.waiters| && !Blocked(s.locks, i)
    ensures var id := s.locks.waiters[i].id;
      Logged(s.arrived, s.phase.Keys - {id}, s.held.Keys + {id}, s.log + [Admitted(id)])
  {
    var id := s.locks.waiters[i].id;
    AdmitInTurn(s, i);
    LogKept(s.arrived, s.phase.Keys, s.held.Keys, s.log, [], [Admitted(id)]);
    assert s.arrived + [] == s.arrived;
  }

  lemma AdmitInv(s: State, i: nat)
    requires Inv(s) && i < |s.locks.waiters| && s.locks.waiters[i].id !in s.cancelled && !Blocked(s.locks, i)
    ensures Inv(Looking(s, i))
  {
    var n, id := Looking(s, i), s.locks.waiters[i].id;
    AdmitExclusive(s.locks, s.held, i);
    RemovedQueued(s.locks.waiters, s.arrived, s.phase.Keys, i);
    SignalWakes(s.locks, s.phase, n.locks, n.phase, i);
    AdmitLogged(s, i);
    assert n.phase.Keys == s.phase.Keys - {id};
    assert n.held.Keys == s.held.Keys + {id};
  }

  lemma FreeExclusive(l: Locks, held: map<nat, Waiter>, id: nat)
    requires Exclusive(l.active, l.holders, held) && id in held
    ensures var n := Free(l, held[id].scope, held[id].holder); Exclusive(n.active, n.holders, held - {id})
  {
    var w := held[id];
    var n, kept := Free(l, w.scope, w.holder), held - {id};
    assert Dropped([w.holder], w.holder) == [];
    assert n.active == l.active - {w.scope} && n.holders == l.holders - {w.scope};
    forall a | a in kept ensures held[a].scope != w.scope {
      assert !Overlap(held[a].scope, w.scope);
    }
    assert Counted(n.active, n.holders, kept);
    forall scope | scope in n.active ensures Owned(kept, scope) {
      assert Owned(held, scope);
      var a :| a in held && held[a].scope == scope;
      assert a in kept && kept[a].scope == scope;
    }
  }

  lemma ReleaseLogged(arrived: seq<Waiter>, waiting: set<nat>, held: set<nat>, log: seq<Entry>, id: nat)
    requires Logged(arrived, waiting, held, log) && id in held && id < |arrived|
    ensures Logged(arrived, waiting, held - {id}, log + [Released(id)])
  {
    LogKept(arrived, waiting, held, log, [], [Released(id)]);
    assert arrived + [] == arrived;
    assert (log + [Released(id)])[|log|] == Released(id);
  }

  lemma ChangeWakes(l: Locks, n: Locks, phase: map<nat, Phase>)
    requires Woken(l, phase) && n.waiters == l.waiters && n.changed == l.changed + 1
    ensures Woken(n, phase)
  {}

  lemma ReleaseInv(s: State, id: nat)
    requires Inv(s) && CanRelease(s, id)
    ensures Inv(Step(s, Release(id)))
  {
    var n := Step(s, Release(id));
    FreeExclusive(s.locks, s.held, id);
    ReleaseLogged(s.arrived, s.phase.Keys, s.held.Keys, s.log, id);
    assert n.held.Keys == s.held.Keys - {id};
    ChangeWakes(s.locks, n.locks, s.phase);
  }

  /** Falling asleep while blocked, or waking, changes only one phase. */
  lemma PhaseInv(s: State, i: nat, p: Phase)
    requires Inv(s) && i < |s.locks.waiters|
    requires p.Asleep? ==> p.channel == s.locks.changed && Blocked(s.locks, i)
    ensures Inv(s.(phase := s.phase[s.locks.waiters[i].id := p]))
  {
    var n := s.(phase := s.phase[s.locks.waiters[i].id := p]);
    assert n.phase.Keys == s.phase.Keys;
    assert Woken(n.locks, n.phase);
  }

  lemma StepInv(s: State, e: Event)
    requires Inv(s)
    ensures Inv(Step(s, e))
  {
    match e
    case Arrive(scope, holder) => ArriveInv(s, scope, holder);
    case Look(i) =>
      if i < |s.locks.waiters| {
        if s.locks.waiters[i].id in s.cancelled {
          LeaveInv(s, i);
        } else if Blocked(s.locks, i) {
          PhaseInv(s, i, Asleep(s.locks.changed));
        } else {
          AdmitInv(s, i);
        }
      }
    case Wake(id) =>
      if id in s.phase {
        assert Waits(s.locks.waiters, id);
        var i :| 0 <= i < |s.locks.waiters| && s.locks.waiters[i].id == id;
        PhaseInv(s, i, Ready);
      }
    case Cancel(id) =>
    case Release(id) =>
      if CanRelease(s, id) {
        ReleaseInv(s, id);
      }
    case OtherKey =>
  }

  lemma {:induction false} RunInv(es: seq<Event>)
    ensures Inv(Run(es))
  {
    if es != [] {
      RunInv(es[..|es| - 1]);
      StepInv(Run(es[..|es| - 1]), es[|es| - 1]);
    }
  }

  /** In every run, no two held scopes overlap, and the counts and holder lists
      are exactly those of the scopes held. */
  lemma NeverOverlap(es: seq<Event>)
    ensures var s := Run(es);
      && Apart(s.held)
      && s.locks.active.Keys == s.locks.holders.Keys == (set id | id in s.held :: s.held[id].scope)
      && (forall id :: id in s.held ==> s.locks.active[s.held[id].scope] == 1 && s.locks.holders[s.held[id].scope] == [s.held[id].holder])
  {
    RunInv(es);
    KeysHeld(Run(es).locks.active, Run(es).locks.holders, Run(es).held);
  }

  lemma KeysHeld(active: map<Scope, nat>, holders: map<Scope, seq<string>>, held: map<nat, Waiter>)
    requires Exclusive(active, holders, held)
    ensures active.Keys == holders.Keys == (set id | id in held :: held[id].scope)
  {
    var scopes := set id | id in held :: held[id].scope;
    forall scope ensures scope in active <==> scope in scopes {
      if scope in active {
        assert Owned(held, scope);
      }
    }
  }

  /** In every run, a waiter is admitted only once everyone who arrived earlier
      and overlaps it has released or given up, and no admitted scope is entered
      again before its release. */
  lemma FirstComeFirstServed(es: seq<Event>, j: nat)
    requires j < |Run(es).log|
    ensures InTurn(Run(es).arrived, Run(es).log, j)
  {
    RunInv(es);
  }

  /** No wake-up is lost: a waiter that could be admitted is about to look, or
      sleeps on a channel that is already closed. */
  lemma NoLostWakeup(es: seq<Event>, i: nat)
    requires i < |Run(es).locks.waiters|
    ensures var s := Run(es); var id := s.locks.waiters[i].id;
      && id in s.phase
      && (!Blocked(s.locks, i) ==> s.phase[id].Ready? || s.phase[id].channel < s.locks.changed)
  {
    RunInv(es);
  }

  /** Whenever nothing is held, the first waiter gets the lock on its own next steps. */
  lemma FirstIsServed(es: seq<Event>)
    requires Run(es).held == map[] && Run(es).locks.waiters != []
    requires Run(es).locks.waiters[0].id !in Run(es).cancelled
    ensures var w := Run(es).locks.waiters[0];
      && !Blocked(Run(es).locks, 0)
      && Run(es + [Wake(w.id), Look(0)]).held == map[w.id := w]
  {
    RunInv(es);
    var s, w := Run(es), Run(es).locks.waiters[0];
    FirstIsFree(s);
    FirstWakes(s);
    FirstEnters(Step(s, Wake(w.id)));
    RunTwo(es, Wake(w.id), Look(0));
  }

  lemma RunTwo(es: seq<Event>, a: Event, b: Event)
    ensures Run(es + [a, b]) == Step(Step(Run(es), a), b)
  {
    var one, two := es + [a], es + [a, b];
    assert one[..|es|] == es && two[..|es| + 1] == one;
  }

  /** With nothing held, nothing is active, and nobody stands before the first. */
  lemma FirstIsFree(s: State)
    requires Inv(s) && s.held == map[] && s.locks.waiters != []
    ensures s.locks.active == map[] && !Blocked(s.locks, 0)
  {
    assert forall scope :: scope in s.locks.active ==> Owned(s.held, scope);
  }

  lemma FirstWakes(s: State)
    requires Inv(s) && s.locks.waiters != [] && !Blocked(s.locks, 0)
    ensures var n, id := Step(s, Wake(s.locks.waiters[0].id)), s.locks.waiters[0].id;
      n == s.(phase := n.phase) && id in n.phase && n.phase[id].Ready?
  {}

  lemma FirstEnters(s: State)
    requires s.locks.waiters != [] && !Blocked(s.locks, 0) && s.held == map[] && s.locks.waiters[0].id !in s.cancelled
    requires s.locks.waiters[0].id in s.phase && s.phase[s.locks.waiters[0].id].Ready?
    ensures Step(s, Look(0)).held == map[s.locks.waiters[0].id := s.locks.waiters[0]]
  {}

  /** A waiter whose context ends gives up on its own next steps, whoever holds
      what, and leaves the line to the others. */
  lemma CancelledGivesUp(es: seq<Event>, i: nat)
    requires i < |Run(es).locks.waiters|
    ensures var s := Run(es); var id := s.locks.waiters[i].id;
      var z := Run(es + [Cancel(id)] + [Wake(id), Look(i)]);
      && z.locks.waiters == Without(s.locks.waiters, i) && z.locks.active == s.locks.active
      && z.held == s.held && id !in z.held && z.log == s.log + [Cancelled(id)]
  {
    RunInv(es);
    var s := Run(es);
    var id := s.locks.waiters[i].id;
    assert (es + [Cancel(id)])[..|es|] == es;
    RunTwo(es + [Cancel(id)], Wake(id), Look(i));
    EndedLeaves(Step(s, Cancel(id)), i);
  }

  lemma EndedLeaves(s: State, i: nat)
    requires i < |s.locks.waiters| && s.locks.waiters[i].id in s.cancelled && s.locks.waiters[i].id in s.phase
    ensures var id := s.locks.waiters[i].id;
      var z := Step(Step(s, Wake(id)), Look(i));
      z.locks == Leave(s.locks, i) && z.held == s.held && z.log == s.log + [Cancelled(id)]
  {}

  /** The lock's own state. */
  class KeyLocks {
    var active: map<Scope, nat>
    var holders: map<Scope, seq<string>>
    var waiters: seq<Waiter>
    var changed: nat

    function View(): Locks
      reads this
    {
      Locks(active, holders, waiters, changed)
    }

    constructor ()
      ensures View() == Locks(map[], map[], [], 0)
    {
      active, holders, waiters, changed := map[], map[], [], 0;
    }

    method Enqueue(w: Waiter)
      modifies this
      ensures View() == old(View()).(waiters := old(waiters) + [w])
    {
      waiters := waiters + [w];
    }

    method RemoveWaiter(w: Waiter)
      modifies this`waiters
      ensures w !in old(waiters) ==> waiters == old(waiters)
      ensures forall i :: 0 <= i < |old(waiters)| && old(waiters)[i] == w && w !in old(waiters)[..i] ==> waiters == Without(old(waiters), i)
    {
      for index := 0 to |waiters|
        invariant waiters == old(waiters) && w !in waiters[..index]
      {
        if waiters[index] == w {
          waiters := waiters[..index] + waiters[index + 1..];
          return;
        }
      }
    }

    function FirstHolder(held: Scope): string
      reads this
    {
      if HoldersOf(holders, held) != [] then holders[held][0] else ""
    }

    /** Whether a held scope overlaps, and its first holder. */
    method Blocker(scope: Scope) returns (blocked: bool, blocker: string)
      ensures blocked <==> HeldOff(active, scope)
      ensures blocked ==> exists held :: held in active && Overlap(held, scope) && blocker == FirstHolder(held)
    {
      blocked, blocker := false, "";
      var left := active.Keys;
      while left != {}
        invariant left <= active.Keys
        invariant forall held :: held in active && held !in left ==> !Overlap(held, scope)
      {
        var held :| held in left;
        if Overlap(held, scope) {
          return true, FirstHolder(held);
        }
        left := left - {held};
      }
    }

    /** One look at the lock: give up, be admitted, or learn who is in the way. */
    method Look(w: Waiter, ended: bool) returns (admitted: bool, blocked: bool, blocker: string, ghost i: nat)
      requires w in waiters && forall a, b :: 0 <= a < b < |waiters| ==> waiters[a].id != waiters[b].id
      modifies this
      ensures i < |old(waiters)| && old(waiters)[i] == w
      ensures ended ==> !admitted && View() == Leave(old(View()), i)
      ensures !ended ==> (blocked <==> Blocked(old(View()), i)) && admitted == !blocked
      ensures !ended ==> View() == if blocked then old(View()) else Admit(old(View()), i)
      ensures !ended && blocked && !HeldOff(old(active), w.scope) ==>
        exists j :: 0 <= j < i && Overlap(old(waiters)[j].scope, w.scope) && blocker == old(waiters)[j].holder &&
          forall k :: 0 <= k < j ==> !Overlap(old(waiters)[k].scope, w.scope)
    {
      i :| i < |waiters| && waiters[i] == w;
      assert w !in waiters[..i] by {
        assert forall a :: 0 <= a < i ==> waiters[a] != w;
      }
      if ended {
        RemoveWaiter(w);
        changed := changed + 1;
        return false, false, "", i;
      }
      blocked, blocker := Blocker(w.scope);
      if !blocked {
        var index := 0;
        while index < |waiters| && waiters[index] != w
          invariant index <= i
          invariant forall k :: 0 <= k < index ==> !Overlap(waiters[k].scope, w.scope)
        {
          if Overlap(waiters[index].scope, w.scope) {
            blocked, blocker := true, waiters[index].holder;
            return false, blocked, blocker, i;
          }
          index := index + 1;
        }
      }
      admitted := !blocked;
      if admitted {
        RemoveWaiter(w);
        active := active[w.scope := CountOf(active, w.scope) + 1];
        holders := holders[w.scope := HoldersOf(holders, w.scope) + [w.holder]];
        changed := changed + 1;
      }
    }

    method Release(scope: Scope, holder: string)
      requires scope in active && active[scope] > 0
      modifies this
      ensures View() == Free(old(View()), scope, holder)
    {
      active := active[scope := active[scope] - 1];
      if active[scope] == 0 {
        active := active - {scope};
      }
      var names := HoldersOf(holders, scope);
      var index := 0;
      while index < |names| && names[index] != holder
        invariant index <= |names| && holder !in names[..index]
      {
        index := index + 1;
      }
      PositionIs(names, holder, index);
      if index < |names| {
        names := names[..index] + names[index + 1..];
      }
      if names == [] {
        holders := holders - {scope};
      } else {
        holders := holders[scope := names];
      }
      changed := changed + 1;
      assert old(active)[scope := old(active)[scope] - 1] - {scope} == old(active) - {scope};
    }
  }

  lemma {:induction false} PositionIs(names: seq<string>, name: string, index: nat)
    requires index <= |names| && name !in names[..index]
    requires index < |names| ==> names[index] == name
    ensures Position(names, name) == index
  {
    if index > 0 {
      assert names[0] in names[..index];
      assert names[1..][..index - 1] == names[1..index];
      PositionIs(names[1..], name, index - 1);
    }
  }
}
