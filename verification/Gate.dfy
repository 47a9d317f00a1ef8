/** The lifecycle gate in front of the scheduler's queues.

    Work takes a ticket in an exact scope, may start only while the scope is
    enabled, and is cancelled on deactivation unless it is management work that
    already runs. Each region under the gate's mutex is one step; `changed`
    numbers a scope's signal channels, so a lower number is closed. */
module Gate {
  import opened Names

  datatype Kind = Management | Transfer

  datatype Scope = Scope(enabled: bool, changed: nat)

  /** `ended` says the ticket's context is cancelled. A finished ticket is no longer registered. */
  datatype Ticket = Ticket(scope: Dataset, kind: Kind, ended: bool, running: bool, finished: bool)

  datatype State = State(scopes: map<Dataset, Scope>, tickets: seq<Ticket>)

  /** A scope nobody has named yet is disabled. */
  function Get(s: State, d: Dataset): Scope {
    if d in s.scopes then s.scopes[d] else Scope(false, 0)
  }

  predicate Queued(t: Ticket) {
    !t.running && !t.finished
  }

  predicate Active(t: Ticket) {
    t.running && !t.finished
  }

  function Deactivated(t: Ticket, d: Dataset): Ticket {
    if t.scope == d && !t.finished && (!t.running || t.kind == Transfer) then t.(ended := true) else t
  }

  function Signalled(s: State, d: Dataset): map<Dataset, Scope> {
    s.scopes[d := Get(s, d).(changed := Get(s, d).changed + 1)]
  }

  function SetEnabled(s: State, d: Dataset, enabled: bool): State {
    State(s.scopes[d := Scope(enabled, Get(s, d).changed + 1)],
          if enabled then s.tickets
          else seq(|s.tickets|, i requires 0 <= i < |s.tickets| => Deactivated(s.tickets[i], d)))
  }

  /** A ticket is refused in a disabled scope or under an ended context. */
  function Queue(s: State, d: Dataset, kind: Kind, alive: bool): State {
    if !Get(s, d).enabled || !alive then s.(scopes := s.scopes[d := Get(s, d)])
    else State(Signalled(s, d), s.tickets + [Ticket(d, kind, false, false, false)])
  }

  predicate CanStart(s: State, i: nat)
    requires i < |s.tickets|
  {
    var t := s.tickets[i];
    !t.finished && !t.running && !t.ended && Get(s, t.scope).enabled
  }

  function Start(s: State, i: nat): State
    requires i < |s.tickets|
  {
    if CanStart(s, i) then State(Signalled(s, s.tickets[i].scope), s.tickets[i := s.tickets[i].(running := true)]) else s
  }

  function Finish(s: State, i: nat): State
    requires i < |s.tickets|
  {
    if s.tickets[i].finished then s
    else State(Signalled(s, s.tickets[i].scope), s.tickets[i := s.tickets[i].(finished := true, ended := true)])
  }

  datatype Event =
    | Enabling(d: Dataset, enabled: bool)
    | Queueing(d: Dataset, kind: Kind, alive: bool)
    | Starting(i: nat)
    | Finishing(i: nat)
    | Ending(i: nat)        // the caller's own context ends
    | Naming(d: Dataset)    // a status or wait names a scope

  function Step(s: State, e: Event): State {
    match e
    case Enabling(d, enabled) => SetEnabled(s, d, enabled)
    case Queueing(d, kind, alive) => Queue(s, d, kind, alive)
    case Starting(i) => if i < |s.tickets| then Start(s, i) else s
    case Finishing(i) => if i < |s.tickets| then Finish(s, i) else s
    case Ending(i) => if i < |s.tickets| then s.(tickets := s.tickets[i := s.tickets[i].(ended := true)]) else s
    case Naming(d) => s.(scopes := s.scopes[d := Get(s, d)])
  }

  function Run(s: State, es: seq<Event>): State {
    if es == [] then s else Step(Run(s, es[..|es| - 1]), es[|es| - 1])
  }

  const FRESH := State(map[], [])

  /** Every ticket's scope is known, and a disabled scope has nothing left to
      run: what is registered there was cancelled, or is management at work. */
  ghost predicate Inv(s: State) {
    forall i :: 0 <= i < |s.tickets| ==>
      && s.tickets[i].scope in s.scopes
      && (!s.tickets[i].finished && !s.scopes[s.tickets[i].scope].enabled ==>
            s.tickets[i].ended || (s.tickets[i].running && s.tickets[i].kind == Management))
  }

  lemma StepInv(s: State, e: Event)
    requires Inv(s)
    ensures Inv(Step(s, e))
  {}

  lemma {:induction false} RunInv(es: seq<Event>)
    ensures Inv(Run(FRESH, es))
  {
    if es != [] {
      RunInv(es[..|es| - 1]);
      StepInv(Run(FRESH, es[..|es| - 1]), es[|es| - 1]);
    }
  }

  /** Tickets keep their place, and an ended ticket that has not started never will. */
  lemma {:induction false} EndedNeverRuns(s: State, es: seq<Event>, i: nat)
    requires i < |s.tickets| && s.tickets[i].ended && !s.tickets[i].running
    ensures var n := Run(s, es); i < |n.tickets| && n.tickets[i].ended && !n.tickets[i].running
  {
    if es != [] {
      EndedNeverRuns(s, es[..|es| - 1], i);
    }
  }

  /** A ticket still queued when its scope is disabled never runs, whatever
      follows and even after the scope is enabled again. */
  lemma {:induction false} DisabledNeverRuns(s: State, es: seq<Event>, i: nat)
    requires i < |s.tickets| && Queued(s.tickets[i])
    ensures var n := Run(SetEnabled(s, s.tickets[i].scope, false), es);
      i < |n.tickets| && n.tickets[i].ended && !n.tickets[i].running
  {
    EndedNeverRuns(SetEnabled(s, s.tickets[i].scope, false), es, i);
  }

  /** Nor does one whose caller's own context ended first. */
  lemma {:induction false} AbandonedNeverRuns(s: State, es: seq<Event>, i: nat)
    requires i < |s.tickets| && Queued(s.tickets[i])
    ensures var n := Run(Step(s, Ending(i)), es); i < |n.tickets| && n.tickets[i].ended && !n.tickets[i].running
  {
    EndedNeverRuns(Step(s, Ending(i)), es, i);
  }

  /** A ticket starts only in an enabled scope, with its context alive, and once. */
  lemma StartsOnlyEnabled(s: State, e: Event, i: nat)
    requires i < |s.tickets| && !s.tickets[i].running && Step(s, e).tickets[i].running
    ensures e == Starting(i) && Get(s, s.tickets[i].scope).enabled && Queued(s.tickets[i]) && !s.tickets[i].ended
  {}

  /** In every run, a disabled scope holds no ticket that could still start, and
      its running transfers have been told to stop. */
  lemma {:induction false} DisabledHasNoWork(es: seq<Event>, i: nat)
    requires i < |Run(FRESH, es).tickets|
    ensures var s := Run(FRESH, es); var t := s.tickets[i];
      !t.finished && !Get(s, t.scope).enabled ==> !CanStart(s, i) && (t.ended || (t.running && t.kind == Management))
  {
    RunInv(es);
  }

  /** Every scope related to `d` is disabled and has nothing running. */
  ghost predicate Quiescent(s: State, d: Dataset) {
    && (forall name :: name in s.scopes && Overlaps(name, d) ==> !s.scopes[name].enabled)
    && (forall i :: 0 <= i < |s.tickets| && Overlaps(s.tickets[i].scope, d) ==> !Active(s.tickets[i]))
  }

  predicate Enables(e: Event, d: Dataset) {
    e.Enabling? && e.enabled && Overlaps(e.d, d)
  }

  lemma StaysQuiescent(s: State, e: Event, d: Dataset)
    requires Inv(s) && Quiescent(s, d) && !Enables(e, d)
    ensures Quiescent(Step(s, e), d)
  {}

  /** Quiescence lasts until a related scope is enabled. */
  lemma {:induction false} QuiescentUntilEnabled(s: State, es: seq<Event>, d: Dataset)
    requires Inv(s) && Quiescent(s, d)
    requires forall i :: 0 <= i < |es| ==> !Enables(es[i], d)
    ensures Inv(Run(s, es)) && Quiescent(Run(s, es), d)
  {
    if es != [] {
      var front := es[..|es| - 1];
      assert forall i :: 0 <= i < |front| ==> front[i] == es[i];
      QuiescentUntilEnabled(s, front, d);
      StepInv(Run(s, front), es[|es| - 1]);
      StaysQuiescent(Run(s, front), es[|es| - 1], d);
    }
  }

  /** What one scope shows: its own state and which tickets run in it. */
  ghost predicate SameScope(s: State, n: State, d: Dataset) {
    && |s.tickets| <= |n.tickets|
    && Get(s, d) == Get(n, d)
    && (forall i :: 0 <= i < |s.tickets| ==> s.tickets[i].scope == n.tickets[i].scope)
    && (forall i :: 0 <= i < |s.tickets| && s.tickets[i].scope == d ==> Active(s.tickets[i]) == Active(n.tickets[i]))
  }

  /** While a scope's channel stays open, nothing about the scope changes. */
  lemma {:induction false} OpenMeansUnchanged(s: State, es: seq<Event>, d: Dataset)
    requires Get(Run(s, es), d).changed == Get(s, d).changed
    ensures SameScope(s, Run(s, es), d)
  {
    if es != [] {
      var m, e := Run(s, es[..|es| - 1]), es[|es| - 1];
      ChangedGrows(s, es[..|es| - 1], d);
      StepChanges(m, e, d);
      OpenMeansUnchanged(s, es[..|es| - 1], d);
      SameScopeOn(s, m, Step(m, e), d);
    }
  }

  /** One event either moves a scope's channel on or leaves the scope alone. */
  lemma StepChanges(s: State, e: Event, d: Dataset)
    ensures Get(s, d).changed <= Get(Step(s, e), d).changed
    ensures Get(s, d).changed == Get(Step(s, e), d).changed ==> SameScope(s, Step(s, e), d)
  {}

  lemma SameScopeOn(s: State, m: State, n: State, d: Dataset)
    requires SameScope(s, m, d) && SameScope(m, n, d)
    ensures SameScope(s, n, d)
  {}

  lemma {:induction false} ChangedGrows(s: State, es: seq<Event>, d: Dataset)
    ensures Get(s, d).changed <= Get(Run(s, es), d).changed
  {
    if es != [] {
      ChangedGrows(s, es[..|es| - 1], d);
    }
  }

  /** No wake-up is lost: a waiter that saw work running in a related scope is
      woken before the gate can be quiescent. */
  lemma WaiterIsWoken(s: State, es: seq<Event>, d: Dataset, i: nat)
    requires i < |s.tickets| && Overlaps(s.tickets[i].scope, d) && Active(s.tickets[i])
    requires Quiescent(Run(s, es), d)
    ensures Get(Run(s, es), s.tickets[i].scope).changed > Get(s, s.tickets[i].scope).changed
  {
    var scope := s.tickets[i].scope;
    ChangedGrows(s, es, scope);
    if Get(Run(s, es), scope).changed == Get(s, scope).changed {
      OpenMeansUnchanged(s, es, scope);
    }
  }

  datatype Look = StillEnabled(scope: Dataset) | Busy | Quiet

  class Gate {
    var scopes: map<Dataset, Scope>
    var tickets: seq<Ticket>

    function View(): State
      reads this
    {
      State(scopes, tickets)
    }

    constructor ()
      ensures View() == FRESH
    {
      scopes, tickets := map[], [];
    }

    method SetEnabled(d: Dataset, enabled: bool)
      modifies this
      ensures View() == Step(old(View()), Enabling(d, enabled))
    {
      scopes := scopes[d := Scope(enabled, Get(View(), d).changed + 1)];
      if !enabled {
        for i := 0 to |tickets|
          invariant scopes == old(scopes)[d := Scope(enabled, Get(old(View()), d).changed + 1)]
          invariant |tickets| == |old(tickets)|
          invariant forall j :: 0 <= j < i ==> tickets[j] == Deactivated(old(tickets)[j], d)
          invariant forall j :: i <= j < |tickets| ==> tickets[j] == old(tickets)[j]
        {
          var t := tickets[i];
          if t.scope == d && !t.finished && (!t.running || t.kind == Transfer) {
            tickets := tickets[i := t.(ended := true)];
          }
        }
      }
    }

    method Queue(d: Dataset, kind: Kind, alive: bool) returns (ticket: Option<nat>)
      modifies this
      ensures View() == Step(old(View()), Queueing(d, kind, alive))
      ensures ticket.Some? <==> Get(old(View()), d).enabled && alive
      ensures ticket.Some? ==> ticket.value == |old(tickets)| < |tickets| && Queued(tickets[ticket.value])
    {
      scopes := scopes[d := Get(View(), d)];
      if !scopes[d].enabled || !alive {
        return None;
      }
      ticket := Some(|tickets|);
      tickets := tickets + [Ticket(d, kind, false, false, false)];
      scopes := scopes[d := scopes[d].(changed := scopes[d].changed + 1)];
    }

    method Start(i: nat) returns (started: bool)
      requires i < |tickets|
      modifies this
      ensures View() == Step(old(View()), Starting(i))
      ensures started == CanStart(old(View()), i)
    {
      var t := tickets[i];
      if t.finished || t.running || t.ended || !Get(View(), t.scope).enabled {
        return false;
      }
      tickets := tickets[i := t.(running := true)];
      scopes := Signalled(View(), t.scope);
      return true;
    }

    method Finish(i: nat)
      requires i < |tickets|
      modifies this
      ensures View() == Step(old(View()), Finishing(i))
    {
      var t := tickets[i];
      if t.finished {
        return;
      }
      tickets := tickets[i := t.(finished := true, ended := true)];
      scopes := Signalled(View(), t.scope);
    }

    /** One look of a wait over every related scope. */
    method LookQuiescent(d: Dataset) returns (look: Look)
      requires Inv(View())
      ensures look.Quiet? <==> Quiescent(View(), d)
      ensures look.StillEnabled? ==> look.scope in scopes && Overlaps(look.scope, d) && scopes[look.scope].enabled
      ensures look.Busy? ==> forall name :: name in scopes && Overlaps(name, d) ==> !scopes[name].enabled
    {
      var running := false;
      var left := scopes.Keys;
      while left != {}
        invariant left <= scopes.Keys
        invariant forall name :: name in scopes && name !in left && Overlaps(name, d) ==> !scopes[name].enabled
        invariant running <==> exists i :: 0 <= i < |tickets| && tickets[i].scope !in left && Overlaps(tickets[i].scope, d) && Active(tickets[i])
      {
        var name :| name in left;
        if Overlaps(name, d) {
          if scopes[name].enabled {
            return StillEnabled(name);
          }
          var busy := RunsIn(name);
          running := running || busy;
        }
        left := left - {name};
      }
      return if running then Busy else Quiet;
    }

    method RunsIn(name: Dataset) returns (running: bool)
      ensures running <==> exists i :: 0 <= i < |tickets| && tickets[i].scope == name && Active(tickets[i])
    {
      for i := 0 to |tickets|
        invariant forall j :: 0 <= j < i ==> !(tickets[j].scope == name && Active(tickets[j]))
      {
        if tickets[i].scope == name && !tickets[i].finished && tickets[i].running {
          return true;
        }
      }
      return false;
    }

    /** One look of a wait on the exact scope alone. */
    method LookScope(d: Dataset) returns (look: Look)
      modifies this
      ensures View() == Step(old(View()), Naming(d))
      ensures look.Quiet? <==> !Get(View(), d).enabled && forall i :: 0 <= i < |tickets| && tickets[i].scope == d ==> !Active(tickets[i])
      ensures look.StillEnabled? <==> Get(View(), d).enabled
    {
      scopes := scopes[d := Get(View(), d)];
      if scopes[d].enabled {
        return StillEnabled(d);
      }
      var running := RunsIn(d);
      return if running then Busy else Quiet;
    }
  }
}
