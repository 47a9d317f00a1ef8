/** A whole turn of the status owner with one subscriber, and how a
    subscription ends. */
module Turns {
  import opened Names
  import opened Status

  function OwnerSteps(n: nat): seq<Event> {
    seq(n, _ => OwnerStep)
  }

  lemma {:induction false} OwnerCons(s: State, n: nat)
    ensures Run(s, OwnerSteps(n + 1)) == Run(OwnerMoves(s), OwnerSteps(n))
  {
    var es := OwnerSteps(n + 1);
    assert es[..n] == OwnerSteps(n);
    if n == 0 {
      assert OwnerSteps(0) == [] && Run(s, es) == Step(Run(s, es[..0]), es[0]);
    } else {
      OwnerCons(s, n - 1);
      assert OwnerSteps(n)[..n - 1] == OwnerSteps(n - 1);
      assert Run(OwnerMoves(s), OwnerSteps(n)) == Step(Run(OwnerMoves(s), OwnerSteps(n - 1)), OwnerStep);
    }
  }

  /** What sending `todo` to a channel nobody reads comes to: all of it and the
      newest state, or as much as fits and the end of the subscription. */
  function Served(s: State, todo: seq<Transition>): State {
    if |s.channel| + |todo| <= BOUND then s.(channel := s.channel + todo, box := Some(s.revision), owner := Idle)
    else if |s.channel| <= BOUND then s.(channel := s.channel + todo[..BOUND - |s.channel|], overflowed := true, registered := false, owner := Idle)
    else s.(overflowed := true, registered := false, owner := Idle)
  }

  lemma SentAll(s: State)
    requires s.owner == Sending([]) && |s.channel| <= BOUND
    ensures Run(s, OwnerSteps(3)) == Served(s, [])
  {
    OwnerCons(s, 2);
    OwnerCons(OwnerMoves(s), 1);
    OwnerCons(OwnerMoves(OwnerMoves(s)), 0);
    assert s.channel + [] == s.channel;
  }

  lemma ServedNext(s: State, todo: seq<Transition>)
    requires todo != [] && |s.channel| < BOUND
    ensures Served(s.(channel := s.channel + [todo[0]], owner := Sending(todo[1..])), todo[1..]) == Served(s, todo)
  {
    var next := s.channel + [todo[0]];
    if |s.channel| + |todo| <= BOUND {
      assert next + todo[1..] == s.channel + todo;
    } else {
      assert next + todo[1..][..BOUND - |next|] == s.channel + todo[..BOUND - |s.channel|];
    }
  }

  /** Left to itself, the owner ends its turn with exactly that. */
  lemma {:induction false} OwnerServes(s: State, todo: seq<Transition>) returns (n: nat)
    requires s.owner == Sending(todo) && |s.channel| <= BOUND
    ensures Run(s, OwnerSteps(n)) == Served(s, todo)
    decreases |todo|
  {
    if todo == [] {
      SentAll(s);
      n := 3;
    } else if |s.channel| < BOUND {
      n := OwnerServes(OwnerMoves(s), todo[1..]);
      ServedNext(s, todo);
      OwnerCons(s, n);
      n := n + 1;
    } else {
      OwnerCons(s, 0);
      assert s.channel + todo[..0] == s.channel;
      n := 1;
    }
  }

  /** A turn, with new transitions or none, drops a subscriber whose forwarder has
      stopped, and otherwise gives it all of them and the newest state unless
      they do not fit. */
  lemma TurnServes(s: State, e: Event) returns (n: nat)
    requires s.owner.Idle? && s.registered && |s.channel| <= BOUND && (e.Record? || e.Offer?)
    ensures var todo := if e.Record? then Stamp(e.events, s.revision + 1) else [];
            var z := Run(Step(s, e), OwnerSteps(n));
            && z.revision == s.revision + (if e.Record? then 1 else 0) && z.recorded == s.recorded + todo && z.owner.Idle?
            && (s.forwarder.Exited? ==> !z.registered && z.channel == s.channel && z.box == s.box)
            && (!s.forwarder.Exited? && |s.channel| + |todo| <= BOUND ==> z.registered && z.channel == s.channel + todo && z.box == Some(z.revision))
            && (!s.forwarder.Exited? && |s.channel| + |todo| > BOUND ==> z.overflowed && !z.registered && z.channel == (s.channel + todo)[..BOUND])
  {
    var todo := if e.Record? then Stamp(e.events, s.revision + 1) else [];
    var z := Step(s, e);
    assert s.recorded + [] == s.recorded;
    if s.forwarder.Exited? {
      n := 0;
      assert OwnerSteps(0) == [];
    } else {
      n := OwnerServes(z, todo);
      if |s.channel| + |todo| > BOUND { assert (s.channel + todo)[..BOUND] == s.channel + todo[..BOUND - |s.channel|]; }
    }
  }

  /** Once a forwarder has ended, no further update is handed over. */
  lemma {:induction false} EndIsFinal(s: State, es: seq<Event>)
    requires s.forwarder.Waiting?
    ensures var z := Run(Step(s, End), es); z.forwarder.Exited? && z.updates == s.updates
  {
    if es != [] {
      EndIsFinal(s, es[..|es| - 1]);
      ExitedStays(Run(Step(s, End), es[..|es| - 1]), es[|es| - 1]);
    }
  }

  lemma ExitedStays(s: State, e: Event)
    requires s.forwarder.Exited?
    ensures Step(s, e).forwarder.Exited? && Step(s, e).updates == s.updates
  {
    if e.OwnerStep? { OwnerKeepsHanded(s); }
  }

  /** Everything from `n` on carries a transition. */
  predicate Carry(updates: seq<Update>, n: nat) {
    forall i :: n <= i < |updates| ==> updates[i].transitions != []
  }

  /** A state is handed over once: until the forwarder takes another, every
      further update has a transition to report. */
  lemma {:induction false} StateHandedOnce(s: State, es: seq<Event>)
    requires s.forwarder.Waiting? && Offers(s) && TakeState !in es
    ensures var z := Run(Step(s, Deliver), es); !z.dirty && |z.updates| > |s.updates| && Carry(z.updates, |s.updates| + 1)
  {
    if es != [] {
      var y, e := Run(Step(s, Deliver), es[..|es| - 1]), es[|es| - 1];
      assert e in es && forall x :: x in es[..|es| - 1] ==> x in es;
      StateHandedOnce(s, es[..|es| - 1]);
      CleanStays(y, e);
    }
  }

  lemma CleanStays(s: State, e: Event)
    requires !s.dirty && !e.TakeState?
    ensures var z := Step(s, e); !z.dirty && (z.updates == s.updates || (|z.updates| == |s.updates| + 1 && z.updates[..|s.updates|] == s.updates && z.updates[|s.updates|].transitions != []))
  {
    match e
    case OwnerStep => OwnerKeepsHanded(s);
    case ForwarderStep => ForwarderKeepsHanded(s);
    case _ =>
  }
}
