/** Status fan-out over bounded channels.

    The owner goroutine records transitions and sends each to a subscriber's
    bounded channel without waiting, then replaces the one state value the
    subscriber may hold. A forwarder goroutine turns both into updates at the
    consumer's pace. Every channel operation is one step and the goroutines
    interleave freely; a subscriber's part of the owner is all that is shown,
    since the owner's sends to other subscribers touch nothing of this one. */
module Status {
  import opened Names

  /** The capacity of a transition channel, and of a forwarder's backlog. */
  const BOUND := 256

  /** A transition and the revision of the state it produced. */
  datatype Transition = Transition(event: nat, revision: nat)

  datatype Update = Update(transitions: seq<Transition>, revision: nat)

  /** Where the owner is with this subscriber: idle, sending transitions, or
      about to take back and to replace the unread state. */
  datatype Owner = Idle | Sending(todo: seq<Transition>) | TakingBack | Replacing

  /** Where the forwarder is: at the top of its loop, waiting in its select, or
      draining transitions after it took a state. */
  datatype Forwarder = Top | Waiting | Draining | Exited

  datatype State = State(
    recorded: seq<Transition>,  // transitions recorded since registration
    revision: nat,              // the owner's revision
    registered: bool,           // the owner still serves the subscriber
    overflowed: bool,
    owner: Owner,
    channel: seq<Transition>,
    box: Option<nat>,           // revision of the unread state
    forwarder: Forwarder,
    pending: seq<Transition>,
    covered: nat,
    held: Option<nat>,          // revision of the forwarder's state
    dirty: bool,
    updates: seq<Update>)

  datatype Event =
    | Record(events: seq<nat>)  // the owner applies a message: transitions, or only a view or a sample
    | Offer                     // the owner fans out with nothing new
    | OwnerStep
    | ForwarderStep
    | TakeTransition            // cases of the forwarder's select
    | TakeState
    | Deliver
    | End                       // cancellation or a noticed overflow

  function Stamp(events: seq<nat>, revision: nat): seq<Transition> {
    seq(|events|, i requires 0 <= i < |events| => Transition(events[i], revision))
  }

  function Take(s: State): State
    requires s.channel != []
  {
    s.(pending := s.pending + [s.channel[0]], covered := s.channel[0].revision, channel := s.channel[1..])
  }

  predicate Offers(s: State) {
    s.held.Some? && ((s.pending != [] && s.held.value >= s.covered) || (s.pending == [] && s.dirty))
  }

  function OwnerMoves(s: State): State {
    match s.owner
    case Idle => s
    case Sending(todo) =>
      if todo == [] then s.(owner := TakingBack)
      else if |s.channel| < BOUND then s.(channel := s.channel + [todo[0]], owner := Sending(todo[1..]))
      else s.(overflowed := true, registered := false, owner := Idle)
    case TakingBack => s.(box := None, owner := Replacing)
    case Replacing => s.(box := Some(s.revision), owner := Idle)
  }

  function ForwarderMoves(s: State): State {
    match s.forwarder
    case Top => if |s.pending| < BOUND && s.channel != [] then Take(s) else s.(forwarder := Waiting)
    case Draining => if |s.pending| < BOUND && s.channel != [] then Take(s) else s.(forwarder := Top)
    case Waiting => s
    case Exited => s
  }

  /** The owner turns to this subscriber, unless its forwarder has stopped. */
  function FanOut(s: State, transitions: seq<Transition>): State {
    if !s.registered then s
    else if s.forwarder.Exited? then s.(registered := false)
    else s.(owner := Sending(transitions))
  }

  function Step(s: State, e: Event): State {
    match e
    case Record(events) =>
      if !s.owner.Idle? then s
      else
        var transitions := Stamp(events, s.revision + 1);
        FanOut(s.(revision := s.revision + 1, recorded := s.recorded + transitions), transitions)
    case Offer => if s.owner.Idle? then FanOut(s, []) else s
    case OwnerStep => OwnerMoves(s)
    case ForwarderStep => ForwarderMoves(s)
    case TakeTransition => if s.forwarder.Waiting? && |s.pending| < BOUND && s.channel != [] then Take(s).(forwarder := Top) else s
    case TakeState => if s.forwarder.Waiting? && s.box.Some? then s.(held := s.box, box := None, dirty := true, forwarder := Draining) else s
    case Deliver =>
      if s.forwarder.Waiting? && Offers(s)
      then s.(updates := s.updates + [Update(s.pending, s.held.value)], pending := [], dirty := false, forwarder := Top) else s
    case End => if s.forwarder.Waiting? then s.(forwarder := Exited) else s
  }

  function Run(s: State, es: seq<Event>): State {
    if es == [] then s else Step(Run(s, es[..|es| - 1]), es[|es| - 1])
  }

  /** Registration: the first state is already in the box. */
  predicate Fresh(s: State) {
    && s.recorded == [] && s.registered && !s.overflowed && s.owner.Idle? && s.channel == [] && s.box == Some(s.revision)
    && s.forwarder.Top? && s.pending == [] && s.covered == 0 && s.held.None? && !s.dirty && s.updates == []
  }

  function Delivered(updates: seq<Update>): seq<Transition> {
    if updates == [] then [] else Delivered(updates[..|updates| - 1]) + updates[|updates| - 1].transitions
  }

  function Unsent(s: State): seq<Transition> {
    if s.owner.Sending? then s.owner.todo else []
  }

  /** Everything handed over or on its way, in order. */
  function Flow(s: State): seq<Transition> {
    Delivered(s.updates) + s.pending + s.channel
  }

  predicate Rising(ts: seq<Transition>, top: nat) {
    && (forall i, j :: 0 <= i < j < |ts| ==> ts[i].revision <= ts[j].revision)
    && (forall i :: 0 <= i < |ts| ==> 0 < ts[i].revision <= top)
  }

  /** The first `n` recorded transitions are all that a state of this revision includes. */
  predicate Includes(recorded: seq<Transition>, n: nat, revision: nat) {
    n <= |recorded| && forall i :: n <= i < |recorded| ==> recorded[i].revision > revision
  }

  predicate NoNewer(ts: seq<Transition>, revision: nat) {
    forall i :: 0 <= i < |ts| ==> ts[i].revision <= revision
  }

  /** Update `i` carries no transition its state lacks, and unless it is a full
      bound, its state includes no transition still to be delivered. */
  predicate Coherent(recorded: seq<Transition>, updates: seq<Update>, i: nat)
    requires i < |updates|
  {
    && NoNewer(updates[i].transitions, updates[i].revision)
    && |updates[i].transitions| <= BOUND
    && (|updates[i].transitions| < BOUND ==> Includes(recorded, |Delivered(updates[..i + 1])|, updates[i].revision))
  }

  /** The order and completeness of what flows. */
  ghost predicate Ordered(s: State) {
    && (if s.registered then Flow(s) + Unsent(s) == s.recorded else Flow(s) <= s.recorded && s.owner.Idle?)
    && (s.overflowed ==> !s.registered)
    && Rising(s.recorded, s.revision)
    && (s.pending != [] ==> s.covered == s.pending[|s.pending| - 1].revision)
    && |s.pending| <= BOUND && |s.channel| <= BOUND
  }

  /** What the unread and the held state may claim to include. */
  ghost predicate Current(s: State) {
    && (s.box.Some? ==> s.box.value <= s.revision && Includes(s.recorded, |Flow(s)|, s.box.value))
    && (s.held.Some? ==> s.held.value <= s.revision && Includes(s.recorded, |Flow(s)|, s.held.value))
    && (s.forwarder.Waiting? && s.held.Some? && |s.pending| < BOUND
        ==> Includes(s.recorded, |Delivered(s.updates) + s.pending|, s.held.value))
    && (s.registered && s.owner.Idle? ==> (if s.box.Some? then s.box else s.held) == Some(s.revision))
  }

  ghost predicate Inv(s: State) {
    && Ordered(s)
    && Current(s)
    && (forall i :: 0 <= i < |s.updates| ==> s.updates[i].revision <= s.revision && Coherent(s.recorded, s.updates, i))
  }

  lemma FreshInv(s: State)
    requires Fresh(s)
    ensures Inv(s)
  {}

  /** Later transitions take nothing away from what an update's state includes. */
  lemma CoherentGrows(recorded: seq<Transition>, more: seq<Transition>, updates: seq<Update>, i: nat)
    requires i < |updates| && Coherent(recorded, updates, i)
    requires forall j :: 0 <= j < |more| ==> more[j].revision > updates[i].revision
    ensures Coherent(recorded + more, updates, i)
  {}

  lemma RisingGrows(recorded: seq<Transition>, events: seq<nat>, revision: nat)
    requires Rising(recorded, revision)
    ensures Rising(recorded + Stamp(events, revision + 1), revision + 1)
  {}

  lemma RecordFlows(s: State, events: seq<nat>)
    requires Ordered(s) && s.owner.Idle?
    ensures var n := Step(s, Record(events)); if n.registered then Flow(n) + Unsent(n) == n.recorded else Flow(n) <= n.recorded && n.owner.Idle?
  {
    var n := Step(s, Record(events));
    assert Flow(n) == Flow(s);
    assert Flow(s) + [] == Flow(s);
  }

  lemma RecordOrdered(s: State, events: seq<nat>)
    requires Ordered(s) && s.owner.Idle?
    ensures Ordered(Step(s, Record(events)))
  {
    RecordFlows(s, events);
    RisingGrows(s.recorded, events, s.revision);
  }

  lemma IncludesGrows(recorded: seq<Transition>, more: seq<Transition>, n: nat, revision: nat)
    requires Includes(recorded, n, revision)
    requires forall j :: 0 <= j < |more| ==> more[j].revision > revision
    ensures Includes(recorded + more, n, revision)
  {}

  /** New transitions leave the states in hand as current as they were. */
  lemma CurrentGrows(s: State, n: State, more: seq<Transition>)
    requires Current(s) && n.recorded == s.recorded + more && n.revision == s.revision + 1
    requires forall j :: 0 <= j < |more| ==> more[j].revision > s.revision
    requires n.updates == s.updates && n.pending == s.pending && n.channel == s.channel
    requires n.box == s.box && n.held == s.held && n.forwarder == s.forwarder && !(n.registered && n.owner.Idle?)
    ensures Current(n)
  {
    assert Flow(n) == Flow(s);
    if s.box.Some? {
      IncludesGrows(s.recorded, more, |Flow(s)|, s.box.value);
    }
    if s.held.Some? {
      IncludesGrows(s.recorded, more, |Flow(s)|, s.held.value);
      if s.forwarder.Waiting? && |s.pending| < BOUND {
        IncludesGrows(s.recorded, more, |Delivered(s.updates) + s.pending|, s.held.value);
      }
    }
  }

  lemma RecordCurrent(s: State, events: seq<nat>)
    requires Current(s) && s.owner.Idle?
    ensures Current(Step(s, Record(events)))
  {
    CurrentGrows(s, Step(s, Record(events)), Stamp(events, s.revision + 1));
  }

  lemma RecordInv(s: State, events: seq<nat>)
    requires Inv(s)
    ensures Inv(Step(s, Record(events)))
  {
    if s.owner.Idle? {
      RecordOrdered(s, events);
      RecordCurrent(s, events);
      AllCoherentGrow(s.recorded, Stamp(events, s.revision + 1), s.updates, s.revision);
      RecordKeeps(s, events);
    }
  }

  lemma RecordKeeps(s: State, events: seq<nat>)
    requires s.owner.Idle?
    ensures var n := Step(s, Record(events));
      n.updates == s.updates && n.recorded == s.recorded + Stamp(events, s.revision + 1) && n.revision == s.revision + 1
  {}

  lemma AllCoherentGrow(recorded: seq<Transition>, more: seq<Transition>, updates: seq<Update>, revision: nat)
    requires forall i :: 0 <= i < |updates| ==> updates[i].revision <= revision && Coherent(recorded, updates, i)
    requires forall j :: 0 <= j < |more| ==> more[j].revision > revision
    ensures forall i :: 0 <= i < |updates| ==> Coherent(recorded + more, updates, i)
  {
    forall i | 0 <= i < |updates| ensures Coherent(recorded + more, updates, i) {
      CoherentGrows(recorded, more, updates, i);
    }
  }

  lemma OfferInv(s: State)
    requires Inv(s)
    ensures Inv(Step(s, Offer))
  {
    var n := Step(s, Offer);
    assert Flow(n) == Flow(s) && Flow(s) + [] == Flow(s);
    assert Ordered(n);
  }

  lemma PushInv(s: State)
    requires Inv(s) && s.registered && s.owner.Sending? && s.owner.todo != [] && |s.channel| < BOUND
    ensures Inv(Step(s, OwnerStep))
  {
    var n, todo := Step(s, OwnerStep), s.owner.todo;
    assert [todo[0]] + todo[1..] == todo;
    assert Flow(n) == Flow(s) + [todo[0]];
    assert Flow(n) + Unsent(n) == Flow(s) + Unsent(s);
  }

  lemma ReplaceInv(s: State)
    requires Inv(s) && s.registered && s.owner.Replacing?
    ensures Inv(Step(s, OwnerStep))
  {
    assert Flow(s) == s.recorded;
    assert Flow(Step(s, OwnerStep)) == Flow(s);
  }

  lemma OwnerInv(s: State)
    requires Inv(s)
    ensures Inv(Step(s, OwnerStep))
  {
    if s.owner.Sending? && s.owner.todo != [] && |s.channel| < BOUND {
      PushInv(s);
    } else if s.owner.Replacing? {
      ReplaceInv(s);
    } else {
      assert Flow(Step(s, OwnerStep)) == Flow(s);
    }
  }

  /** Taking a transition moves it along without changing the flow. */
  lemma TakeInv(s: State, at: Forwarder)
    requires Inv(s) && s.channel != [] && |s.pending| < BOUND && !at.Waiting?
    ensures Inv(Take(s).(forwarder := at))
  {
    var n := Take(s).(forwarder := at);
    assert s.channel == [s.channel[0]] + s.channel[1..];
    assert Flow(n) == Flow(s);
  }

  lemma ForwarderInv(s: State)
    requires Inv(s)
    ensures Inv(Step(s, ForwarderStep))
  {
    if (s.forwarder.Top? || s.forwarder.Draining?) && |s.pending| < BOUND && s.channel != [] {
      TakeInv(s, s.forwarder);
    } else {
      TurnInv(s, Step(s, ForwarderStep).forwarder);
    }
  }

  /** With nothing to take, the forwarder goes on, to wait only when it has read
      its channel or is full. */
  lemma TurnInv(s: State, at: Forwarder)
    requires Inv(s) && (at.Waiting? && !s.forwarder.Waiting? ==> |s.pending| >= BOUND || s.channel == [])
    ensures Inv(s.(forwarder := at))
  {
    var n := s.(forwarder := at);
    assert Flow(n) == Flow(s);
    assert s.channel == [] ==> Flow(s) == Delivered(s.updates) + s.pending;
  }

  lemma PendingCovered(s: State)
    requires Ordered(s) && s.pending != []
    ensures NoNewer(s.pending, s.covered)
  {
    var d := |Delivered(s.updates)|;
    forall i | 0 <= i < |s.pending| ensures s.pending[i].revision <= s.covered {
      assert s.pending[i] == s.recorded[d + i];
      assert s.pending[|s.pending| - 1] == s.recorded[d + |s.pending| - 1];
    }
  }

  lemma DeliverFlows(s: State)
    requires s.forwarder.Waiting? && Offers(s)
    ensures var n := Step(s, Deliver);
      && n.updates == s.updates + [Update(s.pending, s.held.value)] && Delivered(n.updates) == Delivered(s.updates) + s.pending && Flow(n) == Flow(s)
  {
    var n := Step(s, Deliver);
    assert n.updates[..|n.updates| - 1] == s.updates;
    assert Delivered(s.updates) + s.pending + [] == Delivered(s.updates) + s.pending;
  }

  lemma DeliverCoherent(s: State, i: nat)
    requires Inv(s) && s.forwarder.Waiting? && Offers(s) && i <= |s.updates|
    ensures var n := Step(s, Deliver); n.updates[i].revision <= n.revision && Coherent(n.recorded, n.updates, i)
  {
    DeliverFlows(s);
    var n := Step(s, Deliver);
    if i < |s.updates| {
      assert n.updates[..i + 1] == s.updates[..i + 1];
      assert Coherent(s.recorded, s.updates, i);
    } else {
      assert n.updates[..i + 1] == n.updates;
      if s.pending != [] {
        PendingCovered(s);
      }
    }
  }

  lemma DeliverInv(s: State)
    requires Inv(s)
    ensures Inv(Step(s, Deliver))
  {
    if s.forwarder.Waiting? && Offers(s) {
      var n := Step(s, Deliver);
      DeliverFlows(s);
      forall i | 0 <= i < |n.updates| ensures n.updates[i].revision <= n.revision && Coherent(n.recorded, n.updates, i) {
        DeliverCoherent(s, i);
      }
    }
  }

  lemma StepInv(s: State, e: Event)
    requires Inv(s)
    ensures Inv(Step(s, e))
  {
    match e
    case Record(events) => RecordInv(s, events);
    case Offer => OfferInv(s);
    case OwnerStep => OwnerInv(s);
    case ForwarderStep => ForwarderInv(s);
    case TakeTransition =>
      if s.forwarder.Waiting? && |s.pending| < BOUND && s.channel != [] {
        TakeInv(s, Top);
      }
    case TakeState =>
    case Deliver => DeliverInv(s);
    case End =>
  }

  lemma {:induction false} RunInv(s: State, es: seq<Event>)
    requires Fresh(s)
    ensures Inv(Run(s, es))
  {
    if es == [] {
      FreshInv(s);
    } else {
      RunInv(s, es[..|es| - 1]);
      StepInv(Run(s, es[..|es| - 1]), es[|es| - 1]);
    }
  }

  /** In every interleaving, the updates handed over carry a gap-free prefix of
      the recorded transitions, in order and each once; and every update's state
      includes the transitions it carries, and, short of a full bound, none that
      are still to come. */
  lemma UpdatesAreCoherent(s: State, es: seq<Event>)
    requires Fresh(s)
    ensures var n := Run(s, es);
      && Delivered(n.updates) <= n.recorded
      && forall i :: 0 <= i < |n.updates| ==> Coherent(n.recorded, n.updates, i)
  {
    RunInv(s, es);
  }

  /** A live subscription has lost nothing: what is not yet handed over is still
      on its way, in order. */
  lemma LiveLosesNothing(s: State, es: seq<Event>)
    requires Fresh(s)
    ensures var n := Run(s, es); n.registered ==> n.recorded == Delivered(n.updates) + n.pending + n.channel + Unsent(n)
  {
    RunInv(s, es);
  }

  lemma OverflowStep(s: State, e: Event)
    requires Ordered(s) && !s.overflowed && Step(s, e).overflowed
    ensures var n := Step(s, e); |n.recorded| > |Delivered(n.updates)| + BOUND
  {
    assert e.OwnerStep? && s.owner.Sending? && s.owner.todo != [] && |s.channel| >= BOUND;
    assert |s.recorded| == |Delivered(s.updates)| + |s.pending| + |s.channel| + |s.owner.todo|;
  }

  /** A subscription overflows only when more than a full bound of transitions
      has been recorded and not handed over. */
  lemma OverflowMeansBehind(s: State, es: seq<Event>, e: Event)
    requires Fresh(s)
    requires !Run(s, es).overflowed && Run(s, es + [e]).overflowed
    ensures var n := Run(s, es + [e]); |n.recorded| > |Delivered(n.updates)| + BOUND
  {
    RunInv(s, es);
    assert (es + [e])[..|es|] == es;
    OverflowStep(Run(s, es), e);
  }

  /** Nothing gets stuck: once the owner is idle and the forwarder has read its
      channels, whatever it still holds is on offer, with the newest state. */
  lemma QuietIsOnOffer(s: State, es: seq<Event>)
    requires Fresh(s)
    ensures var n := Run(s, es);
      n.registered && n.owner.Idle? && n.box.None? && n.channel == [] && n.pending != []
      ==> Offers(n) && n.held == Some(n.revision) && Delivered(n.updates) + n.pending == n.recorded
  {
    RunInv(s, es);
    var n := Run(s, es);
    if n.registered && n.owner.Idle? && n.box.None? && n.channel == [] && n.pending != [] {
      assert Flow(n) == Delivered(n.updates) + n.pending == n.recorded;
      assert n.recorded[|n.recorded| - 1] == n.pending[|n.pending| - 1];
    }
  }

  /** A state the forwarder holds and has handed over is the last update's. */
  predicate Handed(s: State) {
    s.held.Some? && !s.dirty ==> s.updates != [] && s.updates[|s.updates| - 1].revision == s.held.value
  }

  lemma {:induction false} RunHanded(s: State, es: seq<Event>)
    requires Fresh(s)
    ensures Handed(Run(s, es))
  {
    if es != [] {
      RunHanded(s, es[..|es| - 1]);
      StepHanded(Run(s, es[..|es| - 1]), es[|es| - 1]);
    }
  }

  lemma StepHanded(s: State, e: Event)
    requires Handed(s)
    ensures Handed(Step(s, e))
  {
    match e
    case OwnerStep => OwnerKeepsHanded(s);
    case ForwarderStep => ForwarderKeepsHanded(s);
    case Deliver =>
    case _ =>
  }

  lemma OwnerKeepsHanded(s: State)
    ensures var n := OwnerMoves(s); n.held == s.held && n.dirty == s.dirty && n.updates == s.updates
  {}

  lemma ForwarderKeepsHanded(s: State)
    ensures var n := ForwarderMoves(s); n.held == s.held && n.dirty == s.dirty && n.updates == s.updates
  {}

  /** With its channel empty, the forwarder comes to wait for the consumer. */
  lemma ForwarderSettles(s: State)
    requires s.channel == [] && !s.forwarder.Exited?
    ensures Run(s, [ForwarderStep, ForwarderStep]) == s.(forwarder := Waiting)
  {
    var two := [ForwarderStep, ForwarderStep];
    assert two[..1] == [ForwarderStep] && [ForwarderStep][..0] == [];
    assert Run(s, [ForwarderStep]) == Step(s, ForwarderStep);
    assert Run(s, two) == Step(Step(s, ForwarderStep), ForwarderStep);
  }

  /** The subscriber gets everything: once the owner is idle and its state and
      transitions are read, the newest state is what the last update carried and
      nothing is pending, or the forwarder, waiting, hands over an update with
      that state and all that is pending. */
  lemma NothingIsWithheld(s: State, es: seq<Event>)
    requires Fresh(s)
    ensures var n := Run(s, es);
      n.registered && n.owner.Idle? && n.box.None? && n.channel == [] ==>
      || (n.pending == [] && n.updates != [] && n.updates[|n.updates| - 1].revision == n.revision && Delivered(n.updates) == n.recorded)
      || (Delivered(n.updates) + n.pending == n.recorded && Step(n.(forwarder := Waiting), Deliver).updates == n.updates + [Update(n.pending, n.revision)])
  {
    RunInv(s, es);
    RunHanded(s, es);
    if Run(s, es).registered && Run(s, es).owner.Idle? && Run(s, es).box.None? && Run(s, es).channel == [] {
      QuietHolds(Run(s, es));
      HandsOver(Run(s, es));
    }
  }

  lemma QuietHolds(n: State)
    requires Ordered(n) && Current(n) && n.registered && n.owner.Idle? && n.box.None? && n.channel == []
    ensures n.held == Some(n.revision) && Delivered(n.updates) + n.pending == n.recorded
    ensures n.pending != [] ==> n.covered <= n.revision
  {
    assert Flow(n) == Delivered(n.updates) + n.pending;
    assert n.pending != [] ==> n.recorded[|n.recorded| - 1] == n.pending[|n.pending| - 1];
  }

  lemma HandsOver(n: State)
    requires Handed(n) && n.held == Some(n.revision) && Delivered(n.updates) + n.pending == n.recorded && (n.pending != [] ==> n.covered <= n.revision)
    ensures
      || (n.pending == [] && n.updates != [] && n.updates[|n.updates| - 1].revision == n.revision && Delivered(n.updates) == n.recorded)
      || (Delivered(n.updates) + n.pending == n.recorded && Step(n.(forwarder := Waiting), Deliver).updates == n.updates + [Update(n.pending, n.revision)])
  {
    assert n.pending == [] ==> Delivered(n.updates) + n.pending == Delivered(n.updates);
  }
}

/** The daemon log's delivery, which is never ended.

    A record the log cannot take at once is counted in a gap that stands in its
    place, and nothing is offered past what was refused. */
module StatusLog {
  import opened Names

  const BOUND := 256

  /** A transition or a discovery generation, and its time. */
  datatype Record = Record(id: nat, at: int)

  /** How many records were dropped together, and the span of their times. */
  datatype Gap = Gap(count: nat, first: int, last: int)

  /** A flush also names how many records had been made when it was asked for. */
  datatype Delivery = Entry(record: Record) | Dropped(gap: Gap) | Flush(made: nat)

  function Add(g: Gap, at: int): Gap {
    Gap(g.count + 1, if g.count == 0 || at < g.first then at else g.first, if g.count == 0 || at > g.last then at else g.last)
  }

  const NO_GAP := Gap(0, 0, 0)

  function GapOf(rs: seq<Record>): Gap {
    if rs == [] then NO_GAP else Add(GapOf(rs[..|rs| - 1]), rs[|rs| - 1].at)
  }

  /** A gap spans exactly the times of the records it counts. */
  lemma {:induction false} GapSpans(rs: seq<Record>)
    ensures GapOf(rs).count == |rs|
    ensures forall r :: r in rs ==> GapOf(rs).first <= r.at <= GapOf(rs).last
    ensures rs != [] ==> (exists r :: r in rs && r.at == GapOf(rs).first) && (exists r :: r in rs && r.at == GapOf(rs).last)
  {
    if rs != [] {
      var front, last := rs[..|rs| - 1], rs[|rs| - 1];
      GapSpans(front);
      assert rs == front + [last] && last in rs;
      forall r | r in rs ensures GapOf(rs).first <= r.at <= GapOf(rs).last {
        assert r in front || r == last;
      }
      if front != [] {
        var f :| f in front && f.at == GapOf(front).first;
        var l :| l in front && l.at == GapOf(front).last;
        assert f in rs && l in rs;
      }
    }
  }

  /** `ds` accounts for the records `rs`: each is either in its place or counted
      in the one gap that stands there, and each flush stands after exactly the
      records made before it was asked for. */
  predicate Accounts(ds: seq<Delivery>, rs: seq<Record>) {
    if ds == [] then rs == []
    else
      var front := ds[..|ds| - 1];
      match ds[|ds| - 1]
      case Entry(r) => rs != [] && rs[|rs| - 1] == r && Accounts(front, rs[..|rs| - 1])
      case Dropped(g) =>
        0 < g.count <= |rs| && g == GapOf(rs[|rs| - g.count..]) && Accounts(front, rs[..|rs| - g.count])
      case Flush(made) => made == |rs| && Accounts(front, rs)
  }

  function Weight(ds: seq<Delivery>): nat {
    if ds == [] then 0
    else
      Weight(ds[..|ds| - 1]) +
      match ds[|ds| - 1]
      case Entry(_) => 1
      case Dropped(g) => g.count
      case Flush(_) => 0
  }

  /** What comes first accounts for the records that come first. */
  lemma {:induction false} AccountsPrefix(ds: seq<Delivery>, more: seq<Delivery>, rs: seq<Record>)
    requires Accounts(ds + more, rs)
    ensures Weight(ds) <= |rs| && Accounts(ds, rs[..Weight(ds)])
    decreases |more|
  {
    if more == [] {
      assert ds + more == ds;
      AccountsWeight(ds, rs);
      assert rs[..|rs|] == rs;
    } else {
      var all := ds + more;
      assert all[..|all| - 1] == ds + more[..|more| - 1];
      match more[|more| - 1]
      case Entry(r) =>
        AccountsPrefix(ds, more[..|more| - 1], rs[..|rs| - 1]);
        assert rs[..|rs| - 1][..Weight(ds)] == rs[..Weight(ds)];
      case Dropped(g) =>
        AccountsPrefix(ds, more[..|more| - 1], rs[..|rs| - g.count]);
        assert rs[..|rs| - g.count][..Weight(ds)] == rs[..Weight(ds)];
      case Flush(_) =>
        AccountsPrefix(ds, more[..|more| - 1], rs);
    }
  }

  lemma {:induction false} AccountsWeight(ds: seq<Delivery>, rs: seq<Record>)
    requires Accounts(ds, rs)
    ensures Weight(ds) == |rs|
  {
    if ds != [] {
      match ds[|ds| - 1]
      case Entry(r) => AccountsWeight(ds[..|ds| - 1], rs[..|rs| - 1]);
      case Dropped(g) => AccountsWeight(ds[..|ds| - 1], rs[..|rs| - g.count]);
      case Flush(_) => AccountsWeight(ds[..|ds| - 1], rs);
    }
  }

  /** A record is counted by the last gap, or by a new one at the end. */
  function Drop(refused: seq<Delivery>, at: int): seq<Delivery> {
    var last := |refused| - 1;
    if refused != [] && refused[last].Dropped? && refused[last].gap.count > 0
    then refused[..last] + [Dropped(Add(refused[last].gap, at))]
    else refused + [Dropped(Add(NO_GAP, at))]
  }

  /** One more record in the gap that ends `ds`. */
  lemma GapGrows(ds: seq<Delivery>, g: Gap, rs: seq<Record>, r: Record)
    requires Accounts(ds + [Dropped(g)], rs) && g.count > 0
    ensures Accounts(ds + [Dropped(Add(g, r.at))], rs + [r])
  {
    var all, next, more := ds + [Dropped(g)], ds + [Dropped(Add(g, r.at))], rs + [r];
    assert all[..|ds|] == ds && next[..|ds|] == ds;
    var dropped := more[|rs| - g.count..];
    assert dropped[..g.count] == rs[|rs| - g.count..] && dropped[g.count] == r;
    assert more[..|rs| - g.count] == rs[..|rs| - g.count];
  }

  /** A new gap of one record. */
  lemma GapStarts(ds: seq<Delivery>, rs: seq<Record>, r: Record)
    requires Accounts(ds, rs)
    ensures Accounts(ds + [Dropped(Add(NO_GAP, r.at))], rs + [r])
  {
    var next, more := ds + [Dropped(Add(NO_GAP, r.at))], rs + [r];
    assert next[..|ds|] == ds;
    assert more[|rs|..] == [r] && more[..|rs|] == rs;
    assert [r][..0] == [] && GapOf([r]) == Add(GapOf([]), r.at);
  }

  lemma DropAccounts(before: seq<Delivery>, refused: seq<Delivery>, rs: seq<Record>, r: Record)
    requires Accounts(before + refused, rs)
    ensures Accounts(before + Drop(refused, r.at), rs + [r])
  {
    var last := |refused| - 1;
    if refused != [] && refused[last].Dropped? && refused[last].gap.count > 0 {
      var g := refused[last].gap;
      assert before + refused == (before + refused[..last]) + [Dropped(g)];
      GapGrows(before + refused[..last], g, rs, r);
      assert before + Drop(refused, r.at) == (before + refused[..last]) + [Dropped(Add(g, r.at))];
    } else {
      GapStarts(before + refused, rs, r);
      assert before + Drop(refused, r.at) == (before + refused) + [Dropped(Add(NO_GAP, r.at))];
    }
  }

  lemma EntryAccounts(ds: seq<Delivery>, rs: seq<Record>, r: Record)
    requires Accounts(ds, rs)
    ensures Accounts(ds + [Entry(r)], rs + [r])
  {
    assert (ds + [Entry(r)])[..|ds|] == ds && (rs + [r])[..|rs|] == rs;
  }

  lemma FlushAccounts(ds: seq<Delivery>, rs: seq<Record>)
    requires Accounts(ds, rs)
    ensures Accounts(ds + [Flush(|rs|)], rs)
  {
    assert (ds + [Flush(|rs|)])[..|ds|] == ds;
  }

  datatype Owner = Idle | Reoffering(todo: seq<Record>) | Placing(todo: seq<Record>)

  datatype State = State(made: seq<Record>, owner: Owner, refused: seq<Delivery>, channel: seq<Delivery>, batch: seq<Delivery>, written: seq<Delivery>)

  datatype Event = Make(records: seq<Record>) | AskFlush | OwnerStep | TakeOne | HandOver

  function OwnerMoves(s: State): State {
    match s.owner
    case Idle => s
    case Reoffering(todo) =>
      if s.refused != [] && |s.channel| < BOUND
      then s.(channel := s.channel + [s.refused[0]], refused := s.refused[1..])
      else s.(owner := Placing(todo))
    case Placing(todo) =>
      if todo == [] then s.(owner := Idle)
      else if s.refused == [] && |s.channel| < BOUND
      then s.(channel := s.channel + [Entry(todo[0])], owner := Reoffering(todo[1..]))
      else s.(refused := Drop(s.refused, todo[0].at), owner := Reoffering(todo[1..]))
  }

  function Step(s: State, e: Event): State {
    match e
    case Make(records) => if s.owner.Idle? then s.(made := s.made + records, owner := Reoffering(records)) else s
    case AskFlush => if s.owner.Idle? then s.(refused := s.refused + [Flush(|s.made|)], owner := Reoffering([])) else s
    case OwnerStep => OwnerMoves(s)
    case TakeOne =>
      if |s.batch| < BOUND && s.channel != [] then s.(batch := s.batch + [s.channel[0]], channel := s.channel[1..]) else s
    case HandOver => if s.batch != [] then s.(written := s.written + s.batch, batch := []) else s
  }

  function Run(s: State, es: seq<Event>): State {
    if es == [] then s else Step(Run(s, es[..|es| - 1]), es[|es| - 1])
  }

  const FRESH := State([], Idle, [], [], [], [])

  function Todo(s: State): seq<Record> {
    if s.owner.Idle? then [] else s.owner.todo
  }

  function Flow(s: State): seq<Delivery> {
    s.written + s.batch + s.channel + s.refused
  }

  function Flushes(ds: seq<Delivery>): nat {
    if ds == [] then 0 else Flushes(ds[..|ds| - 1]) + if ds[|ds| - 1].Flush? then 1 else 0
  }

  /** Only gaps and flushes are held back, and no two gaps in a row. */
  predicate Tight(refused: seq<Delivery>) {
    && (forall i :: 0 <= i < |refused| ==> refused[i].Flush? || (refused[i].Dropped? && refused[i].gap.count > 0))
    && (forall i :: 0 < i < |refused| ==> refused[i - 1].Flush? || refused[i].Flush?)
  }

  ghost predicate Inv(s: State) {
    && |Todo(s)| <= |s.made| && Todo(s) == s.made[|s.made| - |Todo(s)|..]
    && Accounts(Flow(s), s.made[..|s.made| - |Todo(s)|])
    && Tight(s.refused)
    && |s.channel| <= BOUND && |s.batch| <= BOUND
  }

  lemma DropTight(refused: seq<Delivery>, at: int)
    requires Tight(refused)
    ensures Tight(Drop(refused, at))
  {}

  lemma TightTail(refused: seq<Delivery>)
    requires Tight(refused) && refused != []
    ensures Tight(refused[1..])
  {
    forall i | 0 < i < |refused| - 1 ensures refused[1..][i - 1].Flush? || refused[1..][i].Flush? {
      assert refused[i].Flush? || refused[i + 1].Flush?;
    }
  }

  lemma PlaceEntryInv(s: State)
    requires Inv(s) && s.owner.Placing? && s.owner.todo != [] && s.refused == [] && |s.channel| < BOUND
    ensures Inv(OwnerMoves(s))
  {
    var todo := s.owner.todo;
    var done := |s.made| - |todo|;
    assert s.made[..done + 1] == s.made[..done] + [todo[0]];
    assert todo[1..] == s.made[done + 1..];
    EntryAccounts(Flow(s), s.made[..done], todo[0]);
    assert Flow(OwnerMoves(s)) == Flow(s) + [Entry(todo[0])];
  }

  lemma PlaceDroppedInv(s: State)
    requires Inv(s) && s.owner.Placing? && s.owner.todo != [] && (s.refused != [] || |s.channel| >= BOUND)
    ensures Inv(OwnerMoves(s))
  {
    var todo := s.owner.todo;
    var done := |s.made| - |todo|;
    assert s.made[..done + 1] == s.made[..done] + [todo[0]];
    assert todo[1..] == s.made[done + 1..];
    DropAccounts(s.written + s.batch + s.channel, s.refused, s.made[..done], todo[0]);
    DropTight(s.refused, todo[0].at);
  }

  lemma OwnerInv(s: State)
    requires Inv(s)
    ensures Inv(OwnerMoves(s))
  {
    if s.owner.Placing? && s.owner.todo != [] {
      if s.refused == [] && |s.channel| < BOUND {
        PlaceEntryInv(s);
      } else {
        PlaceDroppedInv(s);
      }
    } else if s.owner.Reoffering? && s.refused != [] && |s.channel| < BOUND {
      assert s.refused == [s.refused[0]] + s.refused[1..];
      assert Flow(OwnerMoves(s)) == Flow(s);
      TightTail(s.refused);
    }
  }

  lemma AskFlushInv(s: State)
    requires Inv(s) && s.owner.Idle?
    ensures Inv(Step(s, AskFlush))
  {
    var n := Step(s, AskFlush);
    assert s.made[..|s.made|] == s.made;
    FlushAccounts(Flow(s), s.made);
    assert Flow(n) == Flow(s) + [Flush(|s.made|)];
  }

  lemma StepInv(s: State, e: Event)
    requires Inv(s)
    ensures Inv(Step(s, e))
  {
    var n := Step(s, e);
    match e
    case Make(records) =>
      if s.owner.Idle? {
        assert n.made[..|s.made|] == s.made == s.made[..|s.made|];
        assert Flow(n) == Flow(s);
      }
    case AskFlush =>
      if s.owner.Idle? {
        AskFlushInv(s);
      }
    case OwnerStep =>
      OwnerInv(s);
    case TakeOne =>
      if |s.batch| < BOUND && s.channel != [] {
        assert s.channel == [s.channel[0]] + s.channel[1..];
      }
      assert Flow(n) == Flow(s);
    case HandOver =>
      assert Flow(n) == Flow(s);
  }

  lemma {:induction false} RunInv(es: seq<Event>)
    ensures Inv(Run(FRESH, es))
  {
    if es != [] {
      RunInv(es[..|es| - 1]);
      StepInv(Run(FRESH, es[..|es| - 1]), es[|es| - 1]);
    }
  }

  /** In every interleaving, what the log has written accounts for the first
      records made: each is written in its place or counted in exactly one gap
      there, and each flush comes after exactly the records made before it. */
  lemma LogAccounts(es: seq<Event>)
    ensures var n := Run(FRESH, es);
      Weight(n.written) <= |n.made| && Accounts(n.written, n.made[..Weight(n.written)])
  {
    RunInv(es);
    var n := Run(FRESH, es);
    var done := |n.made| - |Todo(n)|;
    var rest := n.batch + n.channel + n.refused;
    assert Flow(n) == n.written + rest;
    AccountsPrefix(n.written, rest, n.made[..done]);
    assert n.made[..done][..Weight(n.written)] == n.made[..Weight(n.written)];
  }

  lemma {:induction false} TightBound(refused: seq<Delivery>)
    requires Tight(refused)
    ensures |refused| <= 2 * Flushes(refused) + (if refused != [] && refused[|refused| - 1].Flush? then 0 else 1)
  {
    if refused != [] {
      var front := refused[..|refused| - 1];
      TightBound(front);
      assert front != [] ==> front[|front| - 1] == refused[|refused| - 2];
    }
  }

  /** What the owner holds back for the log is bounded by the flushes waiting. */
  lemma RefusedIsBounded(es: seq<Event>)
    ensures var n := Run(FRESH, es); |n.refused| <= 2 * Flushes(n.refused) + 1
  {
    RunInv(es);
    TightBound(Run(FRESH, es).refused);
  }

  // Room.

  predicate NoGaps(ds: seq<Delivery>) {
    forall i :: 0 <= i < |ds| ==> !ds[i].Dropped?
  }

  /** Nothing is counted in a gap, and the owner places nothing past a refusal. */
  predicate Roomy(s: State) {
    NoGaps(s.written) && NoGaps(s.batch) && NoGaps(s.channel) && NoGaps(s.refused) && (s.owner.Placing? ==> s.refused == [])
  }

  lemma RoomyStep(s: State, e: Event)
    requires Roomy(s) && |s.channel| < BOUND
    ensures Roomy(Step(s, e))
  {}

  /** As long as the channel has room, every record is written in its place. */
  lemma {:induction false} RoomDropsNothing(es: seq<Event>)
    requires forall j :: 0 <= j < |es| ==> |Run(FRESH, es[..j]).channel| < BOUND
    ensures Roomy(Run(FRESH, es))
  {
    if es != [] {
      var init := es[..|es| - 1];
      assert forall j :: 0 <= j < |init| ==> init[..j] == es[..j];
      RoomDropsNothing(init);
      RoomyStep(Run(FRESH, init), es[|es| - 1]);
    }
  }

  /** The owner's record of the log. */
  class Subscriber {
    var channel: seq<Delivery>
    var refused: seq<Delivery>

    constructor ()
      ensures channel == [] && refused == []
    {
      channel, refused := [], [];
    }

    /** Offers what was refused, in order, and then the next record. What was
        accounted for before the call is accounted for after it, with the record
        added; `taken` is what the writer has already taken. */
    method DeliverLog(next: Option<Record>, ghost taken: seq<Delivery>, ghost made: seq<Record>)
      requires |channel| <= BOUND && Tight(refused)
      requires Accounts(taken + channel + refused, made)
      modifies this
      ensures |channel| <= BOUND && Tight(refused)
      ensures old(channel) <= channel
      ensures refused != [] ==> |channel| == BOUND
      ensures Accounts(taken + channel + refused, if next.Some? then made + [next.value] else made)
    {
      Reoffer(taken);
      if next.None? {
        return;
      }
      if refused == [] && |channel| < BOUND {
        EntryAccounts(taken + channel + refused, made, next.value);
        ghost var before := taken + channel + refused;
        channel := channel + [Entry(next.value)];
        assert taken + channel + refused == before + [Entry(next.value)];
      } else {
        DropAccounts(taken + channel, refused, made, next.value);
        DropTight(refused, next.value.at);
        refused := Drop(refused, next.value.at);
      }
    }

    /** Moves what was refused into the channel, in order, while it has room. */
    method Reoffer(ghost taken: seq<Delivery>)
      requires |channel| <= BOUND && Tight(refused)
      modifies this
      ensures |channel| <= BOUND && Tight(refused)
      ensures old(channel) <= channel
      ensures refused != [] ==> |channel| == BOUND
      ensures taken + channel + refused == old(taken + channel + refused)
    {
      while refused != [] && |channel| < BOUND
        invariant |channel| <= BOUND && Tight(refused) && old(channel) <= channel
        invariant taken + channel + refused == old(taken + channel + refused)
        decreases |refused|
      {
        assert refused == [refused[0]] + refused[1..];
        TightTail(refused);
        channel, refused := channel + [refused[0]], refused[1..];
      }
    }
  }
}
