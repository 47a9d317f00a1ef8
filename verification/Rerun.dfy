/** The dirty-flag protocol that keeps a local transfer from being lost.

    Snapshot ticks protect and coalesce new snapshots, mark the target's job
    dirty and submit it; the pool refuses a job whose ID it already knows. A
    running job clears the flag before it reserves what is pending, and after
    it is forgotten by the pool submits itself again if the flag is set. Every
    mutex-held region is one step, and any number of ticks and workers
    interleave. */
module Rerun {
  import opened Names
  import opened Pending

  /** Where a goroutine is. The first four are in enqueueLocal, `Offering` is
      between the pool's known check and the queue's offer, the others are the
      job as a worker runs it, and `Checking` is its After hook. */
  datatype Phase =
    | Coalescing(todo: seq<(Dataset, Snapshot)>, done: set<Dataset>)
    | Marking(done: set<Dataset>)
    | Queueing
    | Submitting
    | Offering
    | Clearing
    | Reserving(left: seq<Dataset>, reserved: map<Dataset, Snapshot>)
    | Transferring(reserved: map<Dataset, Snapshot>)
    | Finishing(ends: seq<Dataset>, reserved: map<Dataset, Snapshot>, verified: set<Dataset>)
    | Completing
    | Checking

  /** `unsent` are the streams whose pending entry was coalesced after the last
      reservation of that stream. */
  datatype State = State(
    streams: seq<Dataset>,
    threads: map<nat, Phase>,
    entries: Entries,
    dirty: bool,
    known: bool,
    queued: bool,
    unsent: set<Dataset>)

  datatype Event =
    | Tick(t: nat, created: seq<(Dataset, Snapshot)>)  // a snapshot tick enters enqueueLocal
    | Retry(t: nat)                                    // a reconcile or delayed retry enters it with nothing created
    | Pop(t: nat)                                      // a worker takes the queued job
    | Move(t: nat, verified: set<Dataset>)             // goroutine t performs its next atomic region
    | ProtectFails(t: nat)                             // protecting the next snapshot fails

  function Filter(streams: seq<Dataset>, created: seq<(Dataset, Snapshot)>): seq<(Dataset, Snapshot)> {
    if created == [] then []
    else (if created[0].0 in streams then [created[0]] else []) + Filter(streams, created[1..])
  }

  /** What a goroutine in phase `p` does in its next atomic region, and where it
      is afterwards; None when it has finished. */
  function Act(s: State, p: Phase, verified: set<Dataset>): (State, Option<Phase>) {
    match p
    case Coalescing(todo, done) =>
      if todo == [] then (s, Some(Marking(done)))
      else
        var (stream, snapshot) := todo[0];
        var entries := Coalesce(s.entries, stream, snapshot);
        var moved := if entries != s.entries then {stream} else {};
        (s.(entries := entries, unsent := s.unsent + moved), Some(Coalescing(todo[1..], done + moved)))
    case Marking(_) => (s.(dirty := true), Some(Queueing))
    case Queueing => (s, Some(Submitting))
    case Submitting => if s.known then (s, None) else (s.(known := true), Some(Offering))
    case Offering => (s.(queued := true), None)
    case Clearing => (s.(dirty := false), Some(Reserving(s.streams, map[])))
    case Reserving(left, reserved) =>
      if left == [] then (s, Some(Transferring(reserved)))
      else
        var stream := left[0];
        var kept := if stream in s.entries.jobs then reserved[stream := s.entries.jobs[stream]] else reserved;
        (s.(entries := Begin(s.entries, stream), unsent := s.unsent - {stream}),
         Some(Reserving(left[1..], kept)))
    case Transferring(reserved) => (s, Some(Finishing(s.streams, reserved, verified)))
    case Finishing(ends, reserved, verified) =>
      if ends == [] then (s, Some(Completing))
      else
        var stream := ends[0];
        var entries := if stream in reserved then End(s.entries, stream, reserved[stream], stream in verified) else s.entries;
        (s.(entries := entries), Some(Finishing(ends[1..], reserved - {stream}, verified)))
    case Completing => (s.(known := false), Some(Checking))
    case Checking => if s.dirty then (s, Some(Queueing)) else (s, None)
  }

  function Place(s: State, threads: map<nat, Phase>, t: nat, p: Option<Phase>): State {
    s.(threads := if p.Some? then threads[t := p.value] else threads - {t})
  }

  function Advance(s: State, t: nat, verified: set<Dataset>): State
    requires t in s.threads
  {
    var (z, p) := Act(s, s.threads[t], verified);
    Place(z, s.threads, t, p)
  }

  function Step(s: State, e: Event): State {
    match e
    case Tick(t, created) => if t in s.threads || created == [] then s else Place(s, s.threads, t, Some(Coalescing(Filter(s.streams, created), {})))
    case Retry(t) => if t in s.threads then s else Place(s, s.threads, t, Some(Queueing))
    case Pop(t) => if t in s.threads || !s.queued then s else Place(s.(queued := false), s.threads, t, Some(Clearing))
    case Move(t, verified) => if t in s.threads then Advance(s, t, verified) else s
    case ProtectFails(t) =>
      if t in s.threads && s.threads[t].Coalescing? && s.threads[t].todo != []
      then Place(s, s.threads, t, None) else s
  }

  function Run(s: State, es: seq<Event>): State {
    if es == [] then s else Step(Run(s, es[..|es| - 1]), es[|es| - 1])
  }

  predicate Idle(s: State) {
    && s.threads == map[] && s.entries == Entries(map[], map[]) && !s.dirty && !s.known && !s.queued
    && s.unsent == {}
  }

  /** The goroutine carries the job the pool knows. */
  predicate Carries(p: Phase) {
    p.Offering? || p.Clearing? || p.Reserving? || p.Transferring? || p.Finishing? || p.Completing?
  }

  /** It has coalesced `stream` and not yet marked the job dirty. */
  predicate Unmarked(p: Phase, stream: Dataset) {
    (p.Coalescing? || p.Marking?) && stream in p.done
  }

  /** It carries the job and has not yet reserved `stream`. */
  predicate Ahead(p: Phase, stream: Dataset) {
    p.Offering? || p.Clearing? || (p.Reserving? && stream in p.left)
  }

  function Holds(p: Phase): map<Dataset, Snapshot> {
    if p.Reserving? || p.Transferring? || p.Finishing? then p.reserved else map[]
  }

  ghost predicate OneJob(s: State) {
    && (forall t, u :: t in s.threads && u in s.threads && Carries(s.threads[t]) && Carries(s.threads[u]) ==> t == u)
    && (s.queued ==> forall t :: t in s.threads ==> !Carries(s.threads[t]))
    && (s.known <==> s.queued || exists t :: t in s.threads && Carries(s.threads[t]))
  }

  /** Who will reserve or mark `stream`. */
  predicate Attends(s: State, t: nat, stream: Dataset) {
    t in s.threads && (Unmarked(s.threads[t], stream) || Ahead(s.threads[t], stream))
  }

  /** A set flag has someone left to act on it. */
  ghost predicate Heeded(s: State) {
    s.dirty ==> s.known || exists t :: t in s.threads && (s.threads[t].Queueing? || s.threads[t].Submitting? || s.threads[t].Checking?)
  }

  /** Unsent entries are newer than what the running job holds of their stream. */
  ghost predicate Newer(s: State) {
    && (forall stream :: stream in s.unsent ==> stream in s.entries.jobs && stream in s.streams)
    && (forall t, stream :: t in s.threads && stream in Holds(s.threads[t]) ==>
          && stream in s.entries.jobs
          && Holds(s.threads[t])[stream].txg <= s.entries.jobs[stream].txg
          && (stream in s.unsent ==> Holds(s.threads[t])[stream].txg < s.entries.jobs[stream].txg))
  }

  /** The loops stay inside the request's streams and reserve each once. */
  ghost predicate Orderly(s: State) {
    && Distinct(s.streams)
    && (forall t :: t in s.threads && s.threads[t].Reserving? ==>
          Distinct(s.threads[t].left) && forall stream :: stream in s.threads[t].left ==> stream !in s.threads[t].reserved)
    && (forall t, i :: t in s.threads && s.threads[t].Coalescing? && 0 <= i < |s.threads[t].todo| ==> s.threads[t].todo[i].0 in s.streams)
  }

  ghost predicate Inv(s: State) {
    OneJob(s) && Heeded(s) && Newer(s) && Orderly(s)
  }

  lemma {:induction false} FilterWithin(streams: seq<Dataset>, created: seq<(Dataset, Snapshot)>)
    ensures forall i :: 0 <= i < |Filter(streams, created)| ==> Filter(streams, created)[i].0 in streams
  {
    if created != [] { FilterWithin(streams, created[1..]); }
  }

  /** Other goroutines stay where they are. */
  ghost predicate Frame(s: State, z: State, t: nat) {
    && z.streams == s.streams
    && (forall u :: u != t ==> (u in s.threads <==> u in z.threads))
    && (forall u :: u != t && u in s.threads ==> z.threads[u] == s.threads[u])
  }

  lemma PlaceFrame(s: State, z: State, t: nat, p: Option<Phase>)
    requires z.streams == s.streams
    ensures Frame(s, Place(z, s.threads, t, p), t)
    ensures t in Place(z, s.threads, t, p).threads <==> p.Some?
  {
  }

  lemma ActKeepsStreams(s: State, p: Phase, verified: set<Dataset>)
    ensures Act(s, p, verified).0.streams == s.streams
  {
  }

  lemma StepFrame(s: State, e: Event)
    ensures Frame(s, Step(s, e), e.t)
  {
    match e
    case Tick(t, created) => PlaceFrame(s, s, t, Some(Coalescing(Filter(s.streams, created), {})));
    case Retry(t) => PlaceFrame(s, s, t, Some(Queueing));
    case Pop(t) => PlaceFrame(s, s.(queued := false), t, Some(Clearing));
    case ProtectFails(t) =>
      if Step(s, e) != s { PlaceFrame(s, s, t, None); }
    case Move(t, verified) =>
      if t in s.threads {
        var (z, p) := Act(s, s.threads[t], verified);
        ActKeepsStreams(s, s.threads[t], verified);
        PlaceFrame(s, z, t, p);
      }
  }

  predicate CarriesAt(s: State, t: nat) {
    t in s.threads && Carries(s.threads[t])
  }

  /** How one step moves the job the pool knows: not at all, into a goroutine,
      from it to the queue, from the queue to a worker, or out. */
  predicate JobMoves(s: State, z: State, t: nat) {
    var b, a := CarriesAt(s, t), CarriesAt(z, t);
    || (a == b && z.known == s.known && z.queued == s.queued)
    || (!b && a && !s.known && z.known && z.queued == s.queued)
    || (b && !a && z.known == s.known && z.queued)
    || (!b && a && s.queued && !z.queued && z.known == s.known)
    || (b && !a && !z.known && z.queued == s.queued)
  }

  lemma StepJob(s: State, e: Event)
    ensures JobMoves(s, Step(s, e), e.t)
  {
  }

  lemma OneJobMoves(s: State, z: State, t: nat)
    requires OneJob(s) && Frame(s, z, t) && JobMoves(s, z, t)
    ensures OneJob(z)
  {
    forall u | CarriesAt(s, u) ensures s.known { assert u in s.threads && Carries(s.threads[u]); }
    forall u | CarriesAt(s, u) && u != t ensures CarriesAt(z, u) {}
    forall u | CarriesAt(z, u) && u != t ensures CarriesAt(s, u) {}
    if s.known && !s.queued {
      var u :| u in s.threads && Carries(s.threads[u]);
      assert CarriesAt(s, u);
      assert u != t ==> u in z.threads && Carries(z.threads[u]);
    }
    if CarriesAt(z, t) { assert t in z.threads && Carries(z.threads[t]); }
  }

  lemma OneJobKept(s: State, e: Event)
    requires OneJob(s)
    ensures OneJob(Step(s, e))
  {
    StepFrame(s, e);
    StepJob(s, e);
    OneJobMoves(s, Step(s, e), e.t);
  }

  predicate OrderlyPhase(streams: seq<Dataset>, p: Phase) {
    match p
    case Reserving(left, reserved) => Distinct(left) && forall stream :: stream in left ==> stream !in reserved
    case Coalescing(todo, _) => forall i :: 0 <= i < |todo| ==> todo[i].0 in streams
    case _ => true
  }

  lemma AdvanceOrderly(s: State, t: nat, verified: set<Dataset>)
    requires t in s.threads && Distinct(s.streams) && OrderlyPhase(s.streams, s.threads[t])
    ensures t in Advance(s, t, verified).threads ==> OrderlyPhase(s.streams, Advance(s, t, verified).threads[t])
  {
    match s.threads[t]
    case Reserving(left, reserved) =>
      if left != [] {
        assert forall stream :: stream in left[1..] ==> stream in left;
        assert forall i :: 0 <= i < |left| - 1 ==> left[1..][i] == left[i + 1];
      }
    case _ =>
  }

  lemma OrderlyKept(s: State, e: Event)
    requires Orderly(s)
    ensures Orderly(Step(s, e))
  {
    StepFrame(s, e);
    OrderlyPhases(s);
    StepOrderly(s, e);
    forall u | u in Step(s, e).threads ensures OrderlyPhase(s.streams, Step(s, e).threads[u]) {
      if u != e.t {
        assert u in s.threads && Step(s, e).threads[u] == s.threads[u];
      }
    }
    OrderlyPhases(Step(s, e));
  }

  lemma OrderlyPhases(s: State)
    ensures Orderly(s) <==> Distinct(s.streams) && forall t :: t in s.threads ==> OrderlyPhase(s.streams, s.threads[t])
  {}

  /** The goroutine that moves stays orderly. */
  lemma StepOrderly(s: State, e: Event)
    requires Distinct(s.streams) && (e.t in s.threads ==> OrderlyPhase(s.streams, s.threads[e.t]))
    ensures e.t in Step(s, e).threads ==> OrderlyPhase(s.streams, Step(s, e).threads[e.t])
  {
    if e.Tick? { FilterWithin(s.streams, e.created); }
    if e.Move? && e.t in s.threads { AdvanceOrderly(s, e.t, e.verified); }
  }

  /** What goroutine `t` holds is no newer than the entries, and older than the unsent ones. */
  predicate Older(held: map<Dataset, Snapshot>, jobs: map<Dataset, Snapshot>, unsent: set<Dataset>) {
    forall stream :: stream in held ==>
      stream in jobs && held[stream].txg <= jobs[stream].txg && (stream in unsent ==> held[stream].txg < jobs[stream].txg)
  }

  /** Coalescing only moves entries forward, and what it changes becomes unsent. */
  lemma CoalesceOlder(held: map<Dataset, Snapshot>, p: Entries, unsent: set<Dataset>, stream: Dataset, snapshot: Snapshot)
    requires Older(held, p.jobs, unsent)
    ensures var q := Coalesce(p, stream, snapshot); Older(held, q.jobs, unsent + if q != p then {stream} else {})
  {
  }

  ghost predicate Known(s: State) {
    forall stream :: stream in s.unsent ==> stream in s.entries.jobs && stream in s.streams
  }

  /** Only coalescing touches entries outside the running job. */
  lemma ActOthers(s: State, p: Phase, verified: set<Dataset>, held: map<Dataset, Snapshot>)
    requires !Carries(p) && Older(held, s.entries.jobs, s.unsent)
    ensures Older(held, Act(s, p, verified).0.entries.jobs, Act(s, p, verified).0.unsent)
  {
    if p.Coalescing? && p.todo != [] { CoalesceOlder(held, s.entries, s.unsent, p.todo[0].0, p.todo[0].1); }
  }

  lemma ActKnown(s: State, p: Phase, verified: set<Dataset>)
    requires Older(Holds(p), s.entries.jobs, s.unsent) && OrderlyPhase(s.streams, p) && Known(s)
    ensures Known(Act(s, p, verified).0)
  {
    if p.Finishing? && p.ends != [] && p.ends[0] in p.reserved {
      assert p.ends[0] in s.unsent ==> s.entries.jobs[p.ends[0]] != p.reserved[p.ends[0]];
    }
  }

  lemma FinishOlder(s: State, p: Phase)
    requires p.Finishing? && p.ends != [] && Older(p.reserved, s.entries.jobs, s.unsent)
    ensures var entries := if p.ends[0] in p.reserved then End(s.entries, p.ends[0], p.reserved[p.ends[0]], p.ends[0] in p.verified) else s.entries;
            Older(p.reserved - {p.ends[0]}, entries.jobs, s.unsent)
  {
  }

  /** The running job alone holds reservations, so taking or ending one affects nobody else. */
  lemma ActOlder(s: State, p: Phase, verified: set<Dataset>)
    requires Older(Holds(p), s.entries.jobs, s.unsent) && OrderlyPhase(s.streams, p)
    ensures var (z, q) := Act(s, p, verified); q.Some? ==> Older(Holds(q.value), z.entries.jobs, z.unsent)
  {
    if p.Finishing? && p.ends != [] { FinishOlder(s, p); }
  }

  lemma MoveNewer(s: State, t: nat, verified: set<Dataset>)
    requires OneJob(s) && Newer(s) && Orderly(s) && t in s.threads
    ensures Newer(Advance(s, t, verified))
  {
    var z := Advance(s, t, verified);
    StepFrame(s, Move(t, verified));
    assert forall u :: u in s.threads ==> Older(Holds(s.threads[u]), s.entries.jobs, s.unsent);
    assert OrderlyPhase(s.streams, s.threads[t]);
    ActOlder(s, s.threads[t], verified);
    ActKnown(s, s.threads[t], verified);
    forall u | u in z.threads ensures Older(Holds(z.threads[u]), z.entries.jobs, z.unsent) {
      if u != t {
        if Carries(s.threads[t]) { assert !Carries(s.threads[u]); }
        else { ActOthers(s, s.threads[t], verified, Holds(s.threads[u])); }
      }
    }
  }

  lemma NewerKept(s: State, e: Event)
    requires OneJob(s) && Newer(s) && Orderly(s)
    ensures Newer(Step(s, e))
  {
    if e.Move? {
      if e.t in s.threads { MoveNewer(s, e.t, e.verified); }
    } else {
      StepFrame(s, e);
      NewcomerHoldsNothing(s, e);
    }
  }

  lemma NewcomerHoldsNothing(s: State, e: Event)
    requires !e.Move?
    ensures var z := Step(s, e);
      && z.entries == s.entries && z.unsent == s.unsent
      && (e.t in z.threads ==> Holds(z.threads[e.t]) == map[] || (e.t in s.threads && z.threads[e.t] == s.threads[e.t]))
  {}

  lemma HeededKept(s: State, e: Event)
    requires OneJob(s) && Heeded(s)
    ensures Heeded(Step(s, e))
  {
    var z := Step(s, e);
    if z.dirty && !z.known {
      if e.Move? && e.t in s.threads && (s.threads[e.t].Marking? || s.threads[e.t].Completing? || s.threads[e.t].Checking? || s.threads[e.t].Queueing?) {
        assert e.t in z.threads;
      } else if s.dirty && !s.known {
        var u :| u in s.threads && (s.threads[u].Queueing? || s.threads[u].Submitting? || s.threads[u].Checking?);
        assert u in z.threads && z.threads[u] == s.threads[u];
      }
    }
  }

  lemma StepInv(s: State, e: Event)
    requires Inv(s)
    ensures Inv(Step(s, e))
  {
    OneJobKept(s, e);
    OrderlyKept(s, e);
    NewerKept(s, e);
    HeededKept(s, e);
  }

  lemma {:induction false} RunInv(s: State, es: seq<Event>)
    requires Idle(s) && Distinct(s.streams)
    ensures Inv(Run(s, es))
    decreases |es|
  {
    if es != [] {
      RunInv(s, es[..|es| - 1]);
      StepInv(Run(s, es[..|es| - 1]), es[|es| - 1]);
    }
  }

  /** A local job will still reserve `stream`: a tick has coalesced it and is to
      mark, a job is queued or not yet at its reservation, or the flag is set
      and someone is left to act on it. */
  ghost predicate WillReserve(s: State, stream: Dataset) {
    || s.queued
    || (exists t :: Attends(s, t, stream))
    || (s.dirty && exists t :: t in s.threads && Heeds(s.threads[t]))
  }

  /** It will submit the job again if the flag is set, or is about to submit it. */
  predicate Heeds(p: Phase) {
    Carries(p) || p.Queueing? || p.Submitting? || p.Checking?
  }

  /** Pending, with nobody left to send it. */
  ghost predicate Lost(s: State, stream: Dataset) {
    stream in s.unsent && !WillReserve(s, stream)
  }

  /** A set flag always has someone to act on it, so it is enough by itself. */
  lemma FlagSuffices(s: State, stream: Dataset)
    requires OneJob(s) && Heeded(s)
    ensures WillReserve(s, stream) <==> s.queued || s.dirty || exists t :: Attends(s, t, stream)
  {
    if s.dirty && !s.queued && s.known {
      var t :| t in s.threads && Carries(s.threads[t]);
    }
  }

  /** The tick fails to protect a snapshot after it has itself put a newer one
      pending for `stream`, with no mark set, no job queued or ahead, and no
      other tick about to mark it. */
  ghost predicate Loses(s: State, e: Event, stream: Dataset) {
    && e.ProtectFails? && e.t in s.threads && s.threads[e.t].Coalescing? && s.threads[e.t].todo != []
    && stream in s.threads[e.t].done && stream in s.unsent && !s.queued && !s.dirty
    && forall u :: Attends(s, u, stream) ==> u == e.t
  }

  /** Any mark, any accepted submit, or a newer snapshot of the stream itself. */
  predicate Rescues(s: State, e: Event, stream: Dataset) {
    && e.Move? && e.t in s.threads
    && match s.threads[e.t]
       case Marking(_) => true
       case Submitting => !s.known
       case Coalescing(todo, _) => todo != [] && todo[0].0 == stream && Coalesce(s.entries, stream, todo[0].1) != s.entries
       case _ => false
  }

  /** What one goroutine's move does to the attention a stream has. */
  lemma MoveAttends(s: State, t: nat, verified: set<Dataset>, stream: Dataset)
    requires t in s.threads && (s.threads[t].Reserving? ==> Distinct(s.threads[t].left))
    ensures var z := Advance(s, t, verified);
      && (Attends(z, t, stream) ==> Attends(s, t, stream) || Rescues(s, Move(t, verified), stream) || stream !in z.unsent)
      && (Attends(s, t, stream) && stream in z.unsent && stream in s.streams ==> Attends(z, t, stream) || z.dirty || z.queued)
      && (z.dirty && !s.dirty ==> Rescues(s, Move(t, verified), stream))
      && (z.queued && !s.queued ==> Attends(s, t, stream))
      && (s.dirty && !z.dirty ==> Attends(z, t, stream) || stream !in s.streams)
      && (s.queued ==> z.queued)
  {
    match s.threads[t]
    case Reserving(left, reserved) =>
      if left != [] {
        assert left == [left[0]] + left[1..];
      }
    case _ =>
  }

  lemma MoveUnsent(s: State, t: nat, verified: set<Dataset>, stream: Dataset)
    requires t in s.threads
    ensures var z := Advance(s, t, verified);
      && (stream in z.unsent && stream !in s.unsent ==> Attends(z, t, stream))
      && (stream in s.unsent && stream !in z.unsent ==> Attends(s, t, stream))
      && (Rescues(s, Move(t, verified), stream) && stream in z.unsent ==> z.dirty || Attends(z, t, stream))
  {}

  /** Others keep the attention they give. */
  lemma OthersAttend(s: State, e: Event, stream: Dataset)
    ensures forall u :: u != e.t ==> (Attends(Step(s, e), u, stream) <==> Attends(s, u, stream))
  {
    StepFrame(s, e);
  }

  predicate Waits(s: State, stream: Dataset) {
    stream in s.unsent && !s.queued && !s.dirty
  }

  lemma MoveLost(s: State, t: nat, verified: set<Dataset>, stream: Dataset)
    requires Newer(s) && Orderly(s) && t in s.threads
    ensures var z := Advance(s, t, verified);
      (Waits(z, stream) && !exists u :: Attends(z, u, stream)) <==>
      (Waits(s, stream) && !(exists u :: Attends(s, u, stream)) && !Rescues(s, Move(t, verified), stream))
  {
    var z := Advance(s, t, verified);
    MoveAttends(s, t, verified, stream);
    MoveUnsent(s, t, verified, stream);
    OthersAttend(s, Move(t, verified), stream);
    assert Step(s, Move(t, verified)) == z;
    if u :| Attends(s, u, stream) {
      assert u != t ==> Attends(z, u, stream);
    }
    if u :| Attends(z, u, stream) {
      assert u != t ==> Attends(s, u, stream);
    }
  }

  lemma FailLost(s: State, e: Event, stream: Dataset)
    requires e.ProtectFails?
    ensures var z := Step(s, e);
      (Waits(z, stream) && !exists u :: Attends(z, u, stream)) <==>
      (Loses(s, e, stream) || (Waits(s, stream) && !(exists u :: Attends(s, u, stream))))
  {
    var z := Step(s, e);
    OthersAttend(s, e, stream);
    if u :| Attends(s, u, stream) && u != e.t {
      assert Attends(z, u, stream);
    }
    if u :| Attends(z, u, stream) {
      assert Attends(s, u, stream) && (u == e.t ==> z == s);
    }
  }

  lemma EnterLost(s: State, e: Event, stream: Dataset)
    requires e.Tick? || e.Retry? || e.Pop?
    ensures var z := Step(s, e);
      (Waits(z, stream) && !exists u :: Attends(z, u, stream)) <==> (Waits(s, stream) && !exists u :: Attends(s, u, stream))
  {
    var z := Step(s, e);
    OthersAttend(s, e, stream);
    if e.Pop? && e.t !in s.threads && s.queued {
      assert Attends(z, e.t, stream);
    } else {
      forall u ensures Attends(z, u, stream) <==> Attends(s, u, stream) {}
    }
  }

  /** One step loses exactly what a late failure loses, and what was lost stays
      so exactly until a mark, an accepted submit or a newer snapshot. */
  lemma LostStep(s: State, e: Event, stream: Dataset)
    requires Inv(s)
    ensures Lost(Step(s, e), stream) <==> Loses(s, e, stream) || (Lost(s, stream) && !Rescues(s, e, stream))
  {
    StepInv(s, e);
    FlagSuffices(s, stream);
    FlagSuffices(Step(s, e), stream);
    if e.Move? {
      if e.t in s.threads { MoveLost(s, e.t, e.verified, stream); }
    } else if e.ProtectFails? {
      FailLost(s, e, stream);
    } else {
      EnterLost(s, e, stream);
    }
  }

  /** Event `i` lost the stream and nothing since has rescued it. */
  ghost predicate LostAt(s: State, es: seq<Event>, i: nat, stream: Dataset) {
    && i < |es| && Loses(Run(s, es[..i]), es[i], stream)
    && forall j :: i < j < |es| ==> !Rescues(Run(s, es[..j]), es[j], stream)
  }

  lemma LostAtGrows(s: State, es: seq<Event>, e: Event, i: nat, stream: Dataset)
    ensures LostAt(s, es + [e], i, stream) <==>
      (i == |es| && Loses(Run(s, es), e, stream)) || (i < |es| && LostAt(s, es, i, stream) && !Rescues(Run(s, es), e, stream))
  {
    var all := es + [e];
    assert all[..|es|] == es;
    forall j | 0 <= j < |es| ensures all[..j] == es[..j] && all[j] == es[j] {}
    if i < |es| && LostAt(s, all, i, stream) {
      assert !Rescues(Run(s, all[..|es|]), all[|es|], stream);
      forall j | i < j < |es| ensures !Rescues(Run(s, es[..j]), es[j], stream) {
        assert !Rescues(Run(s, all[..j]), all[j], stream);
      }
    }
  }

  /** In every interleaving, a snapshot coalesced after the last reservation of
      its stream still has a job that will reserve it, unless the tick that put
      it pending failed before marking and since then no tick has marked, no
      submit was accepted and nothing newer came; and in that case it has none. */
  lemma {:induction false} LostExactly(s: State, es: seq<Event>, stream: Dataset)
    requires Idle(s) && Distinct(s.streams)
    ensures Lost(Run(s, es), stream) <==> exists i :: LostAt(s, es, i, stream)
    decreases |es|
  {
    if es != [] {
      var init, e := es[..|es| - 1], es[|es| - 1];
      assert es == init + [e];
      LostExactly(s, init, stream);
      RunInv(s, init);
      LostStep(Run(s, init), e, stream);
      forall i: nat ensures LostAt(s, es, i, stream) <==>
        (i == |init| && Loses(Run(s, init), e, stream)) || (i < |init| && LostAt(s, init, i, stream) && !Rescues(Run(s, init), e, stream))
      {
        LostAtGrows(s, init, e, i, stream);
      }
      if Loses(Run(s, init), e, stream) {
        assert LostAt(s, es, |init|, stream);
      } else if i :| LostAt(s, init, i, stream) && !Rescues(Run(s, init), e, stream) {
        assert LostAt(s, es, i, stream);
      }
    }
  }

  /** So every pending snapshot has such a job, or a late failure to blame. */
  lemma NothingIsLost(s: State, es: seq<Event>, stream: Dataset)
    requires Idle(s) && Distinct(s.streams) && stream in Run(s, es).unsent
    ensures WillReserve(Run(s, es), stream) || exists i :: LostAt(s, es, i, stream)
  {
    LostExactly(s, es, stream);
  }

  /** A mark, or an accepted submit, rescues every stream there is. */
  lemma RescuesAll(s: State, t: nat, verified: set<Dataset>, stream: Dataset)
    requires Inv(s) && t in s.threads && (s.threads[t].Marking? || (s.threads[t].Submitting? && !s.known))
    requires stream in Step(s, Move(t, verified)).unsent
    ensures WillReserve(Step(s, Move(t, verified)), stream)
  {
    LostStep(s, Move(t, verified), stream);
  }

  /** The event is a failed protection in a tick that has coalesced before. */
  predicate FailsLate(s: State, e: Event) {
    e.ProtectFails? && e.t in s.threads && s.threads[e.t].Coalescing? && s.threads[e.t].todo != [] && s.threads[e.t].done != {}
  }

  /** Every protection that fails is its tick's first that would have changed anything. */
  ghost predicate OnlyFirstFail(s: State, es: seq<Event>) {
    forall i :: 0 <= i < |es| ==> !FailsLate(Run(s, es[..i]), es[i])
  }

  /** While no tick fails after it has coalesced, nothing is ever lost. */
  lemma LostNeedsFailure(s: State, es: seq<Event>, stream: Dataset)
    requires Idle(s) && Distinct(s.streams) && OnlyFirstFail(s, es)
    ensures !Lost(Run(s, es), stream)
  {
    LostExactly(s, es, stream);
    forall i: nat ensures !LostAt(s, es, i, stream) {
      if i < |es| { assert !FailsLate(Run(s, es[..i]), es[i]); }
    }
  }

  /** A tick that fails alone, with no job about and nothing lost before, leaves
      pending exactly what it has itself put there. */
  lemma FailureLosesExactly(s: State, t: nat)
    requires Inv(s) && s.threads.Keys == {t} && s.threads[t].Coalescing? && s.threads[t].todo != []
    requires !s.queued && !s.dirty && forall stream :: !Lost(s, stream)
    ensures var z := Step(s, ProtectFails(t));
      z.threads == map[] && !z.queued && !z.dirty && z.unsent == s.threads[t].done * s.unsent
  {
    forall stream | stream in s.unsent ensures stream in s.threads[t].done {
      assert !Lost(s, stream);
      var u :| Attends(s, u, stream);
      assert u in s.threads.Keys;
    }
    var z := Step(s, ProtectFails(t));
    assert z.threads.Keys == {};
  }

  /** When every goroutine has finished and nothing is queued, what is coalesced
      and not reserved since is exactly what late failures have lost. */
  lemma QuietLeavesLost(s: State, es: seq<Event>, stream: Dataset)
    requires Idle(s) && Distinct(s.streams) && Run(s, es).threads == map[] && !Run(s, es).queued
    ensures stream in Run(s, es).unsent <==> exists i :: LostAt(s, es, i, stream)
  {
    LostExactly(s, es, stream);
  }

  /** When every goroutine has finished and nothing is queued, everything
      coalesced has been reserved since, as long as no tick failed late. */
  lemma QuietMeansReserved(s: State, es: seq<Event>)
    requires Idle(s) && Distinct(s.streams) && OnlyFirstFail(s, es)
    requires Run(s, es).threads == map[] && !Run(s, es).queued
    ensures Run(s, es).unsent == {}
  {
    forall stream ensures stream !in Run(s, es).unsent {
      LostNeedsFailure(s, es, stream);
    }
  }

  // ---------------------------------------------------------------- what a tick takes in

  lemma {:induction false} FilterJoin(streams: seq<Dataset>, a: seq<(Dataset, Snapshot)>, b: seq<(Dataset, Snapshot)>)
    ensures Filter(streams, a + b) == Filter(streams, a) + Filter(streams, b)
  {
    if a == [] {
      assert a + b == b;
    } else {
      assert a + b == [a[0]] + (a[1..] + b) && a == [a[0]] + a[1..];
      FilterJoin(streams, a[1..], b);
      FilterFirst(streams, a[0], a[1..] + b);
      FilterFirst(streams, a[0], a[1..]);
    }
  }

  lemma FilterFirst(streams: seq<Dataset>, p: (Dataset, Snapshot), rest: seq<(Dataset, Snapshot)>)
    ensures Filter(streams, [p] + rest) == (if p.0 in streams then [p] else []) + Filter(streams, rest)
  {
    assert ([p] + rest)[1..] == rest;
  }

  /** What the tick has left to protect and coalesce. */
  function Left(s: State, t: nat): seq<(Dataset, Snapshot)> {
    if CoalescingAt(s, t) then s.threads[t].todo else []
  }

  predicate CoalescingAt(s: State, t: nat) {
    t in s.threads && s.threads[t].Coalescing?
  }

  lemma TickLeft(s: State, t: nat, created: seq<(Dataset, Snapshot)>)
    requires t !in s.threads
    ensures Left(Step(s, Tick(t, created)), t) == Filter(s.streams, created)
  {}

  /** A tick sets out to protect and coalesce exactly the created snapshots its
      target's streams send, in the order they were created: each stands between
      what the tick takes of those before it and of those after it. */
  lemma TickTakes(s: State, t: nat, before: seq<(Dataset, Snapshot)>, p: (Dataset, Snapshot), after: seq<(Dataset, Snapshot)>)
    requires t !in s.threads
    ensures Left(Step(s, Tick(t, before + [p] + after)), t) ==
      Left(Step(s, Tick(t, before)), t) + (if p.0 in s.streams then [p] else []) + Left(Step(s, Tick(t, after)), t)
  {
    TickLeft(s, t, before + [p] + after);
    TickLeft(s, t, before);
    TickLeft(s, t, after);
    FilterJoin(s.streams, before + [p], after);
    FilterJoin(s.streams, before, [p]);
    assert [p][1..] == [];
    assert Filter(s.streams, [p]) == if p.0 in s.streams then [p] else [];
  }

  /** The entry of a stream is at least as new as the snapshot. */
  predicate Covered(s: State, stream: Dataset, snapshot: Snapshot) {
    stream in s.entries.jobs && s.entries.jobs[stream].txg >= snapshot.txg
  }

  /** The event ends a verified transfer of a snapshot at least as new. */
  predicate Completes(s: State, e: Event, stream: Dataset, snapshot: Snapshot) {
    && e.Move? && e.t in s.threads && s.threads[e.t].Finishing?
    && var p := s.threads[e.t];
       p.ends != [] && p.ends[0] == stream && stream in p.reserved && stream in p.verified && p.reserved[stream].txg >= snapshot.txg
  }

  ghost predicate Sent(s: State, es: seq<Event>, stream: Dataset, snapshot: Snapshot) {
    exists j :: 0 <= j < |es| && Completes(Run(s, es[..j]), es[j], stream, snapshot)
  }

  /** An entry only grows newer, until a transfer of what it names is verified. */
  lemma CoveredStep(s: State, e: Event, stream: Dataset, snapshot: Snapshot)
    requires Covered(s, stream, snapshot)
    ensures Covered(Step(s, e), stream, snapshot) || Completes(s, e, stream, snapshot)
  {}

  /** The tick's own move takes the first of what it has left. */
  lemma TickMoves(s: State, e: Event, t: nat)
    requires CoalescingAt(s, t) && t in Step(s, e).threads
    ensures var z := Step(s, e);
      || z.threads[t] == s.threads[t]
      || (s.threads[t].todo == [] && z.threads[t].Marking?)
      || (s.threads[t].todo != [] && z.threads[t].Coalescing? && z.threads[t].todo == s.threads[t].todo[1..] && Covered(z, s.threads[t].todo[0].0, s.threads[t].todo[0].1))
  {
    if e.t != t {
      StepFrame(s, e);
    }
  }

  lemma SentGrows(s: State, es: seq<Event>, e: Event, stream: Dataset, snapshot: Snapshot)
    ensures Sent(s, es, stream, snapshot) || Completes(Run(s, es), e, stream, snapshot) ==> Sent(s, es + [e], stream, snapshot)
  {
    var all := es + [e];
    assert all[..|es|] == es && all[|es|] == e;
    if j :| 0 <= j < |es| && Completes(Run(s, es[..j]), es[j], stream, snapshot) {
      assert all[..j] == es[..j] && all[j] == es[j];
    }
  }

  /** While the tick is under way, what it set out with is still to do, pending, or sent. */
  lemma {:induction false} TickKeeps(s: State, es: seq<Event>, t: nat, p: (Dataset, Snapshot))
    requires CoalescingAt(s, t) && p in s.threads[t].todo
    requires forall j :: 0 <= j < |es| ==> CoalescingAt(Run(s, es[..j]), t)
    requires t in Run(s, es).threads
    ensures p in Left(Run(s, es), t) || Covered(Run(s, es), p.0, p.1) || Sent(s, es, p.0, p.1)
    decreases |es|
  {
    if es != [] {
      var init, e := es[..|es| - 1], es[|es| - 1];
      assert es == init + [e];
      assert forall j :: 0 <= j < |init| ==> init[..j] == es[..j];
      assert CoalescingAt(Run(s, init), t);
      TickKeeps(s, init, t, p);
      SentGrows(s, init, e, p.0, p.1);
      TickStep(Run(s, init), e, t, p);
    }
  }

  lemma TickStep(y: State, e: Event, t: nat, p: (Dataset, Snapshot))
    requires CoalescingAt(y, t) && t in Step(y, e).threads
    ensures p in Left(y, t) || Covered(y, p.0, p.1) ==> p in Left(Step(y, e), t) || Covered(Step(y, e), p.0, p.1) || Completes(y, e, p.0, p.1)
  {
    if Covered(y, p.0, p.1) {
      CoveredStep(y, e, p.0, p.1);
    } else if p in Left(y, t) {
      TickMoves(y, e, t);
      assert y.threads[t].todo == [y.threads[t].todo[0]] + y.threads[t].todo[1..];
    }
  }

  /** A tick that comes to mark without a failure has put each created snapshot of
      a sending stream pending, whatever ran meanwhile: the stream's entry is at
      least as new, or one at least as new has been sent and verified. */
  lemma TickDelivers(s: State, t: nat, created: seq<(Dataset, Snapshot)>, es: seq<Event>, i: nat)
    requires t !in s.threads && i < |created| && created[i].0 in s.streams
    requires var z := Step(s, Tick(t, created)); forall j :: 0 <= j < |es| ==> CoalescingAt(Run(z, es[..j]), t)
    requires var z := Step(s, Tick(t, created)); t in Run(z, es).threads && Run(z, es).threads[t].Marking?
    ensures var z := Step(s, Tick(t, created));
      Covered(Run(z, es), created[i].0, created[i].1) || Sent(z, es, created[i].0, created[i].1)
  {
    TickHas(s, t, created, i);
    MarkedDelivers(Step(s, Tick(t, created)), t, es, created[i]);
  }

  lemma TickHas(s: State, t: nat, created: seq<(Dataset, Snapshot)>, i: nat)
    requires t !in s.threads && i < |created| && created[i].0 in s.streams
    ensures var z := Step(s, Tick(t, created)); CoalescingAt(z, t) && created[i] in z.threads[t].todo
  {
    assert created == created[..i] + [created[i]] + created[i + 1..];
    TickTakes(s, t, created[..i], created[i], created[i + 1..]);
    assert created[i] in Left(Step(s, Tick(t, created)), t);
  }

  lemma MarkedDelivers(z: State, t: nat, es: seq<Event>, p: (Dataset, Snapshot))
    requires CoalescingAt(z, t) && p in z.threads[t].todo && forall j :: 0 <= j < |es| ==> CoalescingAt(Run(z, es[..j]), t)
    requires t in Run(z, es).threads && Run(z, es).threads[t].Marking?
    ensures Covered(Run(z, es), p.0, p.1) || Sent(z, es, p.0, p.1)
  {
    TickKeeps(z, es, t, p);
  }

  lemma TickStarts(a: Dataset, b: Dataset, s: State, x: Snapshot, y: Snapshot)
    requires Idle(s) && s.streams == [a, b]
    ensures Step(s, Tick(0, [(a, x), (b, y)])) == s.(threads := map[0 := Coalescing([(a, x), (b, y)], {})])
  {
    var created: seq<(Dataset, Snapshot)> := [(a, x), (b, y)];
    assert created[1..] == [(b, y)] && created[1..][1..] == [];
    assert Filter(s.streams, created[1..]) == [(b, y)] + Filter(s.streams, []);
    assert Filter(s.streams, created) == created;
  }

  lemma RunThree(s: State, e0: Event, e1: Event, e2: Event)
    ensures Run(s, [e0, e1, e2]) == Step(Step(Step(s, e0), e1), e2)
  {
    assert [e0, e1, e2][..2] == [e0, e1] && [e0, e1][..1] == [e0] && [e0][..0] == [];
    assert Run(s, [e0]) == Step(s, e0);
    assert Run(s, [e0, e1]) == Step(Step(s, e0), e1);
  }

  /** A tick that coalesces one snapshot and then fails to protect the next
      leaves the first pending with nothing left to send it. */
  lemma ProtectionFailureStrands(a: Dataset, b: Dataset, s: State)
    requires a != b && Idle(s) && s.streams == [a, b]
    ensures var z := Run(s, [Tick(0, [(a, Snapshot("x", 1)), (b, Snapshot("y", 2))]), Move(0, {}), ProtectFails(0)]);
            z.threads == map[] && !z.queued && !z.dirty && a in z.entries.jobs && a in z.unsent
  {
    var x, y := Snapshot("x", 1), Snapshot("y", 2);
    TickStarts(a, b, s, x, y);
    RunThree(s, Tick(0, [(a, x), (b, y)]), Move(0, {}), ProtectFails(0));
    FirstCoalesced(a, b, s, x, y);
  }

  lemma FirstCoalesced(a: Dataset, b: Dataset, s: State, x: Snapshot, y: Snapshot)
    requires Idle(s)
    ensures var z := Step(s.(threads := map[0 := Coalescing([(a, x), (b, y)], {})]), Move(0, {}));
      && z.threads == map[0 := Coalescing([(b, y)], {a})] && z.entries.jobs == map[a := x] && z.unsent == {a}
      && !z.queued && !z.dirty
  {
    var todo: seq<(Dataset, Snapshot)> := [(a, x), (b, y)];
    var s1 := s.(threads := map[0 := Coalescing(todo, {})]);
    assert todo[1..] == [(b, y)] && todo[0] == (a, x);
    assert {} + {a} == {a};
    assert Act(s1, Coalescing(todo, {}), {}).1 == Some(Coalescing(todo[1..], {} + {a}));
  }

  // One undisturbed round.

  lemma {:induction false} RunCons(s: State, e: Event, es: seq<Event>)
    ensures Run(s, [e] + es) == Run(Step(s, e), es)
  {
    var all := [e] + es;
    if es == [] {
      assert all[..0] == [] && all == [e];
    } else {
      assert all[..|all| - 1] == [e] + es[..|es| - 1];
      RunCons(s, e, es[..|es| - 1]);
    }
  }

  lemma {:induction false} RunJoin(s: State, a: seq<Event>, b: seq<Event>)
    ensures Run(s, a + b) == Run(Run(s, a), b)
  {
    if b == [] {
      assert a + b == a;
    } else {
      assert (a + b)[..|a + b| - 1] == a + b[..|b| - 1];
      RunJoin(s, a, b[..|b| - 1]);
    }
  }

  /** Nothing happens but the job's own submission, start and moves. */
  predicate Own(es: seq<Event>, t: nat, verified: set<Dataset>) {
    forall i :: 0 <= i < |es| ==> es[i].t == t && (es[i].Retry? || es[i].Pop? || (es[i].Move? && es[i].verified <= verified))
  }

  /** The goroutine is alone, in phase `p`, and carries the job. */
  predicate Alone(s: State, t: nat, p: Phase) {
    s.threads == map[t := p] && s.known && !s.queued && !s.dirty
  }

  /** What was reserved is what is pending. */
  predicate Reserves(reserved: map<Dataset, Snapshot>, jobs: map<Dataset, Snapshot>) {
    forall d :: d in reserved ==> d in jobs && reserved[d] == jobs[d]
  }

  lemma MoveAlone(s: State, t: nat, p: Phase, verified: set<Dataset>)
    requires s.threads == map[t := p]
    ensures Step(s, Move(t, verified)) == Place(Act(s, p, verified).0, s.threads, t, Act(s, p, verified).1)
    ensures var next := Act(s, p, verified).1; Step(s, Move(t, verified)).threads == (if next.Some? then map[t := next.value] else map[])
  {}

  lemma {:induction false} ReserveLoop(s: State, t: nat, left: seq<Dataset>, reserved: map<Dataset, Snapshot>) returns (es: seq<Event>, all: map<Dataset, Snapshot>)
    requires Alone(s, t, Reserving(left, reserved)) && Reserves(reserved, s.entries.jobs)
    ensures Own(es, t, {})
    ensures var z := Run(s, es); Alone(z, t, Transferring(all)) && z.entries.jobs == s.entries.jobs && z.streams == s.streams
    ensures Reserves(all, s.entries.jobs) && forall d :: d in all <==> d in reserved || (d in left && d in s.entries.jobs)
    decreases |left|
  {
    var e := Move(t, {});
    MoveAlone(s, t, Reserving(left, reserved), {});
    if left == [] {
      es, all := [e], reserved;
      RunCons(s, e, []);
    } else {
      var kept := if left[0] in s.entries.jobs then reserved[left[0] := s.entries.jobs[left[0]]] else reserved;
      es, all := ReserveLoop(Step(s, e), t, left[1..], kept);
      assert left == [left[0]] + left[1..];
      RunCons(s, e, es);
      es := [e] + es;
    }
  }

  /** Verified streams are no longer pending, and others are as before. */
  ghost predicate Drained(before: map<Dataset, Snapshot>, after: map<Dataset, Snapshot>, ends: seq<Dataset>, reserved: map<Dataset, Snapshot>, verified: set<Dataset>) {
    && (forall d :: d in after <==> d in before && !(d in ends && d in reserved && d in verified))
    && (forall d :: d in after ==> after[d] == before[d])
  }

  lemma {:induction false} FinishLoop(s: State, t: nat, ends: seq<Dataset>, reserved: map<Dataset, Snapshot>, verified: set<Dataset>) returns (es: seq<Event>)
    requires Alone(s, t, Finishing(ends, reserved, verified)) && Reserves(reserved, s.entries.jobs)
    ensures Own(es, t, {})
    ensures var z := Run(s, es); Alone(z, t, Completing) && Drained(s.entries.jobs, z.entries.jobs, ends, reserved, verified) && z.streams == s.streams
    decreases |ends|
  {
    var e := Move(t, {});
    MoveAlone(s, t, Finishing(ends, reserved, verified), {});
    if ends == [] {
      es := [e];
      RunCons(s, e, []);
    } else {
      var z := Step(s, e);
      es := FinishLoop(z, t, ends[1..], reserved - {ends[0]}, verified);
      assert ends == [ends[0]] + ends[1..];
      RunCons(s, e, es);
      es := [e] + es;
    }
  }

  /** The pool knows no job and nobody is about. */
  predicate Quiet(s: State) {
    s.threads == map[] && !s.known && !s.queued
  }

  lemma RoundQueues(s: State, t: nat) returns (es: seq<Event>)
    requires Quiet(s)
    ensures Own(es, t, {}) && Run(s, es) == s.(known := true, queued := true)
  {
    var go := Move(t, {});
    var s1 := Step(s, Retry(t));
    MoveAlone(s1, t, Queueing, {});
    var s2 := Step(s1, go);
    MoveAlone(s2, t, Submitting, {});
    var s3 := Step(s2, go);
    MoveAlone(s3, t, Offering, {});
    es := [Retry(t)] + ([go] + ([go] + ([go] + [])));
    RunCons(s3, go, []);
    RunCons(s2, go, [go] + []);
    RunCons(s1, go, [go] + ([go] + []));
    RunCons(s, Retry(t), [go] + ([go] + ([go] + [])));
  }

  lemma RoundStarts(s: State, t: nat) returns (es: seq<Event>)
    requires s.threads == map[] && s.queued
    ensures Own(es, t, {}) && Run(s, es) == s.(threads := map[t := Reserving(s.streams, map[])], queued := false, dirty := false)
  {
    var go := Move(t, {});
    var s1 := Step(s, Pop(t));
    assert s1.threads == map[t := Clearing];
    MoveAlone(s1, t, Clearing, {});
    es := [Pop(t)] + ([go] + []);
    RunCons(s1, go, []);
    RunCons(s, Pop(t), [go] + []);
  }

  lemma RoundBegins(s: State, t: nat) returns (es: seq<Event>)
    requires Quiet(s)
    ensures Own(es, t, {}) && Run(s, es) == s.(threads := map[t := Reserving(s.streams, map[])], known := true, dirty := false)
  {
    var queue := RoundQueues(s, t);
    var start := RoundStarts(Run(s, queue), t);
    es := queue + start;
    RunJoin(s, queue, start);
  }

  lemma RoundEnds(s: State, t: nat) returns (es: seq<Event>)
    requires Alone(s, t, Completing)
    ensures Own(es, t, {})
    ensures Run(s, es) == s.(threads := map[], known := false)
  {
    var go := Move(t, {});
    MoveAlone(s, t, Completing, {});
    var s1 := Step(s, go);
    MoveAlone(s1, t, Checking, {});
    es := [go] + ([go] + []);
    RunCons(s1, go, []);
    RunCons(s, go, [go] + []);
  }

  lemma RoundTransfers(s: State, t: nat, reserved: map<Dataset, Snapshot>, verified: set<Dataset>) returns (es: seq<Event>)
    requires Alone(s, t, Transferring(reserved)) && Reserves(reserved, s.entries.jobs)
    ensures Own(es, t, verified)
    ensures var z := Run(s, es); Quiet(z) && !z.dirty && Drained(s.entries.jobs, z.entries.jobs, s.streams, reserved, verified)
  {
    MoveAlone(s, t, Transferring(reserved), verified);
    var z := Step(s, Move(t, verified));
    var mid := FinishLoop(z, t, s.streams, reserved, verified);
    var end := RoundEnds(Run(z, mid), t);
    RunJoin(z, mid, end);
    es := [Move(t, verified)] + (mid + end);
    RunCons(s, Move(t, verified), mid + end);
  }

  /** A round nothing disturbs takes the job from its submission to an idle pool
      with a clear flag, and leaves pending exactly what it did not verify. */
  lemma RoundDrains(s: State, t: nat, verified: set<Dataset>) returns (es: seq<Event>)
    requires Quiet(s)
    ensures Own(es, t, verified)
    ensures var z := Run(s, es);
      && Quiet(z) && !z.dirty
      && (forall d :: d in z.entries.jobs <==> d in s.entries.jobs && !(d in s.streams && d in verified))
      && (forall d :: d in z.entries.jobs ==> z.entries.jobs[d] == s.entries.jobs[d])
  {
    var start := RoundBegins(s, t);
    var s1 := Run(s, start);
    var loop, reserved := ReserveLoop(s1, t, s.streams, map[]);
    var rest := RoundTransfers(Run(s1, loop), t, reserved, verified);
    RunJoin(s1, loop, rest);
    RunJoin(s, start, loop + rest);
    es := start + (loop + rest);
  }
}
