/** Coalesced pending work: the newest snapshot to send per stream, for one
    target. An attempt reserves the current entry; a newer one may replace it
    meanwhile, and completion removes only the exact entry that was reserved. */
module Pending {
  import opened Names

  datatype Snapshot = Snapshot(name: string, txg: nat)

  datatype Entries = Entries(jobs: map<Dataset, Snapshot>, active: map<Dataset, Snapshot>)

  datatype Coalesced = Coalesced(changed: bool, superseded: Option<Snapshot>, release: bool)

  /** A snapshot strictly newer than the entry replaces it. */
  function Coalesce(p: Entries, stream: Dataset, snapshot: Snapshot): Entries {
    if stream in p.jobs && p.jobs[stream].txg >= snapshot.txg then p
    else p.(jobs := p.jobs[stream := snapshot])
  }

  function Begin(p: Entries, stream: Dataset): Entries {
    if stream in p.jobs then p.(active := p.active[stream := p.jobs[stream]]) else p
  }

  function End(p: Entries, stream: Dataset, snapshot: Snapshot, complete: bool): Entries {
    Entries(
      if complete && stream in p.jobs && p.jobs[stream] == snapshot then p.jobs - {stream} else p.jobs,
      if stream in p.active && p.active[stream] == snapshot then p.active - {stream} else p.active)
  }

  /** The newest of the offered snapshots, the earliest offer winning a tie. */
  function Newest(current: Option<Snapshot>, offers: seq<Snapshot>): Option<Snapshot> {
    if offers == [] then current
    else
      var best := Newest(current, offers[..|offers| - 1]);
      if best.Some? && best.value.txg >= offers[|offers| - 1].txg then best else Some(offers[|offers| - 1])
  }

  function CoalesceAll(p: Entries, stream: Dataset, offers: seq<Snapshot>): Entries {
    if offers == [] then p else Coalesce(CoalesceAll(p, stream, offers[..|offers| - 1]), stream, offers[|offers| - 1])
  }

  function Entry(p: Entries, stream: Dataset): Option<Snapshot> {
    if stream in p.jobs then Some(p.jobs[stream]) else None
  }

  /** Whatever is offered between a reservation and its end, ending the
      reservation removes the entry only if nothing newer was offered: the
      newest offer is never lost. */
  lemma {:induction false} EndKeepsNewer(p: Entries, stream: Dataset, offers: seq<Snapshot>, complete: bool)
    requires stream in p.jobs
    ensures var reserved := p.jobs[stream];
            var q := End(CoalesceAll(Begin(p, stream), stream, offers), stream, reserved, complete);
            && Newest(Some(reserved), offers).Some?
            && (if complete && Newest(Some(reserved), offers) == Some(reserved) then stream !in q.jobs
                else Entry(q, stream) == Newest(Some(reserved), offers))
            && stream !in q.active
            && (forall other :: other != stream ==> Entry(q, other) == Entry(p, other))
  {
    var mid := CoalesceAll(Begin(p, stream), stream, offers);
    CoalesceAllEntry(Begin(p, stream), stream, offers);
    var q := End(mid, stream, p.jobs[stream], complete);
    forall other | other != stream ensures Entry(q, other) == Entry(p, other) {
      assert Entry(q, other) == Entry(mid, other) == Entry(Begin(p, stream), other);
    }
  }

  lemma {:induction false} CoalesceAllEntry(p: Entries, stream: Dataset, offers: seq<Snapshot>)
    ensures Entry(CoalesceAll(p, stream, offers), stream) == Newest(Entry(p, stream), offers)
    ensures stream in p.jobs ==> Newest(Entry(p, stream), offers).Some?
    ensures CoalesceAll(p, stream, offers).active == p.active
    ensures forall other :: other != stream ==> Entry(CoalesceAll(p, stream, offers), other) == Entry(p, other)
    decreases |offers|
  {
    if offers != [] { CoalesceAllEntry(p, stream, offers[..|offers| - 1]); }
  }

  class PendingSet {
    var jobs: map<Dataset, Snapshot>
    var active: map<Dataset, Snapshot>

    constructor ()
      ensures View() == Entries(map[], map[])
    {
      jobs, active := map[], map[];
    }

    function View(): Entries
      reads this
    {
      Entries(jobs, active)
    }

    /** A superseded entry's recovery reference may be released only when no
        attempt has that very entry reserved. */
    method CoalesceOne(stream: Dataset, snapshot: Snapshot) returns (res: Coalesced)
      modifies this
      ensures View() == Coalesce(old(View()), stream, snapshot)
      ensures res.changed <==> View() != old(View())
      ensures res.superseded == (if res.changed then Entry(old(View()), stream) else None)
      ensures res.release <==> res.superseded.Some? && (stream !in active || active[stream] != res.superseded.value)
    {
      if stream in jobs && jobs[stream].txg >= snapshot.txg { return Coalesced(false, None, false); }
      var current := if stream in jobs then Some(jobs[stream]) else None;
      assert stream in jobs ==> jobs[stream] != snapshot;
      jobs := jobs[stream := snapshot];
      assert jobs[stream] == snapshot;
      return Coalesced(true, current, current.Some? && (stream !in active || active[stream] != current.value));
    }

    method BeginOne(stream: Dataset) returns (reserved: Option<Snapshot>)
      modifies this
      ensures View() == Begin(old(View()), stream) && reserved == Entry(old(View()), stream)
    {
      if stream !in jobs { return None; }
      active := active[stream := jobs[stream]];
      return Some(jobs[stream]);
    }

    method EndOne(stream: Dataset, snapshot: Snapshot, complete: bool)
      modifies this
      ensures View() == End(old(View()), stream, snapshot, complete)
    {
      if stream in active && active[stream] == snapshot { active := active - {stream}; }
      if complete && stream in jobs && jobs[stream] == snapshot { jobs := jobs - {stream}; }
    }
  }
}
