/** Retention: which of a dataset's snapshots a grid keeps.

    Ages are measured back from the newest owned snapshot. In each window of the
    grid the oldest owned snapshot is kept, and the newest owned one always is. */
module Prune {
  import opened Names
  import opened Grid

  /** `created` is nanoseconds since the zero time. What makes a snapshot owned is decided elsewhere. */
  datatype Snap = Snap(dataset: Dataset, name: string, guid: nat, created: int, owned: bool, holds: nat, clones: nat, resume: bool)

  datatype Decision = Decision(snapshot: string, guid: nat, destroy: bool, reason: string)

  // Order.

  /** By time of creation, then by name. */
  predicate Before(s: Snap, t: Snap) {
    s.created < t.created || (s.created == t.created && Less(s.name, t.name))
  }

  lemma BeforeTotal(s: Snap, t: Snap)
    ensures s.name == t.name || Before(s, t) || Before(t, s)
    ensures !(Before(s, t) && Before(t, s))
    ensures !Before(s, s)
  {
    LessTotal(s.name, t.name);
    LessTotal(s.name, s.name);
  }

  lemma BeforeTransitive(s: Snap, t: Snap, u: Snap)
    requires Before(s, t) && Before(t, u)
    ensures Before(s, u)
  {
    if s.created == t.created == u.created {
      LessTransitive(s.name, t.name, u.name);
    }
  }

  // Windows.

  datatype Window = Window(group: nat, index: int)

  /** A difference of times saturates at the ends of the signed 64-bit range. */
  function Saturated(d: int): int {
    if d > MAX_INT64 then MAX_INT64 else if d < -MAX_INT64 - 1 then -MAX_INT64 - 1 else d
  }

  /** Where a group of windows begins. */
  function Offset(buckets: seq<Bucket>, group: nat): int
    requires group <= |buckets|
  {
    Total(buckets[..group])
  }

  /** The search for an age's window, from one group on. */
  function WindowFrom(buckets: seq<Bucket>, age: int, group: nat, offset: int): Option<Window>
    requires group <= |buckets| && Positive(buckets)
    decreases |buckets| - group
  {
    if group == |buckets| then None
    else
      var b := buckets[group];
      var end := offset + b.count * b.span;
      if offset <= age < end then Some(Window(group, (age - offset) / b.span)) else WindowFrom(buckets, age, group + 1, end)
  }

  function WindowOf(buckets: seq<Bucket>, age: int): Option<Window>
    requires Positive(buckets)
  {
    WindowFrom(buckets, age, 0, 0)
  }

  predicate IsWindow(buckets: seq<Bucket>, w: Window) {
    w.group < |buckets| && 0 <= w.index < buckets[w.group].count
  }

  function Begin(buckets: seq<Bucket>, w: Window): int
    requires IsWindow(buckets, w)
  {
    Offset(buckets, w.group) + w.index * buckets[w.group].span
  }

  predicate Contains(buckets: seq<Bucket>, w: Window, age: int)
    requires IsWindow(buckets, w)
  {
    Begin(buckets, w) <= age < Begin(buckets, w) + buckets[w.group].span
  }

  lemma OffsetNext(buckets: seq<Bucket>, group: nat)
    requires group < |buckets|
    ensures Offset(buckets, group + 1) == Offset(buckets, group) + buckets[group].count * buckets[group].span
  {
    assert buckets[..group + 1][..group] == buckets[..group];
  }

  lemma {:induction false} OffsetsRise(buckets: seq<Bucket>, g: nat, h: nat)
    requires Positive(buckets) && g <= h <= |buckets|
    ensures 0 <= Offset(buckets, g) <= Offset(buckets, h)
    decreases h
  {
    TotalNatural(buckets[..g]);
    if g < h {
      OffsetsRise(buckets, g, h - 1);
      OffsetNext(buckets, h - 1);
      Separates(buckets[h - 1].span, buckets[h - 1].count);
    }
  }

  /** No offset or window end leaves the 63-bit range of a grid's horizon. */
  lemma OffsetsFit(buckets: seq<Bucket>, group: nat)
    requires Positive(buckets) && Total(buckets) <= MAX_INT64 && group <= |buckets|
    ensures 0 <= Offset(buckets, group) <= MAX_INT64
  {
    OffsetsRise(buckets, group, |buckets|);
    assert buckets[..|buckets|] == buckets;
  }

  lemma IndexIn(rest: int, span: int, count: int)
    requires span > 0 && 0 <= rest < count * span
    ensures 0 <= rest / span < count
    ensures (rest / span) * span <= rest < (rest / span) * span + span
  {
    var q := rest / span;
    if q >= count {
      Scales(span, count, q);
    }
  }

  lemma {:induction false} WindowFound(buckets: seq<Bucket>, age: int, group: nat)
    requires Positive(buckets) && group <= |buckets| && age >= Offset(buckets, group)
    ensures var w := WindowFrom(buckets, age, group, Offset(buckets, group));
      && (w.Some? <==> age < Total(buckets))
      && (w.Some? ==> IsWindow(buckets, w.value) && Contains(buckets, w.value, age))
    decreases |buckets| - group
  {
    if group == |buckets| {
      assert buckets[..group] == buckets;
    } else {
      var b, offset := buckets[group], Offset(buckets, group);
      OffsetNext(buckets, group);
      if age < offset + b.count * b.span {
        IndexIn(age - offset, b.span, b.count);
        OffsetsRise(buckets, group + 1, |buckets|);
        assert buckets[..|buckets|] == buckets;
      } else {
        WindowFound(buckets, age, group + 1);
      }
    }
  }

  lemma WithinGroup(buckets: seq<Bucket>, w: Window, age: int)
    requires Positive(buckets) && IsWindow(buckets, w) && Contains(buckets, w, age)
    ensures Offset(buckets, w.group) <= age < Offset(buckets, w.group + 1)
    ensures w.index == (age - Offset(buckets, w.group)) / buckets[w.group].span
  {
    var b := buckets[w.group];
    OffsetNext(buckets, w.group);
    Separates(b.span, w.index);
    Scales(b.span, w.index + 1, b.count);
    Distribute(b.span, w.index, 1);
    Quotient(age - Offset(buckets, w.group), b.span, w.index);
  }

  lemma Quotient(rest: int, span: int, index: int)
    requires span > 0 && index * span <= rest < index * span + span
    ensures rest / span == index
  {
    var q := rest / span;
    Distribute(span, index, q);
    Separates(span, index - q);
  }

  /** The windows partition the ages below the horizon: each such age lies in
      exactly one, which is the one found, and no other age lies in any. */
  lemma WindowsPartition(buckets: seq<Bucket>, age: int)
    requires Positive(buckets) && age >= 0
    ensures WindowOf(buckets, age).Some? <==> age < Total(buckets)
    ensures forall w :: IsWindow(buckets, w) ==> (Contains(buckets, w, age) <==> WindowOf(buckets, age) == Some(w))
  {
    WindowFound(buckets, age, 0);
    forall w | IsWindow(buckets, w) && Contains(buckets, w, age) ensures WindowOf(buckets, age) == Some(w) {
      OnlyWindow(buckets, w, age);
    }
  }

  lemma OnlyWindow(buckets: seq<Bucket>, w: Window, age: int)
    requires Positive(buckets) && IsWindow(buckets, w) && Contains(buckets, w, age)
    ensures WindowOf(buckets, age) == Some(w)
  {
    WithinGroup(buckets, w, age);
    OffsetsRise(buckets, 0, w.group);
    OffsetsRise(buckets, w.group + 1, |buckets|);
    assert buckets[..|buckets|] == buckets;
    WindowFound(buckets, age, 0);
    var v := WindowOf(buckets, age).value;
    WithinGroup(buckets, v, age);
    if v.group < w.group {
      OffsetsRise(buckets, v.group + 1, w.group);
    } else if w.group < v.group {
      OffsetsRise(buckets, w.group + 1, v.group);
    }
  }

  // The rule.

  /** The time ages are measured from. */
  function Anchor(items: seq<Snap>): int {
    if items == [] then 0
    else
      var before, last := Anchor(items[..|items| - 1]), items[|items| - 1];
      if last.owned && last.created > before then last.created else before
  }

  lemma {:induction false} AnchorMax(items: seq<Snap>)
    ensures Anchor(items) >= 0 && forall s :: s in items && s.owned ==> s.created <= Anchor(items)
    ensures Anchor(items) == 0 || exists s :: s in items && s.owned && s.created == Anchor(items)
  {
    if items != [] {
      var front, last := items[..|items| - 1], items[|items| - 1];
      assert items == front + [last];
      AnchorMax(front);
      if last.owned && last.created > Anchor(front) {
        assert last in items;
      } else if Anchor(front) != 0 {
        var s :| s in front && s.owned && s.created == Anchor(front);
        assert s in items;
      }
    }
  }

  function Age(items: seq<Snap>, s: Snap): int {
    Saturated(Anchor(items) - s.created)
  }

  /** A saturated age lies past every horizon. */
  lemma SaturatedIsOld(buckets: seq<Bucket>, items: seq<Snap>, s: Snap)
    requires Positive(buckets) && Total(buckets) <= MAX_INT64 && s in items && s.owned
    ensures 0 <= Age(items, s) <= MAX_INT64
    ensures Anchor(items) - s.created >= MAX_INT64 ==> WindowOf(buckets, Age(items, s)).None?
  {
    AnchorMax(items);
    WindowsPartition(buckets, Age(items, s));
  }

  predicate IsNewest(items: seq<Snap>, s: Snap) {
    s.owned && forall t :: t in items && t.owned && t != s ==> Before(t, s)
  }

  /** The first of the owned snapshots in its window. */
  predicate IsFirst(buckets: seq<Bucket>, items: seq<Snap>, s: Snap)
    requires Positive(buckets)
  {
    && WindowOf(buckets, Age(items, s)).Some?
    && forall t :: t in items && t.owned && t != s && WindowOf(buckets, Age(items, t)) == WindowOf(buckets, Age(items, s)) ==> Before(s, t)
  }

  predicate Depended(s: Snap) {
    s.holds > 0 || s.clones > 0 || s.resume
  }

  /** The rule: an owned snapshot nothing depends on survives exactly when it is
      the newest owned one or the first in its window. */
  predicate Survives(buckets: seq<Bucket>, items: seq<Snap>, s: Snap)
    requires Positive(buckets)
  {
    !s.owned || Depended(s) || IsNewest(items, s) || IsFirst(buckets, items, s)
  }

  function Reason(buckets: seq<Bucket>, items: seq<Snap>, s: Snap): string
    requires Positive(buckets)
  {
    if !s.owned then "foreign or unproven ownership"
    else if s.resume then "snapshot is required by resumable receive"
    else if s.clones > 0 then "snapshot has clones"
    else if s.holds > 0 then "snapshot has holds"
    else if IsNewest(items, s) then "newest owned snapshot"
    else if WindowOf(buckets, Age(items, s)).None? then "older than retention grid"
    else if IsFirst(buckets, items, s) then "oldest snapshot in retention window"
    else "newer duplicate in retention window"
  }

  function Verdict(buckets: seq<Bucket>, items: seq<Snap>, s: Snap): Decision
    requires Positive(buckets)
  {
    Decision(s.name, s.guid, !Survives(buckets, items, s), Reason(buckets, items, s))
  }

  predicate DistinctNames(items: seq<Snap>) {
    forall i, j :: 0 <= i < j < |items| ==> items[i].name != items[j].name
  }

  lemma SameName(items: seq<Snap>, s: Snap, t: Snap)
    requires DistinctNames(items) && s in items && t in items && s.name == t.name
    ensures s == t
  {}

  lemma LastDiffers(items: seq<Snap>, s: Snap)
    requires items != [] && DistinctNames(items) && s in items[..|items| - 1]
    ensures s.name != items[|items| - 1].name
  {
    var i :| 0 <= i < |items| - 1 && items[i] == s;
  }

  // Deleting victims.

  /** `kept` is `items` without some of the snapshots the rule destroys. */
  ghost predicate Pruned(buckets: seq<Bucket>, items: seq<Snap>, kept: seq<Snap>)
    requires Positive(buckets)
  {
    && (forall s :: s in kept ==> s in items)
    && (forall s :: s in items && s !in kept ==> !Survives(buckets, items, s))
  }

  /** Some owned snapshot is the newest. */
  lemma {:induction false} NewestExists(items: seq<Snap>, s: Snap) returns (n: Snap)
    requires DistinctNames(items) && s in items && s.owned
    ensures n in items && IsNewest(items, n)
  {
    var front, last := items[..|items| - 1], items[|items| - 1];
    assert items == front + [last];
    if exists t :: t in front && t.owned {
      var t :| t in front && t.owned;
      var m := NewestExists(front, t);
      BeforeTotal(m, last);
      if last.owned && Before(m, last) {
        n := last;
        forall u | u in items && u.owned && u != n ensures Before(u, n) {
          if u != m {
            BeforeTransitive(u, m, n);
          }
        }
      } else {
        n := m;
        LastDiffers(items, m);
      }
    } else {
      n := last;
    }
  }

  /** The first of a window is never destroyed, so a window keeps its first. */
  lemma {:induction false} FirstExists(buckets: seq<Bucket>, all: seq<Snap>, items: seq<Snap>, w: Window, s: Snap) returns (f: Snap)
    requires Positive(buckets) && DistinctNames(items) && s in items && s.owned && WindowOf(buckets, Age(all, s)) == Some(w)
    ensures f in items && f.owned && WindowOf(buckets, Age(all, f)) == Some(w)
    ensures forall t :: t in items && t.owned && t != f && WindowOf(buckets, Age(all, t)) == Some(w) ==> Before(f, t)
    decreases |items|
  {
    var front, last := items[..|items| - 1], items[|items| - 1];
    assert items == front + [last];
    if exists t :: t in front && t.owned && WindowOf(buckets, Age(all, t)) == Some(w) {
      var t :| t in front && t.owned && WindowOf(buckets, Age(all, t)) == Some(w);
      var m := FirstExists(buckets, all, front, w, t);
      BeforeTotal(m, last);
      if last.owned && WindowOf(buckets, Age(all, last)) == Some(w) && Before(last, m) {
        f := last;
        forall u | u in items && u.owned && u != f && WindowOf(buckets, Age(all, u)) == Some(w) ensures Before(f, u) {
          if u != m {
            BeforeTransitive(f, m, u);
          }
        }
      } else {
        f := m;
        LastDiffers(items, m);
      }
    } else {
      f := last;
    }
  }

  lemma AnchorKept(buckets: seq<Bucket>, items: seq<Snap>, kept: seq<Snap>)
    requires Positive(buckets) && DistinctNames(items) && Pruned(buckets, items, kept)
    ensures Anchor(kept) == Anchor(items)
  {
    AnchorMax(items);
    AnchorMax(kept);
    if Anchor(items) != 0 {
      var s :| s in items && s.owned && s.created == Anchor(items);
      var n := NewestExists(items, s);
      assert n in kept;
      assert n == s || Before(s, n);
    }
  }

  lemma NewestKept(buckets: seq<Bucket>, items: seq<Snap>, kept: seq<Snap>, s: Snap)
    requires Positive(buckets) && DistinctNames(items) && Pruned(buckets, items, kept) && s in kept
    ensures IsNewest(kept, s) <==> IsNewest(items, s)
  {
    if IsNewest(kept, s) {
      var n := NewestExists(items, s);
      assert n in kept;
      BeforeTotal(n, s);
    }
  }

  lemma FirstKept(buckets: seq<Bucket>, items: seq<Snap>, kept: seq<Snap>, s: Snap)
    requires Positive(buckets) && DistinctNames(items) && Pruned(buckets, items, kept) && s in kept && s.owned
    ensures IsFirst(buckets, kept, s) <==> IsFirst(buckets, items, s)
  {
    AnchorKept(buckets, items, kept);
    if IsFirst(buckets, items, s) {
      FirstAmongFewer(buckets, items, kept, s);
    }
    if IsFirst(buckets, kept, s) {
      FirstAmongAll(buckets, items, kept, s);
    }
  }

  lemma FirstAmongFewer(buckets: seq<Bucket>, items: seq<Snap>, kept: seq<Snap>, s: Snap)
    requires Positive(buckets) && IsFirst(buckets, items, s) && Anchor(kept) == Anchor(items) && forall t :: t in kept ==> t in items
    ensures IsFirst(buckets, kept, s)
  {}

  /** The first of a window is never pruned, so the first kept is the first of all. */
  lemma FirstAmongAll(buckets: seq<Bucket>, items: seq<Snap>, kept: seq<Snap>, s: Snap)
    requires Positive(buckets) && DistinctNames(items) && Pruned(buckets, items, kept) && s in kept && s.owned
    requires IsFirst(buckets, kept, s) && Anchor(kept) == Anchor(items)
    ensures IsFirst(buckets, items, s)
  {
    var f := FirstOf(buckets, items, s);
    assert Survives(buckets, items, f);
    assert f in kept;
    OneFirst(buckets, kept, s, f);
  }

  lemma FirstOf(buckets: seq<Bucket>, items: seq<Snap>, s: Snap) returns (f: Snap)
    requires Positive(buckets) && DistinctNames(items) && s in items && s.owned && WindowOf(buckets, Age(items, s)).Some?
    ensures f in items && f.owned && IsFirst(buckets, items, f) && WindowOf(buckets, Age(items, f)) == WindowOf(buckets, Age(items, s))
    ensures f == s || Before(f, s)
  {
    f := FirstExists(buckets, items, items, WindowOf(buckets, Age(items, s)).value, s);
  }

  lemma OneFirst(buckets: seq<Bucket>, kept: seq<Snap>, s: Snap, f: Snap)
    requires Positive(buckets) && IsFirst(buckets, kept, s) && f in kept && f.owned && WindowOf(buckets, Age(kept, f)) == WindowOf(buckets, Age(kept, s))
    requires f == s || Before(f, s)
    ensures f == s
  {
    if f != s {
      BeforeTotal(f, s);
    }
  }

  /** Deleting any of the snapshots the rule destroys changes no other decision. */
  lemma DeletionKeeps(buckets: seq<Bucket>, items: seq<Snap>, kept: seq<Snap>, s: Snap)
    requires Positive(buckets) && DistinctNames(items) && Pruned(buckets, items, kept) && s in kept
    ensures Verdict(buckets, kept, s) == Verdict(buckets, items, s)
  {
    AnchorKept(buckets, items, kept);
    NewestKept(buckets, items, kept, s);
    if s.owned {
      FirstKept(buckets, items, kept, s);
    }
  }

  /** Once every victim is gone, the rule destroys nothing more. */
  lemma SecondPassDestroysNothing(buckets: seq<Bucket>, items: seq<Snap>, kept: seq<Snap>, s: Snap)
    requires Positive(buckets) && DistinctNames(items) && s in kept
    requires forall t :: t in kept <==> t in items && Survives(buckets, items, t)
    ensures !Verdict(buckets, kept, s).destroy
  {
    DeletionKeeps(buckets, items, kept, s);
  }

  // How many survive.

  function SumCounts(buckets: seq<Bucket>): int {
    if buckets == [] then 0 else SumCounts(buckets[..|buckets| - 1]) + buckets[|buckets| - 1].count
  }

  ghost function Row(group: nat, count: int): set<Window> {
    set i | 0 <= i < count :: Window(group, i)
  }

  lemma {:induction false} RowSize(group: nat, count: int)
    requires count >= 0
    ensures |Row(group, count)| == count
  {
    if count > 0 {
      RowSize(group, count - 1);
      assert Row(group, count) == Row(group, count - 1) + {Window(group, count - 1)};
    }
  }

  ghost function Windows(buckets: seq<Bucket>): set<Window> {
    if buckets == [] then {} else Windows(buckets[..|buckets| - 1]) + Row(|buckets| - 1, buckets[|buckets| - 1].count)
  }

  lemma {:induction false} WindowsSize(buckets: seq<Bucket>)
    requires Positive(buckets)
    ensures forall w :: w in Windows(buckets) <==> IsWindow(buckets, w)
    ensures |Windows(buckets)| == SumCounts(buckets)
  {
    if buckets != [] {
      var front, last := buckets[..|buckets| - 1], buckets[|buckets| - 1];
      WindowsSize(front);
      RowSize(|front|, last.count);
      assert Windows(front) !! Row(|front|, last.count);
      forall w ensures w in Windows(buckets) <==> IsWindow(buckets, w) {
        assert w in Windows(front) <==> IsWindow(front, w);
        assert w in Row(|front|, last.count) <==> w.group == |front| && 0 <= w.index < last.count;
      }
    }
  }

  /** Firsts of distinct windows are no more than the windows. */
  lemma {:induction false} FirstsBound(buckets: seq<Bucket>, items: seq<Snap>, firsts: set<Snap>, windows: set<Window>)
    requires Positive(buckets)
    requires forall s :: s in firsts ==>
      s in items && s.owned && IsFirst(buckets, items, s) && WindowOf(buckets, Age(items, s)).value in windows
    ensures |firsts| <= |windows|
    decreases |firsts|
  {
    if firsts != {} {
      var s :| s in firsts;
      var w := WindowOf(buckets, Age(items, s)).value;
      forall t | t in firsts - {s} ensures WindowOf(buckets, Age(items, t)).value in windows - {w} {
        BeforeTotal(s, t);
      }
      FirstsBound(buckets, items, firsts - {s}, windows - {w});
    }
  }

  lemma InSomeWindow(buckets: seq<Bucket>, items: seq<Snap>, s: Snap)
    requires Positive(buckets) && s in items && s.owned && IsFirst(buckets, items, s)
    ensures IsWindow(buckets, WindowOf(buckets, Age(items, s)).value)
  {
    AnchorMax(items);
    WindowFound(buckets, Age(items, s), 0);
  }

  lemma FirstsAtMostWindows(buckets: seq<Bucket>, items: seq<Snap>, firsts: set<Snap>)
    requires Positive(buckets)
    requires forall s :: s in firsts ==> s in items && s.owned && IsFirst(buckets, items, s)
    ensures |firsts| <= SumCounts(buckets)
  {
    WindowsSize(buckets);
    forall s | s in firsts ensures WindowOf(buckets, Age(items, s)).value in Windows(buckets) {
      InSomeWindow(buckets, items, s);
    }
    FirstsBound(buckets, items, firsts, Windows(buckets));
  }

  /** Owned survivors that nothing depends on number at most the grid's windows and one. */
  lemma SurvivorsBound(buckets: seq<Bucket>, items: seq<Snap>, survivors: set<Snap>)
    requires Positive(buckets)
    requires forall s :: s in survivors ==> s in items && s.owned && !Depended(s) && Survives(buckets, items, s)
    ensures |survivors| <= SumCounts(buckets) + 1
  {
    var firsts := set s | s in survivors && IsFirst(buckets, items, s);
    FirstsAtMostWindows(buckets, items, firsts);
    NewestBound(items, survivors - firsts);
    assert survivors == firsts + (survivors - firsts);
  }

  lemma NewestBound(items: seq<Snap>, rest: set<Snap>)
    requires forall s :: s in rest ==> s in items && IsNewest(items, s)
    ensures |rest| <= 1
  {
    if rest != {} {
      var s :| s in rest;
      forall t | t in rest ensures t == s {
        BeforeTotal(s, t);
      }
      assert rest == {s};
    }
  }

  // The planner's own loops.

  predicate InScope(dataset: Dataset, snapshots: seq<Snap>) {
    (forall s :: s in snapshots ==> s.dataset == dataset) && DistinctNames(snapshots)
  }

  function NamesOf(snapshots: seq<Snap>): set<string> {
    set s | s in snapshots :: s.name
  }

  lemma ScopeNext(dataset: Dataset, snapshots: seq<Snap>, i: nat)
    requires i < |snapshots|
    ensures NamesOf(snapshots[..i + 1]) == NamesOf(snapshots[..i]) + {snapshots[i].name}
    ensures InScope(dataset, snapshots[..i + 1]) <==>
      InScope(dataset, snapshots[..i]) && snapshots[i].dataset == dataset && snapshots[i].name !in NamesOf(snapshots[..i])
  {
    var front, s := snapshots[..i], snapshots[i];
    var all := snapshots[..i + 1];
    assert all == front + [s];
    if DistinctNames(all) {
      forall t | t in front ensures t.name != s.name {
        var j :| 0 <= j < i && front[j] == t;
        assert all[j].name != all[i].name;
      }
      assert DistinctNames(front) by {
        forall j, k | 0 <= j < k < i ensures front[j].name != front[k].name {
          assert all[j].name != all[k].name;
        }
      }
    }
    if s.name !in NamesOf(front) {
      forall j | 0 <= j < i ensures all[j].name != s.name {
        assert front[j] in front;
      }
    }
  }

  lemma ScopePrefix(dataset: Dataset, snapshots: seq<Snap>, n: nat)
    requires n <= |snapshots|
    ensures InScope(dataset, snapshots) ==> InScope(dataset, snapshots[..n])
  {
    var front := snapshots[..n];
    assert forall j :: 0 <= j < n ==> front[j] == snapshots[j];
  }

  method Collect(dataset: Dataset, snapshots: seq<Snap>) returns (anchor: Option<int>)
    ensures anchor.Some? <==> InScope(dataset, snapshots)
    ensures anchor.Some? ==> anchor.value == Anchor(snapshots)
  {
    var seen, latest := {}, 0;
    for i := 0 to |snapshots|
      invariant InScope(dataset, snapshots[..i]) && latest == Anchor(snapshots[..i])
      invariant seen == NamesOf(snapshots[..i])
    {
      var s := snapshots[i];
      ScopeNext(dataset, snapshots, i);
      if s.dataset != dataset || s.name in seen {
        ScopePrefix(dataset, snapshots, i + 1);
        return None;
      }
      seen := seen + {s.name};
      assert snapshots[..i + 1][..i] == snapshots[..i];
      if s.owned && s.created > latest {
        latest := s.created;
      }
    }
    assert snapshots[..|snapshots|] == snapshots;
    return Some(latest);
  }

  predicate InOrder(items: seq<Snap>) {
    forall i, j :: 0 <= i < j < |items| ==> Before(items[i], items[j])
  }

  lemma InsertedInOrder(items: seq<Snap>, s: Snap, at: nat)
    requires InOrder(items) && at <= |items|
    requires at > 0 ==> Before(items[at - 1], s)
    requires at < |items| ==> Before(s, items[at])
    ensures InOrder(items[..at] + [s] + items[at..])
  {
    var r := items[..at] + [s] + items[at..];
    forall i | 0 <= i < at ensures Before(items[i], s) {
      if i < at - 1 { BeforeTransitive(items[i], items[at - 1], s); }
    }
    forall j | at <= j < |items| ensures Before(s, items[j]) {
      if at < j { BeforeTransitive(s, items[at], items[j]); }
    }
    forall i, j | 0 <= i < j < |r| ensures Before(r[i], r[j]) {
      assert r[i] == if i < at then items[i] else if i == at then s else items[i - 1];
      assert r[j] == if j < at then items[j] else if j == at then s else items[j - 1];
    }
  }

  method InsertItem(items: seq<Snap>, s: Snap) returns (r: seq<Snap>)
    requires InOrder(items) && forall t :: t in items ==> t.name != s.name
    ensures InOrder(r) && multiset(r) == multiset(items) + multiset{s}
  {
    var at := |items|;
    while at > 0 && Before(s, items[at - 1])
      invariant 0 <= at <= |items|
      invariant at < |items| ==> Before(s, items[at])
    {
      at := at - 1;
    }
    if at > 0 {
      BeforeTotal(s, items[at - 1]);
    }
    InsertedInOrder(items, s, at);
    InsertedCounts(items, s, at);
    r := items[..at] + [s] + items[at..];
  }

  lemma InsertedCounts(items: seq<Snap>, s: Snap, at: nat)
    requires at <= |items|
    ensures multiset(items[..at] + [s] + items[at..]) == multiset(items) + multiset{s}
  {
    assert items == items[..at] + items[at..];
  }

  method SortItems(snapshots: seq<Snap>) returns (items: seq<Snap>)
    requires DistinctNames(snapshots)
    ensures InOrder(items) && multiset(items) == multiset(snapshots)
  {
    items := [];
    for n := 0 to |snapshots|
      invariant InOrder(items) && multiset(items) == multiset(snapshots[..n])
    {
      assert snapshots[..n + 1] == snapshots[..n] + [snapshots[n]];
      forall t | t in items ensures t.name != snapshots[n].name {
        assert t in multiset(snapshots[..n]);
      }
      items := InsertItem(items, snapshots[n]);
    }
    assert snapshots[..|snapshots|] == snapshots;
  }

  lemma OrderedDistinct(items: seq<Snap>, snapshots: seq<Snap>)
    requires multiset(items) == multiset(snapshots)
    ensures |items| == |snapshots| && forall s :: s in items <==> s in snapshots
  {
    assert |items| == |multiset(items)| && |snapshots| == |multiset(snapshots)|;
    forall s ensures s in items <==> s in snapshots {
      assert s in multiset(items) <==> s in multiset(snapshots);
    }
  }

  /** The last owned item, or none. */
  method FindNewest(items: seq<Snap>) returns (newest: int)
    requires InOrder(items)
    ensures forall i :: 0 <= i < |items| ==> (i == newest <==> IsNewest(items, items[i]))
  {
    newest := -1;
    for i := 0 to |items|
      invariant -1 <= newest < i && (newest >= 0 ==> items[newest].owned)
      invariant forall j :: newest < j < i ==> !items[j].owned
    {
      if items[i].owned {
        newest := i;
      }
    }
    forall i | 0 <= i < |items| ensures i == newest <==> IsNewest(items, items[i]) {
      LastIsNewest(items, newest, i);
    }
  }

  lemma LastIsNewest(items: seq<Snap>, newest: int, i: nat)
    requires InOrder(items) && i < |items| && -1 <= newest < |items|
    requires newest >= 0 ==> items[newest].owned
    requires forall j :: newest < j < |items| ==> !items[j].owned
    ensures i == newest <==> IsNewest(items, items[i])
  {
    if i == newest {
      forall t | t in items && t.owned && t != items[i] ensures Before(t, items[i]) {
        var j :| 0 <= j < |items| && items[j] == t;
        assert j < i;
      }
    } else if items[i].owned {
      assert i < newest;
      BeforeTotal(items[i], items[newest]);
    }
  }

  /** The loop over the groups; its offsets stay in the horizon's range. */
  method FindWindow(buckets: seq<Bucket>, age: int) returns (w: Option<Window>)
    requires Positive(buckets) && Total(buckets) <= MAX_INT64
    ensures w == WindowOf(buckets, age)
  {
    var offset := 0;
    for group := 0 to |buckets|
      invariant offset == Offset(buckets, group) <= MAX_INT64
      invariant WindowFrom(buckets, age, group, offset) == WindowOf(buckets, age)
    {
      OffsetNext(buckets, group);
      OffsetsFit(buckets, group + 1);
      var end := offset + buckets[group].count * buckets[group].span;
      if age >= offset && age < end {
        return Some(Window(group, (age - offset) / buckets[group].span));
      }
      offset := end;
    }
    return None;
  }

  /** The windows already won are those of the owned items so far. */
  ghost predicate Won(buckets: seq<Bucket>, items: seq<Snap>, n: nat, winners: set<Window>)
    requires Positive(buckets) && n <= |items|
  {
    forall w :: w in winners <==> exists j :: 0 <= j < n && items[j].owned && WindowOf(buckets, Age(items, items[j])) == Some(w)
  }

  /** In order, the first to reach a window is the first of the window. */
  lemma FirstToReach(buckets: seq<Bucket>, items: seq<Snap>, i: nat, winners: set<Window>)
    requires Positive(buckets) && InOrder(items) && i < |items| && items[i].owned && Won(buckets, items, i, winners)
    ensures var w := WindowOf(buckets, Age(items, items[i]));
      IsFirst(buckets, items, items[i]) <==> w.Some? && w.value !in winners
  {
    var s, w := items[i], WindowOf(buckets, Age(items, items[i]));
    if w.Some? {
      if w.value in winners {
        var j :| 0 <= j < i && items[j].owned && WindowOf(buckets, Age(items, items[j])) == w;
        BeforeTotal(items[j], s);
      } else {
        forall t | t in items && t.owned && t != s && WindowOf(buckets, Age(items, t)) == w ensures Before(s, t) {
          var j :| 0 <= j < |items| && items[j] == t;
          assert !(j < i);
        }
      }
    }
  }

  lemma WonNext(buckets: seq<Bucket>, items: seq<Snap>, i: nat, winners: set<Window>)
    requires Positive(buckets) && i < |items| && Won(buckets, items, i, winners)
    ensures var w := WindowOf(buckets, Age(items, items[i]));
      Won(buckets, items, i + 1, if items[i].owned && w.Some? then winners + {w.value} else winners)
  {}

  /** What the grid alone says of an owned item. */
  method DecideWindow(buckets: seq<Bucket>, items: seq<Snap>, i: nat, anchor: int, winners: set<Window>)
      returns (destroy: bool, reason: string, next: set<Window>)
    requires Positive(buckets) && Total(buckets) <= MAX_INT64 && InOrder(items) && i < |items| && items[i].owned
    requires anchor == Anchor(items) && Won(buckets, items, i, winners)
    ensures destroy == !IsFirst(buckets, items, items[i])
    ensures reason == if WindowOf(buckets, Age(items, items[i])).None? then "older than retention grid"
      else if destroy then "newer duplicate in retention window" else "oldest snapshot in retention window"
    ensures Won(buckets, items, i + 1, next)
  {
    var w := FindWindow(buckets, Saturated(anchor - items[i].created));
    destroy, reason, next := TakeWindow(w, winners);
    WindowDecided(buckets, items, i, winners, w, destroy, next);
  }

  lemma WindowDecided(buckets: seq<Bucket>, items: seq<Snap>, i: nat, winners: set<Window>, w: Option<Window>, destroy: bool, next: set<Window>)
    requires Positive(buckets) && InOrder(items) && i < |items| && items[i].owned && Won(buckets, items, i, winners)
    requires w == WindowOf(buckets, Age(items, items[i])) && destroy == !(w.Some? && w.value !in winners)
    requires next == if w.Some? then winners + {w.value} else winners
    ensures destroy == !IsFirst(buckets, items, items[i]) && Won(buckets, items, i + 1, next)
  {
    FirstToReach(buckets, items, i, winners);
    WonNext(buckets, items, i, winners);
  }

  /** The first to reach a window takes it. */
  method TakeWindow(w: Option<Window>, winners: set<Window>) returns (destroy: bool, reason: string, next: set<Window>)
    ensures destroy == !(w.Some? && w.value !in winners)
    ensures reason == if w.None? then "older than retention grid"
      else if destroy then "newer duplicate in retention window" else "oldest snapshot in retention window"
    ensures next == if w.Some? then winners + {w.value} else winners
  {
    destroy, reason, next := true, "older than retention grid", winners;
    if w.Some? {
      if w.value !in winners {
        next := winners + {w.value};
        destroy, reason := false, "oldest snapshot in retention window";
      } else {
        reason := "newer duplicate in retention window";
      }
    }
  }

  /** One decision, in the order the source makes its checks. */
  method Decide(buckets: seq<Bucket>, items: seq<Snap>, i: nat, anchor: int, newest: int, winners: set<Window>)
      returns (d: Decision, next: set<Window>)
    requires Positive(buckets) && Total(buckets) <= MAX_INT64 && InOrder(items) && i < |items|
    requires anchor == Anchor(items) && (i == newest <==> IsNewest(items, items[i])) && Won(buckets, items, i, winners)
    ensures d == Verdict(buckets, items, items[i]) && Won(buckets, items, i + 1, next)
  {
    var s := items[i];
    if !s.owned {
      WonNext(buckets, items, i, winners);
      return Decision(s.name, s.guid, false, "foreign or unproven ownership"), winners;
    }
    var destroy, reason;
    destroy, reason, next := DecideWindow(buckets, items, i, anchor, winners);
    if i == newest {
      destroy, reason := false, "newest owned snapshot";
    }
    if s.holds > 0 {
      destroy, reason := false, "snapshot has holds";
    }
    if s.clones > 0 {
      destroy, reason := false, "snapshot has clones";
    }
    if s.resume {
      destroy, reason := false, "snapshot is required by resumable receive";
    }
    d := Decision(s.name, s.guid, destroy, reason);
  }

  predicate ByName(ds: seq<Decision>) {
    forall i, j :: 0 <= i < j < |ds| ==> Less(ds[i].snapshot, ds[j].snapshot)
  }

  lemma InsertedByName(ds: seq<Decision>, d: Decision, at: nat)
    requires ByName(ds) && at <= |ds|
    requires at > 0 ==> Less(ds[at - 1].snapshot, d.snapshot)
    requires at < |ds| ==> Less(d.snapshot, ds[at].snapshot)
    ensures ByName(ds[..at] + [d] + ds[at..])
  {
    var r := ds[..at] + [d] + ds[at..];
    forall i | 0 <= i < at ensures Less(ds[i].snapshot, d.snapshot) {
      if i < at - 1 { LessTransitive(ds[i].snapshot, ds[at - 1].snapshot, d.snapshot); }
    }
    forall j | at <= j < |ds| ensures Less(d.snapshot, ds[j].snapshot) {
      if at < j { LessTransitive(d.snapshot, ds[at].snapshot, ds[j].snapshot); }
    }
    forall i, j | 0 <= i < j < |r| ensures Less(r[i].snapshot, r[j].snapshot) {
      assert r[i] == if i < at then ds[i] else if i == at then d else ds[i - 1];
      assert r[j] == if j < at then ds[j] else if j == at then d else ds[j - 1];
    }
  }

  method InsertDecision(ds: seq<Decision>, d: Decision) returns (r: seq<Decision>)
    requires ByName(ds) && forall e :: e in ds ==> e.snapshot != d.snapshot
    ensures ByName(r) && |r| == |ds| + 1 && forall e :: e in r <==> e in ds || e == d
  {
    var at := |ds|;
    while at > 0 && Less(d.snapshot, ds[at - 1].snapshot)
      invariant 0 <= at <= |ds|
      invariant at < |ds| ==> Less(d.snapshot, ds[at].snapshot)
    {
      at := at - 1;
    }
    if at > 0 {
      LessTotal(d.snapshot, ds[at - 1].snapshot);
    }
    InsertedByName(ds, d, at);
    assert ds == ds[..at] + ds[at..];
    r := ds[..at] + [d] + ds[at..];
  }

  /** One decision for each snapshot, by name, each as the rule says. */
  ghost predicate IsPlan(buckets: seq<Bucket>, items: seq<Snap>, ds: seq<Decision>)
    requires Positive(buckets)
  {
    && ByName(ds) && |ds| == |items|
    && (forall s :: s in items ==> Verdict(buckets, items, s) in ds)
    && (forall d :: d in ds ==> exists s :: s in items && d == Verdict(buckets, items, s))
  }

  /** The decisions on the ordered items, put in order of name. */
  method DecideAll(buckets: seq<Bucket>, items: seq<Snap>, anchor: int) returns (ds: seq<Decision>)
    requires Positive(buckets) && Total(buckets) <= MAX_INT64 && InOrder(items) && DistinctNames(items) && anchor == Anchor(items)
    ensures IsPlan(buckets, items, ds)
  {
    ds := [];
    var newest := FindNewest(items);
    var winners := {};
    for i := 0 to |items|
      invariant Won(buckets, items, i, winners)
      invariant ByName(ds) && |ds| == i
      invariant forall d :: d in ds <==> exists j :: 0 <= j < i && d == Verdict(buckets, items, items[j])
    {
      var d;
      d, winners := Decide(buckets, items, i, anchor, newest, winners);
      forall e | e in ds ensures e.snapshot != d.snapshot {
        var j :| 0 <= j < i && e == Verdict(buckets, items, items[j]);
        assert items[j].name != items[i].name;
      }
      ds := InsertDecision(ds, d);
    }
  }

  /** What a grid value can be: unset, or as parsed. */
  predicate ValidGrid(grid: Grid) {
    grid.buckets == [] || (Positive(grid.buckets) && Total(grid.buckets) <= MAX_INT64)
  }

  lemma {:induction false} DistinctOf(items: seq<Snap>)
    requires InOrder(items) && forall s, t :: s in items && t in items && s.name == t.name ==> s == t
    ensures DistinctNames(items)
  {
    forall i, j | 0 <= i < j < |items| ensures items[i].name != items[j].name {
      BeforeTotal(items[i], items[j]);
    }
  }

  lemma PlanOfSame(buckets: seq<Bucket>, snapshots: seq<Snap>, items: seq<Snap>, ds: seq<Decision>)
    requires Positive(buckets) && DistinctNames(snapshots) && IsPlan(buckets, items, ds)
    requires |items| == |snapshots| && forall s :: s in items <==> s in snapshots
    ensures IsPlan(buckets, snapshots, ds)
  {
    forall s | s in items ensures Verdict(buckets, items, s) == Verdict(buckets, snapshots, s) {
      DeletionKeeps(buckets, snapshots, items, s);
    }
  }

  /** The plan is refused for an unset grid or lineage, or for a snapshot listed
      twice or of another dataset; else it is the rule's decision for each. */
  method PlanPrune(dataset: Dataset, validLineage: bool, grid: Grid, snapshots: seq<Snap>) returns (r: Result<seq<Decision>>)
    requires ValidGrid(grid)
    ensures r.Ok? <==> validLineage && grid.buckets != [] && InScope(dataset, snapshots)
    ensures r.Ok? ==> IsPlan(grid.buckets, snapshots, r.value)
  {
    if !validLineage || grid.buckets == [] {
      return Err("valid lineage and grid are required");
    }
    var anchor := Collect(dataset, snapshots);
    if anchor.None? {
      return Err("duplicate or out-of-scope snapshot");
    }
    var items := SortItems(snapshots);
    OrderedDistinct(items, snapshots);
    SameNames(snapshots);
    DistinctOf(items);
    SameAnchor(items, snapshots);
    var ds := DecideAll(grid.buckets, items, anchor.value);
    PlanOfSame(grid.buckets, snapshots, items, ds);
    return Ok(ds);
  }

  lemma SameNames(items: seq<Snap>)
    requires DistinctNames(items)
    ensures forall s, t :: s in items && t in items && s.name == t.name ==> s == t
  {}

  lemma SameAnchor(a: seq<Snap>, b: seq<Snap>)
    requires forall s :: s in a <==> s in b
    ensures Anchor(a) == Anchor(b)
  {
    AnchorMax(a);
    AnchorMax(b);
  }

  // The deletions.

  function Except(snapshots: seq<Snap>, name: string): seq<Snap> {
    if snapshots == [] then []
    else
      var last := snapshots[|snapshots| - 1];
      Except(snapshots[..|snapshots| - 1], name) + if last.name == name then [] else [last]
  }

  lemma {:induction false} ExceptFacts(snapshots: seq<Snap>, name: string)
    ensures forall s :: s in Except(snapshots, name) <==> s in snapshots && s.name != name
    ensures DistinctNames(snapshots) ==> DistinctNames(Except(snapshots, name))
  {
    if snapshots != [] {
      var front, last := snapshots[..|snapshots| - 1], snapshots[|snapshots| - 1];
      assert snapshots == front + [last];
      ExceptFacts(front, name);
      if DistinctNames(snapshots) {
        forall s | s in front ensures s.name != last.name {
          LastDiffers(snapshots, s);
        }
      }
    }
  }

  /** After the decisions in `done`, exactly their victims are gone. */
  ghost predicate Progress(items: seq<Snap>, done: seq<Decision>, left: seq<Snap>) {
    && DistinctNames(left)
    && (forall s :: s in left <==> s in items && forall d :: d in done && d.destroy ==> d.snapshot != s.name)
  }

  lemma ProgressPruned(buckets: seq<Bucket>, items: seq<Snap>, plan: seq<Decision>, n: nat, left: seq<Snap>)
    requires Positive(buckets) && DistinctNames(items) && IsPlan(buckets, items, plan)
    requires n <= |plan| && Progress(items, plan[..n], left)
    ensures Pruned(buckets, items, left)
  {
    forall s | s in items && s !in left ensures !Survives(buckets, items, s) {
      var d :| d in plan[..n] && d.destroy && d.snapshot == s.name;
      assert d in plan;
      var t :| t in items && d == Verdict(buckets, items, t);
      SameName(items, s, t);
    }
  }

  /** The next victim is still there and still condemned. */
  lemma StillEligible(buckets: seq<Bucket>, items: seq<Snap>, plan: seq<Decision>, n: nat, left: seq<Snap>, again: seq<Decision>)
    requires Positive(buckets) && DistinctNames(items) && IsPlan(buckets, items, plan)
    requires n < |plan| && plan[n].destroy && Progress(items, plan[..n], left) && IsPlan(buckets, left, again)
    ensures plan[n] in again
  {
    var victim := plan[n];
    assert victim in plan;
    var s :| s in items && victim == Verdict(buckets, items, s);
    assert s in left by {
      forall d | d in plan[..n] ensures d.snapshot != s.name {
        var j :| 0 <= j < n && plan[j] == d;
        LessTotal(plan[j].snapshot, victim.snapshot);
      }
    }
    ProgressPruned(buckets, items, plan, n, left);
    DeletionKeeps(buckets, items, left, s);
  }

  lemma ProgressNext(items: seq<Snap>, plan: seq<Decision>, n: nat, left: seq<Snap>)
    requires n < |plan| && Progress(items, plan[..n], left)
    ensures Progress(items, plan[..n + 1], if plan[n].destroy then Except(left, plan[n].snapshot) else left)
  {
    assert plan[..n + 1] == plan[..n] + [plan[n]];
    ExceptFacts(left, plan[n].snapshot);
  }

  /** With every decision carried out, what is left is what survives, and no decision on it destroys. */
  lemma ProgressDone(buckets: seq<Bucket>, items: seq<Snap>, plan: seq<Decision>, left: seq<Snap>)
    requires Positive(buckets) && DistinctNames(items) && IsPlan(buckets, items, plan) && Progress(items, plan, left)
    ensures forall s :: s in left <==> s in items && Survives(buckets, items, s)
    ensures forall s :: s in left ==> !Verdict(buckets, left, s).destroy
  {
    assert plan[..|plan|] == plan;
    ProgressPruned(buckets, items, plan, |plan|, left);
    forall s | s in left ensures Survives(buckets, items, s) {
      assert Verdict(buckets, items, s) in plan;
    }
    forall s | s in left ensures !Verdict(buckets, left, s).destroy {
      SecondPassDestroysNothing(buckets, items, left, s);
    }
  }

  /** Whether the plan still destroys this very snapshot. */
  method Eligible(plan: seq<Decision>, victim: Decision) returns (eligible: bool)
    ensures eligible <==> exists d :: d in plan && d.snapshot == victim.snapshot && d.guid == victim.guid && d.destroy
  {
    eligible := false;
    for k := 0 to |plan|
      invariant eligible <==> exists j :: 0 <= j < k && plan[j].snapshot == victim.snapshot && plan[j].guid == victim.guid && plan[j].destroy
    {
      if plan[k].snapshot == victim.snapshot && plan[k].guid == victim.guid && plan[k].destroy {
        eligible := true;
      }
    }
  }

  // Applied while others change the dataset.

  /** What is found before one deletion: whether the dataset reads with the same
      identity, lineage and no receive under way, its snapshots, and whether the
      deletion then succeeds. */
  datatype Reading = Reading(ready: bool, snapshots: seq<Snap>, done: bool)

  function Victims(plan: seq<Decision>): seq<Decision> {
    if plan == [] then []
    else Victims(plan[..|plan| - 1]) + if plan[|plan| - 1].destroy then [plan[|plan| - 1]] else []
  }

  /** This very snapshot is there, and the rule over all that is there destroys it. */
  predicate Condemned(buckets: seq<Bucket>, read: seq<Snap>, victim: Decision)
    requires Positive(buckets)
  {
    exists s :: s in read && s.name == victim.snapshot && s.guid == victim.guid && !Survives(buckets, read, s)
  }

  predicate GoesAhead(dataset: Dataset, buckets: seq<Bucket>, w: Reading, victim: Decision)
    requires Positive(buckets)
  {
    w.ready && InScope(dataset, w.snapshots) && Condemned(buckets, w.snapshots, victim)
  }

  predicate AheadUpTo(dataset: Dataset, buckets: seq<Bucket>, world: nat -> Reading, victims: seq<Decision>, n: nat)
    requires Positive(buckets)
  {
    n <= |victims| && forall k :: 0 <= k < n ==> GoesAhead(dataset, buckets, world(k), victims[k])
  }

  predicate DoneUpTo(dataset: Dataset, buckets: seq<Bucket>, world: nat -> Reading, victims: seq<Decision>, n: nat)
    requires Positive(buckets)
  {
    n <= |victims| && forall k :: 0 <= k < n ==> GoesAhead(dataset, buckets, world(k), victims[k]) && world(k).done
  }

  lemma EligibleIsCondemned(buckets: seq<Bucket>, read: seq<Snap>, again: seq<Decision>, victim: Decision)
    requires Positive(buckets) && IsPlan(buckets, read, again)
    ensures (exists d :: d in again && d.snapshot == victim.snapshot && d.guid == victim.guid && d.destroy) <==> Condemned(buckets, read, victim)
  {
    if d :| d in again && d.snapshot == victim.snapshot && d.guid == victim.guid && d.destroy {
      var s :| s in read && d == Verdict(buckets, read, s);
    }
    if s :| s in read && s.name == victim.snapshot && s.guid == victim.guid && !Survives(buckets, read, s) {
      assert Verdict(buckets, read, s) in again;
    }
  }

  /** Decides, from a new plan over what was just read, whether a victim may go. */
  method Recheck(dataset: Dataset, grid: Grid, w: Reading, victim: Decision) returns (ahead: bool)
    requires ValidGrid(grid) && grid.buckets != []
    ensures ahead <==> GoesAhead(dataset, grid.buckets, w, victim)
  {
    if !w.ready {
      return false;
    }
    var again := PlanPrune(dataset, true, grid, w.snapshots);
    if again.Err? {
      return false;
    }
    EligibleIsCondemned(grid.buckets, w.snapshots, again.value, victim);
    ahead := Eligible(again.value, victim);
  }

  lemma VictimsNext(plan: seq<Decision>, n: nat)
    requires n < |plan|
    ensures Victims(plan[..n + 1]) == Victims(plan[..n]) + if plan[n].destroy then [plan[n]] else []
  {
    assert plan[..n + 1][..n] == plan[..n];
  }

  lemma {:induction false} VictimsGrow(plan: seq<Decision>, n: nat)
    requires n <= |plan|
    ensures Victims(plan[..n]) <= Victims(plan)
    decreases |plan| - n
  {
    if n < |plan| {
      VictimsNext(plan, n);
      VictimsGrow(plan, n + 1);
    } else {
      assert plan[..n] == plan;
    }
  }

  /** The next of the plan to be destroyed is the next victim. */
  lemma NextVictim(plan: seq<Decision>, n: nat)
    requires n < |plan|
    ensures var k := |Victims(plan[..n])|;
      if plan[n].destroy then |Victims(plan[..n + 1])| == k + 1 <= |Victims(plan)| && Victims(plan)[k] == plan[n]
      else |Victims(plan[..n + 1])| == k <= |Victims(plan)|
  {
    VictimsNext(plan, n);
    VictimsGrow(plan, n + 1);
    assert plan[n].destroy ==> Victims(plan[..n + 1])[|Victims(plan[..n])|] == plan[n];
  }

  /** Whatever else changes the dataset, each deletion is of a snapshot that the
      rule, over what was read just before, still destroys. The run goes through
      its victims in order and completes exactly when each is still condemned in
      its turn and its deletion succeeds. */
  method PruneAmong(dataset: Dataset, validLineage: bool, grid: Grid, first: seq<Snap>, world: nat -> Reading)
      returns (r: Result<seq<Decision>>, issued: nat, ok: bool)
    requires ValidGrid(grid)
    ensures r.Ok? <==> validLineage && grid.buckets != [] && InScope(dataset, first)
    ensures r.Err? ==> issued == 0 && !ok
    ensures r.Ok? ==> IsPlan(grid.buckets, first, r.value) && issued <= |Victims(r.value)|
    ensures r.Ok? ==> AheadUpTo(dataset, grid.buckets, world, Victims(r.value), issued)
    ensures r.Ok? ==> (ok <==> DoneUpTo(dataset, grid.buckets, world, Victims(r.value), |Victims(r.value)|))
  {
    r := PlanPrune(dataset, validLineage, grid, first);
    issued, ok := 0, false;
    if r.Err? {
      return;
    }
    issued, ok := DestroyAmong(dataset, grid, r.value, world);
  }

  method DestroyAmong(dataset: Dataset, grid: Grid, plan: seq<Decision>, world: nat -> Reading) returns (issued: nat, ok: bool)
    requires ValidGrid(grid) && grid.buckets != []
    ensures AheadUpTo(dataset, grid.buckets, world, Victims(plan), issued)
    ensures ok <==> DoneUpTo(dataset, grid.buckets, world, Victims(plan), |Victims(plan)|)
  {
    issued, ok := 0, false;
    ghost var victims := Victims(plan);
    for n := 0 to |plan|
      invariant issued == |Victims(plan[..n])| <= |victims|
      invariant DoneUpTo(dataset, grid.buckets, world, victims, issued) && AheadUpTo(dataset, grid.buckets, world, victims, issued)
    {
      NextVictim(plan, n);
      if !plan[n].destroy {
        continue;
      }
      var ahead := Recheck(dataset, grid, world(issued), plan[n]);
      if !ahead {
        return;
      }
      issued := issued + 1;
      if !world(issued - 1).done {
        return;
      }
    }
    assert plan[..|plan|] == plan;
    ok := true;
  }

  /** The snapshots of one dataset, which only this process changes. */
  class Pool {
    var snapshots: seq<Snap>

    constructor (snapshots: seq<Snap>)
      ensures this.snapshots == snapshots
    {
      this.snapshots := snapshots;
    }

    method DestroySnapshot(name: string)
      modifies this
      ensures snapshots == Except(old(snapshots), name)
    {
      snapshots := Except(snapshots, name);
    }

    /** A preview, or the deletions with a new plan before each. With nobody else
        changing the dataset, every new plan still condemns the next victim, so
        the run completes: what survives is left, and nothing more is due. */
    method Prune(dataset: Dataset, validLineage: bool, grid: Grid, apply: bool) returns (r: Result<seq<Decision>>)
      requires ValidGrid(grid)
      modifies this
      ensures r.Ok? <==> validLineage && grid.buckets != [] && InScope(dataset, old(snapshots))
      ensures r.Ok? ==> IsPlan(grid.buckets, old(snapshots), r.value)
      ensures r.Err? || !apply ==> snapshots == old(snapshots)
      ensures r.Ok? && apply ==> forall s :: s in snapshots <==> s in old(snapshots) && Survives(grid.buckets, old(snapshots), s)
      ensures r.Ok? && apply ==> forall s :: s in snapshots ==> !Verdict(grid.buckets, snapshots, s).destroy
    {
      r := PlanPrune(dataset, validLineage, grid, snapshots);
      if r.Err? || !apply {
        return;
      }
      var plan := r.value;
      ghost var items := snapshots;
      for n := 0 to |plan|
        invariant Progress(items, plan[..n], snapshots)
      {
        ProgressNext(items, plan, n, snapshots);
        if !plan[n].destroy {
          continue;
        }
        var again := PlanPrune(dataset, validLineage, grid, snapshots);
        var eligible := false;
        if again.Ok? {
          StillEligible(grid.buckets, items, plan, n, snapshots, again.value);
          eligible := Eligible(again.value, plan[n]);
        }
        if !eligible {
          // The one refusal past the first plan, which cannot be reached.
          assert false;
        }
        DestroySnapshot(plan[n].snapshot);
      }
      assert plan[..|plan|] == plan;
      ProgressDone(grid.buckets, items, plan, snapshots);
    }
  }
}
