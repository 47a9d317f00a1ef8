/** Which streams a request sends: its members parents first, or the root alone. */
module Streams {
  import opened Names

  /** A dataset's text begins with the text of what contains it. */
  lemma {:induction false} TextExtends(d: Dataset, root: Dataset) returns (more: string)
    requires Inside(d, root) && d != root
    ensures more != "" && Text(d) == Text(root) + more
    decreases |d|
  {
    var parent, last := d[..|d| - 1], d[|d| - 1];
    assert d == parent + [last];
    TextOfChild(parent, last);
    more := "/" + last;
    if parent != root {
      assert root == d[..|root|] == parent[..|root|];
      var rest := TextExtends(parent, root);
      more := rest + "/" + last;
      assert Text(root) + (rest + "/" + last) == Text(root) + rest + "/" + last;
    } else {
      assert Text(parent) + ("/" + last) == Text(parent) + "/" + last;
    }
  }

  predicate Sorted(names: seq<Dataset>) {
    forall i, j :: 0 <= i < j < |names| ==> names[i] == names[j] || Less(Text(names[i]), Text(names[j]))
  }

  /** Lexical order puts every parent before its children. */
  lemma SortedIsParentsFirst(names: seq<Dataset>)
    requires Sorted(names) && Distinct(names)
    ensures ParentsFirst(names)
  {
    forall i, j | 0 <= i < j < |names| ensures !Inside(names[i], names[j]) {
      NotBeneath(names[i], names[j]);
    }
  }

  lemma NotBeneath(a: Dataset, b: Dataset)
    requires a != b && Less(Text(a), Text(b))
    ensures !Inside(a, b)
  {
    LessTotal(Text(a), Text(b));
    if Inside(a, b) {
      var more := TextExtends(a, b);
      LessExtended(Text(b), more);
    }
  }

  /** Different valid names have different texts. */
  lemma TextTells(a: Dataset, b: Dataset)
    requires ValidName(a) && ValidName(b) && Text(a) == Text(b)
    ensures a == b
  {
    InsideText(a, b);
    InsideText(b, a);
  }

  lemma InsertedSorted(names: seq<Dataset>, d: Dataset, at: nat)
    requires Sorted(names) && at <= |names|
    requires at > 0 ==> names[at - 1] == d || Less(Text(names[at - 1]), Text(d))
    requires at < |names| ==> Less(Text(d), Text(names[at]))
    ensures Sorted(names[..at] + [d] + names[at..])
  {
    var r := names[..at] + [d] + names[at..];
    forall i | 0 <= i < at ensures names[i] == d || Less(Text(names[i]), Text(d)) {
      if i < at - 1 && names[i] != names[at - 1] && names[at - 1] != d {
        LessTransitive(Text(names[i]), Text(names[at - 1]), Text(d));
      }
    }
    forall j | at <= j < |names| ensures Less(Text(d), Text(names[j])) {
      if at < j && names[at] != names[j] {
        LessTransitive(Text(d), Text(names[at]), Text(names[j]));
      }
    }
    forall i, j | 0 <= i < j < |r| ensures r[i] == r[j] || Less(Text(r[i]), Text(r[j])) {
      assert r[i] == if i < at then names[i] else if i == at then d else names[i - 1];
      assert r[j] == if j < at then names[j] else if j == at then d else names[j - 1];
    }
  }

  method InsertName(names: seq<Dataset>, d: Dataset) returns (r: seq<Dataset>)
    requires Sorted(names) && ValidName(d) && forall x :: x in names ==> ValidName(x)
    ensures Sorted(r) && multiset(r) == multiset(names) + multiset{d}
  {
    var at := |names|;
    while at > 0 && Less(Text(d), Text(names[at - 1]))
      invariant 0 <= at <= |names|
      invariant at < |names| ==> Less(Text(d), Text(names[at]))
    {
      at := at - 1;
    }
    if at > 0 {
      LessTotal(Text(names[at - 1]), Text(d));
      if Text(names[at - 1]) == Text(d) {
        TextTells(names[at - 1], d);
      }
    }
    InsertedSorted(names, d, at);
    assert names == names[..at] + names[at..];
    r := names[..at] + [d] + names[at..];
  }

  method SortNames(members: seq<Dataset>) returns (names: seq<Dataset>)
    requires forall m :: m in members ==> ValidName(m)
    ensures Sorted(names) && multiset(names) == multiset(members)
  {
    names := [];
    for n := 0 to |members|
      invariant Sorted(names) && multiset(names) == multiset(members[..n])
    {
      assert members[..n + 1] == members[..n] + [members[n]];
      forall x | x in names ensures ValidName(x) {
        assert x in multiset(members[..n]);
      }
      names := InsertName(names, members[n]);
    }
    assert members[..|members|] == members;
  }

  /** Sorted and without equal neighbours means without repetition. */
  lemma NeighboursTell(names: seq<Dataset>)
    requires Sorted(names) && forall i :: 0 < i < |names| ==> names[i - 1] != names[i]
    ensures Distinct(names)
  {
    forall i, j | 0 <= i < j < |names| ensures names[i] != names[j] {
      assert names[j - 1] != names[j];
      LessTotal(Text(names[j - 1]), Text(names[j]));
      LessTotal(Text(names[i]), Text(names[j]));
      if i < j - 1 && names[i] != names[j - 1] {
        LessTransitive(Text(names[i]), Text(names[j - 1]), Text(names[j]));
      }
    }
  }

  lemma {:induction false} PermutedDistinct(a: seq<Dataset>, b: seq<Dataset>)
    requires multiset(a) == multiset(b) && Distinct(a)
    ensures Distinct(b)
  {
    forall i, j | 0 <= i < j < |b| ensures b[i] != b[j] {
      if b[i] == b[j] {
        assert b == b[..i] + [b[i]] + b[i + 1..j] + [b[j]] + b[j + 1..];
        assert multiset(b)[b[i]] >= 2;
        AtMostOnce(a, b[i]);
      }
    }
  }

  lemma {:induction false} AtMostOnce(a: seq<Dataset>, d: Dataset)
    requires Distinct(a)
    ensures multiset(a)[d] <= 1
  {
    if a != [] {
      var front, last := a[..|a| - 1], a[|a| - 1];
      assert a == front + [last];
      AtMostOnce(front, d);
      assert last !in front;
    }
  }

  /** The streams of a request, or why it is refused. */
  method Streams(source: Dataset, replicate: bool, members: seq<Dataset>) returns (r: Result<seq<Dataset>>)
    ensures members == [] ==> r == Ok([source])
    ensures members != [] ==> (r.Ok? <==> !replicate && Distinct(members) && forall m :: m in members ==> ValidName(m) && Inside(m, source))
    ensures members != [] && r.Ok? ==> multiset(r.value) == multiset(members)
    ensures r.Ok? ==> ParentsFirst(r.value)
  {
    if members == [] {
      return Ok([source]);
    }
    if replicate {
      return Err("a replication root sends one stream, not one per member");
    }
    if exists m :: m in members && !ValidName(m) {
      return Err("invalid dataset name");
    }
    var names := SortNames(members);
    forall d ensures d in names <==> d in members {
      assert d in multiset(names) <==> d in multiset(members);
    }
    for i := 0 to |names|
      invariant forall j :: 0 <= j < i ==> Inside(names[j], source)
      invariant forall j :: 0 < j < i ==> names[j - 1] != names[j]
    {
      if !Inside(names[i], source) {
        assert names[i] in members;
        return Err("member is outside root");
      }
      if i > 0 && names[i - 1] == names[i] {
        Repeated(names, members, i);
        return Err("member is repeated");
      }
    }
    NeighboursTell(names);
    PermutedDistinct(names, members);
    SortedIsParentsFirst(names);
    return Ok(names);
  }

  lemma Repeated(names: seq<Dataset>, members: seq<Dataset>, i: nat)
    requires multiset(names) == multiset(members) && 0 < i < |names| && names[i - 1] == names[i]
    ensures !Distinct(members)
  {
    if Distinct(members) {
      PermutedDistinct(members, names);
    }
  }
}
