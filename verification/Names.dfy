/** Dataset names and the failure wrappers the other modules share.

    A ZFS dataset name is a non-empty path of components. The program works on
    the joined text; `Text` is that form, and `InsideText` shows that its prefix
    test is the prefix order on paths used everywhere else in this project. */
module Names {

  datatype Option<+T> = None | Some(value: T)

  datatype Result<+T> = Ok(value: T) | Err(reason: string)

  type Dataset = d: seq<string> | |d| > 0 witness ["pool"]

  /** `dataset` is `root` or lies beneath it. */
  predicate Inside(dataset: Dataset, root: Dataset) {
    root <= dataset
  }

  /** One of the two contains the other. */
  predicate Overlaps(a: Dataset, b: Dataset) {
    Inside(a, b) || Inside(b, a)
  }

  /** Each dataset once, after every ancestor. */
  predicate ParentsFirst(ds: seq<Dataset>) {
    forall i, j :: 0 <= i < j < |ds| ==> !Inside(ds[i], ds[j])
  }

  predicate Distinct<T(==)>(xs: seq<T>) {
    forall i, j :: 0 <= i < j < |xs| ==> xs[i] != xs[j]
  }

  /** Two datasets on one path overlap. */
  lemma CommonDescendantOverlaps(d: Dataset, a: Dataset, b: Dataset)
    requires Inside(d, a) && Inside(d, b)
    ensures Overlaps(a, b)
  {
    if |a| <= |b| {
      assert b[..|a|] == d[..|a|] == a;
    } else {
      assert a[..|b|] == d[..|b|] == b;
    }
  }

  lemma NotInBoth(d: Dataset, a: Dataset, b: Dataset)
    requires Inside(d, a) && !Overlaps(b, a)
    ensures !Inside(d, b)
  {
    if Inside(d, b) { CommonDescendantOverlaps(d, b, a); }
  }

  /** A component accepted by the name validation: not empty, no separator. */
  predicate ValidComponent(c: string) {
    c != "" && '/' !in c
  }

  predicate ValidName(d: seq<string>) {
    |d| > 0 && forall c :: c in d ==> ValidComponent(c)
  }

  /** The name as ZFS prints it. */
  function Text(d: seq<string>): string
    requires |d| > 0
  {
    if |d| == 1 then d[0] else d[0] + "/" + Text(d[1..])
  }

  /** The textual test used throughout the source: equal, or prefixed by root and a slash. */
  predicate InsideByText(name: string, root: string) {
    name == root || root + "/" <= name
  }

  /** Two slash-free heads followed by a slash agree when one text begins with the other. */
  lemma HeadsAgree(p: string, x: string, q: string, y: string)
    requires '/' !in p && '/' !in q
    requires q + "/" + y <= p + "/" + x
    ensures p == q
  {
    var a, b := p + "/" + x, q + "/" + y;
    assert a[|p|] == '/' && b[|q|] == '/' == a[|q|];
    assert forall i :: 0 <= i < |q| ==> b[i] == q[i] && q[i] in q;
    assert forall i :: 0 <= i < |p| ==> a[i] == p[i] && p[i] in p;
    assert |p| == |q|;
    assert p == a[..|p|] == b[..|q|] == q;
  }

  lemma NoPrefix(t: string, text: string)
    requires '/' in t && '/' !in text
    ensures !(t <= text)
  {
    var i :| 0 <= i < |t| && t[i] == '/';
    assert i < |text| ==> text[i] in text;
  }

  /** The textual test decides containment of paths, for every pair of valid names. */
  lemma {:induction false} InsideText(d: seq<string>, root: seq<string>)
    requires ValidName(d) && ValidName(root)
    ensures InsideByText(Text(d), Text(root)) <==> root <= d
    decreases |root|
  {
    assert ValidComponent(d[0]) && ValidComponent(root[0]);
    if |root| == 1 {
      InsideSingle(d, root);
    } else if |d| == 1 {
      assert Text(root)[|root[0]|] == '/';
      NoPrefix(Text(root), d[0]);
      NoPrefix(Text(root) + "/", d[0]);
    } else {
      InsideText(d[1..], root[1..]);
      assert d == [d[0]] + d[1..] && root == [root[0]] + root[1..];
      TailsDecide(d[0], Text(d[1..]), root[0], Text(root[1..]));
      assert root <= d <==> root[0] == d[0] && root[1..] <= d[1..];
    }
  }

  /** Behind slash-free heads, the test looks at the heads and then at the rest. */
  lemma TailsDecide(p: string, x: string, q: string, y: string)
    requires '/' !in p && '/' !in q
    ensures InsideByText(p + "/" + x, q + "/" + y) <==> p == q && InsideByText(x, y)
  {
    var a, b, t := p + "/" + x, q + "/" + y, p + "/";
    assert b + "/" == q + "/" + (y + "/");
    if InsideByText(a, b) {
      assert b <= a;
      HeadsAgree(p, x, q, y);
      assert a[|t|..] == x && b[|t|..] == y && (b + "/")[|t|..] == y + "/";
    }
    if p == q && y + "/" <= x {
      assert a == t + (y + "/") + x[|y| + 1..];
    }
  }

  /** Against a single component, the text names it alone or begins with it and a slash. */
  lemma InsideSingle(d: seq<string>, root: seq<string>)
    requires ValidName(d) && ValidName(root) && |root| == 1
    ensures InsideByText(Text(d), Text(root)) <==> root <= d
  {
    var head := root[0];
    assert ValidComponent(d[0]) && ValidComponent(head);
    if |d| == 1 {
      assert (head + "/")[|head|] == '/';
      assert forall i :: 0 <= i < |d[0]| ==> d[0][i] in d[0];
    } else {
      var x := Text(d[1..]);
      assert Text(d)[|d[0]|] == '/';
      assert forall i :: 0 <= i < |head| ==> head[i] in head;
      if head + "/" <= Text(d) {
        assert head + "/" + "" == head + "/";
        HeadsAgree(d[0], x, head, "");
      }
      if d[0] == head { assert head + "/" <= head + "/" + x; assert root == d[..1]; }
    }
  }

  /** Text order. */
  predicate Less(a: string, b: string) {
    b != "" && (a == "" || a[0] < b[0] || (a[0] == b[0] && Less(a[1..], b[1..])))
  }

  lemma {:induction false} LessTotal(a: string, b: string)
    ensures a == b || Less(a, b) || Less(b, a)
    ensures !(Less(a, b) && Less(b, a))
    ensures !Less(a, a)
  {
    if a != "" {
      LessTotal(a[1..], if b == "" then "" else b[1..]);
      if b != "" {
        assert a == [a[0]] + a[1..] && b == [b[0]] + b[1..];
      }
    }
  }

  lemma {:induction false} LessTransitive(a: string, b: string, c: string)
    requires Less(a, b) && Less(b, c)
    ensures Less(a, c)
  {
    if a != "" && a[0] == b[0] == c[0] {
      LessTransitive(a[1..], b[1..], c[1..]);
    }
  }

  lemma {:induction false} LessExtended(a: string, more: string)
    requires more != ""
    ensures Less(a, a + more)
  {
    if a != "" {
      assert (a + more)[1..] == a[1..] + more;
      LessExtended(a[1..], more);
    }
  }

  lemma {:induction false} TextOfChild(parent: seq<string>, component: string)
    requires |parent| > 0
    ensures Text(parent + [component]) == Text(parent) + "/" + component
  {
    if |parent| > 1 {
      assert (parent + [component])[1..] == parent[1..] + [component];
      TextOfChild(parent[1..], component);
      assert parent[0] + "/" + (Text(parent[1..]) + "/" + component) == parent[0] + "/" + Text(parent[1..]) + "/" + component;
    } else {
      assert (parent + [component])[1..] == [component];
    }
  }
}
