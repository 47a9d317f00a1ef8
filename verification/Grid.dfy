/** Retention grids: text such as `12x5m,24x1h,14x1d` to buckets of windows.

    Durations are whole nanoseconds in a signed 64-bit number; the parser bounds
    every product and sum so that none of them leaves that range. */
module Grid {
  import opened Names

  const MAX_INT32 := 0x7FFF_FFFF
  const MAX_INT64 := 0x7FFF_FFFF_FFFF_FFFF

  const MINUTE := 60_000_000_000
  const HOUR := 60 * MINUTE
  const DAY := 24 * HOUR

  datatype Bucket = Bucket(count: int, span: int)

  datatype Grid = Grid(buckets: seq<Bucket>, text: string, horizon: int)

  datatype Unit = Unit(name: string, span: int)

  /** Fixed elapsed durations, longest first. */
  const UNITS := [Unit("y", 365 * DAY), Unit("mo", 30 * DAY), Unit("w", 7 * DAY), Unit("d", DAY), Unit("h", HOUR), Unit("m", MINUTE)]

  // Text.

  predicate IsDigit(c: char) {
    '0' <= c <= '9'
  }

  predicate Digits(s: string) {
    s != "" && forall i :: 0 <= i < |s| ==> IsDigit(s[i])
  }

  /** How many digits `s` begins with. */
  function Leading(s: string): (n: nat)
    ensures n <= |s| && forall i :: 0 <= i < n ==> IsDigit(s[i])
    ensures n < |s| ==> !IsDigit(s[n])
  {
    if s == "" || !IsDigit(s[0]) then 0 else Leading(s[1..]) + 1
  }

  function DigitValue(c: char): (n: nat)
    requires IsDigit(c)
    ensures n < 10
  {
    c as int - '0' as int
  }

  function Number(s: string): nat
    requires forall i :: 0 <= i < |s| ==> IsDigit(s[i])
  {
    if s == "" then 0 else 10 * Number(s[..|s| - 1]) + DigitValue(s[|s| - 1])
  }

  function Decimal(n: nat): string {
    if n < 10 then [('0' as int + n) as char] else Decimal(n / 10) + [('0' as int + n % 10) as char]
  }

  lemma {:induction false} DecimalNumber(n: nat)
    ensures Digits(Decimal(n)) && Number(Decimal(n)) == n
  {
    if n >= 10 {
      DecimalNumber(n / 10);
      var d := Decimal(n);
      assert d[..|d| - 1] == Decimal(n / 10);
    } else {
      assert Decimal(n)[..0] == "";
    }
  }

  /** The white space that trimming removes. */
  predicate IsSpace(c: char) {
    var u := c as int;
    0x09 <= u <= 0x0D || u == 0x20 || u == 0x85 || u == 0xA0 || u == 0x1680 || 0x2000 <= u <= 0x200A
    || u == 0x2028 || u == 0x2029 || u == 0x202F || u == 0x205F || u == 0x3000
  }

  function Trim(s: string): string
    decreases |s|
  {
    if s == "" then ""
    else if IsSpace(s[0]) then Trim(s[1..])
    else if IsSpace(s[|s| - 1]) then Trim(s[..|s| - 1])
    else s
  }

  function Split(s: string): (parts: seq<string>)
    ensures parts != []
  {
    if s == "" then [""]
    else
      var rest := Split(s[1..]);
      if s[0] == ',' then [""] + rest else [[s[0]] + rest[0]] + rest[1..]
  }

  function Join(parts: seq<string>): string
    requires parts != []
  {
    if |parts| == 1 then parts[0] else parts[0] + "," + Join(parts[1..])
  }

  lemma {:induction false} SplitText(part: string, rest: string)
    requires ',' !in part
    ensures Split(part) == [part]
    ensures Split(part + "," + rest) == [part] + Split(rest)
  {
    var all := part + "," + rest;
    if part == "" {
      assert all == "," + rest && all[1..] == rest;
    } else {
      assert part == [part[0]] + part[1..];
      assert all[1..] == part[1..] + "," + rest;
      assert part[0] in part;
      SplitText(part[1..], rest);
    }
  }

  /** Splitting undoes joining when no part holds a comma. */
  lemma {:induction false} SplitJoin(parts: seq<string>)
    requires parts != [] && forall i :: 0 <= i < |parts| ==> ',' !in parts[i]
    ensures Split(Join(parts)) == parts
  {
    if |parts| == 1 {
      SplitText(parts[0], "");
    } else {
      SplitJoin(parts[1..]);
      SplitText(parts[0], Join(parts[1..]));
    }
  }

  datatype Match = Match(count: string, amount: string, unit: string)

  /** Digits, an `x`, digits and a unit. */
  function MatchTier(s: string): Option<Match> {
    var i := Leading(s);
    if i == 0 || i == |s| || s[i] != 'x' then None
    else
      var rest := s[i + 1..];
      var j := Leading(rest);
      if j == 0 || rest[j..] !in ["mo", "m", "h", "d", "w", "y"] then None
      else Some(Match(s[..i], rest[..j], rest[j..]))
  }

  function SpanOf(name: string): (n: int)
    ensures n > 0
  {
    match name
    case "y" => 365 * DAY
    case "mo" => 30 * DAY
    case "w" => 7 * DAY
    case "d" => DAY
    case "h" => HOUR
    case _ => MINUTE
  }

  // Tiers.

  /** A count and a span, each within its integer width. */
  function Sized(count: nat, amount: nat, unit: int): Result<Bucket>
    requires unit > 0
  {
    if count > MAX_INT32 || count <= 0 then Err("invalid grid count")
    else if amount > MAX_INT64 || amount <= 0 || amount > MAX_INT64 / unit then Err("invalid grid duration")
    else Ok(Bucket(count, amount * unit))
  }

  /** One tier. */
  function ParseTier(part: string): Result<Bucket> {
    var m := MatchTier(Trim(part));
    if m.None? then Err("invalid grid bucket")
    else
      LeadingDigits(Trim(part));
      var count, amount, unit := Number(m.value.count), Number(m.value.amount), SpanOf(m.value.unit);
      Sized(count, amount, unit)
  }

  lemma LeadingDigits(s: string)
    requires MatchTier(s).Some?
    ensures forall i :: 0 <= i < |MatchTier(s).value.count| ==> IsDigit(MatchTier(s).value.count[i])
    ensures forall i :: 0 <= i < |MatchTier(s).value.amount| ==> IsDigit(MatchTier(s).value.amount[i])
  {}

  datatype Read = Read(buckets: seq<Bucket>, horizon: int)

  /** One more tier, if the horizon stays in range. */
  function AddTier(r: Read, b: Bucket): Result<Read>
    requires b.span > 0
  {
    if b.count > (MAX_INT64 - r.horizon) / b.span then Err("grid horizon overflows time.Duration")
    else Ok(Read(r.buckets + [b], r.horizon + b.count * b.span))
  }

  /** What reading each part gave; a tier that was read is in range. */
  predicate Sane(rs: seq<Result<Bucket>>) {
    forall i :: 0 <= i < |rs| ==> rs[i].Ok? ==> ValidTier(rs[i].value)
  }

  /** The tiers in their written order, with the horizon checked as it grows. */
  function ReadTiers(rs: seq<Result<Bucket>>): Result<Read>
    requires Sane(rs)
  {
    if rs == [] then Ok(Read([], 0))
    else
      var before, tier := ReadTiers(rs[..|rs| - 1]), rs[|rs| - 1];
      if before.Err? then before
      else if tier.Err? then Err(tier.reason)
      else AddTier(before.value, tier.value)
  }

  /** The sum of count times span. */
  function Total(buckets: seq<Bucket>): int {
    if buckets == [] then 0 else Total(buckets[..|buckets| - 1]) + buckets[|buckets| - 1].count * buckets[|buckets| - 1].span
  }

  /** What one bucket counts for a span. */
  function Share(b: Bucket, span: int): int {
    if b.span == span then b.count else 0
  }

  /** How many windows of one span. */
  function CountAt(buckets: seq<Bucket>, span: int): int {
    if buckets == [] then 0
    else CountAt(buckets[..|buckets| - 1], span) + Share(buckets[|buckets| - 1], span)
  }

  predicate Positive(buckets: seq<Bucket>) {
    forall i :: 0 <= i < |buckets| ==> buckets[i].count > 0 && buckets[i].span > 0
  }

  predicate Increasing(buckets: seq<Bucket>) {
    forall i, j :: 0 <= i < j < |buckets| ==> buckets[i].span < buckets[j].span
  }

  /** A duration the parser can have read: a whole number of minutes in range. */
  predicate ValidSpan(span: int) {
    0 < span <= MAX_INT64 && span % MINUTE == 0
  }

  predicate ValidTier(b: Bucket) {
    0 < b.count <= MAX_INT32 && ValidSpan(b.span)
  }

  /** A parsed tier is in range. */
  lemma TierValid(part: string)
    requires ParseTier(part).Ok?
    ensures ValidTier(ParseTier(part).value)
  {
    var m := MatchTier(Trim(part)).value;
    LeadingDigits(Trim(part));
    ProductFits(Number(m.amount), SpanOf(m.unit));
  }

  lemma ProductFits(amount: int, unit: int)
    requires 0 < unit && unit % MINUTE == 0 && 0 < amount <= MAX_INT64 / unit
    ensures ValidSpan(amount * unit)
  {
    var k, most := unit / MINUTE, MAX_INT64 / unit;
    assert unit == MINUTE * k;
    Associate(amount, MINUTE, k);
    DivideExact(amount * k, MINUTE);
    Scales(unit, amount, most);
    Commute(most, unit);
  }

  lemma Associate(a: int, m: int, k: int)
    ensures a * (m * k) == m * (a * k)
  {}

  lemma Commute(a: int, b: int)
    ensures a * b == b * a
  {}

  lemma Scales(m: int, a: int, b: int)
    requires m > 0 && a <= b
    ensures a * m <= b * m && m * a <= m * b
  {}

  lemma Separates(m: int, d: int)
    requires m > 0
    ensures d >= 1 ==> m * d >= m
    ensures d <= -1 ==> m * d <= -m
  {}

  lemma Distribute(m: int, a: int, b: int)
    ensures m * (a - b) == m * a - m * b
    ensures (a + b) * m == a * m + b * m
  {}

  lemma DivideExact(k: int, m: int)
    requires m > 0
    ensures (m * k) / m == k && (m * k) % m == 0
  {
    var q := (m * k) / m;
    Distribute(m, k, q);
    Separates(m, k - q);
  }

  function Results(parts: seq<string>): seq<Result<Bucket>> {
    seq(|parts|, i requires 0 <= i < |parts| => ParseTier(parts[i]))
  }

  lemma ResultsSane(parts: seq<string>)
    ensures Sane(Results(parts))
  {
    forall i | 0 <= i < |parts| && ParseTier(parts[i]).Ok? ensures ValidTier(ParseTier(parts[i]).value) {
      TierValid(parts[i]);
    }
  }

  predicate AllRead(rs: seq<Result<Bucket>>) {
    forall i :: 0 <= i < |rs| ==> rs[i].Ok?
  }

  function Tiers(rs: seq<Result<Bucket>>): seq<Bucket>
    requires AllRead(rs)
  {
    seq(|rs|, i requires 0 <= i < |rs| => rs[i].value)
  }

  /** The check that guards the sum: count may not exceed the rest over span. */
  lemma FitsRest(count: int, rest: int, span: int)
    requires span > 0 && count > 0
    ensures count > rest / span <==> count * span > rest
  {
    var q := rest / span;
    if count > q {
      Scales(span, q + 1, count);
      Distribute(span, q, 1);
    } else {
      Scales(span, count, q);
    }
  }

  lemma {:induction false} TotalNatural(buckets: seq<Bucket>)
    requires Positive(buckets)
    ensures Total(buckets) >= 0
  {
    if buckets != [] {
      TotalNatural(buckets[..|buckets| - 1]);
      Separates(buckets[|buckets| - 1].span, buckets[|buckets| - 1].count);
    }
  }

  /** The tiers are accepted exactly when each reads and their sum is in range. */
  lemma {:induction false} ReadIff(rs: seq<Result<Bucket>>)
    requires Sane(rs)
    ensures ReadTiers(rs).Ok? <==> AllRead(rs) && Total(Tiers(rs)) <= MAX_INT64
    ensures ReadTiers(rs).Ok? ==> ReadTiers(rs).value == Read(Tiers(rs), Total(Tiers(rs)))
  {
    if rs != [] {
      var front, last := rs[..|rs| - 1], rs[|rs| - 1];
      ReadIff(front);
      assert rs == front + [last];
      if AllRead(front) && last.Ok? {
        assert Tiers(rs)[..|rs| - 1] == Tiers(front);
        assert Tiers(rs) == Tiers(front) + [last.value];
        AddTierFits(Tiers(front), last.value);
      }
    }
  }

  lemma AddTierFits(tiers: seq<Bucket>, b: Bucket)
    requires Positive(tiers) && ValidTier(b)
    ensures Total(tiers) > MAX_INT64 ==> Total(tiers) + b.count * b.span > MAX_INT64
    ensures AddTier(Read(tiers, Total(tiers)), b).Ok? <==> Total(tiers) + b.count * b.span <= MAX_INT64
  {
    TotalNatural(tiers);
    FitsRest(b.count, MAX_INT64 - Total(tiers), b.span);
    Separates(b.span, b.count);
  }

  // The canonical list.

  /** Adds a tier to a list ordered by span, merging equal spans. */
  function Insert(sorted: seq<Bucket>, b: Bucket): seq<Bucket> {
    if sorted == [] then [b]
    else
      var front, last := sorted[..|sorted| - 1], sorted[|sorted| - 1];
      if last.span < b.span then sorted + [b]
      else if last.span == b.span then front + [Bucket(last.count + b.count, b.span)]
      else Insert(front, b) + [last]
  }

  function Canon(buckets: seq<Bucket>): seq<Bucket> {
    if buckets == [] then [] else Insert(Canon(buckets[..|buckets| - 1]), buckets[|buckets| - 1])
  }

  lemma CountAppend(buckets: seq<Bucket>, b: Bucket, span: int)
    ensures CountAt(buckets + [b], span) == CountAt(buckets, span) + Share(b, span)
  {
    assert (buckets + [b])[..|buckets|] == buckets;
  }

  /** The last bucket takes in one of its own span. */
  lemma MergeCounts(sorted: seq<Bucket>, b: Bucket, span: int)
    requires sorted != [] && sorted[|sorted| - 1].span == b.span
    ensures CountAt(sorted[..|sorted| - 1] + [Bucket(sorted[|sorted| - 1].count + b.count, b.span)], span) == CountAt(sorted, span) + Share(b, span)
  {
    var front, last := sorted[..|sorted| - 1], sorted[|sorted| - 1];
    CountAppend(front, Bucket(last.count + b.count, b.span), span);
    assert Share(Bucket(last.count + b.count, b.span), span) == Share(last, span) + Share(b, span);
  }

  /** Or stays last behind an insertion. */
  lemma KeepLastCounts(sorted: seq<Bucket>, more: seq<Bucket>, b: Bucket, span: int)
    requires sorted != [] && CountAt(more, span) == CountAt(sorted[..|sorted| - 1], span) + Share(b, span)
    ensures CountAt(more + [sorted[|sorted| - 1]], span) == CountAt(sorted, span) + Share(b, span)
  {
    CountAppend(more, sorted[|sorted| - 1], span);
  }

  /** Inserting into an empty list, or behind the last bucket. */
  lemma AppendCounts(sorted: seq<Bucket>, b: Bucket, span: int)
    requires sorted == [] || sorted[|sorted| - 1].span < b.span
    ensures CountAt(Insert(sorted, b), span) == CountAt(sorted, span) + Share(b, span)
  {
    assert Insert(sorted, b) == sorted + [b];
    CountAppend(sorted, b, span);
  }

  lemma {:induction false} InsertCounts(sorted: seq<Bucket>, b: Bucket, span: int)
    ensures CountAt(Insert(sorted, b), span) == CountAt(sorted, span) + Share(b, span)
    decreases |sorted|
  {
    if sorted == [] || sorted[|sorted| - 1].span < b.span {
      AppendCounts(sorted, b, span);
    } else if sorted[|sorted| - 1].span == b.span {
      MergeCounts(sorted, b, span);
    } else {
      InsertCounts(sorted[..|sorted| - 1], b, span);
      KeepLastCounts(sorted, Insert(sorted[..|sorted| - 1], b), b, span);
    }
  }

  function Weight(b: Bucket): int {
    b.count * b.span
  }

  lemma TotalAppend(buckets: seq<Bucket>, b: Bucket)
    ensures Total(buckets + [b]) == Total(buckets) + Weight(b)
  {
    assert (buckets + [b])[..|buckets|] == buckets;
  }

  lemma {:induction false} InsertTotal(sorted: seq<Bucket>, b: Bucket)
    ensures Total(Insert(sorted, b)) == Total(sorted) + Weight(b)
  {
    if sorted == [] {
      TotalAppend([], b);
      assert [] + [b] == [b];
    } else {
      var front, last := sorted[..|sorted| - 1], sorted[|sorted| - 1];
      if last.span < b.span {
        TotalAppend(sorted, b);
      } else if last.span == b.span {
        TotalAppend(front, Bucket(last.count + b.count, b.span));
        Distribute(b.span, last.count, b.count);
      } else {
        InsertTotal(front, b);
        TotalAppend(Insert(front, b), last);
      }
    }
  }

  predicate SpansBelow(buckets: seq<Bucket>, top: int) {
    forall i :: 0 <= i < |buckets| ==> buckets[i].span < top
  }

  lemma {:induction false} InsertOrdered(sorted: seq<Bucket>, b: Bucket)
    requires Increasing(sorted) && Positive(sorted) && b.count > 0 && b.span > 0
    ensures Increasing(Insert(sorted, b)) && Positive(Insert(sorted, b))
    ensures forall top :: SpansBelow(sorted, top) && b.span < top ==> SpansBelow(Insert(sorted, b), top)
  {
    if sorted != [] {
      var front, last := sorted[..|sorted| - 1], sorted[|sorted| - 1];
      if last.span > b.span {
        InsertOrdered(front, b);
        assert SpansBelow(front, last.span);
        assert SpansBelow(Insert(front, b), last.span);
        forall top | SpansBelow(sorted, top) && b.span < top ensures SpansBelow(Insert(sorted, b), top) {
          assert SpansBelow(front, top);
          assert SpansBelow(Insert(front, b), top);
        }
      }
    }
  }

  lemma {:induction false} CanonFacts(buckets: seq<Bucket>, span: int)
    requires Positive(buckets)
    ensures Increasing(Canon(buckets)) && Positive(Canon(buckets))
    ensures CountAt(Canon(buckets), span) == CountAt(buckets, span)
    ensures Total(Canon(buckets)) == Total(buckets)
  {
    if buckets != [] {
      var front, last := buckets[..|buckets| - 1], buckets[|buckets| - 1];
      CanonFacts(front, span);
      InsertOrdered(Canon(front), last);
      InsertCounts(Canon(front), last, span);
      InsertTotal(Canon(front), last);
    }
  }

  lemma {:induction false} CountAbove(buckets: seq<Bucket>, span: int)
    requires SpansBelow(buckets, span)
    ensures CountAt(buckets, span) == 0
  {
    if buckets != [] {
      CountAbove(buckets[..|buckets| - 1], span);
    }
  }

  ghost predicate SameCounts(a: seq<Bucket>, b: seq<Bucket>) {
    forall span :: CountAt(a, span) == CountAt(b, span)
  }

  /** In an ordered list the last tier is the only one of its span. */
  lemma LastCount(a: seq<Bucket>)
    requires a != [] && Increasing(a)
    ensures CountAt(a, a[|a| - 1].span) == a[|a| - 1].count
    ensures forall span :: span > a[|a| - 1].span ==> CountAt(a, span) == 0
  {
    var front, last := a[..|a| - 1], a[|a| - 1];
    CountAbove(front, last.span);
    forall span | span > last.span ensures CountAt(a, span) == 0 {
      assert SpansBelow(a, span) by {
        forall i | 0 <= i < |a| ensures a[i].span < span {
          assert i < |a| - 1 ==> a[i].span < last.span;
        }
      }
      CountAbove(a, span);
    }
  }

  /** An ordered list is determined by how many windows it has of each span. */
  lemma {:induction false} CanonUnique(a: seq<Bucket>, b: seq<Bucket>)
    requires Increasing(a) && Positive(a) && Increasing(b) && Positive(b) && SameCounts(a, b)
    ensures a == b
    decreases |a|
  {
    if b != [] {
      LastCount(b);
    }
    if a != [] {
      LastCount(a);
      assert CountAt(b, a[|a| - 1].span) == a[|a| - 1].count;
      assert CountAt(a, b[|b| - 1].span) == b[|b| - 1].count;
      var front, rest := a[..|a| - 1], b[..|b| - 1];
      assert a[|a| - 1] == b[|b| - 1];
      forall span ensures CountAt(front, span) == CountAt(rest, span) {
        assert CountAt(a, span) == CountAt(b, span);
      }
      CanonUnique(front, rest);
      assert a == front + [a[|a| - 1]] && b == rest + [b[|b| - 1]];
    }
  }

  // Permutations.

  function Map<A, B>(f: A -> B, xs: seq<A>): seq<B> {
    seq(|xs|, i requires 0 <= i < |xs| => f(xs[i]))
  }

  function Without<A>(xs: seq<A>, j: nat): seq<A>
    requires j < |xs|
  {
    xs[..j] + xs[j + 1..]
  }

  lemma WithoutMultiset<A>(xs: seq<A>, j: nat)
    requires j < |xs|
    ensures multiset(xs) == multiset(Without(xs, j)) + multiset{xs[j]}
  {
    assert xs == xs[..j] + [xs[j]] + xs[j + 1..];
  }

  lemma CancelOne<A>(x: multiset<A>, y: multiset<A>, e: A)
    requires x + multiset{e} == y + multiset{e}
    ensures x == y
  {
    assert x == (x + multiset{e}) - multiset{e};
  }

  /** The last element of one permutation stands somewhere in the other, and the rests are permutations. */
  lemma Peel<A>(a: seq<A>, b: seq<A>) returns (j: nat)
    requires a != [] && multiset(a) == multiset(b)
    ensures j < |b| && b[j] == a[|a| - 1] && multiset(Without(b, j)) == multiset(a[..|a| - 1])
  {
    var last := a[|a| - 1];
    assert last in multiset(a);
    assert last in b;
    j :| 0 <= j < |b| && b[j] == last;
    WithoutMultiset(b, j);
    WithoutMultiset(a, |a| - 1);
    assert Without(a, |a| - 1) == a[..|a| - 1];
    CancelOne(multiset(Without(b, j)), multiset(a[..|a| - 1]), last);
  }

  lemma {:induction false} MapPermuted<A, B>(f: A -> B, a: seq<A>, b: seq<A>)
    requires multiset(a) == multiset(b)
    ensures multiset(Map(f, a)) == multiset(Map(f, b))
    decreases |a|
  {
    if a == [] {
      assert |multiset(b)| == 0;
    } else {
      var j := Peel(a, b);
      MapPermuted(f, a[..|a| - 1], Without(b, j));
      WithoutMultiset(Map(f, a), |a| - 1);
      WithoutMultiset(Map(f, b), j);
      assert Without(Map(f, a), |a| - 1) == Map(f, a[..|a| - 1]);
      assert Without(Map(f, b), j) == Map(f, Without(b, j));
    }
  }

  lemma {:induction false} CountWithout(bs: seq<Bucket>, j: nat, span: int)
    requires j < |bs|
    ensures CountAt(bs, span) == CountAt(Without(bs, j), span) + if bs[j].span == span then bs[j].count else 0
    ensures Total(bs) == Total(Without(bs, j)) + Weight(bs[j])
  {
    var front, last := bs[..|bs| - 1], bs[|bs| - 1];
    if j == |bs| - 1 {
      assert Without(bs, j) == front;
    } else {
      CountWithout(front, j, span);
      assert Without(bs, j) == Without(front, j) + [last];
      CountAppend(Without(front, j), last, span);
      TotalAppend(Without(front, j), last);
    }
  }

  lemma {:induction false} CountPermuted(a: seq<Bucket>, b: seq<Bucket>, span: int)
    requires multiset(a) == multiset(b)
    ensures CountAt(a, span) == CountAt(b, span) && Total(a) == Total(b)
    decreases |a|
  {
    if a == [] {
      assert |multiset(b)| == 0;
    } else {
      var j := Peel(a, b);
      CountPermuted(a[..|a| - 1], Without(b, j), span);
      CountWithout(b, j, span);
    }
  }

  lemma CanonPermuted(a: seq<Bucket>, b: seq<Bucket>)
    requires Positive(a) && Positive(b) && multiset(a) == multiset(b)
    ensures Canon(a) == Canon(b) && Total(a) == Total(b)
  {
    forall span ensures CountAt(Canon(a), span) == CountAt(Canon(b), span) {
      CanonFacts(a, span);
      CanonFacts(b, span);
      CountPermuted(a, b, span);
    }
    CanonFacts(a, 0);
    CanonFacts(b, 0);
    CountPermuted(a, b, 0);
    CanonUnique(Canon(a), Canon(b));
  }

  // The whole parser.

  /** The first unit that divides the span; minutes divide every span read. */
  function UnitFor(span: int): (u: Unit)
    ensures u in UNITS
    ensures ValidSpan(span) ==> span % u.span == 0
  {
    if span % UNITS[0].span == 0 then UNITS[0]
    else if span % UNITS[1].span == 0 then UNITS[1]
    else if span % UNITS[2].span == 0 then UNITS[2]
    else if span % UNITS[3].span == 0 then UNITS[3]
    else if span % UNITS[4].span == 0 then UNITS[4]
    else UNITS[5]
  }

  function Printed(n: int): string {
    if n < 0 then "-" + Decimal(-n) else Decimal(n)
  }

  function TierText(b: Bucket): string {
    var u := UnitFor(b.span);
    Printed(b.count) + "x" + Printed(b.span / u.span) + u.name
  }

  function GridText(buckets: seq<Bucket>): string {
    if buckets == [] then "" else Join(Map(TierText, buckets))
  }

  function Parse(value: string): Result<Grid> {
    var rs := Results(Split(value));
    ResultsSane(Split(value));
    var r := ReadTiers(rs);
    if r.Err? then Err(r.reason)
    else
      var buckets := Canon(r.value.buckets);
      Ok(Grid(buckets, GridText(buckets), r.value.horizon))
  }

  /** Parsing in terms of what each tier reads as. */
  lemma ParseFrom(value: string)
    ensures var rs := Results(Split(value));
      && Sane(rs)
      && (Parse(value).Ok? <==> AllRead(rs) && Total(Tiers(rs)) <= MAX_INT64)
      && (Parse(value).Ok? ==> Parse(value).value == Grid(Canon(Tiers(rs)), GridText(Canon(Tiers(rs))), Total(Tiers(rs))))
  {
    ResultsSane(Split(value));
    ReadIff(Results(Split(value)));
  }

  /** A grid is accepted exactly when every tier reads and the windows together
      fit the range; it then has the same windows of each span, ordered by span,
      and a horizon that is their sum. */
  lemma ParseMeaning(value: string)
    ensures var rs := Results(Split(value));
      Parse(value).Ok? <==> AllRead(rs) && Total(Tiers(rs)) <= MAX_INT64
    ensures var rs := Results(Split(value));
      Parse(value).Ok? ==>
        var g := Parse(value).value;
        && Increasing(g.buckets) && Positive(g.buckets) && g.buckets != []
        && SameCounts(g.buckets, Tiers(rs))
        && g.horizon == Total(g.buckets) == Total(Tiers(rs)) <= MAX_INT64
  {
    ParseFrom(value);
    if Parse(value).Ok? {
      CanonMeaning(Tiers(Results(Split(value))));
    }
  }

  lemma {:induction false} CanonMeaning(tiers: seq<Bucket>)
    requires tiers != [] && Positive(tiers)
    ensures Increasing(Canon(tiers)) && Positive(Canon(tiers)) && Canon(tiers) != []
    ensures SameCounts(Canon(tiers), tiers) && Total(Canon(tiers)) == Total(tiers)
  {
    forall span ensures CountAt(Canon(tiers), span) == CountAt(tiers, span) {
      CanonFacts(tiers, span);
    }
    CanonFacts(tiers, 0);
  }

  /** Written order affects neither acceptance nor the grid. */
  lemma OrderIrrelevant(v: string, w: string)
    requires multiset(Split(v)) == multiset(Split(w))
    ensures Parse(v).Ok? <==> Parse(w).Ok?
    ensures Parse(v).Ok? ==> Parse(v) == Parse(w)
  {
    ParseFrom(v);
    ParseFrom(w);
    ResultsPermuted(Split(v), Split(w));
    ReadsAlike(Results(Split(v)), Results(Split(w)));
  }

  lemma ResultsPermuted(a: seq<string>, b: seq<string>)
    requires multiset(a) == multiset(b)
    ensures multiset(Results(a)) == multiset(Results(b))
  {
    MapPermuted(ParseTier, a, b);
    assert Results(a) == Map(ParseTier, a) && Results(b) == Map(ParseTier, b);
  }

  lemma ReadsAlike(a: seq<Result<Bucket>>, b: seq<Result<Bucket>>)
    requires multiset(a) == multiset(b) && Sane(a) && Sane(b)
    ensures AllRead(a) <==> AllRead(b)
    ensures AllRead(a) ==> Canon(Tiers(a)) == Canon(Tiers(b)) && Total(Tiers(a)) == Total(Tiers(b))
  {
    forall r ensures r in a <==> r in b {
      assert r in multiset(a) <==> r in multiset(b);
    }
    assert AllRead(a) <==> forall r :: r in a ==> r.Ok?;
    assert AllRead(b) <==> forall r :: r in b ==> r.Ok?;
    if AllRead(a) {
      MapPermuted(ValueOf, a, b);
      assert Tiers(a) == Map(ValueOf, a) && Tiers(b) == Map(ValueOf, b);
      CanonPermuted(Tiers(a), Tiers(b));
    }
  }

  function ValueOf(r: Result<Bucket>): Bucket {
    if r.Ok? then r.value else Bucket(0, 0)
  }

  // The canonical text.

  lemma {:induction false} LeadingIs(d: string, rest: string)
    requires forall i :: 0 <= i < |d| ==> IsDigit(d[i])
    requires rest != "" && !IsDigit(rest[0])
    ensures Leading(d + rest) == |d|
  {
    if d == "" {
      assert d + rest == rest;
    } else {
      assert (d + rest)[1..] == d[1..] + rest;
      LeadingIs(d[1..], rest);
    }
  }

  lemma Pieces(c: string, a: string, u: string)
    ensures var s := c + "x" + a + u;
      && s == c + ("x" + a + u) && s[|c|] == 'x' && s[..|c|] == c && s[|c| + 1..] == a + u
      && (a + u)[..|a|] == a && (a + u)[|a|..] == u
  {}

  lemma MatchText(c: string, a: string, u: string)
    requires Digits(c) && Digits(a) && u in ["mo", "m", "h", "d", "w", "y"]
    ensures MatchTier(c + "x" + a + u) == Some(Match(c, a, u))
  {
    Pieces(c, a, u);
    assert ("x" + a + u)[0] == 'x';
    LeadingIs(c, "x" + a + u);
    LeadingIs(a, u);
  }

  lemma TextPlain(c: string, a: string, u: string)
    requires Digits(c) && Digits(a) && u in ["mo", "m", "h", "d", "w", "y"]
    ensures Trim(c + "x" + a + u) == c + "x" + a + u
    ensures ',' !in c + "x" + a + u
  {
    var s := c + "x" + a + u;
    assert s[0] == c[0] && IsDigit(c[0]);
    assert s[|s| - 1] == u[|u| - 1];
    forall i | 0 <= i < |s| ensures s[i] != ',' {
      if i < |c| {
        assert s[i] == c[i];
      } else if |c| < i < |c| + 1 + |a| {
        assert s[i] == a[i - |c| - 1];
      }
    }
  }

  /** A tier in range reads back from its own text. */
  lemma TierRoundTrip(b: Bucket)
    requires ValidTier(b)
    ensures ParseTier(TierText(b)) == Ok(b) && ',' !in TierText(b)
  {
    var u := UnitFor(b.span);
    UnitDivides(b.span);
    var amount := b.span / u.span;
    DecimalNumber(b.count);
    DecimalNumber(amount);
    MatchText(Decimal(b.count), Decimal(amount), u.name);
    TextPlain(Decimal(b.count), Decimal(amount), u.name);
  }

  lemma UnitDivides(span: int)
    requires ValidSpan(span)
    ensures var u := UnitFor(span);
      && u.name in ["mo", "m", "h", "d", "w", "y"] && SpanOf(u.name) == u.span > 0
      && 0 < span / u.span <= MAX_INT64 / u.span && span / u.span <= MAX_INT64 && (span / u.span) * u.span == span
  {
    var u := UnitFor(span);
    UnitIsKnown(u);
    Divided(span, u.span, MAX_INT64);
  }

  lemma UnitIsKnown(u: Unit)
    requires u in UNITS
    ensures u.name in ["mo", "m", "h", "d", "w", "y"] && SpanOf(u.name) == u.span > 0
  {
    var i :| 0 <= i < |UNITS| && UNITS[i] == u;
    if i == 0 {
      assert u == Unit("y", 365 * DAY);
    } else if i == 1 {
      assert u == Unit("mo", 30 * DAY);
    } else if i == 2 {
      assert u == Unit("w", 7 * DAY);
    } else if i == 3 {
      assert u == Unit("d", DAY);
    } else if i == 4 {
      assert u == Unit("h", HOUR);
    } else {
      assert u == Unit("m", MINUTE);
    }
  }

  /** A whole number of units is no larger than what it is made of, nor than what
      fits below a bound on that. */
  lemma Divided(span: int, unit: int, top: int)
    requires 0 < span <= top && 0 < unit && span % unit == 0
    ensures 0 < span / unit <= top / unit && span / unit <= top && (span / unit) * unit == span
  {
    var q, t := span / unit, top / unit;
    assert q * unit == span && t * unit + top % unit == top;
    if q <= 0 {
      Scales(unit, q, 0);
    }
    if t < q {
      Scales(unit, t + 1, q);
    }
    Scales(q, 1, unit);
  }

  /** Spans are minutes at least, so counts that fit the horizon fit 32 bits. */
  lemma {:induction false} CountsFit(buckets: seq<Bucket>, i: nat)
    requires Positive(buckets) && i < |buckets| && ValidSpan(buckets[i].span)
    ensures buckets[i].count * MINUTE <= Total(buckets)
  {
    var front, last := buckets[..|buckets| - 1], buckets[|buckets| - 1];
    TotalNatural(front);
    Separates(last.span, last.count);
    if i < |front| {
      CountsFit(front, i);
    } else {
      Scales(last.count, MINUTE, last.span);
      Commute(last.count, last.span);
    }
  }

  lemma {:induction false} CanonSpans(buckets: seq<Bucket>)
    requires forall i :: 0 <= i < |buckets| ==> ValidSpan(buckets[i].span)
    ensures forall i :: 0 <= i < |Canon(buckets)| ==> ValidSpan(Canon(buckets)[i].span)
  {
    if buckets != [] {
      CanonSpans(buckets[..|buckets| - 1]);
      InsertSpans(Canon(buckets[..|buckets| - 1]), buckets[|buckets| - 1]);
    }
  }

  lemma {:induction false} InsertSpans(sorted: seq<Bucket>, b: Bucket)
    requires ValidSpan(b.span) && forall i :: 0 <= i < |sorted| ==> ValidSpan(sorted[i].span)
    ensures forall i :: 0 <= i < |Insert(sorted, b)| ==> ValidSpan(Insert(sorted, b)[i].span)
  {
    if sorted != [] {
      InsertSpans(sorted[..|sorted| - 1], b);
    }
  }

  /** Every bucket of a grid is a tier the parser accepts: merged counts too fit 32 bits. */
  lemma BucketsValid(value: string, i: nat)
    requires Parse(value).Ok? && i < |Parse(value).value.buckets|
    ensures ValidTier(Parse(value).value.buckets[i])
  {
    ParseFrom(value);
    CanonValid(Tiers(Results(Split(value))), i);
  }

  lemma {:induction false} CanonValid(tiers: seq<Bucket>, i: nat)
    requires tiers != [] && Total(tiers) <= MAX_INT64 && forall j :: 0 <= j < |tiers| ==> ValidTier(tiers[j])
    requires i < |Canon(tiers)|
    ensures ValidTier(Canon(tiers)[i])
  {
    CanonMeaning(tiers);
    CanonSpans(tiers);
    CountsFit(Canon(tiers), i);
  }

  lemma CanonOfCanon(buckets: seq<Bucket>)
    requires Increasing(buckets) && Positive(buckets)
    ensures Canon(buckets) == buckets
  {
    forall span ensures CountAt(Canon(buckets), span) == CountAt(buckets, span) {
      CanonFacts(buckets, span);
    }
    CanonFacts(buckets, 0);
    CanonUnique(Canon(buckets), buckets);
  }

  /** Parsing the canonical text gives the same grid. */
  lemma RoundTrip(value: string)
    requires Parse(value).Ok?
    ensures Parse(Parse(value).value.text) == Parse(value)
  {
    var g := Parse(value).value;
    ParseMeaning(value);
    forall i | 0 <= i < |g.buckets| ensures ValidTier(g.buckets[i]) {
      BucketsValid(value, i);
    }
    ReadBack(g.buckets);
    CanonOfCanon(g.buckets);
  }

  lemma {:induction false} ReadBack(buckets: seq<Bucket>)
    requires buckets != [] && Total(buckets) <= MAX_INT64
    requires forall i :: 0 <= i < |buckets| ==> ValidTier(buckets[i])
    ensures var rs := Results(Split(GridText(buckets)));
      Sane(rs) && ReadTiers(rs) == Ok(Read(buckets, Total(buckets)))
  {
    var parts := Map(TierText, buckets);
    forall i | 0 <= i < |parts| ensures ParseTier(parts[i]) == Ok(buckets[i]) && ',' !in parts[i] {
      TierRoundTrip(buckets[i]);
    }
    SplitJoin(parts);
    ResultsSane(parts);
    assert Tiers(Results(parts)) == buckets;
    ReadIff(Results(parts));
  }

  // The parser's own loops.

  predicate Sorted(buckets: seq<Bucket>) {
    forall i, j :: 0 <= i < j < |buckets| ==> buckets[i].span <= buckets[j].span
  }

  method SortBySpan(buckets: seq<Bucket>) returns (sorted: seq<Bucket>)
    ensures multiset(sorted) == multiset(buckets) && Sorted(sorted)
  {
    sorted := [];
    for n := 0 to |buckets|
      invariant multiset(sorted) == multiset(buckets[..n]) && Sorted(sorted)
    {
      assert buckets[..n + 1] == buckets[..n] + [buckets[n]];
      sorted := InsertSorted(sorted, buckets[n]);
    }
    assert buckets[..|buckets|] == buckets;
  }

  method InsertSorted(sorted: seq<Bucket>, b: Bucket) returns (r: seq<Bucket>)
    requires Sorted(sorted)
    ensures Sorted(r) && multiset(r) == multiset(sorted) + multiset{b}
  {
    var at := |sorted|;
    while at > 0 && sorted[at - 1].span > b.span
      invariant 0 <= at <= |sorted|
      invariant at < |sorted| ==> sorted[at].span > b.span
    {
      at := at - 1;
    }
    InsertedSorted(sorted, b, at);
    InsertedMultiset(sorted, b, at);
    r := sorted[..at] + [b] + sorted[at..];
  }

  lemma InsertedSorted(sorted: seq<Bucket>, b: Bucket, at: nat)
    requires Sorted(sorted) && at <= |sorted|
    requires at > 0 ==> sorted[at - 1].span <= b.span
    requires at < |sorted| ==> b.span <= sorted[at].span
    ensures Sorted(sorted[..at] + [b] + sorted[at..])
  {
    var r := sorted[..at] + [b] + sorted[at..];
    forall i, j | 0 <= i < j < |r| ensures r[i].span <= r[j].span {
      assert i < at ==> r[i] == sorted[i];
      assert i > at ==> r[i] == sorted[i - 1];
      assert j < at ==> r[j] == sorted[j];
      assert j > at ==> r[j] == sorted[j - 1];
    }
  }

  lemma InsertedMultiset(sorted: seq<Bucket>, b: Bucket, at: nat)
    requires at <= |sorted|
    ensures multiset(sorted[..at] + [b] + sorted[at..]) == multiset(sorted) + multiset{b}
  {
    assert sorted == sorted[..at] + sorted[at..];
  }

  /** Adds the next tier of a sorted list to the merged ones. */
  method MergeNext(merged: seq<Bucket>, b: Bucket) returns (r: seq<Bucket>)
    requires Increasing(merged) && Positive(merged) && b.count > 0 && b.span > 0
    requires merged != [] ==> merged[|merged| - 1].span <= b.span
    ensures Increasing(r) && Positive(r) && r != [] && r[|r| - 1].span == b.span
    ensures forall span :: CountAt(r, span) == CountAt(merged, span) + if b.span == span then b.count else 0
  {
    var last := |merged| - 1;
    if |merged| > 0 && merged[last].span == b.span {
      r := merged[last := Bucket(merged[last].count + b.count, b.span)];
      assert r[..last] == merged[..last];
    } else {
      r := merged + [b];
      assert r[..|merged|] == merged;
    }
  }

  method MergeSpans(sorted: seq<Bucket>) returns (merged: seq<Bucket>)
    requires Positive(sorted)
    requires Sorted(sorted)
    ensures Increasing(merged) && Positive(merged) && SameCounts(merged, sorted)
  {
    merged := [];
    for i := 0 to |sorted|
      invariant Increasing(merged) && Positive(merged) && SameCounts(merged, sorted[..i])
      invariant merged != [] ==> i > 0 && merged[|merged| - 1].span == sorted[i - 1].span
    {
      ghost var before := merged;
      merged := MergeNext(merged, sorted[i]);
      assert sorted[..i + 1] == sorted[..i] + [sorted[i]];
      forall span ensures CountAt(merged, span) == CountAt(sorted[..i + 1], span) {
        CountAppend(sorted[..i], sorted[i], span);
        assert CountAt(before, span) == CountAt(sorted[..i], span);
      }
    }
    assert sorted[..|sorted|] == sorted;
  }

  method ChooseUnit(span: int) returns (u: Unit)
    requires ValidSpan(span)
    ensures u == UnitFor(span)
  {
    var k := 0;
    while k < 5 && span % UNITS[k].span != 0
      invariant 0 <= k <= 5 && forall i :: 0 <= i < k ==> span % UNITS[i].span != 0
    {
      k := k + 1;
    }
    return UNITS[k];
  }

  method FormatTier(b: Bucket) returns (text: string)
    requires ValidTier(b)
    ensures text == TierText(b)
  {
    var unit := ChooseUnit(b.span);
    text := Printed(b.count) + "x" + Printed(b.span / unit.span) + unit.name;
  }

  method FormatTiers(buckets: seq<Bucket>) returns (canonical: seq<string>)
    requires forall i :: 0 <= i < |buckets| ==> ValidTier(buckets[i])
    ensures canonical == Map(TierText, buckets)
  {
    canonical := [];
    for n := 0 to |buckets|
      invariant |canonical| == n && forall i :: 0 <= i < n ==> canonical[i] == TierText(buckets[i])
    {
      assert ValidTier(buckets[n]);
      var text := FormatTier(buckets[n]);
      canonical := canonical + [text];
    }
  }

  lemma {:induction false} ReadFails(rs: seq<Result<Bucket>>, n: nat)
    requires Sane(rs) && n <= |rs| && Sane(rs[..n]) && ReadTiers(rs[..n]).Err?
    ensures ReadTiers(rs) == ReadTiers(rs[..n])
    decreases |rs|
  {
    if n == |rs| {
      assert rs[..n] == rs;
    } else {
      assert rs[..|rs| - 1][..n] == rs[..n];
      ReadFails(rs[..|rs| - 1], n);
    }
  }

  lemma ReadNext(rs: seq<Result<Bucket>>, n: nat)
    requires Sane(rs) && n < |rs|
    ensures Sane(rs[..n]) && Sane(rs[..n + 1])
    ensures ReadTiers(rs[..n]).Ok? ==>
      ReadTiers(rs[..n + 1]) == if rs[n].Err? then Err(rs[n].reason) else AddTier(ReadTiers(rs[..n]).value, rs[n].value)
  {
    assert rs[..n + 1][..n] == rs[..n];
  }

  /** Reads the tiers in order, up to the first that fails. */
  method ReadParts(rs: seq<Result<Bucket>>) returns (r: Result<Read>)
    requires Sane(rs)
    ensures r == ReadTiers(rs)
  {
    var read := Read([], 0);
    for n := 0 to |rs|
      invariant ReadTiers(rs[..n]) == Ok(read)
    {
      ReadNext(rs, n);
      if rs[n].Err? {
        ReadFails(rs, n + 1);
        return Err(rs[n].reason);
      }
      var next := AddTier(read, rs[n].value);
      if next.Err? {
        ReadFails(rs, n + 1);
        return next;
      }
      read := next.value;
    }
    assert rs[..|rs|] == rs;
    return Ok(read);
  }

  method ParseGrid(value: string) returns (r: Result<Grid>)
    ensures r == Parse(value)
  {
    var rs := Results(Split(value));
    ResultsSane(Split(value));
    var read := ReadParts(rs);
    if read.Err? {
      return Err(read.reason);
    }
    var buckets := read.value.buckets;
    ReadIff(rs);
    CanonMeaning(buckets);
    var merged := SortAndMerge(buckets);
    forall i | 0 <= i < |merged| ensures ValidTier(merged[i]) {
      CanonValid(buckets, i);
    }
    var canonical := FormatTiers(merged);
    return Ok(Grid(merged, Join(canonical), read.value.horizon));
  }

  method SortAndMerge(buckets: seq<Bucket>) returns (merged: seq<Bucket>)
    requires Positive(buckets)
    ensures merged == Canon(buckets)
  {
    var sorted := SortBySpan(buckets);
    SortedPositive(buckets, sorted);
    merged := MergeSpans(sorted);
    MergedIsCanon(buckets, sorted, merged);
  }

  lemma SortedPositive(buckets: seq<Bucket>, sorted: seq<Bucket>)
    requires Positive(buckets) && multiset(sorted) == multiset(buckets)
    ensures Positive(sorted)
  {
    forall i | 0 <= i < |sorted| ensures sorted[i].count > 0 && sorted[i].span > 0 {
      assert sorted[i] in multiset(sorted);
      assert sorted[i] in buckets;
    }
  }

  lemma MergedIsCanon(buckets: seq<Bucket>, sorted: seq<Bucket>, merged: seq<Bucket>)
    requires Positive(buckets) && multiset(sorted) == multiset(buckets)
    requires Increasing(merged) && Positive(merged) && SameCounts(merged, sorted)
    ensures merged == Canon(buckets)
  {
    forall span ensures CountAt(merged, span) == CountAt(Canon(buckets), span) {
      CountPermuted(sorted, buckets, span);
      CanonFacts(buckets, span);
    }
    CanonFacts(buckets, 0);
    CanonUnique(merged, Canon(buckets));
  }
}
