/** The grammar of a tier: exactly which texts read as a bucket, and as which. */
module Grammar {
  import opened Names
  import opened Grid

  /** The characters with the Unicode property White_Space. */
  const BLANKS := {0x09, 0x0A, 0x0B, 0x0C, 0x0D, 0x20, 0x85, 0xA0, 0x1680, 0x2000, 0x2001, 0x2002, 0x2003, 0x2004, 0x2005, 0x2006,
                   0x2007, 0x2008, 0x2009, 0x200A, 0x2028, 0x2029, 0x202F, 0x205F, 0x3000}

  /** The units and their nanoseconds. */
  const LENGTHS := map["m" := 60_000_000_000, "h" := 3_600_000_000_000, "d" := 86_400_000_000_000, "w" := 604_800_000_000_000,
                       "mo" := 2_592_000_000_000_000, "y" := 31_536_000_000_000_000]

  lemma SpaceIsBlank(c: char)
    ensures IsSpace(c) <==> c as int in BLANKS
  {}

  predicate Blank(s: string) {
    forall i :: 0 <= i < |s| ==> IsSpace(s[i])
  }

  predicate Bare(t: string) {
    t == "" || (!IsSpace(t[0]) && !IsSpace(t[|t| - 1]))
  }

  predicate Around(s: string, t: string, a: string, b: string) {
    Blank(a) && Blank(b) && s == a + t + b
  }

  lemma AroundLeft(c: char, s: string, t: string, a: string, b: string)
    requires IsSpace(c) && Around(s, t, a, b)
    ensures Around([c] + s, t, [c] + a, b)
  {}

  lemma AroundRight(c: char, s: string, t: string, a: string, b: string)
    requires IsSpace(c) && Around(s, t, a, b)
    ensures Around(s + [c], t, a, b + [c])
  {}

  lemma {:induction false} TrimTakes(s: string) returns (a: string, b: string)
    ensures Around(s, Trim(s), a, b) && Bare(Trim(s))
    decreases |s|
  {
    if s != "" && IsSpace(s[0]) {
      a, b := TrimTakes(s[1..]);
      AroundLeft(s[0], s[1..], Trim(s), a, b);
      assert s == [s[0]] + s[1..];
      a := [s[0]] + a;
    } else if s != "" && IsSpace(s[|s| - 1]) {
      a, b := TrimTakes(s[..|s| - 1]);
      AroundRight(s[|s| - 1], s[..|s| - 1], Trim(s), a, b);
      assert s == s[..|s| - 1] + [s[|s| - 1]];
      b := b + [s[|s| - 1]];
    } else {
      a, b := "", "";
    }
  }

  lemma {:induction false} TrimOf(a: string, t: string, b: string)
    requires Blank(a) && Blank(b) && Bare(t)
    ensures Trim(a + t + b) == t
    decreases |a| + |b|
  {
    var s := a + t + b;
    if s != "" {
      if a != "" {
        assert s[1..] == a[1..] + t + b;
        TrimOf(a[1..], t, b);
      } else if b != "" {
        if t == "" {
          assert s[1..] == "" + t + b[1..];
          TrimOf("", t, b[1..]);
        } else {
          assert s[..|s| - 1] == "" + t + b[..|b| - 1];
          TrimOf("", t, b[..|b| - 1]);
        }
      }
    }
  }

  /** Trimming takes white space from both ends, and all of it. */
  lemma TrimExactly(s: string, t: string)
    ensures Trim(s) == t <==> Bare(t) && exists a, b :: Around(s, t, a, b)
  {
    var a, b := TrimTakes(s);
    if Bare(t) && exists a, b :: Around(s, t, a, b) {
      var x, y :| Around(s, t, x, y);
      TrimOf(x, t, y);
    }
  }

  predicate Spells(t: string, count: string, amount: string, unit: string) {
    Digits(count) && Digits(amount) && unit in LENGTHS && t == count + "x" + amount + unit
  }

  lemma SpanLength(unit: string)
    ensures unit in ["mo", "m", "h", "d", "w", "y"] <==> unit in LENGTHS
    ensures unit in LENGTHS ==> SpanOf(unit) == LENGTHS[unit]
  {}

  lemma Cut(t: string, i: nat)
    requires i < |t|
    ensures t == t[..i] + [t[i]] + t[i + 1..]
  {}

  /** The text that digits, an `x`, digits and whatever is left make up. */
  lemma TextOf(t: string, i: nat, j: nat)
    requires i < |t| && t[i] == 'x' && i + 1 + j <= |t|
    ensures t == t[..i] + "x" + t[i + 1..][..j] + t[i + 1..][j..]
  {
    var rest := t[i + 1..];
    Cut(t, i);
    assert [t[i]] == "x";
    assert rest == rest[..j] + rest[j..];
    Associates(t[..i] + "x", rest[..j], rest[j..]);
  }

  lemma MatchPieces(t: string)
    requires MatchTier(t).Some?
    ensures var m := MatchTier(t).value; Digits(m.count) && Digits(m.amount) && t == m.count + "x" + m.amount + m.unit
  {
    var i := Leading(t);
    TextOf(t, i, Leading(t[i + 1..]));
  }

  lemma MatchUnit(t: string)
    requires MatchTier(t).Some?
    ensures MatchTier(t).value.unit in LENGTHS
  {
    SpanLength(MatchTier(t).value.unit);
  }

  lemma Associates(a: string, b: string, c: string)
    ensures a + (b + c) == a + b + c
  {}

  lemma MatchSpells(t: string)
    requires MatchTier(t).Some?
    ensures var m := MatchTier(t).value; Spells(t, m.count, m.amount, m.unit)
  {
    MatchPieces(t);
    MatchUnit(t);
  }

  lemma SpelledMatches(t: string, count: string, amount: string, unit: string)
    requires Spells(t, count, amount, unit)
    ensures MatchTier(t) == Some(Match(count, amount, unit))
  {
    SpanLength(unit);
    MatchText(count, amount, unit);
  }

  lemma WithinExact(amount: nat, unit: int)
    requires 0 < unit <= MAX_INT64
    ensures amount > MAX_INT64 || amount > MAX_INT64 / unit <==> amount * unit > MAX_INT64
  {
    var most := MAX_INT64 / unit;
    if amount <= most { Scales(unit, amount, most); } else { Scales(unit, most + 1, amount); }
    Commute(most, unit);
  }

  /** So many windows of so many units, as 32 and 64 signed bits hold them. */
  predicate Within(b: Bucket, count: nat, amount: nat, unit: int) {
    b == Bucket(count, amount * unit) && 0 < b.count <= 0x7FFF_FFFF && 0 < b.span <= 0x7FFF_FFFF_FFFF_FFFF
  }

  /** What a tier's text means. */
  ghost predicate Means(t: string, b: Bucket) {
    exists count, amount, unit :: Spells(t, count, amount, unit) && Within(b, Number(count), Number(amount), LENGTHS[unit])
  }

  /** A tier reads as a bucket exactly when, but for white space around it, it is a
      count, an `x`, an amount and a unit that mean the bucket and fit their widths. */
  lemma TierExactly(part: string, b: Bucket)
    ensures ParseTier(part) == Ok(b) <==> Means(Trim(part), b)
  {
    var t := Trim(part);
    if MatchTier(t).Some? {
      var m := MatchTier(t).value;
      MatchSpells(t);
      SpanLength(m.unit);
      TierReads(part, m, b);
    }
    if Means(t, b) {
      var count, amount, unit :| Spells(t, count, amount, unit) && Within(b, Number(count), Number(amount), LENGTHS[unit]);
      SpelledMatches(t, count, amount, unit);
    }
  }

  lemma ReadFits(count: nat, amount: nat, unit: int, b: Bucket)
    requires 0 < unit <= MAX_INT64
    ensures Sized(count, amount, unit) == Ok(b) <==> Within(b, count, amount, unit)
  {
    WithinExact(amount, unit);
    if amount > 0 { Scales(unit, 1, amount); }
  }

  lemma ParseIsSized(part: string, m: Match)
    requires MatchTier(Trim(part)) == Some(m) && Digits(m.count) && Digits(m.amount)
    ensures ParseTier(part) == Sized(Number(m.count), Number(m.amount), SpanOf(m.unit))
  {}

  lemma TierReads(part: string, m: Match, b: Bucket)
    requires MatchTier(Trim(part)) == Some(m) && Spells(Trim(part), m.count, m.amount, m.unit)
    ensures ParseTier(part) == Ok(b) <==> Within(b, Number(m.count), Number(m.amount), LENGTHS[m.unit])
  {
    ParseIsSized(part, m);
    SpanLength(m.unit);
    ReadFits(Number(m.count), Number(m.amount), LENGTHS[m.unit], b);
  }
}
