/** The order on versions and what is decided with it: harness/version.go and harness/support.go. */
module Versions {

  /** What a version string reads as. Empty is an open bound or a missing answer; Unreadable holds no dotted number. */
  datatype Text = Empty | Unreadable | Dotted(parts: seq<nat>)

  /** strconv.Atoi gives the largest int for a number that does not fit, and the error is ignored. */
  const MAX_INT: nat := 0x7fff_ffff_ffff_ffff

  function Component(parts: seq<nat>, i: nat): nat {
    if i >= |parts| then 0 else if parts[i] > MAX_INT then MAX_INT else parts[i]
  }

  ghost predicate SameUpTo(a: seq<nat>, b: seq<nat>, n: nat) {
    forall i :: 0 <= i < n ==> Component(a, i) == Component(b, i)
  }

  ghost predicate DiffersAt(a: seq<nat>, b: seq<nat>, k: nat) {
    SameUpTo(a, b, k) && Component(a, k) < Component(b, k)
  }

  /** Lexicographic order on the components, a missing one counting as 0. */
  ghost predicate Less(a: seq<nat>, b: seq<nat>) {
    exists k: nat :: DiffersAt(a, b, k)
  }

  ghost predicate Same(a: seq<nat>, b: seq<nat>) {
    forall i: nat :: Component(a, i) == Component(b, i)
  }

  /** CompareVersions, once both strings read as versions. */
  method CompareParts(a: seq<nat>, b: seq<nat>) returns (cmp: int)
    ensures cmp == -1 <==> Less(a, b)
    ensures cmp == 1 <==> Less(b, a)
    ensures cmp == 0 <==> Same(a, b)
    ensures -1 <= cmp <= 1
  {
    var i := 0;
    while i < |a| || i < |b|
      invariant SameUpTo(a, b, i)
      decreases |a| + |b| - i
    {
      var x, y := 0, 0;
      if i < |a| {
        x := if a[i] > MAX_INT then MAX_INT else a[i];
      }
      if i < |b| {
        y := if b[i] > MAX_INT then MAX_INT else b[i];
      }
      if x != y {
        if x < y {
          assert DiffersAt(a, b, i);
          Trichotomy(a, b);
          return -1;
        }
        assert DiffersAt(b, a, i);
        Trichotomy(a, b);
        return 1;
      }
      i := i + 1;
    }
    assert Same(a, b);
    Trichotomy(a, b);
    return 0;
  }

  method CompareVersions(a: Text, b: Text) returns (cmp: int, ok: bool)
    ensures ok <==> a.Dotted? && b.Dotted?
    ensures ok ==> (cmp == -1 <==> Less(a.parts, b.parts)) && (cmp == 1 <==> Less(b.parts, a.parts))
    ensures ok ==> (cmp == 0 <==> Same(a.parts, b.parts)) && -1 <= cmp <= 1
    ensures !ok ==> cmp == 0
  {
    if !a.Dotted? || !b.Dotted? {
      return 0, false;
    }
    cmp := CompareParts(a.parts, b.parts);
    ok := true;
  }

  lemma {:induction false} FirstDifference(a: seq<nat>, b: seq<nat>, n: nat) returns (k: nat)
    requires Component(a, n) != Component(b, n)
    ensures k <= n && SameUpTo(a, b, k) && Component(a, k) != Component(b, k)
  {
    k := 0;
    while Component(a, k) == Component(b, k)
      invariant k <= n && SameUpTo(a, b, k)
      decreases n - k
    {
      k := k + 1;
    }
  }

  /** Two versions are ordered one way, the other way, or the same, and only one of these. */
  lemma Trichotomy(a: seq<nat>, b: seq<nat>)
    ensures Less(a, b) || Less(b, a) || Same(a, b)
    ensures !(Less(a, b) && Less(b, a))
    ensures Same(a, b) ==> !Less(a, b) && !Less(b, a)
  {
    if !Same(a, b) {
      var n: nat :| Component(a, n) != Component(b, n);
      var k := FirstDifference(a, b, n);
      assert DiffersAt(a, b, k) || DiffersAt(b, a, k);
    }
    if Less(a, b) {
      var j: nat :| DiffersAt(a, b, j);
      forall k: nat
        ensures !DiffersAt(b, a, k)
      {
        if k <= j {
          assert Component(a, k) <= Component(b, k);
        } else {
          assert Component(a, j) != Component(b, j);
        }
      }
    }
  }

  ghost predicate AtMost(a: seq<nat>, b: seq<nat>) {
    !Less(b, a)
  }

  /** So AtMost is a total preorder, with Same its equivalence. */
  lemma TotalPreorder(a: seq<nat>, b: seq<nat>, c: seq<nat>)
    ensures AtMost(a, a)
    ensures AtMost(a, b) || AtMost(b, a)
    ensures AtMost(a, b) && AtMost(b, c) ==> AtMost(a, c)
    ensures AtMost(a, b) && AtMost(b, a) <==> Same(a, b)
  {
    Trichotomy(a, a);
    Trichotomy(a, b);
    Trichotomy(b, c);
    Trichotomy(a, c);
    if AtMost(a, b) && AtMost(b, c) && Less(c, a) {
      LessTrans(c, a, b);
    }
  }

  /** c < a and a <= b give c < b. */
  lemma LessTrans(c: seq<nat>, a: seq<nat>, b: seq<nat>)
    requires Less(c, a) && AtMost(a, b)
    ensures Less(c, b)
  {
    Trichotomy(a, b);
    var j: nat :| DiffersAt(c, a, j);
    if Less(a, b) {
      var k: nat :| DiffersAt(a, b, k);
      assert DiffersAt(c, b, if j < k then j else k);
    } else {
      assert DiffersAt(c, b, j);
    }
  }

  /** Trailing zeros do not matter: 1.2 is 1.2.0. */
  lemma TrailingZeros(a: seq<nat>, zeros: seq<nat>)
    requires forall i :: 0 <= i < |zeros| ==> zeros[i] == 0
    ensures Same(a, a + zeros)
  {
    forall i: nat
      ensures Component(a, i) == Component(a + zeros, i)
    {
      if |a| <= i < |a| + |zeros| {
        assert (a + zeros)[i] == zeros[i - |a|];
      }
    }
  }

  /** versionAtLeast: a version that cannot be read is not at least anything, and nothing is at least it. */
  ghost predicate VersionAtLeast(have: Text, min: Text) {
    have.Dotted? && min.Dotted? && AtMost(min.parts, have.parts)
  }

  datatype Range = Range(from: Text, before: Text)

  ghost predicate Contains(r: Range, version: Text) {
    if r.from.Empty? && r.before.Empty? then true
    else
      && version.Dotted?
      && (r.from.Empty? || VersionAtLeast(version, r.from))
      && (r.before.Empty? || !VersionAtLeast(version, r.before))
  }

  /** A range has no holes. */
  lemma RangeIsConvex(r: Range, a: seq<nat>, b: seq<nat>, c: seq<nat>)
    requires AtMost(a, b) && AtMost(b, c)
    requires Contains(r, Dotted(a)) && Contains(r, Dotted(c))
    ensures Contains(r, Dotted(b))
  {
    if r.from.Dotted? {
      TotalPreorder(r.from.parts, a, b);
    }
    if r.before.Dotted? {
      TotalPreorder(r.before.parts, b, c);
    }
  }

  /** Adjacent ranges split the versions: what appeared where another form was removed is there exactly when that is
      not. */
  lemma RangesSplit(at: seq<nat>, v: seq<nat>)
    ensures Contains(Range(Dotted(at), Empty), Dotted(v)) <==> !Contains(Range(Empty, Dotted(at)), Dotted(v))
  {
    Trichotomy(at, v);
  }

  datatype Level = OlderThanSupported | OlderThanTested | Supported | NewerThanTested | Unknown

  /** Harness.Support's verdict, given what the driver requires and what has been tested. */
  ghost function Support(requirement: Text, min: Text, max: Text, version: Text): Level {
    if version.Dotted? && !requirement.Empty? && !VersionAtLeast(version, requirement) then OlderThanSupported
    else if min.Empty? || max.Empty? then Unknown
    else if !version.Dotted? then Unknown
    else if !VersionAtLeast(version, min) then OlderThanTested
    else if !VersionAtLeast(max, version) then NewerThanTested
    else Supported
  }

  function Rank(l: Level): nat {
    match l
    case OlderThanSupported => 0
    case OlderThanTested => 1
    case Unknown => 1
    case Supported => 2
    case NewerThanTested => 3
  }

  /** An upgrade never moves the verdict back, whatever the three bounds are, unreadable or out of order included. */
  lemma SupportIsMonotone(requirement: Text, min: Text, max: Text, a: seq<nat>, b: seq<nat>)
    requires AtMost(a, b)
    ensures Rank(Support(requirement, min, max, Dotted(a))) <= Rank(Support(requirement, min, max, Dotted(b)))
  {
    if requirement.Dotted? { TotalPreorder(requirement.parts, a, b); }
    if min.Dotted? { TotalPreorder(min.parts, a, b); }
    if max.Dotted? { TotalPreorder(a, b, max.parts); }
  }

  /** With readable bounds a version is Supported exactly between the tested ones and not below the required one. */
  lemma SupportedIff(requirement: Text, min: seq<nat>, max: seq<nat>, v: seq<nat>)
    ensures Support(requirement, Dotted(min), Dotted(max), Dotted(v)) == Supported <==>
            && (requirement.Empty? || (requirement.Dotted? && AtMost(requirement.parts, v)))
            && AtMost(min, v) && AtMost(v, max)
  {
  }
}
