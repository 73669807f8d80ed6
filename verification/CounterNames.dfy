/** Counter names: capacities and memory slices (cmd/hami-kubelet-plugin/partitions.go, mig.go). */
module CounterNames {
  import opened Base
  import MigNames

  datatype Dimension = Multiprocessors | CopyEngines | Decoders | Encoders | JpegEngines | OfaEngines | Memory

  function CapacityName(d: Dimension): string {
    match d
    case Multiprocessors => "multiprocessors"
    case CopyEngines => "copyEngines"
    case Decoders => "decoders"
    case Encoders => "encoders"
    case JpegEngines => "jpegEngines"
    case OfaEngines => "ofaEngines"
    case Memory => "memory"
  }

  /** What a counter counts. */
  datatype CounterKey = Dim(dimension: Dimension) | Slice(index: nat)

  /** The name a counter is published under. */
  function CounterName(k: CounterKey): string {
    match k
    case Dim(d) => CamelToDnsName(CapacityName(d))
    case Slice(i) => SliceName(i)
  }

  predicate Upper(c: char) {
    'A' <= c <= 'Z'
  }

  /** ([a-z0-9])([A-Z]): a hyphen between the two. */
  function SplitCamel(s: string): string {
    if |s| < 2 then s
    else (if MigNames.Alnum(s[0]) && Upper(s[1]) then [s[0], '-'] else [s[0]]) + SplitCamel(s[1..])
  }

  /** ([A-Z]+)([A-Z][a-z]): a hyphen before the last capital of a run that a small letter follows. */
  function SplitAcronym(s: string): string {
    if |s| < 3 then s
    else (if Upper(s[0]) && Upper(s[1]) && 'a' <= s[2] <= 'z' then [s[0], '-'] else [s[0]]) + SplitAcronym(s[1..])
  }

  function CamelToDnsName(s: string): string {
    MigNames.ToRfc1123(SplitAcronym(SplitCamel(s)))
  }

  function SliceName(i: nat): string {
    "memory-slice-" + Dec(i)
  }

  lemma SliceNameInjective(i: nat, j: nat)
    ensures SliceName(i) == SliceName(j) ==> i == j
  {
    assert SliceName(i)[13..] == Dec(i) && SliceName(j)[13..] == Dec(j);
    DecInjective(i, j);
  }

  lemma {:induction false} NoCapitals(s: string)
    requires forall c :: c in s ==> !Upper(c)
    ensures SplitCamel(s) == s && SplitAcronym(s) == s
  {
    if |s| >= 2 {
      assert s[0] in s && s[1] in s && s == [s[0]] + s[1..];
      NoCapitals(s[1..]);
    }
  }

  lemma TrimRightKeeps(s: string, n: nat)
    requires n < |s| && s[n] != '-'
    ensures n < |MigNames.TrimRightDash(s)|
  {
    if s[|s| - 1] == '-' {
      TrimRightKeeps(s[..|s| - 1], n);
    }
  }

  lemma CleanFirstTwo(s: string)
    requires |s| >= 2
    ensures MigNames.Clean(s)[0] == MigNames.CleanChar(s[0]) && MigNames.Clean(s)[1] == MigNames.CleanChar(s[1])
  {
    assert MigNames.Clean(s) == [MigNames.CleanChar(s[0])] + MigNames.Clean(s[1..]);
    assert MigNames.Clean(s[1..]) == [MigNames.CleanChar(s[1])] + MigNames.Clean(s[1..][1..]);
  }

  lemma CamelKeepsTwo(s: string)
    requires |s| >= 2 && 'a' <= s[0] <= 'z' && 'a' <= s[1] <= 'z'
    ensures |SplitCamel(s)| >= 2 && SplitCamel(s)[0] == s[0] && SplitCamel(s)[1] == s[1]
  {
    var split := SplitCamel(s);
    assert split == [s[0]] + SplitCamel(s[1..]) && split[1] == s[1];
  }

  lemma AcronymKeepsTwo(s: string)
    requires |s| >= 2 && 'a' <= s[0] <= 'z' && 'a' <= s[1] <= 'z'
    ensures |SplitAcronym(s)| >= 2 && SplitAcronym(s)[0] == s[0] && SplitAcronym(s)[1] == s[1]
  {
    if |s| >= 3 {
      assert SplitAcronym(s) == [s[0]] + SplitAcronym(s[1..]);
    }
  }

  lemma SanitiserKeepsTwo(s: string)
    requires |s| >= 2 && 'a' <= s[0] <= 'z' && 'a' <= s[1] <= 'z'
    ensures |MigNames.ToRfc1123(s)| >= 2 && MigNames.ToRfc1123(s)[..2] == s[..2]
  {
    var c := MigNames.Clean(s);
    CleanFirstTwo(s);
    assert MigNames.TrimLeftDash(c) == c;
    TrimRightKeeps(c, 1);
  }

  /** The first two letters of a name survive the conversion. */
  lemma CounterNamePrefix(s: string)
    requires |s| >= 2 && 'a' <= s[0] <= 'z' && 'a' <= s[1] <= 'z'
    ensures |CamelToDnsName(s)| >= 2 && CamelToDnsName(s)[..2] == s[..2]
  {
    CamelKeepsTwo(s);
    AcronymKeepsTwo(SplitCamel(s));
    SanitiserKeepsTwo(SplitAcronym(SplitCamel(s)));
  }

  /** A name without capitals never grows. */
  lemma NeverGrows(s: string)
    requires forall c :: c in s ==> !Upper(c)
    ensures |CamelToDnsName(s)| <= |s|
  {
    NoCapitals(s);
    SanitiserNeverGrows(s);
  }

  lemma SanitiserNeverGrows(s: string)
    ensures |MigNames.ToRfc1123(s)| <= |s|
  {
    LeftNeverGrows(MigNames.Clean(s));
  }

  lemma LeftNeverGrows(s: string)
    ensures |MigNames.TrimLeftDash(s)| <= |s|
  {
  }

  lemma DimensionPrefixes(d: Dimension, e: Dimension)
    ensures var m, n := CapacityName(d), CapacityName(e);
            && |m| >= 2 && |n| >= 2 && 'a' <= m[0] <= 'z' && 'a' <= m[1] <= 'z'
            && (m[0] == n[0] && m[1] == n[1] ==> d == e)
            && (m[0] == 'm' && m[1] == 'e' ==> d == Memory)
  {
  }

  lemma SliceNameShape(s: string)
    ensures |"memory-slice-" + s| >= 13 && ("memory-slice-" + s)[..2] == "me"
  {
  }

  lemma MemoryCounterName()
    ensures |CamelToDnsName(CapacityName(Memory))| <= 6
  {
    var m := CapacityName(Memory);
    assert |m| == 6 && forall c :: c in m ==> !Upper(c);
    NeverGrows(m);
  }

  lemma DimensionIsNoSlice(d: Dimension, i: nat)
    ensures CounterName(Dim(d)) != CounterName(Slice(i))
  {
    var m := CapacityName(d);
    DimensionPrefixes(d, d);
    CounterNamePrefix(m);
    SliceNameShape(Dec(i));
    MemoryCounterName();
    assert m[0] == m[..2][0] && m[1] == m[..2][1];
  }

  lemma DimensionsDistinct(d: Dimension, e: Dimension)
    requires CounterName(Dim(d)) == CounterName(Dim(e))
    ensures d == e
  {
    var m, n := CapacityName(d), CapacityName(e);
    DimensionPrefixes(d, e);
    DimensionPrefixes(e, d);
    CounterNamePrefix(m);
    CounterNamePrefix(n);
    assert m[0] == m[..2][0] && m[1] == m[..2][1] && n[0] == n[..2][0] && n[1] == n[..2][1];
  }

  /** No two counters of a counter set share a name, so a map by name is a map by what is counted. */
  lemma CounterNameInjective(k: CounterKey, l: CounterKey)
    ensures CounterName(k) == CounterName(l) ==> k == l
  {
    match (k, l)
    case (Dim(d), Dim(e)) => if CounterName(k) == CounterName(l) { DimensionsDistinct(d, e); }
    case (Slice(i), Slice(j)) => SliceNameInjective(i, j);
    case (Dim(d), Slice(j)) => DimensionIsNoSlice(d, j);
    case (Slice(i), Dim(e)) => DimensionIsNoSlice(e, i);
  }
}
