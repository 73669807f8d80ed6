/** Canonical MIG device names: the printer, the sanitiser and the parser of cmd/hami-kubelet-plugin/mig.go. */
module MigNames {
  import opened Base

  /** Parent minor, GPU instance profile id, placement start. */
  datatype MigSpecTuple = MigSpecTuple(minor: nat, profileId: nat, start: nat)

  // ---------------------------------------------------------------- sanitiser

  /** unicode.ToLower, exact on every character whose lower case is a letter a-z;
      any other character is only ever compared with the allowed alphabet. */
  function Lower(c: char): char {
    if 'A' <= c <= 'Z' then (c as int + 32) as char
    else if c == '\U{0130}' then 'i'
    else if c == '\U{212A}' then 'k'
    else c
  }

  predicate Alnum(c: char) {
    'a' <= c <= 'z' || IsDigit(c)
  }

  function CleanChar(c: char): char {
    var l := Lower(c);
    if Alnum(l) || l == '-' || l == '.' then l else '-'
  }

  function Clean(s: string): (r: string)
    ensures |r| == |s|
    ensures forall c :: c in r ==> NameChar(c)
    ensures '.' !in s ==> '.' !in r
  {
    if s == "" then "" else [CleanChar(s[0])] + Clean(s[1..])
  }

  function TrimLeftDash(s: string): (r: string)
    ensures forall c :: c in r ==> c in s
    ensures r != "" ==> r[0] != '-'
  {
    if s != "" && s[0] == '-' then TrimLeftDash(s[1..]) else s
  }

  function TrimRightDash(s: string): (r: string)
    ensures r <= s
    ensures forall c :: c in r ==> c in s
    ensures r != "" ==> s != "" && r[0] == s[0] && r[|r| - 1] != '-'
  {
    if s != "" && s[|s| - 1] == '-' then TrimRightDash(s[..|s| - 1]) else s
  }

  function TrimDot(s: string): string {
    if s != "" && s[|s| - 1] == '.' then s[..|s| - 1] else s
  }

  /** The sanitised name before the length cut. */
  function Trimmed(name: string): (r: string)
    ensures forall c :: c in r ==> NameChar(c)
    ensures '.' !in name && r != "" ==> '.' !in r && r[0] != '-' && r[|r| - 1] != '-'
  {
    var r := TrimRightDash(TrimLeftDash(Clean(name)));
    assert r != "" && r[|r| - 1] == '.' ==> '.' in r;
    TrimDot(r)
  }

  const MaxNameLength := 253

  function ToRfc1123(name: string): (r: string)
    ensures forall c :: c in r ==> NameChar(c)
  {
    var t := Trimmed(name);
    if |t| > MaxNameLength then t[..MaxNameLength] else t
  }

  function WithoutDots(s: string): (r: string)
    ensures '.' !in r
  {
    if s == "" then ""
    else (if s[0] == '.' then "" else [s[0]]) + WithoutDots(s[1..])
  }

  /** The profile part of a canonical name. */
  function ProfileLabel(profile: string): (r: string)
    ensures '\n' !in r
  {
    assert !NameChar('\n');
    ToRfc1123(WithoutDots(profile))
  }

  predicate NameChar(c: char) {
    Alnum(c) || c == '-' || c == '.'
  }

  /** A host name label of RFC 1123 section 2.1: letters, digits and hyphens,
      with a letter or digit at both ends. */
  predicate HostLabel(s: string) {
    && s != ""
    && (forall c :: c in s ==> Alnum(c) || c == '-')
    && Alnum(s[0]) && Alnum(s[|s| - 1])
  }

  /** The sanitiser reaches its target exactly when something is left of the profile and
      the cut at 253 characters, if there is one, does not fall just after a hyphen. */
  lemma ProfileLabelIsHostLabelIff(profile: string)
    ensures HostLabel(ProfileLabel(profile)) <==>
            var t := Trimmed(WithoutDots(profile));
            t != "" && (|t| <= MaxNameLength || t[MaxNameLength - 1] != '-')
  {
    var t := Trimmed(WithoutDots(profile));
    var l := ProfileLabel(profile);
    if t != "" {
      assert l[0] == t[0] && l[0] in t && l[|l| - 1] in t;
    }
    assert forall c :: c in l ==> c in t;
  }

  // ------------------------------------------------------- printer and parser

  function ToCanonicalName(t: MigSpecTuple, profile: string): string {
    Assemble(Dec(t.minor), ProfileLabel(profile), Dec(t.profileId), Dec(t.start))
  }

  function Assemble(a: string, b: string, c: string, d: string): string {
    "gpu-" + a + "-mig-" + b + "-" + c + "-" + d
  }

  /** What the regular expression ^gpu-(\d+)-mig-(.+)-(\d+)-(\d+)$ says: the groups a, b, c, d
      of some split of n. A dot does not match a newline. */
  predicate Matches(n: string, a: string, b: string, c: string, d: string) {
    && n == Assemble(a, b, c, d)
    && Digits(a) && Digits(c) && Digits(d)
    && b != "" && '\n' !in b
  }

  /** Index of the last hyphen, or -1. */
  function LastDash(s: string): (i: int)
    ensures -1 <= i < |s|
    ensures i >= 0 ==> s[i] == '-'
    ensures forall j :: i < j < |s| ==> s[j] != '-'
  {
    if s == "" then -1
    else if s[|s| - 1] == '-' then |s| - 1
    else LastDash(s[..|s| - 1])
  }

  /** Index of the first hyphen, or the length. */
  function FirstDash(s: string): (i: nat)
    ensures i <= |s|
    ensures i < |s| ==> s[i] == '-'
    ensures forall j :: 0 <= j < i ==> s[j] != '-'
  {
    if s == "" || s[0] == '-' then 0 else 1 + FirstDash(s[1..])
  }

  /** The groups of the match, found from both ends. */
  function Groups(n: string): (m: Option<(string, string, string, string)>)
    ensures m.Some? ==> Matches(n, m.value.0, m.value.1, m.value.2, m.value.3)
  {
    var j := LastDash(n);
    if j < 0 then None else
    var i := LastDash(n[..j]);
    if i < 4 then None else
    var front, c, d := n[4..i], n[i + 1..j], n[j + 1..];
    var k := FirstDash(front);
    if n[..4] != "gpu-" || k + 5 > |front| || front[k..k + 5] != "-mig-" then None else
    var a, b := front[..k], front[k + 5..];
    if Digits(a) && Digits(c) && Digits(d) && b != "" && '\n' !in b then
      assert front == a + "-mig-" + b by { assert front == a + front[k..k + 5] + b; }
      Reassemble(n, front, i, j);
      Regroup(a, b, c, d);
      Some((a, b, c, d))
    else None
  }

  lemma Reassemble(n: string, front: string, i: nat, j: nat)
    requires 4 <= i < j < |n| && n[i] == '-' && n[j] == '-' && n[..4] == "gpu-" && front == n[4..i]
    ensures n == "gpu-" + front + "-" + n[i + 1..j] + "-" + n[j + 1..]
  {
    assert n == n[..4] + n[4..i] + [n[i]] + n[i + 1..j] + [n[j]] + n[j + 1..];
  }

  lemma Regroup(a: string, b: string, c: string, d: string)
    ensures "gpu-" + (a + "-mig-" + b) + "-" + c + "-" + d == Assemble(a, b, c, d)
  {
    assert "gpu-" + (a + "-mig-" + b) == "gpu-" + a + "-mig-" + b;
  }

  lemma {:induction false} LastDashBefore(x: string, y: string)
    requires y != "" && y[0] == '-' && forall j :: 1 <= j < |y| ==> y[j] != '-'
    ensures LastDash(x + y) == |x|
    decreases |y|
  {
    if |y| > 1 {
      assert (x + y)[|x + y| - 1] == y[|y| - 1];
      assert (x + y)[..|x + y| - 1] == x + y[..|y| - 1];
      LastDashBefore(x, y[..|y| - 1]);
    }
  }

  lemma DashThenDigits(d: string)
    requires Digits(d)
    ensures var y := "-" + d; y[0] == '-' && forall j :: 1 <= j < |y| ==> y[j] != '-'
  {
    var y := "-" + d;
    assert forall j :: 1 <= j < |y| ==> y[j] == d[j - 1];
  }

  lemma Associate(x: string, y: string, z: string)
    ensures x + y + z == x + (y + z)
  {
  }

  lemma SplitLast(x: string, d: string)
    requires Digits(d)
    ensures LastDash(x + "-" + d) == |x|
  {
    DashThenDigits(d);
    LastDashBefore(x, "-" + d);
    Associate(x, "-", d);
  }

  lemma SplitFirst(a: string, y: string)
    requires Digits(a)
    ensures FirstDash(a + "-" + y) == |a|
  {
    var s := a + "-" + y;
    assert s[|a|] == '-';
    assert forall j :: 0 <= j < |a| ==> s[j] == a[j];
  }

  /** The expression is unambiguous: a match, if there is one, is the one Groups finds, so the
      greedy choice of the middle group never matters. */
  lemma GroupsComplete(n: string, a: string, b: string, c: string, d: string)
    requires Matches(n, a, b, c, d)
    ensures Groups(n) == Some((a, b, c, d))
  {
    var front := a + "-mig-" + b;
    Regroup(a, b, c, d);
    TailSplit(n, "gpu-" + front, c, d);
    HeadAndFront(n, front);
    FrontParts(a, b);
  }

  lemma HeadAndFront(n: string, front: string)
    requires |n| >= 4 + |front| && n[..4 + |front|] == "gpu-" + front
    ensures n[..4] == "gpu-" && n[4..4 + |front|] == front && |"gpu-" + front| == 4 + |front|
  {
    assert n[..4] == n[..4 + |front|][..4];
    assert n[4..4 + |front|] == n[..4 + |front|][4..];
  }

  lemma FrontParts(a: string, b: string)
    requires Digits(a)
    ensures var front := a + "-mig-" + b;
            FirstDash(front) == |a| && |a| + 5 <= |front| && front[..|a|] == a && front[|a|..|a| + 5] == "-mig-" && front[|a| + 5..] == b
  {
    var front := a + "-mig-" + b;
    SplitFirst(a, "mig-" + b);
    assert front == a + "-" + ("mig-" + b);
  }

  /** The two last hyphens of x-c-d, for digits c and d. */
  lemma TailSplit(n: string, x: string, c: string, d: string)
    requires n == x + "-" + c + "-" + d && Digits(c) && Digits(d)
    ensures var j := LastDash(n);
      j == |x| + 1 + |c| && LastDash(n[..j]) == |x| && n[..|x|] == x && n[|x| + 1..j] == c && n[j + 1..] == d
  {
    SplitLast(x + "-" + c, d);
    assert n[..|x| + 1 + |c|] == x + "-" + c;
    SplitLast(x, c);
  }

  function ParseCanonicalName(n: string): Option<MigSpecTuple> {
    match Groups(n)
    case None => None
    case Some((a, _, c, d)) =>
      match (Atoi(a), Atoi(c), Atoi(d))
      case (Some(minor), Some(profileId), Some(start)) => Some(MigSpecTuple(minor, profileId, start))
      case _ => None
  }

  /** A name parses exactly when some split of it matches and the three numbers fit an int. */
  lemma ParsesIff(n: string, t: MigSpecTuple)
    ensures ParseCanonicalName(n) == Some(t) <==>
            exists a, b, c, d :: Matches(n, a, b, c, d)
              && Atoi(a) == Some(t.minor) && Atoi(c) == Some(t.profileId) && Atoi(d) == Some(t.start)
  {
    forall a, b, c, d | Matches(n, a, b, c, d) ensures Groups(n) == Some((a, b, c, d)) {
      GroupsComplete(n, a, b, c, d);
    }
  }

  predicate FitsInt(t: MigSpecTuple) {
    t.minor <= MaxInt64 && t.profileId <= MaxInt64 && t.start <= MaxInt64
  }

  /** Names round-trip exactly when the sanitised profile is not empty; otherwise the name does
      not parse at all. Hyphens and digits in the profile do no harm. */
  lemma RoundTrip(t: MigSpecTuple, profile: string)
    requires FitsInt(t)
    ensures ParseCanonicalName(ToCanonicalName(t, profile)) ==
            if ProfileLabel(profile) != "" then Some(t) else None
  {
    var n := ToCanonicalName(t, profile);
    var a, b, c, d := Dec(t.minor), ProfileLabel(profile), Dec(t.profileId), Dec(t.start);
    ValDec(t.minor);
    ValDec(t.profileId);
    ValDec(t.start);
    if b != "" {
      GroupsComplete(n, a, b, c, d);
    } else if Groups(n).Some? {
      var (a', b', c', d') := Groups(n).value;
      AssembleInjective(a, b, c, d, a', b', c', d');
    }
  }

  lemma FrontUnique(a: string, y: string, a': string, y': string)
    requires Digits(a) && Digits(a')
    requires a + "-" + y == a' + "-" + y'
    ensures y == y'
  {
    SplitFirst(a, y);
    SplitFirst(a', y');
    assert (a + "-" + y)[|a| + 1..] == y && (a' + "-" + y')[|a'| + 1..] == y';
  }

  /** A name determines its four parts, the profile included. */
  lemma AssembleInjective(a: string, b: string, c: string, d: string, a': string, b': string, c': string, d': string)
    requires Digits(a) && Digits(c) && Digits(d) && Digits(a') && Digits(c') && Digits(d')
    requires Assemble(a, b, c, d) == Assemble(a', b', c', d')
    ensures b == b' && c == c' && d == d'
  {
    var n := Assemble(a, b, c, d);
    AssembleSplit(a, b, c, d);
    AssembleSplit(a', b', c', d');
    assert Front(a, b) == Front(a', b') && c == c' && d == d';
    var y, y' := a + "-" + ("mig-" + b), a' + "-" + ("mig-" + b');
    assert y == Front(a, b)[4..] == Front(a', b')[4..] == y';
    FrontUnique(a, "mig-" + b, a', "mig-" + b');
    assert b == ("mig-" + b)[4..] == ("mig-" + b')[4..] == b';
  }

  /** The name before its last two numbers. */
  function Front(a: string, b: string): string {
    "gpu-" + (a + "-" + ("mig-" + b))
  }

  /** The last two hyphens cut a name into its front and its last two numbers. */
  lemma AssembleSplit(a: string, b: string, c: string, d: string)
    requires Digits(c) && Digits(d)
    ensures var n := Assemble(a, b, c, d);
            var j := LastDash(n);
            j >= 0 && n[j + 1..] == d && var i := LastDash(n[..j]); i >= 0 && n[..j][..i] == Front(a, b) && n[..j][i + 1..] == c
  {
    var n, x := Assemble(a, b, c, d), Front(a, b);
    Regroup(a, b, c, d);
    assert a + "-" + ("mig-" + b) == a + "-mig-" + b;
    assert n == x + "-" + c + "-" + d;
    TailSplit(n, x, c, d);
    assert n[..LastDash(n)][..|x|] == n[..|x|];
    assert n[..LastDash(n)][|x| + 1..] == n[|x| + 1..LastDash(n)];
  }

  /** Two tuples never share a name, whatever their profiles, unless a profile is lost. */
  lemma CanonicalNameInjective(t: MigSpecTuple, p: string, t': MigSpecTuple, p': string)
    requires FitsInt(t) && FitsInt(t')
    requires ProfileLabel(p) != ""
    requires ToCanonicalName(t, p) == ToCanonicalName(t', p')
    ensures t == t'
  {
    RoundTrip(t, p);
    RoundTrip(t', p');
  }

  /** A name whose front has no hyphen from position 4 on does not match. */
  lemma ShortFront(x: string, d: string)
    requires Digits(d) && LastDash(x) < 4
    ensures ParseCanonicalName(x + "-" + d) == None
  {
    SplitLast(x, d);
    assert (x + "-" + d)[..|x|] == x;
  }

  lemma WrongHead(n: string)
    requires |n| >= 4 && n[..4] != "gpu-"
    ensures ParseCanonicalName(n) == None
  {
  }

  /** Full GPUs, passthrough devices and HAMi GPUs never pass for MIG devices. */
  lemma OtherNamesDoNotParse(n: nat)
    ensures ParseCanonicalName("gpu-" + Dec(n)) == None
    ensures ParseCanonicalName("gpu-vfio-" + Dec(n)) == None
    ensures ParseCanonicalName("hami-gpu-" + Dec(n)) == None
  {
    var gpu, vfio, hami := "gpu", "gpu-vfio", "hami-gpu-" + Dec(n);
    assert LastDash(gpu) < |gpu|;
    ShortFront(gpu, Dec(n));
    assert "gpu-" + Dec(n) == gpu + "-" + Dec(n);
    LastDashBefore("gpu", "-vfio");
    assert vfio == "gpu" + "-vfio";
    ShortFront(vfio, Dec(n));
    assert "gpu-vfio-" + Dec(n) == vfio + "-" + Dec(n);
    assert hami[..4] == "hami" && hami[0] == 'h';
    WrongHead(hami);
  }

  /** The parser ignores the profile: distinct names can denote one physical device. */
  lemma DistinctNamesOneTuple()
    ensures exists n, n' :: n != n' && ParseCanonicalName(n) == ParseCanonicalName(n') == Some(MigSpecTuple(0, 19, 0))
  {
    var t := MigSpecTuple(0, 19, 0);
    var n, n' := ToCanonicalName(t, "a"), ToCanonicalName(t, "b");
    assert Dec(0) == "0";
    assert n[10] == 'a' && n'[10] == 'b';
    RoundTrip(t, "a");
    RoundTrip(t, "b");
  }
}
