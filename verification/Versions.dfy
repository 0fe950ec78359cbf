/** Version strings: parsing, the order that decides whether one is newer, the plain three-number
    reading that the config repairs use, and where the two agree.
    Models `parse_version` and `is_newer` of grimoire/src/updates.rs and `parse_version_tuple` of
    grimoire/src/config.rs. */
module Versions {
  import opened Wrappers
  import opened Text

  /** The numbers of a version, and the number of its pre-release if it is one. */
  datatype Version = Version(core: seq<nat>, pre: Option<nat>)

  // ---- parsing ----

  function SkipVs(s: string): string {
    if s != "" && s[0] == 'v' then SkipVs(s[1..]) else s
  }

  function LeadingDigits(s: string): (digits: string)
    ensures AllDigits(digits) && digits <= s
  {
    if s != "" && IsDigit(s[0]) then [s[0]] + LeadingDigits(s[1..]) else ""
  }

  function DigitsOf(s: string): (digits: string)
    ensures AllDigits(digits)
  {
    if s == "" then "" else (if IsDigit(s[0]) then [s[0]] else "") + DigitsOf(s[1..])
  }

  /** Digits as a number; 0 when there are none or too many. */
  function NumberOr0(digits: string): nat {
    match ParseUnsigned(digits, MAX_U64)
    case Some(n) => n
    case None => 0
  }

  function SplitMarks(part: string): seq<string> {
    if part == "" then [""]
    else if part[0] == '-' || part[0] == '+' then [""] + SplitMarks(part[1..])
    else
      var rest := SplitMarks(part[1..]);
      if rest == [] then [part] else [[part[0]] + rest[0]] + rest[1..]
  }

  /** What the pieces of one part from number i on add: numbers, and the pre-release that ends parsing. */
  function FromPieces(pieces: seq<string>, i: nat): Version
    requires i <= |pieces|
    decreases |pieces| - i
  {
    if i == |pieces| then Version([], None)
    else if pieces[i] == "" then FromPieces(pieces, i + 1)
    else if i == 0 && IsDigit(pieces[i][0]) then
      var rest := FromPieces(pieces, i + 1);
      Version([NumberOr0(LeadingDigits(pieces[i]))] + rest.core, rest.pre)
    else Version([], Some(NumberOr0(DigitsOf(pieces[i]))))
  }

  function FromParts(parts: seq<string>): Version {
    if parts == [] then Version([], None) else
    var first := FromPieces(SplitMarks(parts[0]), 0);
    if first.pre.Some? then first
    else
      var rest := FromParts(parts[1..]);
      Version(first.core + rest.core, rest.pre)
  }

  function Parsed(v: string): Version {
    FromParts(Split(SkipVs(TrimEnd(TrimStart(v))), '.'))
  }

  method ParseVersion(v: string) returns (core: seq<nat>, pre: Option<nat>)
    ensures Version(core, pre) == Parsed(v)
  {
    hide TrimStart, TrimEnd, SkipVs, Split, SplitMarks, NumberOr0, LeadingDigits, DigitsOf, FromPieces, FromParts;
    var parts := Split(SkipVs(TrimEnd(TrimStart(v))), '.');
    core, pre := [], None;
    var p := 0;
    assert parts[0..] == parts;
    label outer:
    while p < |parts|
      invariant p <= |parts| && pre == None
      invariant Parsed(v) == Then(core, FromParts(parts[p..]))
    {
      var pieces := SplitMarks(parts[p]);
      var i := 0;
      PartFirst(core, parts, p);
      while i < |pieces|
        invariant i <= |pieces| && pre == None
        invariant Parsed(v) == Within(core, FromPieces(pieces, i), FromParts(parts[p + 1..]))
      {
        var piece := pieces[i];
        PieceFirst(core, pieces, i, FromParts(parts[p + 1..]));
        if piece == "" {
          i := i + 1;
          continue;
        }
        if i == 0 && IsDigit(piece[0]) {
          core := core + [NumberOr0(LeadingDigits(piece))];
          i := i + 1;
          continue;
        }
        pre := Some(NumberOr0(DigitsOf(piece)));
        break outer;
      }
      PartDone(core, pieces, FromParts(parts[p + 1..]));
      p := p + 1;
    }
    if pre == None {
      AllDone(core, parts);
    }
  }

  /** What numbers already read, the rest of a part, and the parts after it come to. */
  function Within(core: seq<nat>, part: Version, rest: Version): Version {
    if part.pre.Some? then Then(core, part) else Then(core + part.core, rest)
  }

  lemma PartFirst(core: seq<nat>, parts: seq<string>, p: nat)
    requires p < |parts|
    ensures Then(core, FromParts(parts[p..]))
            == Within(core, FromPieces(SplitMarks(parts[p]), 0), FromParts(parts[p + 1..]))
  {
    hide SplitMarks, FromPieces;
    assert parts[p..][1..] == parts[p + 1..] && parts[p..][0] == parts[p];
  }

  lemma PieceFirst(core: seq<nat>, pieces: seq<string>, i: nat, rest: Version)
    requires i < |pieces|
    ensures var piece := pieces[i];
            Within(core, FromPieces(pieces, i), rest) ==
            if piece == "" then Within(core, FromPieces(pieces, i + 1), rest)
            else if i == 0 && IsDigit(piece[0]) then
              Within(core + [NumberOr0(LeadingDigits(piece))], FromPieces(pieces, i + 1), rest)
            else Version(core, Some(NumberOr0(DigitsOf(piece))))
  {
    hide NumberOr0, LeadingDigits, DigitsOf;
    var later := FromPieces(pieces, i + 1);
    var number := NumberOr0(LeadingDigits(pieces[i]));
    assert core + ([number] + later.core) == (core + [number]) + later.core;
    assert core + [] == core;
  }

  lemma PartDone(core: seq<nat>, pieces: seq<string>, rest: Version)
    ensures Within(core, FromPieces(pieces, |pieces|), rest) == Then(core, rest)
  {
    assert core + [] == core;
  }

  lemma AllDone(core: seq<nat>, parts: seq<string>)
    ensures Then(core, FromParts(parts[|parts|..])) == Version(core, None)
  {
    assert parts[|parts|..] == [] && core + [] == core;
  }

  /** Numbers in front of a version. */
  function Then(core: seq<nat>, rest: Version): Version {
    Version(core + rest.core, rest.pre)
  }

  // ---- the order ----

  function Part(core: seq<nat>, i: nat): nat {
    if i < |core| then core[i] else 0
  }

  /** The first number in which the cores differ, zeros added at the end, is greater in the first one. */
  ghost predicate CoreGreater(a: seq<nat>, b: seq<nat>) {
    exists i: nat :: DiffersFirst(a, b, i) && Part(a, i) > Part(b, i)
  }

  ghost predicate DiffersFirst(a: seq<nat>, b: seq<nat>, i: nat) {
    Part(a, i) != Part(b, i) && forall j: nat :: j < i ==> Part(a, j) == Part(b, j)
  }

  ghost predicate SameCore(a: seq<nat>, b: seq<nat>) {
    forall i: nat :: Part(a, i) == Part(b, i)
  }

  /** No pre-release comes after every pre-release. */
  predicate PreGreater(a: Option<nat>, b: Option<nat>) {
    b.Some? && (a.None? || a.value > b.value)
  }

  /** Zero-padded cores first, then any pre-release below its final release. */
  ghost predicate Newer(a: Version, b: Version) {
    CoreGreater(a.core, b.core) || (SameCore(a.core, b.core) && PreGreater(a.pre, b.pre))
  }

  method IsNewer(latest: string, current: string) returns (newer: bool)
    ensures newer == Newer(Parsed(latest), Parsed(current))
  {
    hide CoreGreater, SameCore, Parsed;
    var l, lPre := ParseVersion(latest);
    var c, cPre := ParseVersion(current);
    var len := if |l| > |c| then |l| else |c|;
    for i := 0 to len
      invariant forall j: nat :: j < i ==> Part(l, j) == Part(c, j)
    {
      if Part(l, i) != Part(c, i) {
        FirstDecides(l, c, i);
        return Part(l, i) > Part(c, i);
      }
    }
    PaddedAlike(l, c, len);
    match (lPre, cPre)
    case (None, None) => newer := false;
    case (None, Some(_)) => newer := true;
    case (Some(_), None) => newer := false;
    case (Some(lp), Some(cp)) => newer := lp > cp;
  }

  lemma FirstDecides(a: seq<nat>, b: seq<nat>, i: nat)
    requires Part(a, i) != Part(b, i) && forall j: nat :: j < i ==> Part(a, j) == Part(b, j)
    ensures !SameCore(a, b) && (CoreGreater(a, b) <==> Part(a, i) > Part(b, i))
  {
    hide CoreGreater, SameCore;
    OneDifference(a, b, i);
  }

  lemma PaddedAlike(a: seq<nat>, b: seq<nat>, len: nat)
    requires len >= |a| && len >= |b| && forall j: nat :: j < len ==> Part(a, j) == Part(b, j)
    ensures SameCore(a, b) && !CoreGreater(a, b)
  {
    assert SameCore(a, b);
    NoDifference(a, b);
  }

  lemma OneDifference(a: seq<nat>, b: seq<nat>, i: nat)
    requires DiffersFirst(a, b, i)
    ensures !SameCore(a, b)
    ensures CoreGreater(a, b) <==> Part(a, i) > Part(b, i)
    ensures CoreGreater(b, a) <==> Part(b, i) > Part(a, i)
  {
    forall k: nat | DiffersFirst(a, b, k) ensures k == i {
    }
    forall k: nat | DiffersFirst(b, a, k) ensures k == i {
      assert DiffersFirst(a, b, k);
    }
    assert DiffersFirst(b, a, i);
  }

  lemma NoDifference(a: seq<nat>, b: seq<nat>)
    requires SameCore(a, b)
    ensures !CoreGreater(a, b) && !CoreGreater(b, a) && SameCore(b, a)
  {
    forall i: nat ensures !DiffersFirst(a, b, i) && !DiffersFirst(b, a, i) {
      assert Part(a, i) == Part(b, i);
    }
  }

  /** Cores are the same, or differ first somewhere. */
  lemma {:induction false} FirstDifference(a: seq<nat>, b: seq<nat>, k: nat) returns (i: nat)
    requires Part(a, k) != Part(b, k)
    ensures DiffersFirst(a, b, i)
  {
    if j: nat :| j < k && Part(a, j) != Part(b, j) {
      i := FirstDifference(a, b, j);
    } else {
      i := k;
    }
  }

  /** Being newer is a strict weak order over all version strings: never both ways, and when one is
      newer than another then any third one is older than the first or newer than the second. */
  lemma NewerIsAStrictWeakOrder(a: Version, b: Version, c: Version)
    ensures !(Newer(a, b) && Newer(b, a))
    ensures Newer(a, b) ==> Newer(a, c) || Newer(c, b)
    ensures Newer(a, b) && Newer(b, c) ==> Newer(a, c)
  {
    CoresCompare(a.core, b.core);
    CoresCompare(a.core, c.core);
    CoresCompare(b.core, c.core);
    CoresTransitive(a.core, b.core, c.core);
    CoresTransitive(a.core, c.core, b.core);
    CoresTransitive(c.core, a.core, b.core);
  }

  lemma CoresCompare(a: seq<nat>, b: seq<nat>)
    ensures CoreGreater(a, b) || SameCore(a, b) || CoreGreater(b, a)
    ensures !(CoreGreater(a, b) && SameCore(a, b)) && !(CoreGreater(a, b) && CoreGreater(b, a))
            && !(CoreGreater(b, a) && SameCore(a, b))
    ensures SameCore(a, b) <==> SameCore(b, a)
  {
    if k: nat :| Part(a, k) != Part(b, k) {
      var i := FirstDifference(a, b, k);
      OneDifference(a, b, i);
      assert !SameCore(b, a);
    } else {
      NoDifference(a, b);
    }
  }

  lemma CoresTransitive(a: seq<nat>, b: seq<nat>, c: seq<nat>)
    ensures CoreGreater(a, b) && CoreGreater(b, c) ==> CoreGreater(a, c)
    ensures CoreGreater(a, b) && SameCore(b, c) ==> CoreGreater(a, c)
    ensures SameCore(a, b) && CoreGreater(b, c) ==> CoreGreater(a, c)
    ensures SameCore(a, b) && SameCore(b, c) ==> SameCore(a, c)
  {
    if i: nat :| DiffersFirst(a, b, i) && Part(a, i) > Part(b, i) {
      if k: nat :| DiffersFirst(b, c, k) && Part(b, k) > Part(c, k) {
        assert DiffersFirst(a, c, if i < k then i else k);
      } else if SameCore(b, c) {
        assert DiffersFirst(a, c, i);
      }
    } else if SameCore(a, b) {
      if k: nat :| DiffersFirst(b, c, k) && Part(b, k) > Part(c, k) {
        assert DiffersFirst(a, c, k);
      }
    }
  }
}
