/** How version strings read, in terms of their text alone: white space and v's around them, any number of
    numeric parts, the pre-release behind a hyphen, a plus sign or a dot, and what is ignored.
    Models `parse_version` and `is_newer` of grimoire/src/updates.rs. */
module VersionForms {
  import opened Wrappers
  import opened Text
  import opened Versions
  import opened Upgrades

  /** A number as it is read: those beyond 64 bits are 0. */
  function Capped(n: nat): nat {
    if n <= 18446744073709551615 then n else 0
  }

  ghost predicate AllMarks(s: string) { forall i :: 0 <= i < |s| ==> s[i] in {'-', '+'} }
  ghost predicate NoMarks(s: string) { forall i :: 0 <= i < |s| ==> s[i] !in {'-', '+'} }
  ghost predicate AllVs(s: string) { forall i :: 0 <= i < |s| ==> s[i] == 'v' }

  /** Letters and the like: no digits, nothing that splits. */
  ghost predicate IsWord(s: string) {
    forall i :: 0 <= i < |s| ==> !IsDigit(s[i]) && s[i] !in {'-', '+', '.'}
  }

  /** What may follow a number in its part without changing anything. */
  ghost predicate IsTail(s: string) {
    && '.' !in s && NoMarks(s)
    && (s != "" ==> !IsDigit(s[0]))
  }

  /** What may follow a pre-release in its part. */
  ghost predicate IsRest(s: string) {
    '.' !in s && (s != "" ==> s[0] in {'-', '+'})
  }

  // ---- pieces of a part ----

  lemma {:induction false} MarksSplit(a: string, rest: string)
    requires NoMarks(a) && IsRest(rest)
    ensures var pieces := SplitMarks(a + rest);
            pieces == [a] + if rest == "" then [] else SplitMarks(rest[1..])
  {
    var s := a + rest;
    if a == "" {
      assert s == rest;
    } else {
      MarksSplit(a[1..], rest);
      assert s[1..] == a[1..] + rest;
      assert [a[0]] + a[1..] == a;
    }
  }

  lemma {:induction false} DigitsBehind(word: string, digits: string)
    requires IsWord(word) && AllDigits(digits)
    ensures DigitsOf(word + digits) == digits
  {
    if word == "" {
      DigitsOfDigits(digits);
      assert word + digits == digits;
    } else {
      DigitsBehind(word[1..], digits);
      assert (word + digits)[1..] == word[1..] + digits;
    }
  }

  lemma NumberIs(n: nat)
    ensures NumberOr0(Decimal(n)) == Capped(n)
  {
    ParseDecimal(n, MAX_U64);
  }

  lemma {:induction false} LeadingIs(digits: string, tail: string)
    requires AllDigits(digits) && (tail != "" ==> !IsDigit(tail[0]))
    ensures LeadingDigits(digits + tail) == digits
  {
    if digits == "" {
      assert digits + tail == tail;
    } else {
      LeadingIs(digits[1..], tail);
      assert (digits + tail)[1..] == digits[1..] + tail;
      assert [digits[0]] + digits[1..] == digits;
    }
  }

  /** A part that is a number, whatever follows it up to a mark. */
  lemma NumericPart(n: nat, tail: string)
    requires IsTail(tail)
    ensures FromPieces(SplitMarks(Decimal(n) + tail), 0) == Version([Capped(n)], None)
  {
    hide Decimal, NumberOr0, LeadingDigits, SplitMarks;
    var part := Decimal(n) + tail;
    MarksSplit(part, "");
    assert part + "" == part;
    LeadingIs(Decimal(n), tail);
    NumberIs(n);
    assert part[0] == Decimal(n)[0];
    assert FromPieces([part], 1) == Version([], None);
  }

  /** Behind other pieces, or when it begins with a letter, a piece is the pre-release, and empty pieces in
      front of it and all pieces behind it are ignored. */
  lemma {:induction false} MarkerRead(before: seq<string>, marks: string, word: string, n: nat, rest: string)
    requires AllMarks(marks) && IsWord(word) && IsRest(rest) && (before != [] || word != "")
    ensures FromPieces(before + SplitMarks(marks + word + Decimal(n) + rest), |before|) == Version([], Some(Capped(n)))
    decreases |marks|
  {
    hide Decimal, NumberOr0, SplitMarks, DigitsOf, LeadingDigits;
    var s := marks + word + Decimal(n) + rest;
    if marks == "" {
      var piece := word + Decimal(n);
      assert s == piece + rest;
      MarksSplit(piece, rest);
      var pieces := before + SplitMarks(s);
      assert pieces[|before|] == piece;
      assert word != "" ==> piece[0] == word[0];
      DigitsBehind(word, Decimal(n));
      NumberIs(n);
    } else {
      var later := marks[1..] + word + Decimal(n) + rest;
      FirstMark(s, later);
      MarkerRead(before + [""], marks[1..], word, n, rest);
      assert before + ([""] + SplitMarks(later)) == (before + [""]) + SplitMarks(later);
    }
  }

  lemma FirstMark(s: string, later: string)
    requires s != "" && s[0] in {'-', '+'} && later == s[1..]
    ensures SplitMarks(s) == [""] + SplitMarks(later)
  {
  }

  /** A part with a number and a pre-release. */
  lemma MarkedPartIs(c: nat, tail: string, marks: string, word: string, n: nat, rest: string)
    requires IsTail(tail) && AllMarks(marks) && marks != "" && IsWord(word) && IsRest(rest)
    ensures FromPieces(SplitMarks(Decimal(c) + tail + marks + word + Decimal(n) + rest), 0)
            == Version([Capped(c)], Some(Capped(n)))
  {
    hide Decimal, NumberOr0, SplitMarks, DigitsOf, LeadingDigits;
    var number, later := Decimal(c) + tail, marks[1..] + word + Decimal(n) + rest;
    var s := number + [marks[0]] + later;
    assert s == Decimal(c) + tail + marks + word + Decimal(n) + rest;
    OneMark(number, marks[0], later);
    MarkerRead([number], marks[1..], word, n, rest);
    LeadingIs(Decimal(c), tail);
    NumberIs(c);
    assert number[0] == Decimal(c)[0];
    var pieces := [number] + SplitMarks(later);
    assert pieces[0] == number;
  }

  lemma {:induction false} OneMark(a: string, mark: char, later: string)
    requires NoMarks(a) && mark in {'-', '+'}
    ensures SplitMarks(a + [mark] + later) == [a] + SplitMarks(later)
  {
    var s := a + [mark] + later;
    if a == "" {
      assert s[1..] == later;
    } else {
      OneMark(a[1..], mark, later);
      assert s[1..] == a[1..] + [mark] + later;
      assert [a[0]] + a[1..] == a;
    }
  }

  // ---- whole versions ----

  /** Numeric parts, each with what is ignored behind its number. */
  function Numbers(ns: seq<nat>, tails: seq<string>): (parts: seq<string>)
    requires |ns| == |tails|
    ensures |parts| == |ns| && forall i :: 0 <= i < |ns| ==> parts[i] == Decimal(ns[i]) + tails[i]
  {
    seq(|ns|, i requires 0 <= i < |ns| => Decimal(ns[i]) + tails[i])
  }

  function AllCapped(ns: seq<nat>): (r: seq<nat>)
    ensures |r| == |ns|
  {
    seq(|ns|, i requires 0 <= i < |ns| => Capped(ns[i]))
  }

  ghost predicate AreTails(tails: seq<string>) { forall i :: 0 <= i < |tails| ==> IsTail(tails[i]) }

  lemma {:induction false} NumbersFirst(ns: seq<nat>, tails: seq<string>, parts: seq<string>)
    requires |ns| == |tails| && AreTails(tails)
    ensures FromParts(Numbers(ns, tails) + parts) == Then(AllCapped(ns), FromParts(parts))
  {
    hide SplitMarks, FromPieces, Decimal, Capped;
    var all := Numbers(ns, tails) + parts;
    if ns == [] {
      assert all == parts && AllCapped(ns) == [];
      assert AllCapped(ns) + FromParts(parts).core == FromParts(parts).core;
    } else {
      NumbersFirst(ns[1..], tails[1..], parts);
      assert all[1..] == Numbers(ns[1..], tails[1..]) + parts;
      NumericPart(ns[0], tails[0]);
      assert AllCapped(ns) == [Capped(ns[0])] + AllCapped(ns[1..]);
      assert [Capped(ns[0])] + (AllCapped(ns[1..]) + FromParts(parts).core)
             == AllCapped(ns) + FromParts(parts).core;
    }
  }

  /** A version with white space and v's in front, and white space behind. */
  ghost predicate Wrapped(s: string, text: string) {
    exists spaces, vs, more :: AllSpaces(spaces) && AllVs(vs) && AllSpaces(more) && s == spaces + vs + text + more
  }

  lemma {:induction false} VsSkipped(vs: string, s: string)
    requires AllVs(vs) && (s != "" ==> s[0] != 'v')
    ensures SkipVs(vs + s) == s
  {
    if vs == "" {
      assert vs + s == s;
    } else {
      VsSkipped(vs[1..], s);
      assert (vs + s)[1..] == vs[1..] + s;
    }
  }

  lemma Unwrapped(s: string, text: string)
    requires Wrapped(s, text) && text != "" && IsDigit(text[0]) && !IsSpace(text[|text| - 1])
    ensures SkipVs(TrimEnd(TrimStart(s))) == text
  {
    hide TrimStart, TrimEnd, SkipVs;
    var spaces, vs, more :|
      AllSpaces(spaces) && AllVs(vs) && AllSpaces(more) && s == spaces + vs + text + more;
    var inner := vs + text;
    assert s == spaces + (inner + more);
    assert (inner + more)[0] == if vs == "" then text[0] else vs[0];
    assert inner[|inner| - 1] == text[|text| - 1];
    StartTrimmed(spaces, inner + more);
    EndTrimmed(inner, more);
    VsSkipped(vs, text);
  }

  /** The text of a version given by its parts. */
  ghost predicate Written(s: string, parts: seq<string>) {
    && parts != [] && (forall i :: 0 <= i < |parts| ==> '.' !in parts[i])
    && var text := Join(parts, '.');
       Wrapped(s, text) && text != "" && IsDigit(text[0]) && !IsSpace(text[|text| - 1])
  }

  lemma WrittenReads(s: string, parts: seq<string>)
    requires Written(s, parts)
    ensures Parsed(s) == FromParts(parts)
  {
    hide TrimStart, TrimEnd, SkipVs, Split, Join, FromParts, Wrapped;
    Unwrapped(s, Join(parts, '.'));
    SplitJoin(parts, '.');
  }

  /** A release: all its numbers, no pre-release. */
  lemma ParsedRelease(s: string, ns: seq<nat>, tails: seq<string>)
    requires |ns| == |tails| && AreTails(tails) && Written(s, Numbers(ns, tails))
    ensures Parsed(s) == Version(AllCapped(ns), None)
  {
    hide Parsed, Written, Decimal, FromPieces, SplitMarks;
    WrittenReads(s, Numbers(ns, tails));
    NumbersFirst(ns, tails, []);
    assert Numbers(ns, tails) + [] == Numbers(ns, tails);
    assert AllCapped(ns) + [] == AllCapped(ns);
  }

  /** A pre-release behind a hyphen or plus sign: its number is that at the end of the marker. */
  lemma ParsedPrerelease(s: string, ns: seq<nat>, tails: seq<string>, c: nat, tail: string, marks: string,
      word: string, n: nat, rest: string, more: seq<string>)
    requires |ns| == |tails| && AreTails(tails) && IsTail(tail) && AllMarks(marks) && marks != ""
    requires IsWord(word) && IsRest(rest)
    requires Written(s, Numbers(ns, tails) + ([Decimal(c) + tail + marks + word + Decimal(n) + rest] + more))
    ensures Parsed(s) == Version(AllCapped(ns + [c]), Some(Capped(n)))
  {
    hide Parsed, Written, Decimal, FromPieces, SplitMarks, Capped;
    var parts := [Decimal(c) + tail + marks + word + Decimal(n) + rest] + more;
    WrittenReads(s, Numbers(ns, tails) + parts);
    NumbersFirst(ns, tails, parts);
    MarkedPartIs(c, tail, marks, word, n, rest);
    assert AllCapped(ns + [c]) == AllCapped(ns) + [Capped(c)];
  }

  /** A development build: the pre-release is a part of its own. */
  lemma ParsedBuild(s: string, ns: seq<nat>, tails: seq<string>, marks: string, word: string, n: nat, rest: string,
      more: seq<string>)
    requires |ns| == |tails| && AreTails(tails) && AllMarks(marks)
    requires word != "" && IsWord(word) && IsRest(rest)
    requires Written(s, Numbers(ns, tails) + ([marks + word + Decimal(n) + rest] + more))
    ensures Parsed(s) == Version(AllCapped(ns), Some(Capped(n)))
  {
    hide Parsed, Written, Decimal, FromPieces, SplitMarks, Capped;
    var parts := [marks + word + Decimal(n) + rest] + more;
    WrittenReads(s, Numbers(ns, tails) + parts);
    NumbersFirst(ns, tails, parts);
    MarkerRead([], marks, word, n, rest);
    assert [] + SplitMarks(parts[0]) == SplitMarks(parts[0]);
    assert AllCapped(ns) + [] == AllCapped(ns);
  }

  lemma OneRead(c: char, rest: string)
    ensures DigitsOf([c] + rest) == (if IsDigit(c) then [c] else "") + DigitsOf(rest)
  {
    assert ([c] + rest)[1..] == rest;
  }

  /** All digits of a marker count, wherever they stand in it. */
  lemma {:induction false} DigitsGathered(a: string, b: string)
    ensures DigitsOf(a + b) == DigitsOf(a) + DigitsOf(b)
  {
    if a == "" {
      assert a + b == b;
    } else {
      hide DigitsOf;
      DigitsGathered(a[1..], b);
      OneRead(a[0], a[1..]);
      OneRead(a[0], a[1..] + b);
      assert a == [a[0]] + a[1..];
      assert a + b == [a[0]] + (a[1..] + b);
    }
  }

  // ---- the order ----

  /** The first numbers that differ decide, whatever stands behind them. */
  lemma FirstDifferenceDecides(same: seq<nat>, x: nat, y: nat, a: seq<nat>, b: seq<nat>, p: Option<nat>, q: Option<nat>)
    requires x > y
    ensures Newer(Version(same + [x] + a, p), Version(same + [y] + b, q))
    ensures !Newer(Version(same + [y] + b, q), Version(same + [x] + a, p))
  {
    var l, r := same + [x] + a, same + [y] + b;
    assert DiffersFirst(l, r, |same|);
    OneDifference(l, r, |same|);
  }

  /** A version that only goes on with zeros is the same, and one that goes on with another number is newer. */
  lemma LongerIsNewer(same: seq<nat>, zeros: nat, x: nat, a: seq<nat>, p: Option<nat>, q: Option<nat>)
    requires x > 0
    ensures Newer(Version(same + seq(zeros, _ => 0) + [x] + a, p), Version(same, q))
    ensures !Newer(Version(same, q), Version(same + seq(zeros, _ => 0) + [x] + a, p))
  {
    var l, r := same + seq(zeros, _ => 0) + [x] + a, same;
    assert DiffersFirst(l, r, |same| + zeros);
    OneDifference(l, r, |same| + zeros);
  }

  /** With the same numbers, up to zeros at the end, a release is newer than a pre-release, and of two
      pre-releases the one with the higher number is. */
  lemma PrereleasesDecide(same: seq<nat>, m: nat, n: nat, p: Option<nat>, q: Option<nat>)
    ensures Newer(Version(same + seq(m, _ => 0), p), Version(same + seq(n, _ => 0), q)) <==>
            q.Some? && (p.Some? ==> p.value > q.value)
  {
    var l, r := same + seq(m, _ => 0), same + seq(n, _ => 0);
    assert forall i: nat :: Part(l, i) == Part(r, i);
    NoDifference(l, r);
  }

  /** Two pre-releases a.b.c-word<n>, also with v's in front: the numbers of the versions decide first, then
      those of the pre-releases. */
  lemma MarkedOrder(s: string, t: string, a: nat, b: nat, c: nat, word: string, m: nat,
      x: nat, y: nat, z: nat, other: string, n: nat)
    requires a <= MAX_U64 && b <= MAX_U64 && c <= MAX_U64 && m <= MAX_U64 && IsWord(word)
    requires x <= MAX_U64 && y <= MAX_U64 && z <= MAX_U64 && n <= MAX_U64 && IsWord(other)
    requires Wrapped(s, Marked(a, b, c, word + Decimal(m))) && Wrapped(t, Marked(x, y, z, other + Decimal(n)))
    ensures Parsed(s) == Version([a, b, c], Some(m))
    ensures Newer(Parsed(s), Parsed(t)) <==>
            TupleGreater((a, b, c), (x, y, z)) || ((a, b, c) == (x, y, z) && m > n)
  {
    hide Parsed, CoreGreater, SameCore, Wrapped, Marked;
    MarkedReads(s, a, b, c, word, m);
    MarkedReads(t, x, y, z, other, n);
    CoreOfThree(a, b, c, x, y, z);
  }

  lemma MarkedReads(s: string, a: nat, b: nat, c: nat, word: string, n: nat)
    requires a <= MAX_U64 && b <= MAX_U64 && c <= MAX_U64 && n <= MAX_U64 && IsWord(word)
    requires Wrapped(s, Marked(a, b, c, word + Decimal(n)))
    ensures Parsed(s) == Version([a, b, c], Some(n))
  {
    hide Decimal, Wrapped, Join, Parsed, FromParts, FromPieces, SplitMarks;
    var x, y, last := Decimal(a), Decimal(b), Decimal(c) + "-" + (word + Decimal(n));
    var parts := Numbers([a, b], ["", ""]) + ([last] + []);
    assert x + "" == x && y + "" == y;
    assert parts == [x, y, last];
    assert last == Decimal(c) + "" + "-" + word + Decimal(n) + "";
    JoinOfThree(x, y, last);
    var text := Join(parts, '.');
    assert text[0] == x[0] && text[|text| - 1] == last[|last| - 1] == Decimal(n)[|Decimal(n)| - 1];
    ParsedPrerelease(s, [a, b], ["", ""], c, "", "-", word, n, "", []);
  }

  /** A version in front of which nothing stands, or one v. */
  lemma PlainlyWrapped(text: string)
    ensures Wrapped(text, text) && Wrapped("v" + text, text)
  {
    assert AllSpaces("") && AllVs("") && AllVs("v");
    assert text == "" + "" + text + "";
    assert "v" + text == "" + "v" + text + "";
  }

  /** The second release candidate is newer than the first, also in the spelling with a v. */
  lemma SecondCandidateIsNewer()
    ensures Newer(Parsed("0.3.13-rc2"), Parsed("0.3.13-rc1")) && !Newer(Parsed("0.3.13-rc1"), Parsed("0.3.13-rc2"))
    ensures Newer(Parsed("v0.3.13-rc2"), Parsed("0.3.13-rc1"))
  {
    hide Parsed, Newer, Marked, Wrapped;
    SmallDecimals();
    var one, two := Marked(0, 3, 13, "rc" + Decimal(1)), Marked(0, 3, 13, "rc" + Decimal(2));
    CandidatesWritten();
    PlainlyWrapped(one);
    PlainlyWrapped(two);
    MarkedOrder(two, one, 0, 3, 13, "rc", 2, 0, 3, 13, "rc", 1);
    MarkedOrder(one, two, 0, 3, 13, "rc", 1, 0, 3, 13, "rc", 2);
    MarkedOrder("v" + two, one, 0, 3, 13, "rc", 2, 0, 3, 13, "rc", 1);
  }

  lemma CandidatesWritten()
    ensures Marked(0, 3, 13, "rc" + Decimal(1)) == "0.3.13-rc1" && Marked(0, 3, 13, "rc" + Decimal(2)) == "0.3.13-rc2"
    ensures "v" + "0.3.13-rc2" == "v0.3.13-rc2"
  {
    hide Join;
    SmallDecimals();
    assert Decimal(1) == "1" && Decimal(2) == "2";
    assert "rc" + Decimal(1) == "rc1" && "rc" + Decimal(2) == "rc2";
    JoinOfThree("0", "3", "13-rc1");
    JoinOfThree("0", "3", "13-rc2");
    assert Decimal(13) + "-" + "rc1" == "13-rc1" && Decimal(13) + "-" + "rc2" == "13-rc2";
    assert "0" + "." + "3" + "." + "13-rc1" == "0.3.13-rc1" && "0" + "." + "3" + "." + "13-rc2" == "0.3.13-rc2";
  }
}
