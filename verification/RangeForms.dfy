/** Range headers in terms of their text: lists of ranges in any of the three forms, with white space around
    them, what is malformed, and what asks for nothing.
    Models `parse_range_header` of server/src/static_files.rs. */
module RangeForms {
  import opened Wrappers
  import opened Text
  import opened Ranges

  /** s-, s-e and -n. */
  datatype Spec = From(start: nat) | Between(start: nat, end: nat) | Last(n: nat)

  function Written(spec: Spec): string {
    match spec
    case From(start) => Decimal(start) + "-"
    case Between(start, end) => Decimal(start) + "-" + Decimal(end)
    case Last(n) => "-" + Decimal(n)
  }

  /** Its numbers have 64 bits. */
  predicate Small(spec: Spec) {
    match spec
    case From(start) => start < 0x1_0000_0000_0000_0000
    case Between(start, end) => start < 0x1_0000_0000_0000_0000 && end < 0x1_0000_0000_0000_0000
    case Last(n) => n < 0x1_0000_0000_0000_0000
  }

  /** The bytes of a file of this size that it asks for. */
  function Asked(spec: Spec, size: nat): Option<Range> {
    match spec
    case From(start) => if start < size then Some(Range(start, size - 1)) else None
    case Between(start, end) =>
      if start <= end && start < size then Some(Range(start, if end < size then end else size - 1)) else None
    case Last(n) => if 1 <= n <= size then Some(Range(size - n, size - 1)) else None
  }

  function AllAsked(specs: seq<Spec>, size: nat): seq<Range> {
    if specs == [] then [] else
    (if Asked(specs[0], size).Some? then [Asked(specs[0], size).value] else []) + AllAsked(specs[1..], size)
  }

  /** The text without what surrounds it. */
  ghost predicate Padded(part: string, text: string) {
    exists a, b :: AllSpaces(a) && AllSpaces(b) && part == a + text + b
  }

  lemma PaddingTrimmed(part: string, text: string)
    requires Padded(part, text) && text != "" && !IsSpace(text[0]) && !IsSpace(text[|text| - 1])
    ensures Trimmed(part) == text
  {
    hide TrimStart, TrimEnd;
    var a, b :| AllSpaces(a) && AllSpaces(b) && part == a + text + b;
    assert part == a + (text + b) && (text + b)[0] == text[0];
    StartTrimmed(a, text + b);
    EndTrimmed(text, b);
  }

  lemma WrittenText(spec: Spec)
    ensures var s := Written(spec);
            && s != "" && !IsSpace(s[0]) && !IsSpace(s[|s| - 1]) && ',' !in s
  {
    hide Decimal;
  }

  lemma DashAt(a: string, b: string)
    requires '-' !in a
    ensures FirstDash(a + "-" + b) == |a|
  {
    var s := a + "-" + b;
    assert s[|a|] == '-' && forall j :: 0 <= j < |a| ==> s[j] == a[j];
  }

  lemma WrittenRead(spec: Spec, size: nat)
    requires Small(spec)
    ensures ReadPart(Written(spec), size)
            == match Asked(spec, size) case None => Nothing case Some(range) => Chosen(range)
  {
    hide Decimal, ParseUnsigned, FirstDash;
    match spec
    case From(start) =>
      ParseDecimal(start, MAX_U64);
      assert Written(spec)[..|Written(spec)| - 1] == Decimal(start) && Written(spec)[0] == Decimal(start)[0];
    case Last(n) =>
      ParseDecimal(n, MAX_U64);
      assert Written(spec)[1..] == Decimal(n);
    case Between(start, end) =>
      var s, e := Decimal(start), Decimal(end);
      var part := s + "-" + e;
      ParseDecimal(start, MAX_U64);
      ParseDecimal(end, MAX_U64);
      DashAt(s, e);
      assert part[0] == s[0] && part[|part| - 1] == e[|e| - 1] && part[..|s|] == s && part[|s| + 1..] == e;
  }

  lemma {:induction false} AllRead(specs: seq<Spec>, parts: seq<string>, size: nat)
    requires |parts| == |specs|
    requires forall i :: 0 <= i < |specs| ==> Small(specs[i]) && Padded(parts[i], Written(specs[i]))
    ensures ReadParts(parts, size) == Some(AllAsked(specs, size))
  {
    hide ReadPart, Trimmed, Written, Padded, Asked, Small;
    if specs != [] {
      AllRead(specs[1..], parts[1..], size);
      WrittenText(specs[0]);
      PaddingTrimmed(parts[0], Written(specs[0]));
      WrittenRead(specs[0], size);
      assert [] + AllAsked(specs[1..], size) == AllAsked(specs[1..], size);
    }
  }

  /** A list of ranges in any of the three forms: the ranges that the file can satisfy, in order, and an error
      when there are none. */
  lemma ListRead(specs: seq<Spec>, parts: seq<string>, size: nat)
    requires specs != [] && |parts| == |specs|
    requires forall i :: 0 <= i < |specs| ==>
               Small(specs[i]) && Padded(parts[i], Written(specs[i])) && ',' !in parts[i]
    ensures ReadHeader("bytes=" + Join(parts, ','), size) ==
            if AllAsked(specs, size) == [] then UnsatisfiableRange else Ranges(AllAsked(specs, size))
  {
    hide ReadParts, Join, Split;
    AllRead(specs, parts, size);
    SplitJoin(parts, ',');
    assert ("bytes=" + Join(parts, ','))[6..] == Join(parts, ',');
  }

  /** Neither a number nor empty: some character is no digit. */
  ghost predicate NoDigits(s: string) {
    exists i :: 0 <= i < |s| && !IsDigit(s[i]) && s[i] != '+'
  }

  /** What stands in front of and behind the first dash is not one of the three forms. */
  ghost predicate MisshapenAt(a: string, b: string) {
    if a == "" then b == "" || NoDigits(b)
    else if b == "" then NoDigits(a)
    else b[|b| - 1] == '-' || NoDigits(a) || NoDigits(b)
  }

  /** Text with a dash that is not one of the three forms. */
  ghost predicate Misshapen(text: string) {
    exists a, b :: text == a + "-" + b && '-' !in a && MisshapenAt(a, b)
  }

  lemma MisshapenRead(text: string, size: nat)
    requires Misshapen(text)
    ensures ReadPart(text, size) == Malformed
  {
    hide ReadPart;
    var a, b :| text == a + "-" + b && '-' !in a && MisshapenAt(a, b);
    if a == "" {
      LastMisread(b, size);
      assert a + "-" + b == "-" + b;
    } else if b == "" || b[|b| - 1] == '-' {
      FromMisread(a, b, size);
    } else {
      BetweenMisread(a, b, size);
    }
  }

  lemma LastMisread(b: string, size: nat)
    requires b == "" || NoDigits(b)
    ensures ReadPart("-" + b, size) == Malformed
  {
    hide ParseUnsigned, FirstDash;
    assert ("-" + b)[1..] == b;
    NoNumber(b, MAX_U64);
  }

  lemma FromMisread(a: string, b: string, size: nat)
    requires a != "" && '-' !in a && if b == "" then NoDigits(a) else b[|b| - 1] == '-'
    ensures ReadPart(a + "-" + b, size) == Malformed
  {
    hide ParseUnsigned, FirstDash;
    var text := a + "-" + b;
    var front := text[..|text| - 1];
    assert text[0] == a[0];
    if b == "" {
      assert front == a;
    } else {
      assert front[|a|] == '-';
    }
    NoNumber(front, MAX_U64);
  }

  lemma BetweenMisread(a: string, b: string, size: nat)
    requires a != "" && '-' !in a && b != "" && b[|b| - 1] != '-' && (NoDigits(a) || NoDigits(b))
    ensures ReadPart(a + "-" + b, size) == Malformed
  {
    hide ParseUnsigned, FirstDash;
    var text := a + "-" + b;
    DashAt(a, b);
    assert text[0] == a[0] && text[|text| - 1] == b[|b| - 1] && text[..|a|] == a && text[|a| + 1..] == b;
    if NoDigits(a) {
      NoNumber(a, MAX_U64);
    } else {
      NoNumber(b, MAX_U64);
    }
  }

  lemma {:induction false} MalformedStops(parts: seq<string>, i: nat, size: nat)
    requires i < |parts| && ReadPart(Trimmed(parts[i]), size) == Malformed
    ensures ReadParts(parts, size) == None
  {
    hide ReadPart, Trimmed;
    if i > 0 {
      MalformedStops(parts[1..], i - 1, size);
    }
  }

  /** One misshapen range makes the whole header invalid, whatever the others are. */
  lemma MisshapenRefused(parts: seq<string>, i: nat, text: string, size: nat)
    requires i < |parts| && Padded(parts[i], text) && Misshapen(text)
    requires !IsSpace(text[0]) && !IsSpace(text[|text| - 1])
    requires forall k :: 0 <= k < |parts| ==> ',' !in parts[k]
    ensures ReadHeader("bytes=" + Join(parts, ','), size) == InvalidRange
  {
    hide ReadParts, Join, Split, ReadPart, Trimmed;
    PaddingTrimmed(parts[i], text);
    MisshapenRead(text, size);
    MalformedStops(parts, i, size);
    SplitJoin(parts, ',');
    assert ("bytes=" + Join(parts, ','))[6..] == Join(parts, ',');
  }

  /** So does another unit. */
  lemma OtherUnit(header: string, size: nat)
    requires !("bytes=" <= header)
    ensures ReadHeader(header, size) == InvalidRange
  {
  }

  /** Text without a dash asks for nothing. */
  lemma NoDash(text: string, size: nat)
    requires '-' !in text
    ensures ReadPart(text, size) == Nothing
  {
  }
}
