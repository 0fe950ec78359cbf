/** Byte ranges of a static file: parsing the header, and the part of the file that is sent.
    Models `parse_range_header` and the arithmetic and slicing of `handle_range_request` of
    server/src/static_files.rs. The syntax is that of section 2.1 of RFC 7233. */
module Ranges {
  import opened Wrappers
  import opened Text

  datatype Range = Range(start: nat, end: nat)

  datatype Parsed = Ranges(ranges: seq<Range>) | InvalidRange | UnsatisfiableRange

  const UNIT := "bytes="

  /** What one part of the header asks for. */
  datatype Part = Malformed | Nothing | Chosen(range: Range)

  predicate Satisfiable(r: Range, size: nat) {
    r.start <= r.end < size
  }

  function FirstDash(s: string): (i: nat)
    ensures i <= |s| && forall j :: 0 <= j < i ==> s[j] != '-'
    ensures i < |s| ==> s[i] == '-'
  {
    if s == "" || s[0] == '-' then 0 else FirstDash(s[1..]) + 1
  }

  /** The three forms -n, s- and s-e; a part without a dash asks for nothing. */
  function ReadPart(part: string, size: nat): (r: Part)
    ensures r.Chosen? ==> Satisfiable(r.range, size)
  {
    if part != "" && part[0] == '-' then
      match ParseUnsigned(part[1..], MAX_U64)
      case None => Malformed
      case Some(n) => if 0 < n <= size then Chosen(Range(size - n, size - 1)) else Nothing
    else if part != "" && part[|part| - 1] == '-' then
      match ParseUnsigned(part[..|part| - 1], MAX_U64)
      case None => Malformed
      case Some(start) => if start < size then Chosen(Range(start, size - 1)) else Nothing
    else
      var dash := FirstDash(part);
      if dash == |part| then Nothing
      else
        match (ParseUnsigned(part[..dash], MAX_U64), ParseUnsigned(part[dash + 1..], MAX_U64))
        case (Some(start), Some(end)) =>
          if start <= end && start < size
          then Chosen(Range(start, if end < size - 1 then end else size - 1)) else Nothing
        case _ => Malformed
  }

  function Trimmed(s: string): string {
    TrimEnd(TrimStart(s))
  }

  /** The satisfiable ranges of some parts in order; none if a part is malformed. */
  function ReadParts(parts: seq<string>, size: nat): Option<seq<Range>> {
    if parts == [] then Some([])
    else
      match ReadPart(Trimmed(parts[0]), size)
      case Malformed => None
      case Nothing => ReadParts(parts[1..], size)
      case Chosen(range) =>
        match ReadParts(parts[1..], size)
        case None => None
        case Some(rest) => Some([range] + rest)
  }

  function ReadHeader(header: string, size: nat): Parsed {
    if !(UNIT <= header) then InvalidRange
    else
      match ReadParts(Split(header[|UNIT|..], ','), size)
      case None => InvalidRange
      case Some(ranges) => if ranges == [] then UnsatisfiableRange else Ranges(ranges)
  }

  /** Every range that is returned lies in the file, and at least one is. */
  method ParseRangeHeader(header: string, size: nat) returns (result: Parsed)
    ensures result == ReadHeader(header, size)
    ensures result.Ranges? ==> result.ranges != [] && forall i :: 0 <= i < |result.ranges| ==>
            Satisfiable(result.ranges[i], size)
  {
    hide Split, ReadPart, Trimmed;
    if !(UNIT <= header) {
      return InvalidRange;
    }
    var parts := Split(header[|UNIT|..], ',');
    var ranges: seq<Range> := [];
    var i := 0;
    assert parts[0..] == parts;
    NoneYet(ReadParts(parts, size));
    while i < |parts|
      invariant i <= |parts|
      invariant ReadParts(parts, size) == After(ranges, ReadParts(parts[i..], size))
      invariant forall k :: 0 <= k < |ranges| ==> Satisfiable(ranges[k], size)
    {
      assert parts[i..][1..] == parts[i + 1..];
      match ReadPart(Trimmed(parts[i]), size) {
        case Malformed => return InvalidRange;
        case Nothing =>
        case Chosen(range) =>
          OneMore(ranges, range, ReadParts(parts[i + 1..], size));
          ranges := ranges + [range];
      }
      i := i + 1;
    }
    assert ranges + [] == ranges;
    return if ranges == [] then UnsatisfiableRange else Ranges(ranges);
  }

  function After(first: seq<Range>, rest: Option<seq<Range>>): Option<seq<Range>> {
    if rest.None? then None else Some(first + rest.value)
  }

  lemma NoneYet(rest: Option<seq<Range>>)
    ensures After([], rest) == rest
  {
    assert rest.Some? ==> [] + rest.value == rest.value;
  }

  lemma OneMore(first: seq<Range>, range: Range, rest: Option<seq<Range>>)
    ensures After(first, After([range], rest)) == After(first + [range], rest)
  {
    assert rest.Some? ==> first + ([range] + rest.value) == (first + [range]) + rest.value;
  }

  // ---- what is sent ----

  datatype Response = Partial(body: seq<bv8>, start: nat, end: nat, size: nat) | Refused

  /** The range part of a request whose validators match: exactly one range, cut out of the file. The
      bounds check never refuses a range that was parsed. */
  method ServeRange(header: string, file: seq<bv8>) returns (response: Response)
    ensures response == Served(header, file)
    ensures response.Partial? <==> ReadHeader(header, |file|).Ranges? && |ReadHeader(header, |file|).ranges| == 1
    ensures response.Partial? ==>
              && response.start <= response.end < response.size == |file|
              && response.body == file[response.start..response.end + 1]
              && |response.body| == response.end - response.start + 1 > 0
  {
    var parsed := ParseRangeHeader(header, |file|);
    if !parsed.Ranges? || |parsed.ranges| != 1 {
      return Refused;
    }
    var range := parsed.ranges[0];
    if range.start >= |file| || range.end >= |file| || range.start > range.end {
      return Refused;
    }
    var length := range.end - range.start + 1;
    return Partial(file[range.start..range.start + length], range.start, range.end, |file|);
  }

  function Served(header: string, file: seq<bv8>): Response {
    var parsed := ReadHeader(header, |file|);
    if parsed.Ranges? && |parsed.ranges| == 1 && Satisfiable(parsed.ranges[0], |file|) then
      var range := parsed.ranges[0];
      Partial(file[range.start..range.end + 1], range.start, range.end, |file|)
    else Refused
  }

  // ---- round trips ----

  lemma ReadOne(part: string, size: nat)
    requires ',' !in part && Trimmed(part) == part
    ensures ReadHeader(UNIT + part, size) ==
            match ReadPart(part, size)
            case Malformed => InvalidRange
            case Nothing => UnsatisfiableRange
            case Chosen(range) => Ranges([range])
  {
    hide ReadPart, Trimmed;
    SplitWhole(part, ',');
    assert (UNIT + part)[|UNIT|..] == part;
    assert ReadParts([part][1..], size) == Some([]);
  }

  lemma DigitsAndDash(s: string)
    requires s != "" && forall i :: 0 <= i < |s| ==> IsDigit(s[i]) || s[i] == '-'
    ensures ',' !in s && Trimmed(s) == s
  {
  }

  /** A written range s-e is read back as the same pair, cut to the file; refused if it starts behind
      the end of the file. */
  lemma RangeRoundTrip(start: nat, end: nat, size: nat)
    requires start <= end <= MAX_U64
    ensures ReadHeader(UNIT + Decimal(start) + "-" + Decimal(end), size) ==
            if start >= size then UnsatisfiableRange
            else Ranges([Range(start, if end < size then end else size - 1)])
  {
    hide Decimal, ReadHeader, Trimmed;
    var s, e := Decimal(start), Decimal(end);
    var part := s + "-" + e;
    DigitsAndDash(part);
    ReadOne(part, size);
    assert UNIT + s + "-" + e == UNIT + part;
    assert FirstDash(part) == |s| by {
      assert part[|s|] == '-' && forall j :: 0 <= j < |s| ==> part[j] == s[j];
    }
    assert part[..|s|] == s && part[|s| + 1..] == e;
    assert part[0] == s[0] && part[|part| - 1] == e[|e| - 1];
    ParseDecimal(start, MAX_U64);
    ParseDecimal(end, MAX_U64);
  }

  /** A written range s- is read back as everything from s on. */
  lemma PrefixRoundTrip(start: nat, size: nat)
    requires start <= MAX_U64
    ensures ReadHeader(UNIT + Decimal(start) + "-", size) ==
            if start >= size then UnsatisfiableRange else Ranges([Range(start, size - 1)])
  {
    hide Decimal, ReadHeader, Trimmed;
    var s := Decimal(start);
    var part := s + "-";
    DigitsAndDash(part);
    ReadOne(part, size);
    assert UNIT + s + "-" == UNIT + part;
    assert part[0] == s[0] && part[..|part| - 1] == s;
    ParseDecimal(start, MAX_U64);
  }

  /** A written range -n is read back as the last n bytes if and only if the file has that many; section
      2.1 of RFC 7233 takes the whole file for a longer suffix, which is refused here. */
  lemma SuffixRoundTrip(n: nat, size: nat)
    requires n <= MAX_U64
    ensures ReadHeader(UNIT + "-" + Decimal(n), size) ==
            if 0 < n <= size then Ranges([Range(size - n, size - 1)]) else UnsatisfiableRange
  {
    hide Decimal, ReadHeader, Trimmed;
    var s := Decimal(n);
    var part := "-" + s;
    DigitsAndDash(part);
    ReadOne(part, size);
    assert UNIT + "-" + s == UNIT + part;
    assert part[1..] == s;
    ParseDecimal(n, MAX_U64);
  }

  /** So the last five bytes of a file of three are refused. */
  lemma SuffixTooLong()
    ensures Served("bytes=-5", [1, 2, 3]) == Refused && ReadHeader("bytes=-3", 3) == Ranges([Range(0, 2)])
  {
    hide ReadHeader, Decimal;
    OneDigit(5);
    OneDigit(3);
    assert UNIT + "-" + "5" == "bytes=-5" && UNIT + "-" + "3" == "bytes=-3";
    SuffixRoundTrip(5, 3);
    SuffixRoundTrip(3, 3);
  }

  lemma OneDigit(n: nat)
    requires n < 10
    ensures Decimal(n) == ["0123456789"[n]]
  {
  }

  /** Nothing can be served of an empty file, whatever the header. */
  lemma {:induction false} EmptyFile(parts: seq<string>, header: string)
    ensures ReadParts(parts, 0).Some? ==> ReadParts(parts, 0).value == []
    ensures Served(header, []) == Refused
  {
    if parts != [] {
      EmptyFile(parts[1..], header);
    }
  }

  // ---- fetching in chunks ----

  /** The last byte that a client asks for with one chunk. */
  function ChunkEnd(start: nat, chunk: nat): nat
    requires chunk > 0
  {
    if start + chunk - 1 <= MAX_U64 then start + chunk - 1 else MAX_U64
  }

  /** The bodies of consecutive requests for chunks, put together, from a position on. */
  function Fetched(file: seq<bv8>, chunk: nat, start: nat): seq<bv8>
    requires chunk > 0
    decreases |file| - start
  {
    if start >= |file| then [] else
    var response := Served(UNIT + Decimal(start) + "-" + Decimal(ChunkEnd(start, chunk)), file);
    (if response.Partial? then response.body else []) + Fetched(file, chunk, start + chunk)
  }

  /** Reassembly: chunks of any positive length give back exactly the rest of the file. */
  lemma {:induction false} Reassembled(file: seq<bv8>, chunk: nat, start: nat)
    requires chunk > 0 && |file| <= MAX_U64 && start <= |file|
    ensures Fetched(file, chunk, start) == file[start..]
    decreases |file| - start
  {
    hide ReadHeader, Decimal;
    if start < |file| {
      RangeRoundTrip(start, ChunkEnd(start, chunk), |file|);
      if start + chunk < |file| {
        Reassembled(file, chunk, start + chunk);
        assert file[start..] == file[start..start + chunk] + file[start + chunk..];
      }
    }
  }
}
