/** Text as the parsers of versions, ranges and dotted paths see it: splitting at a separator, joining
    again, and decimal numbers. */
module Text {
  import opened Wrappers

  // ---- splitting and joining ----

  /** The pieces between separators; always at least one, as Rust's `split` returns them. */
  function Split(s: string, separator: char): (pieces: seq<string>)
    ensures pieces != []
    ensures forall i :: 0 <= i < |pieces| ==> separator !in pieces[i]
  {
    if s == "" then [""]
    else if s[0] == separator then [""] + Split(s[1..], separator)
    else
      var rest := Split(s[1..], separator);
      [[s[0]] + rest[0]] + rest[1..]
  }

  function Join(pieces: seq<string>, separator: char): string {
    if pieces == [] then "" else if |pieces| == 1 then pieces[0]
    else pieces[0] + [separator] + Join(pieces[1..], separator)
  }

  lemma {:induction false} SplitAtFirst(a: string, b: string, separator: char)
    requires separator !in a
    ensures Split(a + [separator] + b, separator) == [a] + Split(b, separator)
  {
    if a == "" {
      assert (a + [separator] + b)[1..] == b;
    } else {
      SplitAtFirst(a[1..], b, separator);
      assert (a + [separator] + b)[1..] == a[1..] + [separator] + b;
      assert [a[0]] + a[1..] == a;
    }
  }

  lemma {:induction false} SplitWhole(a: string, separator: char)
    requires separator !in a
    ensures Split(a, separator) == [a]
  {
    if a != "" {
      SplitWhole(a[1..], separator);
      assert [a[0]] + a[1..] == a;
    }
  }

  /** Splitting undoes joining, as long as no piece contains the separator. */
  lemma {:induction false} SplitJoin(pieces: seq<string>, separator: char)
    requires pieces != [] && forall i :: 0 <= i < |pieces| ==> separator !in pieces[i]
    ensures Split(Join(pieces, separator), separator) == pieces
  {
    if |pieces| == 1 {
      SplitWhole(pieces[0], separator);
    } else {
      SplitJoin(pieces[1..], separator);
      SplitAtFirst(pieces[0], Join(pieces[1..], separator), separator);
    }
  }

  lemma {:induction false} JoinAppend(pieces: seq<string>, last: string, separator: char)
    requires pieces != []
    ensures Join(pieces + [last], separator) == Join(pieces, separator) + [separator] + last
  {
    if |pieces| == 1 {
      assert (pieces + [last])[1..] == [last];
    } else {
      JoinAppend(pieces[1..], last, separator);
      assert (pieces + [last])[1..] == pieces[1..] + [last];
    }
  }

  // ---- white space ----

  predicate IsSpace(c: char) {
    c == ' ' || '\t' <= c <= '\r'
  }

  function TrimStart(s: string): string {
    if s != "" && IsSpace(s[0]) then TrimStart(s[1..]) else s
  }

  function TrimEnd(s: string): string {
    if s != "" && IsSpace(s[|s| - 1]) then TrimEnd(s[..|s| - 1]) else s
  }

  predicate AllSpaces(s: string) {
    forall i :: 0 <= i < |s| ==> IsSpace(s[i])
  }

  lemma {:induction false} StartTrimmed(spaces: string, s: string)
    requires AllSpaces(spaces) && (s != "" ==> !IsSpace(s[0]))
    ensures TrimStart(spaces + s) == s
  {
    if spaces == "" {
      assert spaces + s == s;
    } else {
      StartTrimmed(spaces[1..], s);
      assert (spaces + s)[1..] == spaces[1..] + s;
    }
  }

  lemma {:induction false} EndTrimmed(s: string, spaces: string)
    requires AllSpaces(spaces) && (s != "" ==> !IsSpace(s[|s| - 1]))
    ensures TrimEnd(s + spaces) == s
  {
    if spaces == "" {
      assert s + spaces == s;
    } else {
      EndTrimmed(s, spaces[..|spaces| - 1]);
      assert (s + spaces)[..|s + spaces| - 1] == s + spaces[..|spaces| - 1];
    }
  }

  // ---- decimal numbers ----

  const MAX_U32 := 0xFFFF_FFFF
  const MAX_U64 := 0xFFFF_FFFF_FFFF_FFFF

  predicate IsDigit(c: char) {
    '0' <= c <= '9'
  }

  predicate AllDigits(s: string) {
    forall i :: 0 <= i < |s| ==> IsDigit(s[i])
  }

  /** The number that a string of digits stands for; 0 for the empty string. */
  function Value(s: string): nat
    requires AllDigits(s)
  {
    if s == "" then 0 else Value(s[..|s| - 1]) * 10 + (s[|s| - 1] - '0') as nat
  }

  function Decimal(n: nat): (s: string)
    ensures s != "" && AllDigits(s)
  {
    var digit := ['0' + (n % 10) as char];
    if n < 10 then digit else Decimal(n / 10) + digit
  }

  lemma {:induction false} DecimalValue(n: nat)
    ensures Value(Decimal(n)) == n
  {
    var s := Decimal(n);
    if n >= 10 {
      DecimalValue(n / 10);
      assert s[..|s| - 1] == Decimal(n / 10);
    } else {
      assert s[..|s| - 1] == "";
    }
  }

  /** Reads an unsigned number of at most `max`, as Rust's `parse` does: an optional plus sign, then at
      least one digit and nothing else. */
  function ParseUnsigned(s: string, max: nat): (r: Option<nat>)
    ensures r.Some? ==> r.value <= max
  {
    var digits := if s != "" && s[0] == '+' then s[1..] else s;
    if digits == "" || !AllDigits(digits) || Value(digits) > max then None else Some(Value(digits))
  }

  lemma ParseDecimal(n: nat, max: nat)
    ensures ParseUnsigned(Decimal(n), max) == if n <= max then Some(n) else None
  {
    DecimalValue(n);
    assert Decimal(n)[0] != '+';
  }

  /** What is no number: nothing, a lone sign, or anything that is neither a digit nor a sign in front. */
  lemma NoNumber(s: string, max: nat)
    requires s == "" || s == "+" || exists i :: 0 <= i < |s| && !IsDigit(s[i]) && !(i == 0 && s[i] == '+')
    ensures ParseUnsigned(s, max) == None
  {
    if i :| 0 <= i < |s| && !IsDigit(s[i]) && !(i == 0 && s[i] == '+') {
      if s[0] == '+' {
        assert s[1..][i - 1] == s[i];
      }
    }
  }

  /** A sign in front of a number does not matter. */
  lemma SignedDecimal(n: nat, max: nat)
    ensures ParseUnsigned("+" + Decimal(n), max) == ParseUnsigned(Decimal(n), max)
  {
    ParseDecimal(n, max);
    DecimalValue(n);
    assert ("+" + Decimal(n))[1..] == Decimal(n);
  }

  /** Space, tab, line feed, vertical tab, form feed and carriage return. */
  lemma SpacesAre(c: char)
    ensures IsSpace(c) <==> c as int in {32, 9, 10, 11, 12, 13}
  {
  }
}
