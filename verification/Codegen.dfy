/** The repair of `kind` literals in generated TypeScript: inside one declaration, every literal is put
    into snake case. Models `rewrite_kind_literals_to_snake_case` and `pascal_to_snake` of
    client-codegen/src/generator.rs on ASCII text. */
module Codegen {
  import opened Wrappers

  // ---- finding text ----

  predicate Occurs(s: string, needle: string, i: nat) {
    i + |needle| <= |s| && s[i..i + |needle|] == needle
  }

  /** The first occurrence. */
  function Find(s: string, needle: string): (r: Option<nat>)
    requires needle != ""
    ensures r.Some? ==> Occurs(s, needle, r.value) && forall i: nat :: i < r.value ==> !Occurs(s, needle, i)
    ensures r.None? ==> forall i: nat :: !Occurs(s, needle, i)
  {
    if s == "" then None
    else if needle <= s then Some(0)
    else
      var later := Find(s[1..], needle);
      assert forall i: nat :: i > 0 ==> (Occurs(s, needle, i) <==> Occurs(s[1..], needle, i - 1)) by {
        forall i: nat | i > 0 ensures Occurs(s, needle, i) <==> Occurs(s[1..], needle, i - 1) {
          OccursShifted(s[..1], s[1..], needle, i - 1);
          assert s[..1] + s[1..] == s;
        }
      }
      if later.Some? then Some(later.value + 1) else None
  }

  lemma OccursShifted(a: string, b: string, needle: string, i: nat)
    ensures Occurs(a + b, needle, |a| + i) <==> Occurs(b, needle, i)
  {
    if i + |needle| <= |b| {
      assert (a + b)[|a| + i..|a| + i + |needle|] == b[i..i + |needle|];
    }
  }

  lemma OccursInPrefix(a: string, b: string, needle: string, i: nat)
    requires i + |needle| <= |a|
    ensures Occurs(a + b, needle, i) <==> Occurs(a, needle, i)
  {
    assert (a + b)[i..i + |needle|] == a[i..i + |needle|];
  }

  lemma FindOnly(s: string, needle: string, i: nat)
    requires needle != "" && Occurs(s, needle, i) && forall j: nat :: j < i ==> !Occurs(s, needle, j)
    ensures Find(s, needle) == Some(i)
  {
    hide Find, Occurs;
  }

  /** The first occurrence only depends on the text up to its own end. */
  lemma FindStays(a: string, b: string, c: string, needle: string, i: nat)
    requires needle != "" && Find(a + b, needle) == Some(i) && i + |needle| <= |a|
    ensures Find(a + c, needle) == Some(i)
  {
    hide Find, Occurs;
    OccursInPrefix(a, b, needle, i);
    OccursInPrefix(a, c, needle, i);
    forall j: nat | j < i ensures !Occurs(a + c, needle, j) {
      OccursInPrefix(a, b, needle, j);
      OccursInPrefix(a, c, needle, j);
    }
    FindOnly(a + c, needle, i);
  }

  // ---- snake case ----

  predicate IsUpper(c: char) {
    'A' <= c <= 'Z'
  }

  function Lower(c: char): char {
    if IsUpper(c) then c - 'A' + 'a' else c
  }

  function Upper(c: char): char {
    if 'a' <= c <= 'z' then c - 'a' + 'A' else c
  }

  /** What one character becomes; only the first one gets no underscore. */
  function SnakeAt(c: char, first: bool): string {
    if IsUpper(c) then (if first then "" else "_") + [Lower(c)] else [c]
  }

  function Snake(s: string): string {
    if s == "" then "" else Snake(s[..|s| - 1]) + SnakeAt(s[|s| - 1], |s| == 1)
  }

  method PascalToSnake(s: string) returns (out: string)
    ensures out == Snake(s)
  {
    out := "";
    for i := 0 to |s|
      invariant out == Snake(s[..i])
    {
      var ch := s[i];
      assert s[..i + 1][..i] == s[..i];
      if IsUpper(ch) {
        if i > 0 {
          out := out + "_";
        }
        out := out + [Lower(ch)];
      } else {
        out := out + [ch];
      }
      assert out == Snake(s[..i]) + SnakeAt(ch, i == 0);
    }
    assert s[..|s|] == s;
  }

  /** Nothing is left for a second pass. */
  lemma {:induction false} SnakeHasNoUpper(s: string)
    ensures forall i :: 0 <= i < |Snake(s)| ==> !IsUpper(Snake(s)[i])
    ensures '\'' !in s ==> '\'' !in Snake(s)
  {
    if s != "" {
      SnakeHasNoUpper(s[..|s| - 1]);
      assert '\'' !in s ==> s[|s| - 1] != '\'';
    }
  }

  lemma {:induction false} SnakeOfLower(s: string)
    requires forall i :: 0 <= i < |s| ==> !IsUpper(s[i])
    ensures Snake(s) == s
  {
    if s != "" {
      SnakeOfLower(s[..|s| - 1]);
      assert s[..|s| - 1] + [s[|s| - 1]] == s;
    }
  }

  lemma SnakeTwice(s: string)
    ensures Snake(Snake(s)) == Snake(s)
  {
    SnakeHasNoUpper(s);
    SnakeOfLower(Snake(s));
  }

  /** Reads snake case back: the first letter and each one after an underscore in upper case. */
  function Pascal(s: string): string {
    if s == "" then ""
    else if |s| > 1 && s[|s| - 2] == '_' then Pascal(s[..|s| - 2]) + [Upper(s[|s| - 1])]
    else Pascal(s[..|s| - 1]) + [if |s| == 1 then Upper(s[0]) else s[|s| - 1]]
  }

  predicate IsPascal(s: string) {
    && (s != "" ==> IsUpper(s[0]))
    && forall i :: 0 <= i < |s| ==> s[i] != '_'
  }

  lemma PascalUpper(t: string, c: char)
    requires IsUpper(c)
    ensures Pascal(t + ['_', Lower(c)]) == Pascal(t) + [c]
  {
    var s := t + ['_', Lower(c)];
    assert s[..|s| - 2] == t;
  }

  lemma PascalOther(t: string, c: char)
    requires t != "" && t[|t| - 1] != '_'
    ensures Pascal(t + [c]) == Pascal(t) + [c]
  {
    var s := t + [c];
    assert s[..|s| - 1] == t;
  }

  /** Snake case keeps Pascal-case names apart: they can be read back. */
  lemma {:induction false} PascalRoundTrip(s: string)
    requires IsPascal(s)
    ensures Pascal(Snake(s)) == s
    ensures s != "" ==> Snake(s) != "" && Snake(s)[|Snake(s)| - 1] != '_'
  {
    hide Pascal;
    if |s| == 1 {
      PascalOfOne(s);
    } else if s != "" {
      var front, last := s[..|s| - 1], s[|s| - 1];
      PascalRoundTrip(front);
      assert front + [last] == s;
      if IsUpper(last) {
        PascalUpper(Snake(front), last);
        assert Snake(s) == Snake(front) + ['_', Lower(last)];
      } else {
        PascalOther(Snake(front), last);
      }
    } else {
      NoName();
    }
  }

  lemma UpperOfLower(c: char)
    requires IsUpper(c)
    ensures Upper(Lower(c)) == c
  {
  }

  lemma PascalOfOne(s: string)
    requires |s| == 1 && IsUpper(s[0])
    ensures Snake(s) == [Lower(s[0])] && Pascal(Snake(s)) == s
  {
    hide Upper, Lower;
    UpperOfLower(s[0]);
    SnakeOfNothing();
    assert s[..0] == "";
    assert Snake(s) == [Lower(s[0])];
    assert Pascal([Lower(s[0])][..0]) == "";
  }

  lemma NoName()
    ensures Pascal(Snake("")) == ""
  {
  }

  // ---- literals ----

  const LITERAL := "kind: z.literal('"
  const QUOTE := "'"

  /** The text up to and with the opening of the first literal, what the literal holds, its closing quote
      and the rest; a literal that is not closed holds nothing. */
  datatype Opened = Opened(before: string, content: string, close: string, rest: string)

  function Open(body: string): (r: Option<Opened>)
    ensures r.None? <==> Find(body, LITERAL).None?
    ensures r.Some? ==> |r.value.rest| < |body|
  {
    match Find(body, LITERAL)
    case None => None
    case Some(i) => Some(OpenedAt(body[..i + |LITERAL|], body[i + |LITERAL|..]))
  }

  lemma Joined(a: string, b: string, c: string, d: string)
    ensures a + (b + c + d) == a + b + c + d
  {
  }

  lemma OpenMeans(body: string)
    requires Open(body).Some?
    ensures var o := Open(body).value;
            && body == o.before + (o.content + o.close + o.rest)
            && |LITERAL| <= |o.before| && Find(body, LITERAL) == Some(|o.before| - |LITERAL|)
            && '\'' !in o.content
            && (o.close == QUOTE || (o.close == "" && o.content == "" && '\'' !in o.rest))
  {
    hide Find, OpenedAt;
    var i := Find(body, LITERAL).value;
    assert body == body[..i + |LITERAL|] + body[i + |LITERAL|..];
  }

  function OpenedAt(before: string, after: string): (o: Opened)
    ensures o.before == before && after == o.content + o.close + o.rest && |o.rest| <= |after|
    ensures '\'' !in o.content
    ensures o.close == QUOTE || (o.close == "" && o.content == "" && '\'' !in o.rest)
  {
    match Find(after, QUOTE)
    case None =>
      NoQuote(after, |after|);
      Opened(before, "", "", after)
    case Some(close) =>
      NoQuote(after, close);
      Opened(before, after[..close], QUOTE, after[close + 1..])
  }

  lemma NoQuote(s: string, n: nat)
    requires n <= |s| && forall i: nat :: i < n ==> !Occurs(s, QUOTE, i)
    ensures '\'' !in s[..n]
    ensures n == |s| ==> '\'' !in s
  {
    forall i | 0 <= i < n ensures s[i] != '\'' {
      assert !Occurs(s, QUOTE, i);
      assert s[i..i + 1] == [s[i]];
    }
  }

  /** The text with the content of every closed literal in snake case. */
  function RewriteKinds(body: string): string {
    match Open(body)
    case None => body
    case Some(o) => o.before + Snake(o.content) + o.close + RewriteKinds(o.rest)
  }

  // ---- the block ----

  function Turn(c: char): int {
    if c == '(' || c == '[' || c == '{' then 1 else if c == ')' || c == ']' || c == '}' then -1 else 0
  }

  /** The end of the block: behind the first semicolon that is not inside brackets, or the end of the
      text. */
  function BlockEnd(s: string, depth: int): (end: nat)
    ensures end <= |s|
  {
    if s == "" then 0 else if s[0] == ';' && depth == 0 then 1 else 1 + BlockEnd(s[1..], depth + Turn(s[0]))
  }

  function Declaration(schemaName: string): (declaration: string)
    ensures declaration != ""
  {
    "export const " + schemaName + " = "
  }

  function Rewritten(input: string, schemaName: string): string {
    match Find(input, Declaration(schemaName))
    case None => input
    case Some(start) =>
      var bodyStart := start + |Declaration(schemaName)|;
      var end := bodyStart + BlockEnd(input[bodyStart..], 0);
      input[..bodyStart] + RewriteKinds(input[bodyStart..end]) + input[end..]
  }

  method RewriteKindLiteralsToSnakeCase(input: string, schemaName: string) returns (out: string)
    ensures out == Rewritten(input, schemaName)
  {
    hide Find, RewriteKinds, Open, BlockEnd, Snake;
    var needle := Declaration(schemaName);
    var start := Find(input, needle);
    if start.None? {
      return input;
    }
    var bodyStart := start.value + |needle|;
    var end := ScanBlock(input, bodyStart);
    out := input[..bodyStart];
    var rest := input[bodyStart..end];
    var found := Find(rest, LITERAL);
    while found.Some?
      invariant found == Find(rest, LITERAL)
      invariant out + RewriteKinds(rest) == input[..bodyStart] + RewriteKinds(input[bodyStart..end])
      decreases |rest|
    {
      RewriteFirst(out, rest);
      out := out + (rest[..found.value] + LITERAL);
      var after := rest[found.value + |LITERAL|..];
      var close := Find(after, QUOTE);
      if close.Some? {
        var snake := PascalToSnake(after[..close.value]);
        out := out + (snake + QUOTE);
        rest := after[close.value + 1..];
      } else {
        rest := after;
      }
      found := Find(rest, LITERAL);
    }
    RewriteFirst(out, rest);
    out := out + rest;
    out := out + input[end..];
  }

  /** One round of the rewriting, in front of what is written already. */
  lemma RewriteFirst(out: string, body: string)
    ensures var found := Find(body, LITERAL);
            if found.None? then RewriteKinds(body) == body
            else
              var after := body[found.value + |LITERAL|..];
              var close := Find(after, QUOTE);
              out + RewriteKinds(body) ==
              if close.None? then (out + (body[..found.value] + LITERAL)) + RewriteKinds(after)
              else
                (out + (body[..found.value] + LITERAL) + (Snake(after[..close.value]) + QUOTE))
                + RewriteKinds(after[close.value + 1..])
  {
    hide Find, Snake, Open;
    OpenIs(body);
    if Open(body).Some? {
      var o := Open(body).value;
      SnakeOfNothing();
      Regroup(out, o.before, Snake(o.content), o.close, RewriteKinds(o.rest));
    }
  }

  lemma Regroup(out: string, a: string, b: string, c: string, d: string)
    ensures out + (a + b + c + d) == (out + a + (b + c)) + d
    ensures b + c == "" ==> out + (a + b + c + d) == (out + a) + d
  {
  }

  lemma OpenIs(body: string)
    ensures match Find(body, LITERAL)
            case None => Open(body).None?
            case Some(i) =>
              var after := body[i + |LITERAL|..];
              var o := Open(body);
              && o.Some? && o.value.before == body[..i] + LITERAL
              && match Find(after, QUOTE)
                 case None => o.value.content == "" && o.value.close == "" && o.value.rest == after
                 case Some(close) =>
                   && o.value.content == after[..close] && o.value.close == QUOTE
                   && o.value.rest == after[close + 1..]
  {
    hide Find;
    var found := Find(body, LITERAL);
    assert found.Some? ==> body[..found.value + |LITERAL|] == body[..found.value] + LITERAL;
  }

  lemma SnakeOfNothing()
    ensures Snake("") == ""
  {
  }

  method ScanBlock(input: string, bodyStart: nat) returns (end: nat)
    requires bodyStart <= |input|
    ensures end == bodyStart + BlockEnd(input[bodyStart..], 0)
  {
    var depth := 0;
    end := |input|;
    for i := bodyStart to |input|
      invariant end == |input|
      invariant bodyStart + BlockEnd(input[bodyStart..], 0) == i + BlockEnd(input[i..], depth)
    {
      assert input[i..][1..] == input[i + 1..];
      if input[i] == '(' || input[i] == '[' || input[i] == '{' {
        depth := depth + 1;
      } else if input[i] == ')' || input[i] == ']' || input[i] == '}' {
        depth := depth - 1;
      } else if input[i] == ';' && depth == 0 {
        end := i + 1;
        break;
      }
    }
  }

  // ---- only literals change, and a second pass changes nothing ----

  lemma QuoteAt(a: string, b: string)
    requires '\'' !in a
    ensures Find(a + QUOTE + b, QUOTE) == Some(|a|)
  {
    hide Find;
    var s := a + QUOTE + b;
    assert s[|a|..|a| + 1] == QUOTE;
    forall j: nat | j < |a| ensures !Occurs(s, QUOTE, j) {
      assert s[j..j + 1] == [a[j]];
    }
    FindOnly(s, QUOTE, |a|);
  }

  lemma NoQuoteNoLiteral(s: string)
    requires '\'' !in s
    ensures Open(s).None? && RewriteKinds(s) == s && Find(s, QUOTE).None?
  {
    hide Find;
    forall i: nat ensures !Occurs(s, LITERAL, i) && !Occurs(s, QUOTE, i) {
      if i + |LITERAL| <= |s| {
        assert s[i..i + |LITERAL|][|LITERAL| - 1] == s[i + |LITERAL| - 1];
      }
      if i < |s| {
        assert s[i..i + 1][0] == s[i];
      }
    }
  }

  /** A text whose first literal opens where `before` ends, and is closed. */
  lemma OpenClosed(before: string, content: string, rest: string)
    requires |LITERAL| <= |before| && '\'' !in content
    requires Find(before + (content + QUOTE + rest), LITERAL) == Some(|before| - |LITERAL|)
    ensures Open(before + (content + QUOTE + rest)) == Some(Opened(before, content, QUOTE, rest))
  {
    hide Find;
    var after := content + QUOTE + rest;
    var body, i := before + after, |before| - |LITERAL|;
    assert body[..i + |LITERAL|] == before && body[i + |LITERAL|..] == after;
    QuoteAt(content, rest);
    assert after[..|content|] == content && after[|content| + 1..] == rest;
  }

  /** A text whose first literal opens where `before` ends, and is not closed. */
  lemma OpenUnclosed(before: string, after: string)
    requires |LITERAL| <= |before| && '\'' !in after
    requires Find(before + after, LITERAL) == Some(|before| - |LITERAL|)
    ensures Open(before + after) == Some(Opened(before, "", "", after))
  {
    hide Find;
    var body, i := before + after, |before| - |LITERAL|;
    assert body[..i + |LITERAL|] == before && body[i + |LITERAL|..] == after;
    NoQuoteNoLiteral(after);
  }

  lemma Reopened(before: string, tail: string, content: string, rest: string)
    requires |LITERAL| <= |before| && Find(before + tail, LITERAL) == Some(|before| - |LITERAL|) && '\'' !in content
    ensures Open(before + (content + QUOTE + rest)) == Some(Opened(before, content, QUOTE, rest))
  {
    hide Find, Open;
    FindStays(before, tail, content + QUOTE + rest, LITERAL, |before| - |LITERAL|);
    OpenClosed(before, content, rest);
  }

  /** The rewritten text opens as the original does, with the content in snake case. */
  lemma OpenRewritten(body: string)
    requires Open(body).Some?
    ensures var o := Open(body).value;
            Open(RewriteKinds(body)) == Some(Opened(o.before, Snake(o.content), o.close, RewriteKinds(o.rest)))
  {
    hide Find, Open, RewriteKinds, Snake;
    OpenMeans(body);
    RewriteOpened(body);
    var o, r := Open(body).value, RewriteKinds(body);
    if o.close == QUOTE {
      Joined(o.before, Snake(o.content), QUOTE, RewriteKinds(o.rest));
      SnakeHasNoUpper(o.content);
      Reopened(o.before, o.content + QUOTE + o.rest, Snake(o.content), RewriteKinds(o.rest));
    } else {
      SnakeOfNothing();
      NoQuoteNoLiteral(o.rest);
      assert "" + "" + o.rest == o.rest && o.before + "" + "" + o.rest == o.before + o.rest;
      OpenUnclosed(o.before, o.rest);
    }
  }

  lemma RewriteOpened(body: string)
    requires Open(body).Some?
    ensures var o := Open(body).value;
            RewriteKinds(body) == o.before + Snake(o.content) + o.close + RewriteKinds(o.rest)
  {
    hide Open, Snake;
  }

  /** What is left of a text when the contents of its closed literals are taken out. */
  function Erased(body: string): string {
    match Open(body)
    case None => body
    case Some(o) => o.before + o.close + Erased(o.rest)
  }

  /** The contents of the closed literals of a text, in order. */
  function Literals(body: string): seq<string> {
    match Open(body)
    case None => []
    case Some(o) => (if o.close == "" then [] else [o.content]) + Literals(o.rest)
  }

  /** The rewriting puts the content of each literal into snake case and changes nothing else; rewriting
      what was rewritten changes nothing at all. */
  lemma {:induction false} OnlyLiteralsChange(body: string)
    ensures Erased(RewriteKinds(body)) == Erased(body)
    ensures |Literals(RewriteKinds(body))| == |Literals(body)|
    ensures forall i :: 0 <= i < |Literals(body)| ==> Literals(RewriteKinds(body))[i] == Snake(Literals(body)[i])
    ensures RewriteKinds(RewriteKinds(body)) == RewriteKinds(body)
    decreases |body|
  {
    hide Open, Snake;
    if Open(body).Some? {
      var o := Open(body).value;
      OnlyLiteralsChange(o.rest);
      OpenRewritten(body);
      RewriteOpened(body);
      RewriteOpened(RewriteKinds(body));
      SnakeTwice(o.content);
    }
  }

  // ---- the block is found again ----

  /** The bracket depth after a text, if no semicolon ends the block inside it. */
  function DepthAfter(s: string, depth: int): Option<int> {
    if s == "" then Some(depth)
    else if s[0] == ';' && depth == 0 then None
    else DepthAfter(s[1..], depth + Turn(s[0]))
  }

  lemma {:induction false} DepthConcat(a: string, b: string, depth: int)
    ensures DepthAfter(a + b, depth) ==
            match DepthAfter(a, depth)
            case None => None
            case Some(d) => DepthAfter(b, d)
  {
    if a == "" {
      assert a + b == b;
    } else {
      assert (a + b)[1..] == a[1..] + b && (a + b)[0] == a[0];
      if !(a[0] == ';' && depth == 0) {
        DepthConcat(a[1..], b, depth + Turn(a[0]));
      }
    }
  }

  lemma DepthOfSnakeAt(c: char, first: bool, depth: int)
    ensures DepthAfter(SnakeAt(c, first), depth) == DepthAfter([c], depth)
  {
    assert [c][1..] == "" && [Lower(c)][1..] == "";
    if IsUpper(c) {
      assert ("_" + [Lower(c)])[1..] == [Lower(c)];
      assert DepthAfter([Lower(c)], depth) == Some(depth);
    }
  }

  lemma {:induction false} DepthOfSnake(s: string, depth: int)
    ensures DepthAfter(Snake(s), depth) == DepthAfter(s, depth)
  {
    hide DepthAfter, SnakeAt;
    if s == "" {
      SnakeOfNothing();
    } else {
      var front, last := s[..|s| - 1], s[|s| - 1];
      assert front + [last] == s;
      DepthOfSnake(front, depth);
      DepthConcat(Snake(front), SnakeAt(last, |s| == 1), depth);
      DepthConcat(front, [last], depth);
      if DepthAfter(front, depth).Some? {
        DepthOfSnakeAt(last, |s| == 1, DepthAfter(front, depth).value);
      }
    }
  }

  /** Rewriting keeps the bracket structure. */
  lemma {:induction false} DepthOfRewritten(body: string, depth: int)
    ensures DepthAfter(RewriteKinds(body), depth) == DepthAfter(body, depth)
    decreases |body|
  {
    hide Open, Snake, DepthAfter;
    if Open(body).Some? {
      var o := Open(body).value;
      OpenMeans(body);
      Joined(o.before, o.content, o.close, o.rest);
      RewriteOpened(body);
      DepthSplit(o.before, o.content, o.close, o.rest, depth);
      DepthSplit(o.before, Snake(o.content), o.close, RewriteKinds(o.rest), depth);
      match DepthAfter(o.before, depth)
      case None =>
      case Some(d) =>
        DepthOfSnake(o.content, d);
        if DepthAfter(o.content, d).Some? && DepthAfter(o.close, DepthAfter(o.content, d).value).Some? {
          DepthOfRewritten(o.rest, DepthAfter(o.close, DepthAfter(o.content, d).value).value);
        }
    }
  }

  function Bind(depth: Option<int>, s: string): Option<int> {
    if depth.None? then None else DepthAfter(s, depth.value)
  }

  lemma DepthSplit(a: string, b: string, c: string, d: string, depth: int)
    ensures DepthAfter(a + b + c + d, depth) == Bind(Bind(Bind(DepthAfter(a, depth), b), c), d)
  {
    hide DepthAfter;
    DepthConcat(a + b + c, d, depth);
    DepthConcat(a + b, c, depth);
    DepthConcat(a, b, depth);
  }

  lemma {:induction false} BlockEndMeans(s: string, depth: int)
    ensures var e := BlockEnd(s, depth);
            || (e == |s| && DepthAfter(s, depth).Some?)
            || (e > 0 && s[e - 1] == ';' && DepthAfter(s[..e - 1], depth) == Some(0))
  {
    if s != "" {
      var e := BlockEnd(s, depth);
      if s[0] == ';' && depth == 0 {
        assert s[..0] == "";
      } else {
        BlockEndMeans(s[1..], depth + Turn(s[0]));
        if e > 1 {
          assert s[..e - 1][1..] == s[1..][..e - 2];
        }
      }
    }
  }

  lemma {:induction false} BlockEndHere(b: string, rest: string, depth: int)
    ensures DepthAfter(b, depth) == Some(0) ==> BlockEnd(b + ";" + rest, depth) == |b| + 1
    ensures DepthAfter(b, depth).Some? ==> BlockEnd(b, depth) == |b|
  {
    if b == "" {
      assert b + ";" + rest == ";" + rest;
    } else {
      BlockEndHere(b[1..], rest, depth + Turn(b[0]));
      assert (b + ";" + rest)[1..] == b[1..] + ";" + rest && (b + ";" + rest)[0] == b[0];
    }
  }

  /** A semicolon at the end stays there. */
  lemma {:induction false} RewriteSemicolon(b: string)
    ensures RewriteKinds(b + ";") == RewriteKinds(b) + ";"
    decreases |b|
  {
    hide Open, Find, Snake;
    OpenSemicolon(b);
    if Open(b).Some? {
      var o := Open(b).value;
      RewriteSemicolon(o.rest);
      assert o.before + Snake(o.content) + o.close + (RewriteKinds(o.rest) + ";")
          == (o.before + Snake(o.content) + o.close + RewriteKinds(o.rest)) + ";";
    }
  }

  lemma FindSemicolon(b: string, needle: string)
    requires needle != "" && ';' !in needle
    ensures Find(b + ";", needle) == Find(b, needle)
  {
    hide Find;
    if Find(b, needle).Some? {
      var i := Find(b, needle).value;
      var a := b[..i + |needle|];
      assert a + b[i + |needle|..] == b && a + (b[i + |needle|..] + ";") == b + ";";
      FindStays(a, b[i + |needle|..], b[i + |needle|..] + ";", needle, i);
    } else {
      forall i: nat ensures !Occurs(b + ";", needle, i) {
        if i + |needle| <= |b| {
          OccursInPrefix(b, ";", needle, i);
        } else if i + |needle| == |b| + 1 {
          assert (b + ";")[i..i + |needle|][|needle| - 1] == ';';
        }
      }
    }
  }

  lemma OpenSemicolon(b: string)
    ensures Open(b + ";") ==
            match Open(b)
            case None => None
            case Some(o) => Some(o.(rest := o.rest + ";"))
  {
    hide Find, Open;
    FindSemicolon(b, LITERAL);
    if Open(b).Some? {
      OpenMeans(b);
      var o := Open(b).value;
      if o.close == QUOTE {
        assert b + ";" == o.before + (o.content + QUOTE + (o.rest + ";"));
        OpenClosed(o.before, o.content, o.rest + ";");
      } else {
        assert b + ";" == o.before + (o.rest + ";");
        OpenUnclosed(o.before, o.rest + ";");
      }
    } else {
      NothingOpens(b + ";");
    }
  }

  lemma NothingOpens(b: string)
    requires Find(b, LITERAL).None?
    ensures Open(b).None?
  {
  }

  function BlockAt(input: string, bodyStart: nat): string
    requires bodyStart <= |input|
  {
    input[bodyStart..][..BlockEnd(input[bodyStart..], 0)]
  }

  function RestAt(input: string, bodyStart: nat): string
    requires bodyStart <= |input|
  {
    input[bodyStart..][BlockEnd(input[bodyStart..], 0)..]
  }

  lemma RewrittenAt(input: string, schemaName: string)
    requires Find(input, Declaration(schemaName)).Some?
    ensures var bodyStart := Find(input, Declaration(schemaName)).value + |Declaration(schemaName)|;
            && input == input[..bodyStart] + (BlockAt(input, bodyStart) + RestAt(input, bodyStart))
            && Rewritten(input, schemaName) ==
               input[..bodyStart] + (RewriteKinds(BlockAt(input, bodyStart)) + RestAt(input, bodyStart))
  {
    hide Find, RewriteKinds, BlockEnd, Declaration;
    var bodyStart := Find(input, Declaration(schemaName)).value + |Declaration(schemaName)|;
    Cut(input, bodyStart, BlockEnd(input[bodyStart..], 0));
    Regroup3(input[..bodyStart], RewriteKinds(BlockAt(input, bodyStart)), RestAt(input, bodyStart));
  }

  lemma Cut(input: string, at: nat, n: nat)
    requires at + n <= |input|
    ensures input == input[..at] + (input[at..][..n] + input[at..][n..])
    ensures input[at..at + n] == input[at..][..n] && input[at + n..] == input[at..][n..]
  {
  }

  lemma Regroup3(a: string, b: string, c: string)
    ensures a + b + c == a + (b + c)
  {
  }

  /** Outside the block nothing changes; in the output the same declaration is found at the same place,
      and its block is the rewritten block. */
  lemma SameBlockAgain(input: string, schemaName: string)
    requires Find(input, Declaration(schemaName)).Some?
    ensures var start := Find(input, Declaration(schemaName)).value;
            var bodyStart := start + |Declaration(schemaName)|;
            var out := Rewritten(input, schemaName);
            && Find(out, Declaration(schemaName)) == Some(start)
            && out[..bodyStart] == input[..bodyStart]
            && BlockAt(out, bodyStart) == RewriteKinds(BlockAt(input, bodyStart))
            && RestAt(out, bodyStart) == RestAt(input, bodyStart)
  {
    hide Find, RewriteKinds, BlockEnd, Open, Rewritten, Declaration;
    var needle := Declaration(schemaName);
    var start := Find(input, needle).value;
    var bodyStart := start + |needle|;
    var body, rest := BlockAt(input, bodyStart), RestAt(input, bodyStart);
    var out := Rewritten(input, schemaName);
    RewrittenAt(input, schemaName);
    FindStays(input[..bodyStart], body + rest, RewriteKinds(body) + rest, needle, start);
    BlockKept(input[bodyStart..], 0);
    assert out[bodyStart..] == RewriteKinds(body) + rest;
  }

  lemma BlockKept(text: string, depth: int)
    ensures var end := BlockEnd(text, depth);
            BlockEnd(RewriteKinds(text[..end]) + text[end..], depth) == |RewriteKinds(text[..end])|
  {
    hide RewriteKinds, BlockEnd, DepthAfter, Open;
    var end := BlockEnd(text, depth);
    var body, rest := text[..end], text[end..];
    BlockEndMeans(text, depth);
    if end > 0 && text[end - 1] == ';' && DepthAfter(text[..end - 1], depth) == Some(0) {
      var b := text[..end - 1];
      assert body == b + ";";
      RewriteSemicolon(b);
      DepthOfRewritten(b, depth);
      BlockEndHere(RewriteKinds(b), rest, depth);
    } else {
      assert body == text && rest == "";
      DepthOfRewritten(text, depth);
      BlockEndHere(RewriteKinds(text), "", depth);
      assert RewriteKinds(text) + rest == RewriteKinds(text);
    }
  }

  /** The whole rewriting is idempotent, for every text and schema name. */
  lemma RewrittenTwice(input: string, schemaName: string)
    ensures Rewritten(Rewritten(input, schemaName), schemaName) == Rewritten(input, schemaName)
  {
    if Find(input, Declaration(schemaName)).Some? {
      RewrittenBlockTwice(input, schemaName);
    }
  }

  lemma RewrittenBlockTwice(input: string, schemaName: string)
    requires Find(input, Declaration(schemaName)).Some?
    ensures Rewritten(Rewritten(input, schemaName), schemaName) == Rewritten(input, schemaName)
  {
    hide Find, RewriteKinds, BlockAt, RestAt, Rewritten, Declaration;
    var out := Rewritten(input, schemaName);
    SameBlockAgain(input, schemaName);
    RewrittenAt(out, schemaName);
    RewrittenAt(input, schemaName);
    OnlyLiteralsChange(BlockAt(input, Find(input, Declaration(schemaName)).value + |Declaration(schemaName)|));
  }
}
