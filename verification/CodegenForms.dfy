/** The rewriting of `kind` literals in terms of the text alone: which letters change, which brackets count,
    where the block ends, and what becomes of a declaration and of each literal in it.
    Models `rewrite_kind_literals_to_snake_case` and `pascal_to_snake` of client-codegen/src/generator.rs on
    ASCII text. */
module CodegenForms {
  import opened Wrappers
  import opened Codegen

  // ---- letters ----

  /** The k-th letter of the alphabet, in both sizes. */
  function Big(k: nat): char
    requires k < 26
  {
    "ABCDEFGHIJKLMNOPQRSTUVWXYZ"[k]
  }

  function Small(k: nat): char
    requires k < 26
  {
    "abcdefghijklmnopqrstuvwxyz"[k]
  }

  ghost predicate IsBig(c: char) {
    exists k :: 0 <= k < 26 && c == Big(k)
  }

  lemma BigIs(k: nat)
    requires k < 26
    ensures Big(k) as int == 65 + k
  {
  }

  lemma Alphabet(k: nat)
    requires k < 26
    ensures IsUpper(Big(k)) && Lower(Big(k)) == Small(k)
  {
    BigIs(k);
    assert Small(k) as int == 97 + k;
  }

  lemma UpperIsBig(c: char)
    ensures IsUpper(c) <==> IsBig(c)
  {
    hide Big;
    if IsUpper(c) {
      BigIs((c - 'A') as nat);
    } else {
      forall k | 0 <= k < 26 ensures c != Big(k) { Alphabet(k); }
    }
  }

  ghost predicate NoneBig(s: string) {
    forall i :: 0 <= i < |s| ==> !IsBig(s[i])
  }

  /** A name without capitals stays as it is. */
  lemma SmallName(s: string)
    requires NoneBig(s)
    ensures Snake(s) == s
  {
    hide IsBig, IsUpper;
    forall i | 0 <= i < |s| ensures !IsUpper(s[i]) { UpperIsBig(s[i]); }
    SnakeOfLower(s);
  }

  /** A capital and what is behind it up to the next: the capital becomes the small letter of the same place
      in the alphabet, with an underscore in front unless it is the first letter of the name. */
  lemma {:induction false} CapitalWord(front: string, k: nat, rest: string)
    requires k < 26 && NoneBig(rest)
    ensures Snake(front + [Big(k)] + rest) == Snake(front) + (if front == "" then "" else "_") + [Small(k)] + rest
    decreases |rest|
  {
    hide Lower, Big, Small, IsBig, IsUpper, Snake;
    var s := front + [Big(k)] + rest;
    Alphabet(k);
    SnakeLast(s);
    if rest == "" {
      assert s[..|s| - 1] == front;
    } else {
      var less, last := rest[..|rest| - 1], rest[|rest| - 1];
      CapitalWord(front, k, less);
      UpperIsBig(last);
      assert s[..|s| - 1] == front + [Big(k)] + less;
      assert less + [last] == rest;
    }
  }

  lemma SnakeLast(s: string)
    requires s != ""
    ensures Snake(s) == Snake(s[..|s| - 1]) + SnakeAt(s[|s| - 1], |s| == 1)
  {
  }

  // ---- the end of the block ----

  function Count(s: string, chars: string): nat {
    if s == "" then 0 else Count(s[..|s| - 1], chars) + if s[|s| - 1] in chars then 1 else 0
  }

  /** As many brackets are closed as are opened. */
  ghost predicate Level(s: string) {
    Count(s, "([{") == Count(s, ")]}")
  }

  ghost predicate EndsBlock(s: string, i: nat) {
    i < |s| && s[i] == ';' && Level(s[..i])
  }

  /** The block ends behind the first semicolon in front of which as many brackets are closed as opened, or
      with the text when there is none. */
  lemma BlockEndIs(s: string)
    ensures var end := BlockEnd(s, 0);
            && (forall i: nat :: i + 1 < end ==> !EndsBlock(s, i))
            && ((end > 0 && EndsBlock(s, end - 1)) || (end == |s| && forall i: nat :: !EndsBlock(s, i)))
  {
    hide EndsBlock, BlockEnd;
    assert s[0..] == s && s[..0] == "";
    BlockEndFrom(s, 0);
  }

  lemma {:induction false} BlockEndFrom(s: string, n: nat)
    requires n <= |s|
    ensures var end, depth := n + BlockEnd(s[n..], Count(s[..n], "([{") - Count(s[..n], ")]}")),
                Count(s[..n], "([{") - Count(s[..n], ")]}");
            && (forall i: nat :: n <= i && i + 1 < end ==> !EndsBlock(s, i))
            && ((end > n && EndsBlock(s, end - 1)) || (end == |s| && forall i: nat :: n <= i ==> !EndsBlock(s, i)))
    decreases |s| - n
  {
    if n < |s| {
      assert s[n..][1..] == s[n + 1..] && s[..n + 1][..n] == s[..n];
      if !EndsBlock(s, n) {
        BlockEndFrom(s, n + 1);
      }
    }
  }

  // ---- the declaration and its literals ----

  /** A text without a declaration of that name is left alone. */
  lemma NoDeclaration(input: string, name: string)
    requires forall i: nat :: !Occurs(input, "export const " + name + " = ", i)
    ensures Rewritten(input, name) == input
  {
    hide Occurs, RewriteKinds, BlockEnd;
  }

  /** Otherwise what is behind the first declaration, up to the end of its block, is rewritten. */
  lemma FirstDeclaration(front: string, name: string, block: string, rest: string)
    requires forall i: nat :: i < |front| ==>
               !Occurs(front + ("export const " + name + " = ") + (block + rest), "export const " + name + " = ", i)
    requires BlockEnd(block + rest, 0) == |block|
    ensures Rewritten(front + ("export const " + name + " = ") + (block + rest), name)
            == front + ("export const " + name + " = ") + RewriteKinds(block) + rest
  {
    hide Occurs, RewriteKinds, BlockEnd;
    var needle := "export const " + name + " = ";
    var input := front + needle + (block + rest);
    assert Occurs(input, needle, |front|) by { OccursThere(front, needle, block + rest); }
    FindOnly(input, needle, |front|);
    assert input[..|front| + |needle|] == front + needle && input[|front| + |needle|..] == block + rest;
    var bodyStart := |front| + |needle|;
    assert input[bodyStart..bodyStart + |block|] == block && input[bodyStart + |block|..] == rest;
  }

  lemma OccursThere(front: string, needle: string, rest: string)
    ensures Occurs(front + needle + rest, needle, |front|)
  {
    var s := front + needle + rest;
    assert s[|front|..|front| + |needle|] == needle;
  }

  /** A block without literals is left alone. */
  lemma NoLiteral(block: string)
    requires forall i: nat :: !Occurs(block, "kind: z.literal('", i)
    ensures RewriteKinds(block) == block && Literals(block) == [] && Erased(block) == block
  {
    hide Occurs;
  }

  ghost predicate FirstAt(block: string, i: nat) {
    Occurs(block, "kind: z.literal('", i) && forall j: nat :: j < i ==> !Occurs(block, "kind: z.literal('", j)
  }

  /** The first literal that is closed: its content is put into snake case, and the rewriting goes on behind
      it. */
  lemma ClosedLiteral(front: string, content: string, rest: string)
    requires '\'' !in content && FirstAt(front + "kind: z.literal('" + (content + "'" + rest), |front|)
    ensures var block := front + "kind: z.literal('" + (content + "'" + rest);
            && RewriteKinds(block) == front + "kind: z.literal('" + Snake(content) + "'" + RewriteKinds(rest)
            && Literals(block) == [content] + Literals(rest)
            && Erased(block) == front + "kind: z.literal('" + "'" + Erased(rest)
  {
    hide Occurs, Snake;
    var before := front + "kind: z.literal('";
    FindOnly(before + (content + "'" + rest), LITERAL, |front|);
    OpenClosed(before, content, rest);
  }

  /** A literal that is not closed is left alone, with all that follows. */
  lemma UnclosedLiteral(front: string, rest: string)
    requires '\'' !in rest && FirstAt(front + "kind: z.literal('" + rest, |front|)
    ensures var block := front + "kind: z.literal('" + rest;
            RewriteKinds(block) == block && Literals(block) == [] && Erased(block) == block
  {
    hide Occurs, Find, Open, RewriteKinds, Literals, Erased;
    var before := front + "kind: z.literal('";
    FindOnly(before + rest, LITERAL, |front|);
    OpenUnclosed(before, rest);
    NoQuoteNoLiteral(rest);
    NothingOpened(before, rest);
  }

  lemma NothingOpened(before: string, rest: string)
    requires Open(before + rest) == Some(Opened(before, "", "", rest)) && Open(rest).None?
    ensures var block := before + rest;
            RewriteKinds(block) == block && Literals(block) == [] && Erased(block) == block
  {
    hide Open;
    RewriteOpened(before + rest);
    SnakeOfNothing();
    assert before + "" + "" + rest == before + rest && before + "" + rest == before + rest;
  }
}
