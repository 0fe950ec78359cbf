/** Directory trees inside a file system, and what a rename of a whole tree does to them. */
module Trees {
  import opened Paths

  datatype Node = Dir | Data(content: int)
  type Tree = map<Path, Node>

  /** Everything at or below a path, by its place relative to it. */
  function Subtree(files: Tree, root: Path): Tree {
    map relative | relative in Relatives(files, root) :: files[root + relative]
  }

  function Relatives(files: Tree, root: Path): (relatives: set<Path>)
    ensures forall r :: r in relatives <==> root + r in files
  {
    var relatives := set p | p in files && root <= p :: p[|root|..];
    assert forall r :: root + r in files ==> (root + r)[|root|..] == r && root <= root + r;
    assert forall p :: p in files && root <= p ==> root + p[|root|..] == p;
    relatives
  }

  /** A tree with anything in it has a root. */
  predicate Rooted(tree: Tree) {
    tree != map[] ==> [] in tree
  }

  /** The two file systems differ at most at and below the given paths. */
  ghost predicate SameOutside(before: Tree, after: Tree, zones: set<Path>) {
    forall p: Path :: Clear(p, zones) ==> SameAt(before, after, p)
  }

  /** The path lies in none of the zones. */
  predicate Clear(p: Path, zones: set<Path>) {
    forall z :: z in zones ==> !(z <= p)
  }

  predicate SameAt(before: Tree, after: Tree, p: Path) {
    (p in before <==> p in after) && (p in before ==> before[p] == after[p])
  }

  lemma SubtreeKept(before: Tree, after: Tree, zones: set<Path>, root: Path)
    requires SameOutside(before, after, zones) && forall z :: z in zones ==> Separate(z, root)
    ensures Subtree(after, root) == Subtree(before, root)
  {
    forall r: Path
      ensures SameAt(before, after, root + r)
    {
      forall z | z in zones ensures !(z <= root + r) {
        if z <= root + r {
          CommonDescendant(z, root, root + r);
        }
      }
      assert Clear(root + r, zones);
    }
    assert forall r :: r in Subtree(after, root) <==> r in Subtree(before, root);
  }

  lemma SameAsItself(files: Tree, zones: set<Path>)
    ensures SameOutside(files, files, zones)
  {
  }

  lemma SameOutsideCompose(a: Tree, b: Tree, c: Tree, zones: set<Path>)
    requires SameOutside(a, b, zones) && SameOutside(b, c, zones)
    ensures SameOutside(a, c, zones)
  {
    forall p: Path | Clear(p, zones) ensures SameAt(a, c, p) {
      assert SameAt(a, b, p) && SameAt(b, c, p);
    }
  }

  lemma SameOutsideGrows(a: Tree, b: Tree, zones: set<Path>, more: set<Path>)
    requires SameOutside(a, b, zones) && zones <= more
    ensures SameOutside(a, b, more)
  {
    forall p: Path | Clear(p, more) ensures SameAt(a, b, p) {
      assert Clear(p, zones);
    }
  }

  /** Writing one node, seen from its own tree and from elsewhere. */
  lemma WriteNode(files: Tree, root: Path, relative: Path, node: Node)
    ensures Subtree(files[root + relative := node], root) == Subtree(files, root)[relative := node]
    ensures SameOutside(files, files[root + relative := node], {root})
  {
    var after := files[root + relative := node];
    assert forall r: Path :: root + r == root + relative ==> r == relative by {
      forall r: Path | root + r == root + relative ensures r == relative {
        assert (root + r)[|root|..] == r && (root + relative)[|root|..] == relative;
      }
    }
    assert forall r :: r in Subtree(after, root) <==> r in Subtree(files, root)[relative := node];
    assert root <= root + relative;
  }

  lemma RemoveNode(files: Tree, root: Path)
    requires forall r :: r in Subtree(files, root) ==> r == []
    ensures Subtree(files - {root}, root) == map[]
    ensures SameOutside(files, files - {root}, {root})
  {
    assert root + [] == root;
    forall r: Path ensures root + r !in files - {root} {
      if root + r in files {
        assert r in Subtree(files, root);
        assert root + [] == root;
      }
    }
    assert forall r :: r !in Subtree(files - {root}, root);
  }

  // ---- renaming ----

  /** The file system after a tree is renamed to a free place. */
  function Rename(files: Tree, from: Path, to: Path): Tree {
    var stay := map p | p in files && !(from <= p) :: files[p];
    var moved := map p | p in Moved(files, from, to) :: files[from + p[|to|..]];
    stay + moved
  }

  function Moved(files: Tree, from: Path, to: Path): (paths: set<Path>)
    ensures forall p :: p in paths <==> to <= p && from + p[|to|..] in files
  {
    var paths := set r | r in Relatives(files, from) :: to + r;
    assert forall p :: to <= p ==> to + p[|to|..] == p;
    assert forall r :: r in Relatives(files, from) ==> (to + r)[|to|..] == r;
    paths
  }

  lemma RenameAt(files: Tree, from: Path, to: Path, p: Path)
    requires Separate(from, to)
    ensures to <= p && from + p[|to|..] in files ==>
              p in Rename(files, from, to) && Rename(files, from, to)[p] == files[from + p[|to|..]]
    ensures from <= p ==> p !in Rename(files, from, to)
    ensures !(from <= p) && !(to <= p && from + p[|to|..] in files) ==> SameAt(files, Rename(files, from, to), p)
  {
    if from <= p && to <= p {
      CommonDescendant(from, to, p);
    }
  }

  /** A rename carries the whole tree over, leaves nothing behind, and touches nothing else. */
  lemma RenameMoves(files: Tree, from: Path, to: Path)
    requires Separate(from, to) && Subtree(files, to) == map[]
    ensures Subtree(Rename(files, from, to), to) == Subtree(files, from)
    ensures Subtree(Rename(files, from, to), from) == map[]
    ensures SameOutside(files, Rename(files, from, to), {from, to})
  {
    hide Rename;
    var after := Rename(files, from, to);
    forall r: Path
      ensures to + r in after <==> from + r in files
      ensures to + r in after ==> after[to + r] == files[from + r]
      ensures from + r !in after
    {
      RenameAt(files, from, to, to + r);
      RenameAt(files, from, to, from + r);
      assert to <= to + r && (to + r)[|to|..] == r && from <= from + r;
      assert r !in Subtree(files, to) && to + r !in files;
      if from <= to + r {
        CommonDescendant(from, to, to + r);
      }
    }
    assert forall r :: r in Subtree(after, to) <==> r in Subtree(files, from);
    assert forall r :: r !in Subtree(after, from);
    forall p: Path | Clear(p, {from, to}) ensures SameAt(files, after, p) {
      assert from in {from, to} && to in {from, to};
      RenameAt(files, from, to, p);
    }
  }

  lemma SameRootAsPresent(files: Tree, root: Path)
    ensures root in files <==> [] in Subtree(files, root)
    ensures root in files ==> Subtree(files, root)[[]] == files[root]
  {
    assert root + [] == root;
  }
}
