/** Absolute paths as component lists, and the containment order that the storage move and the
    Pi recovery both rely on. */
module Paths {
  type Path = seq<string>

  /** The last component. */
  function Name(p: Path): string {
    if p == [] then "" else p[|p| - 1]
  }

  /** Neither directory contains the other. */
  predicate Separate(a: Path, b: Path) {
    !(a <= b) && !(b <= a)
  }

  /** Strictly inside a directory. */
  predicate Inside(p: Path, root: Path) {
    root <= p && |root| < |p|
  }

  /** Two directories that both contain a path are nested. */
  lemma CommonDescendant(a: Path, b: Path, p: Path)
    requires a <= p && b <= p
    ensures a <= b || b <= a
  {
    if |a| <= |b| {
      assert a == p[..|a|] && b == p[..|b|];
      assert a == b[..|a|];
    } else {
      assert b == a[..|b|];
    }
  }

  /** A directory that contains a file, and is not that file, contains the file's siblings. */
  lemma ContainsSiblings(d: Path, p: Path, q: Path)
    requires d != p && |p| == |q| > 0 && p[..|p| - 1] == q[..|p| - 1]
    ensures d <= p ==> d <= q
  {
    if d <= p {
      assert p[..|d|] == p[..|p| - 1][..|d|] && q[..|d|] == q[..|p| - 1][..|d|];
    }
  }

  /** The position of the last dot of a file name, or -1. */
  function LastDot(name: string): (i: int)
    ensures -1 <= i < |name|
    ensures i >= 0 ==> name[i] == '.'
    ensures forall j :: i < j < |name| ==> name[j] != '.'
  {
    if name == "" then -1
    else if name[|name| - 1] == '.' then |name| - 1
    else LastDot(name[..|name| - 1])
  }

  /** The file name without its extension; a leading dot does not start an extension. */
  function Stem(name: string): string {
    var dot := LastDot(name);
    if dot <= 0 then name else name[..dot]
  }

  /** The file name's extension, if it has one. */
  function Extension(name: string): string {
    var dot := LastDot(name);
    if dot <= 0 then "" else name[dot + 1..]
  }

  /** The sibling of a file that carries its stem and another extension. */
  function WithExtension(p: Path, extension: string): Path
    requires p != []
  {
    p[..|p| - 1] + [Stem(p[|p| - 1]) + "." + extension]
  }

  /** An extension that contains a dot never yields the file itself. */
  lemma DottedExtensionIsSibling(p: Path, extension: string)
    requires p != []
    requires exists i :: 0 <= i < |extension| && extension[i] == '.'
    ensures WithExtension(p, extension) != p
  {
    var stem := Stem(p[|p| - 1]);
    var sibling := stem + "." + extension;
    var i :| 0 <= i < |extension| && extension[i] == '.';
    assert sibling[|stem|] == '.' && sibling[|stem| + 1 + i] == '.';
    assert WithExtension(p, extension)[|p| - 1] == sibling;
  }

  /** Different extensions give different siblings. */
  lemma ExtensionsDiffer(p: Path, a: string, b: string)
    requires p != [] && a != b
    ensures WithExtension(p, a) != WithExtension(p, b)
  {
    var stem := Stem(p[|p| - 1]);
    var x, y := stem + "." + a, stem + "." + b;
    assert x[|stem| + 1..] == a && y[|stem| + 1..] == b;
    assert WithExtension(p, a)[|p| - 1] == x && WithExtension(p, b)[|p| - 1] == y;
  }
}
