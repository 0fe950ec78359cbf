/** The version gates of a config upgrade: which one-shot migrations run, over any sequence of upgrades;
    and where the gates of the config repairs, which read versions differently, agree with them.
    Models the gates of `upgrade_config_and_migrate` in grimoire/src/upgrade.rs and
    `parse_version_tuple` of grimoire/src/config.rs. */
module Upgrades {
  import opened Wrappers
  import opened Text
  import opened Versions

  // ---- the three-number reading ----

  function PartNumber(parts: seq<string>, i: nat): nat {
    if i >= |parts| then 0 else
    match ParseUnsigned(parts[i], MAX_U32)
    case Some(n) => n
    case None => 0
  }

  function Tuple(v: string): (nat, nat, nat) {
    var parts := Split(v, '.');
    (PartNumber(parts, 0), PartNumber(parts, 1), PartNumber(parts, 2))
  }

  predicate TupleGreater(a: (nat, nat, nat), b: (nat, nat, nat)) {
    a.0 > b.0 || (a.0 == b.0 && (a.1 > b.1 || (a.1 == b.1 && a.2 > b.2)))
  }

  // ---- plain versions ----

  function Plain(a: nat, b: nat, c: nat): string {
    Join([Decimal(a), Decimal(b), Decimal(c)], '.')
  }

  /** A version whose last number carries a pre-release marker after a hyphen. */
  function Marked(a: nat, b: nat, c: nat, marker: string): string {
    Join([Decimal(a), Decimal(b), Decimal(c) + "-" + marker], '.')
  }

  /** A marker that is not split further. */
  predicate IsMarker(marker: string) {
    && marker != "" && !IsSpace(marker[|marker| - 1])
    && forall i :: 0 <= i < |marker| ==> marker[i] != '.' && marker[i] != '-' && marker[i] != '+'
  }

  lemma {:induction false} DigitsAreOnePiece(s: string)
    requires AllDigits(s)
    ensures SplitMarks(s) == [s] && LeadingDigits(s) == s
  {
    if s != "" {
      DigitsAreOnePiece(s[1..]);
      assert [s[0]] + s[1..] == s;
    }
  }

  lemma {:induction false} MarkerIsOnePiece(s: string)
    requires forall i :: 0 <= i < |s| ==> s[i] != '-' && s[i] != '+'
    ensures SplitMarks(s) == [s]
  {
    if s != "" {
      MarkerIsOnePiece(s[1..]);
      assert [s[0]] + s[1..] == s;
    }
  }

  lemma {:induction false} MarkedPieces(digits: string, marker: string)
    requires AllDigits(digits) && forall i :: 0 <= i < |marker| ==> marker[i] != '-' && marker[i] != '+'
    ensures SplitMarks(digits + "-" + marker) == [digits, marker]
  {
    var s := digits + "-" + marker;
    if digits == "" {
      assert s[1..] == marker;
      MarkerIsOnePiece(marker);
    } else {
      MarkedPieces(digits[1..], marker);
      assert s[1..] == digits[1..] + "-" + marker;
      assert [digits[0]] + digits[1..] == digits;
    }
  }

  lemma NothingToTrim(s: string)
    requires s != "" && IsDigit(s[0]) && !IsSpace(s[|s| - 1])
    ensures SkipVs(TrimEnd(TrimStart(s))) == s
  {
  }

  lemma DecimalPart(n: nat)
    requires n <= MAX_U64
    ensures FromPieces(SplitMarks(Decimal(n)), 0) == Version([n], None)
  {
    DigitsAreOnePiece(Decimal(n));
    ParseDecimal(n, MAX_U64);
    assert FromPieces([Decimal(n)], 1) == Version([], None);
  }

  lemma JoinOfThree(x: string, y: string, z: string)
    requires '.' !in x && '.' !in y && '.' !in z
    ensures Join([x, y, z], '.') == x + "." + y + "." + z
    ensures Split(Join([x, y, z], '.'), '.') == [x, y, z]
  {
    SplitJoin([x, y, z], '.');
    assert [x, y, z][1..] == [y, z] && [y, z][1..] == [z];
    assert Join([y, z], '.') == y + ['.'] + z;
  }

  lemma DigitsAreText(s: string)
    requires AllDigits(s)
    ensures '.' !in s && (s != "" ==> !IsSpace(s[|s| - 1]))
  {
  }

  lemma ParsedPlain(a: nat, b: nat, c: nat)
    requires a <= MAX_U64 && b <= MAX_U64 && c <= MAX_U64
    ensures Parsed(Plain(a, b, c)) == Version([a, b, c], None)
  {
    hide Decimal, Split, Join, SplitMarks, FromPieces, SkipVs, TrimEnd, TrimStart;
    var x, y, z := Decimal(a), Decimal(b), Decimal(c);
    DigitsAreText(x);
    DigitsAreText(y);
    DigitsAreText(z);
    JoinOfThree(x, y, z);
    NothingToTrim(Plain(a, b, c));
    DecimalPart(a);
    DecimalPart(b);
    DecimalPart(c);
    PartsOfThree(x, y, z);
  }

  lemma PartsOfThree(x: string, y: string, z: string)
    ensures var first, second, third := FromPieces(SplitMarks(x), 0), FromPieces(SplitMarks(y), 0),
            FromPieces(SplitMarks(z), 0);
            first.pre.None? && second.pre.None? ==>
              FromParts([x, y, z]) == Version(first.core + second.core + third.core, third.pre)
  {
    hide SplitMarks, FromPieces;
    assert [x, y, z][1..] == [y, z] && [y, z][1..] == [z] && [z][1..] == [];
    var third := FromPieces(SplitMarks(z), 0);
    assert FromParts([z]) == Version(third.core, third.pre);
    var second := FromPieces(SplitMarks(y), 0);
    assert second.pre.None? ==> FromParts([y, z]) == Version(second.core + third.core, third.pre);
  }

  lemma ParsedMarked(a: nat, b: nat, c: nat, marker: string)
    requires a <= MAX_U64 && b <= MAX_U64 && c <= MAX_U64 && IsMarker(marker)
    ensures Parsed(Marked(a, b, c, marker)).core == [a, b, c] && Parsed(Marked(a, b, c, marker)).pre.Some?
  {
    hide Decimal, Split, Join, SplitMarks, FromPieces, SkipVs, TrimEnd, TrimStart;
    var x, y, z := Decimal(a), Decimal(b), Decimal(c) + "-" + marker;
    DigitsAreText(x);
    DigitsAreText(y);
    DigitsAreText(Decimal(c));
    JoinOfThree(x, y, z);
    NothingToTrim(Marked(a, b, c, marker));
    DecimalPart(a);
    DecimalPart(b);
    MarkedPart(c, marker);
    PartsOfThree(x, y, z);
  }

  lemma MarkedPart(c: nat, marker: string)
    requires c <= MAX_U64 && IsMarker(marker)
    ensures var part := FromPieces(SplitMarks(Decimal(c) + "-" + marker), 0);
            part.core == [c] && part.pre.Some?
  {
    hide Decimal;
    MarkedPieces(Decimal(c), marker);
    DigitsAreOnePiece(Decimal(c));
    ParseDecimal(c, MAX_U64);
    assert FromPieces([Decimal(c), marker], 1).pre.Some?;
  }

  /** A development build a.b.c.pre<n>. */
  function Dev(a: nat, b: nat, c: nat, n: nat): string {
    Join([Decimal(a), Decimal(b), Decimal(c), "pre" + Decimal(n)], '.')
  }

  lemma {:induction false} DigitsOfDigits(s: string)
    requires AllDigits(s)
    ensures DigitsOf(s) == s
  {
    if s != "" {
      DigitsOfDigits(s[1..]);
      assert [s[0]] + s[1..] == s;
    }
  }

  lemma LetterSkipped(c: char, rest: string)
    requires !IsDigit(c)
    ensures DigitsOf([c] + rest) == DigitsOf(rest)
  {
    assert ([c] + rest)[1..] == rest;
  }

  lemma DevDigits(n: nat)
    ensures DigitsOf("pre" + Decimal(n)) == Decimal(n)
  {
    hide DigitsOf, Decimal;
    var d := Decimal(n);
    DigitsOfDigits(d);
    LetterSkipped('e', d);
    LetterSkipped('r', ['e'] + d);
    LetterSkipped('p', ['r'] + (['e'] + d));
    assert "pre" + d == ['p'] + (['r'] + (['e'] + d));
  }

  lemma DevPart(n: nat)
    requires n <= MAX_U64
    ensures FromPieces(SplitMarks("pre" + Decimal(n)), 0) == Version([], Some(n))
  {
    hide Decimal, DigitsOf, ParseUnsigned, SplitMarks;
    var s := "pre" + Decimal(n);
    MarkerIsOnePiece(s);
    ParseDecimal(n, MAX_U64);
    DevDigits(n);
    assert s[0] == 'p';
  }

  lemma ParsedDev(a: nat, b: nat, c: nat, n: nat)
    requires a <= MAX_U64 && b <= MAX_U64 && c <= MAX_U64 && n <= MAX_U64
    ensures Parsed(Dev(a, b, c, n)) == Version([a, b, c], Some(n))
  {
    hide Decimal, Split, Join, SplitMarks, FromPieces, SkipVs, TrimEnd, TrimStart;
    var x, y, z, w := Decimal(a), Decimal(b), Decimal(c), "pre" + Decimal(n);
    DigitsAreText(x);
    DigitsAreText(y);
    DigitsAreText(z);
    DigitsAreText(Decimal(n));
    SplitJoin([x, y, z, w], '.');
    JoinOfFour(x, y, z, w);
    NothingToTrim(Dev(a, b, c, n));
    DecimalPart(a);
    DecimalPart(b);
    DecimalPart(c);
    DevPart(n);
    FourthPart(x, y, z, w);
  }

  lemma JoinOfFour(x: string, y: string, z: string, w: string)
    ensures Join([x, y, z, w], '.') == x + "." + (y + "." + (z + "." + w))
  {
    assert [x, y, z, w][1..] == [y, z, w] && [y, z, w][1..] == [z, w] && [z, w][1..] == [w];
    assert Join([w], '.') == w && Join([z, w], '.') == z + ['.'] + w
           && Join([y, z, w], '.') == y + ['.'] + (z + ['.'] + w);
  }

  lemma FourthPart(x: string, y: string, z: string, w: string)
    ensures var first, last := FromPieces(SplitMarks(x), 0), FromParts([y, z, w]);
            first.pre.None? ==> FromParts([x, y, z, w]) == Version(first.core + last.core, last.pre)
    ensures var first, second, third := FromPieces(SplitMarks(y), 0), FromPieces(SplitMarks(z), 0),
            FromPieces(SplitMarks(w), 0);
            first.pre.None? && second.pre.None? ==>
              FromParts([y, z, w]) == Version(first.core + second.core + third.core, third.pre)
  {
    assert [x, y, z, w][1..] == [y, z, w];
    PartsOfThree(y, z, w);
  }

  /** The documented order: a development build is older than its release, and of two builds the one with
      the higher number is newer. */
  lemma DevBuildsOrder(a: nat, b: nat, c: nat, m: nat, n: nat)
    requires a <= MAX_U64 && b <= MAX_U64 && c <= MAX_U64 && m <= MAX_U64 && n <= MAX_U64
    ensures Newer(Parsed(Plain(a, b, c)), Parsed(Dev(a, b, c, m)))
            && !Newer(Parsed(Dev(a, b, c, m)), Parsed(Plain(a, b, c)))
    ensures Newer(Parsed(Dev(a, b, c, m)), Parsed(Dev(a, b, c, n))) <==> m > n
  {
    hide Plain, Dev, Parsed, CoreGreater, SameCore;
    ParsedPlain(a, b, c);
    ParsedDev(a, b, c, m);
    ParsedDev(a, b, c, n);
    CoreOfThree(a, b, c, a, b, c);
  }

  lemma TuplePlain(a: nat, b: nat, c: nat)
    requires a <= MAX_U32 && b <= MAX_U32 && c <= MAX_U32
    ensures Tuple(Plain(a, b, c)) == (a, b, c)
  {
    hide Decimal, Split, Join, ParseUnsigned;
    DigitsAreText(Decimal(a));
    DigitsAreText(Decimal(b));
    DigitsAreText(Decimal(c));
    JoinOfThree(Decimal(a), Decimal(b), Decimal(c));
    ParseDecimal(a, MAX_U32);
    ParseDecimal(b, MAX_U32);
    ParseDecimal(c, MAX_U32);
  }

  /** Missing parts are 0, and so is a number beyond 32 bits. */
  lemma TupleShort(a: nat, b: nat, n: nat)
    requires a <= MAX_U32 && b <= MAX_U32 && n >= 0x1_0000_0000
    ensures Tuple(Decimal(a)) == (a, 0, 0) && Tuple(Decimal(a) + "." + Decimal(b)) == (a, b, 0)
    ensures Tuple(Decimal(a) + "." + Decimal(b) + "." + Decimal(n)) == (a, b, 0)
  {
    hide Decimal, Split, ParseUnsigned;
    var x, y, z := Decimal(a), Decimal(b), Decimal(n);
    DigitsAreText(x);
    DigitsAreText(y);
    DigitsAreText(z);
    SplitWhole(x, '.');
    SplitWhole(y, '.');
    SplitAtFirst(x, y, '.');
    JoinOfThree(x, y, z);
    ParseDecimal(a, MAX_U32);
    ParseDecimal(b, MAX_U32);
    ParseDecimal(n, MAX_U32);
  }

  lemma TupleMarked(a: nat, b: nat, c: nat, marker: string)
    requires a <= MAX_U32 && b <= MAX_U32 && IsMarker(marker)
    ensures Tuple(Marked(a, b, c, marker)) == (a, b, 0)
  {
    hide Decimal, Split, Join;
    var z := Decimal(c) + "-" + marker;
    DigitsAreText(Decimal(a));
    DigitsAreText(Decimal(b));
    DigitsAreText(Decimal(c));
    JoinOfThree(Decimal(a), Decimal(b), z);
    ParseDecimal(a, MAX_U32);
    ParseDecimal(b, MAX_U32);
    assert z[|Decimal(c)|] == '-' && z[0] == Decimal(c)[0];
    assert ParseUnsigned(z, MAX_U32) == None;
  }

  /** Three numbers compare as a core and as a tuple alike. */
  lemma CoreOfThree(a: nat, b: nat, c: nat, x: nat, y: nat, z: nat)
    ensures CoreGreater([a, b, c], [x, y, z]) <==> TupleGreater((a, b, c), (x, y, z))
    ensures SameCore([a, b, c], [x, y, z]) <==> (a, b, c) == (x, y, z)
  {
    var l, r := [a, b, c], [x, y, z];
    assert Part(l, 0) == a && Part(l, 1) == b && Part(l, 2) == c && Part(r, 0) == x && Part(r, 1) == y
           && Part(r, 2) == z;
    if a != x {
      assert DiffersFirst(l, r, 0);
      OneDifference(l, r, 0);
    } else if b != y {
      assert DiffersFirst(l, r, 1);
      OneDifference(l, r, 1);
    } else if c != z {
      assert DiffersFirst(l, r, 2);
      OneDifference(l, r, 2);
    } else {
      NoDifference(l, r);
    }
  }

  /** On plain versions x.y.z the two readings order alike. */
  lemma AgreeOnPlain(a: nat, b: nat, c: nat, x: nat, y: nat, z: nat)
    requires a <= MAX_U32 && b <= MAX_U32 && c <= MAX_U32 && x <= MAX_U32 && y <= MAX_U32 && z <= MAX_U32
    ensures Newer(Parsed(Plain(a, b, c)), Parsed(Plain(x, y, z)))
            <==> TupleGreater(Tuple(Plain(a, b, c)), Tuple(Plain(x, y, z)))
  {
    hide Plain, Parsed, Tuple, CoreGreater, SameCore;
    ParsedPlain(a, b, c);
    ParsedPlain(x, y, z);
    TuplePlain(a, b, c);
    TuplePlain(x, y, z);
    CoreOfThree(a, b, c, x, y, z);
  }

  /** On a pre-release a.b.c-marker against a plain x.y.z they agree exactly unless a.b is x.y and c is
      greater than z: there the tuple reads the marked number as 0. */
  lemma AgreeOnMarked(a: nat, b: nat, c: nat, marker: string, x: nat, y: nat, z: nat)
    requires a <= MAX_U32 && b <= MAX_U32 && c <= MAX_U32 && x <= MAX_U32 && y <= MAX_U32 && z <= MAX_U32
             && IsMarker(marker)
    ensures (Newer(Parsed(Marked(a, b, c, marker)), Parsed(Plain(x, y, z)))
             <==> TupleGreater(Tuple(Marked(a, b, c, marker)), Tuple(Plain(x, y, z))))
            <==> !(a == x && b == y && c > z)
  {
    hide Plain, Marked, Parsed, Tuple, CoreGreater, SameCore;
    ParsedMarked(a, b, c, marker);
    ParsedPlain(x, y, z);
    TupleMarked(a, b, c, marker);
    TuplePlain(x, y, z);
    CoreOfThree(a, b, c, x, y, z);
  }

  /** So a config last written by 0.3.13-rc1 is past the gate of the blake3 backfill, yet still passes
      for 0.3.12 or older in the repair of the video fetch folder. */
  lemma PrereleaseSplitsTheGates()
    ensures Newer(Parsed("0.3.13-rc1"), Parsed("0.3.12")) && !TupleGreater(Tuple("0.3.13-rc1"), Tuple("0.3.12"))
  {
    hide Plain, Marked, Parsed, Tuple, Newer;
    WrittenOut();
    AgreeOnMarked(0, 3, 13, "rc1", 0, 3, 12);
    TupleMarked(0, 3, 13, "rc1");
    TuplePlain(0, 3, 12);
  }

  lemma WrittenOut()
    ensures Marked(0, 3, 13, "rc1") == "0.3.13-rc1" && Plain(0, 3, 12) == "0.3.12"
  {
    hide Join;
    SmallDecimals();
    JoinOfThree("0", "3", "13-rc1");
    JoinOfThree("0", "3", "12");
    assert Decimal(13) + "-" + "rc1" == "13-rc1";
    assert "0" + "." + "3" + "." + "13-rc1" == "0.3.13-rc1";
  }

  lemma SmallDecimals()
    ensures Decimal(0) == "0" && Decimal(3) == "3" && Decimal(12) == "12" && Decimal(13) == "13"
  {
    assert Decimal(1) == "1";
  }

  // ---- the gates of an upgrade ----

  datatype Migration = Haruspex | Reliquary | RadioEncodeArgs | Blake3Backfill | ContentlessCleanup

  /** The last version that still needs the migration. */
  function Gate(m: Migration): string {
    match m
    case Haruspex => "0.3.1"
    case Reliquary => "0.3.1"
    case RadioEncodeArgs => "0.3.6"
    case Blake3Backfill => "0.3.12"
    case ContentlessCleanup => "0.3.12"
  }

  ghost predicate Fires(oldVersion: string, m: Migration) {
    !Newer(Parsed(oldVersion), Parsed(Gate(m)))
  }

  /** The migrations whose gates fire, in the order in which they run. */
  ghost function Due(oldVersion: string): seq<Migration> {
    (if Fires(oldVersion, Haruspex) then [Haruspex, Reliquary] else [])
    + (if Fires(oldVersion, RadioEncodeArgs) then [RadioEncodeArgs] else [])
    + (if Fires(oldVersion, Blake3Backfill) then [Blake3Backfill, ContentlessCleanup] else [])
  }

  /** They are exactly those whose gates fire. */
  lemma DueFire(oldVersion: string, m: Migration)
    ensures m in Due(oldVersion) <==> Fires(oldVersion, m)
  {
    hide Newer, Parsed;
    SameGates(oldVersion);
  }

  lemma SameGates(oldVersion: string)
    ensures Fires(oldVersion, Haruspex) == Fires(oldVersion, Reliquary)
    ensures Fires(oldVersion, Blake3Backfill) == Fires(oldVersion, ContentlessCleanup)
  {
    hide Newer, Parsed;
  }

  /** Which migrations a config of a release a.b.c is due for, and in which order they run: all five up to
      0.3.1, the last three up to 0.3.6, the last two up to 0.3.12, none after that. */
  lemma DueByRelease(a: nat, b: nat, c: nat)
    requires a <= MAX_U32 && b <= MAX_U32 && c <= MAX_U32
    ensures Due(Plain(a, b, c)) ==
            if !TupleGreater((a, b, c), (0, 3, 1)) then
              [Haruspex, Reliquary, RadioEncodeArgs, Blake3Backfill, ContentlessCleanup]
            else if !TupleGreater((a, b, c), (0, 3, 6)) then [RadioEncodeArgs, Blake3Backfill, ContentlessCleanup]
            else if !TupleGreater((a, b, c), (0, 3, 12)) then [Blake3Backfill, ContentlessCleanup]
            else []
  {
    hide Plain, Parsed, CoreGreater, SameCore;
    GatesWritten();
    ParsedPlain(a, b, c);
    ParsedPlain(0, 3, 1);
    ParsedPlain(0, 3, 6);
    ParsedPlain(0, 3, 12);
    CoreOfThree(a, b, c, 0, 3, 1);
    CoreOfThree(a, b, c, 0, 3, 6);
    CoreOfThree(a, b, c, 0, 3, 12);
  }

  lemma GatesWritten()
    ensures Plain(0, 3, 1) == "0.3.1" && Plain(0, 3, 6) == "0.3.6" && Plain(0, 3, 12) == "0.3.12"
  {
    hide Join;
    SmallDecimals();
    assert Decimal(1) == "1" && Decimal(6) == "6";
    JoinOfThree("0", "3", "1");
    JoinOfThree("0", "3", "6");
    JoinOfThree("0", "3", "12");
    assert "0" + "." + "3" + "." + "1" == "0.3.1" && "0" + "." + "3" + "." + "6" == "0.3.6"
           && "0" + "." + "3" + "." + "12" == "0.3.12";
  }

  /** One upgrade: the binary that makes it, and whether the config could be loaded again after it. */
  datatype Upgrade = Upgrade(binary: string, reloaded: bool)

  /** The version that the config records after the first k upgrades. */
  function VersionAfter(first: string, upgrades: seq<Upgrade>, k: nat): string
    requires k <= |upgrades|
  {
    if k == 0 then first else upgrades[k - 1].binary
  }

  /** Upgrade number k attempts the migration. */
  ghost predicate Attempts(first: string, upgrades: seq<Upgrade>, k: nat, m: Migration)
    requires k < |upgrades|
  {
    upgrades[k].reloaded && Fires(VersionAfter(first, upgrades, k), m)
  }

  /** An installation, with the version in its config and the migrations that were attempted. */
  class Installation {
    var version: string
    var attempted: seq<Migration>

    constructor (version: string)
      ensures this.version == version && attempted == []
    {
      this.version, attempted := version, [];
    }

    /** Upgrades the config, which records the binary's version at once, and then attempts the
        migrations whose gates fire for the version before; none if the config cannot be loaded. */
    method UpgradeConfigAndMigrate(u: Upgrade)
      modifies this
      ensures version == u.binary
      ensures attempted == old(attempted) + if u.reloaded then Due(old(version)) else []
      ensures forall m :: m in attempted[|old(attempted)|..] <==> u.reloaded && Fires(old(version), m)
    {
      hide Newer, Parsed, Gate;
      forall m { DueFire(version, m); }
      var oldVersion := version;
      version := u.binary;
      if !u.reloaded {
        return;
      }
      var migrated := IsNewer(oldVersion, Gate(Haruspex));
      if !migrated {
        attempted := attempted + [Haruspex, Reliquary];
      }
      var cleared := IsNewer(oldVersion, Gate(RadioEncodeArgs));
      if !cleared {
        attempted := attempted + [RadioEncodeArgs];
      }
      var hashed := IsNewer(oldVersion, Gate(Blake3Backfill));
      if !hashed {
        attempted := attempted + [Blake3Backfill, ContentlessCleanup];
      }
    }
  }

  /** No upgrade is made by a binary that is older than the one before. */
  ghost predicate NeverDown(upgrades: seq<Upgrade>) {
    forall k :: 0 < k < |upgrades| ==> !Newer(Parsed(upgrades[k - 1].binary), Parsed(upgrades[k].binary))
  }

  /** Once a binary newer than a gate has upgraded the config, the gate never fires again, through any
      later upgrades whose versions never go down. */
  lemma {:induction false} GateStaysShut(first: string, upgrades: seq<Upgrade>, m: Migration, i: nat, k: nat)
    requires NeverDown(upgrades) && i < k < |upgrades|
    requires Newer(Parsed(upgrades[i].binary), Parsed(Gate(m)))
    ensures !Fires(VersionAfter(first, upgrades, k), m) && !Attempts(first, upgrades, k, m)
    decreases k - i
  {
    hide Newer, Parsed;
    if i + 1 < k {
      var a, b := Parsed(upgrades[i].binary), Parsed(upgrades[i + 1].binary);
      NewerIsAStrictWeakOrder(a, Parsed(Gate(m)), b);
      GateStaysShut(first, upgrades, m, i + 1, k);
    }
  }

  /** With binaries that are all newer than the gate, a migration that is still needed is attempted by
      the first upgrade and by no other; and by the first one if and only if the config could be loaded
      again after it. */
  lemma AttemptedOnceIfReloaded(first: string, upgrades: seq<Upgrade>, m: Migration, k: nat)
    requires NeverDown(upgrades) && k < |upgrades| && Fires(first, m)
    requires Newer(Parsed(upgrades[0].binary), Parsed(Gate(m)))
    ensures Attempts(first, upgrades, k, m) <==> k == 0 && upgrades[0].reloaded
  {
    hide Newer, Parsed;
    if k > 0 {
      GateStaysShut(first, upgrades, m, 0, k);
    }
  }

  /** A needed migration that is never attempted: the first upgrade past its gate could not load the
      config again, and the second one finds the gate shut. */
  lemma NeverAttempted()
    ensures var first, upgrades := Plain(0, 3, 12), [Upgrade(Plain(0, 3, 13), false), Upgrade(Plain(0, 3, 13), true)];
            && Fires(first, Blake3Backfill) && NeverDown(upgrades)
            && forall k :: 0 <= k < |upgrades| ==> !Attempts(first, upgrades, k, Blake3Backfill)
  {
    hide Parsed, Plain, CoreGreater, SameCore;
    var first, upgrades := Plain(0, 3, 12), [Upgrade(Plain(0, 3, 13), false), Upgrade(Plain(0, 3, 13), true)];
    WrittenOut();
    ParsedPlain(0, 3, 12);
    ParsedPlain(0, 3, 13);
    CoreOfThree(0, 3, 13, 0, 3, 12);
    CoreOfThree(0, 3, 12, 0, 3, 12);
    CoreOfThree(0, 3, 13, 0, 3, 13);
    forall k | 0 <= k < |upgrades| ensures !Attempts(first, upgrades, k, Blake3Backfill) {
      AttemptedOnceIfReloaded(first, upgrades, Blake3Backfill, k);
    }
  }
}
