/** Carrying a user's config values over to a fresh template: the merge that finds every place again by
    its dotted path, and the structural overlay that it amounts to.
    Models `get_item_at_path`, `set_nested_value`, `toml_value_to_edit_value` and
    `merge_values_into_doc` of grimoire/src/config.rs. */
module ConfigMerge {
  import opened Wrappers
  import opened Text
  import opened Documents

  type Item = Doc<string>

  const PLACEHOLDER := "/path/to/fetch/directory"

  // ---- values ----

  /** What a document says, apart from how its tables and arrays are written: every kind of table a
      `Table`, every kind of array a `List`. */
  function ValueOf(item: Item): Item {
    match item
    case List(items) => List(seq(|items|, i requires 0 <= i < |items| => ValueOf(items[i])))
    case Tables(rows) => List(seq(|rows|, i requires 0 <= i < |rows| => ValueOf(rows[i])))
    case Inline(inner) => Table(map k | k in inner :: ValueOf(inner[k]))
    case Table(fields) => Table(map k | k in fields :: ValueOf(fields[k]))
    case _ => item
  }

  /** A parsed value. */
  predicate IsValue(v: Item) {
    match v
    case List(items) => forall i :: 0 <= i < |items| ==> IsValue(items[i])
    case Tables(_) => false
    case Inline(_) => false
    case Table(fields) => forall k :: k in fields ==> IsValue(fields[k])
    case _ => true
  }

  /** A value as it is written into a document: tables inside it become inline tables. */
  function EditValue(v: Item): Item {
    match v
    case List(items) => List(seq(|items|, i requires 0 <= i < |items| => EditValue(items[i])))
    case Table(fields) => Inline(map k | k in fields :: EditValue(fields[k]))
    case _ => v
  }

  lemma {:induction false} ValueOfIsValue(item: Item)
    ensures IsValue(ValueOf(item))
  {
    match item
    case List(items) => forall i | 0 <= i < |items| { ValueOfIsValue(items[i]); }
    case Tables(rows) => forall i | 0 <= i < |rows| { ValueOfIsValue(rows[i]); }
    case Inline(inner) => forall k | k in inner { ValueOfIsValue(inner[k]); }
    case Table(fields) => forall k | k in fields { ValueOfIsValue(fields[k]); }
    case _ =>
  }

  /** Writing a value into a document and reading it back gives the same value. */
  lemma {:induction false} EditRoundTrip(v: Item)
    requires IsValue(v)
    ensures ValueOf(EditValue(v)) == v
  {
    match v
    case List(items) => forall i | 0 <= i < |items| { EditRoundTrip(items[i]); }
    case Table(fields) => forall k | k in fields { EditRoundTrip(fields[k]); }
    case _ =>
  }

  // ---- places ----

  /** The item at a place; only block tables are entered. */
  function Look(item: Item, place: seq<string>): Option<Item> {
    if place == [] then Some(item)
    else if item.Table? && place[0] in item.fields then Look(item.fields[place[0]], place[1..])
    else None
  }

  /** The document with another item at a place that it has. */
  function ReplaceAt(item: Item, place: seq<string>, new': Item): Item
    requires Look(item, place).Some?
  {
    if place == [] then new'
    else Table(item.fields[place[0] := ReplaceAt(item.fields[place[0]], place[1..], new')])
  }

  /** Sets a value, making the tables that are missing on the way; None when something on the way is not
      a table. */
  function SetAt(item: Item, place: seq<string>, v: Item): Option<Item>
    requires place != []
    decreases |place|
  {
    if !item.Table? then None
    else if |place| == 1 then Some(Table(item.fields[place[0] := v]))
    else
      var child := if place[0] in item.fields then item.fields[place[0]] else Table(map[]);
      match SetAt(child, place[1..], v)
      case None => None
      case Some(c) => Some(Table(item.fields[place[0] := c]))
  }

  lemma {:induction false} LookBelow(item: Item, place: seq<string>, key: string)
    ensures Look(item, place + [key]) ==
            match Look(item, place)
            case None => None
            case Some(at) => if at.Table? && key in at.fields then Some(at.fields[key]) else None
  {
    if place == [] {
      assert [key][1..] == [];
    } else {
      assert (place + [key])[1..] == place[1..] + [key];
      if item.Table? && place[0] in item.fields {
        LookBelow(item.fields[place[0]], place[1..], key);
      }
    }
  }

  lemma LookOne(item: Item, a: string)
    ensures Look(item, [a]) == if item.Table? && a in item.fields then Some(item.fields[a]) else None
    ensures item.Table? && a in item.fields ==>
            forall new' :: ReplaceAt(item, [a], new') == Table(item.fields[a := new'])
  {
    assert [a][1..] == [];
  }

  lemma LookTwo(item: Item, a: string, b: string)
    ensures Look(item, [a, b]) ==
            if item.Table? && a in item.fields && item.fields[a].Table? && b in item.fields[a].fields
            then Some(item.fields[a].fields[b]) else None
    ensures Look(item, [a, b]).Some? ==>
              forall new' ::
                ReplaceAt(item, [a, b], new') == Table(item.fields[a := Table(item.fields[a].fields[b := new'])])
  {
    assert [a, b][1..] == [b];
    if item.Table? && a in item.fields {
      LookOne(item.fields[a], b);
    }
  }

  lemma {:induction false} ReplaceLook(item: Item, place: seq<string>, a: Item, b: Item)
    requires Look(item, place).Some?
    ensures Look(ReplaceAt(item, place, a), place) == Some(a)
    ensures ReplaceAt(ReplaceAt(item, place, a), place, b) == ReplaceAt(item, place, b)
  {
    if place != [] {
      ReplaceLook(item.fields[place[0]], place[1..], a, b);
    }
  }

  lemma {:induction false} ReplaceSame(item: Item, place: seq<string>)
    requires Look(item, place).Some?
    ensures ReplaceAt(item, place, Look(item, place).value) == item
  {
    if place != [] {
      ReplaceSame(item.fields[place[0]], place[1..]);
      assert item.fields[place[0] := item.fields[place[0]]] == item.fields;
    }
  }

  /** Replacing an entry of the table at a place replaces that table. */
  lemma {:induction false} ReplaceBelow(item: Item, place: seq<string>, key: string, new': Item)
    requires Look(item, place).Some? && Look(item, place).value.Table? && key in Look(item, place).value.fields
    ensures Look(item, place + [key]).Some?
    ensures ReplaceAt(item, place + [key], new') ==
            ReplaceAt(item, place, Table(Look(item, place).value.fields[key := new']))
  {
    LookBelow(item, place, key);
    if place == [] {
      assert [key][1..] == [];
    } else {
      assert (place + [key])[1..] == place[1..] + [key];
      ReplaceBelow(item.fields[place[0]], place[1..], key, new');
    }
  }

  /** Setting a value at a place that exists replaces it. */
  lemma {:induction false} SetExisting(item: Item, place: seq<string>, v: Item)
    requires place != [] && Look(item, place).Some?
    ensures SetAt(item, place, v) == Some(ReplaceAt(item, place, v))
  {
    if |place| == 1 {
      assert place[1..] == [];
    } else {
      SetExisting(item.fields[place[0]], place[1..], v);
    }
  }

  // ---- dotted paths ----

  /** Keys that a dotted path can name. */
  predicate PlainKeys(v: Item) {
    v.Table? ==> forall k :: k in v.fields ==> k != "" && '.' !in k && PlainKeys(v.fields[k])
  }

  predicate PlainPlace(place: seq<string>) {
    forall i :: 0 <= i < |place| ==> place[i] != "" && '.' !in place[i]
  }

  function Dotted(place: seq<string>): string {
    Join(place, '.')
  }

  lemma DottedSplits(place: seq<string>)
    requires place != [] && PlainPlace(place)
    ensures Split(Dotted(place), '.') == place
  {
    SplitJoin(place, '.');
  }

  lemma {:induction false} DottedNotEmpty(place: seq<string>)
    requires PlainPlace(place)
    ensures Dotted(place) == "" <==> place == []
  {
  }

  lemma DottedBelow(place: seq<string>, key: string)
    requires PlainPlace(place)
    ensures Dotted(place + [key]) == if Dotted(place) == "" then key else Dotted(place) + "." + key
  {
    DottedNotEmpty(place);
    if place == [] {
      assert [] + [key] == [key];
    } else {
      JoinAppend(place, key, '.');
    }
  }

  lemma DottedSame(a: seq<string>, b: seq<string>)
    requires a != [] && b != [] && PlainPlace(a) && PlainPlace(b)
    ensures Dotted(a) == Dotted(b) <==> a == b
  {
    DottedSplits(a);
    DottedSplits(b);
  }

  // ---- the structural overlay ----

  const VERSION := ["server", "version"]
  const MUSIC_DIR := ["server", "fetch_music", "output_dir"]
  const VIDEO_DIR := ["server", "fetch_video", "output_dir"]

  /** Values that are not carried over: the version, and the old placeholder of a fetch folder. */
  predicate Skipped(place: seq<string>, v: Item) {
    place == VERSION || ((place == MUSIC_DIR || place == VIDEO_DIR) && v == Doc.Text(PLACEHOLDER))
  }

  /** A user's value laid over an item of the template. */
  function Overlay(item: Item, v: Item, place: seq<string>): Item
    decreases v
  {
    if Skipped(place, v) then item
    else if !v.Table? then EditValue(v)
    else if !item.Table? then item
    else Table(map k | k in item.fields ::
                 if k in v.fields then Overlay(item.fields[k], v.fields[k], place + [k]) else item.fields[k])
  }

  /** The same for the entries of a table, and only those with the given keys. */
  function OverlayKeys(fields: map<string, Item>, user: map<string, Item>, place: seq<string>,
      keys: set<string>): map<string, Item> {
    map k | k in fields :: if k in user && k in keys then Overlay(fields[k], user[k], place + [k]) else fields[k]
  }

  lemma OverlayTable(item: Item, v: Item, place: seq<string>)
    requires item.Table? && v.Table? && place != VERSION
    ensures Overlay(item, v, place) == Table(OverlayKeys(item.fields, v.fields, place, v.fields.Keys))
  {
    assert !Skipped(place, v);
    hide Skipped;
    var fields := OverlayKeys(item.fields, v.fields, place, v.fields.Keys);
    assert Overlay(item, v, place).fields == fields;
  }

  /** The document after the user's values of some keys are laid over the table at a place. */
  function MergedKeys(root: Item, user: Item, place: seq<string>, keys: set<string>): Item
    requires user.Table? && Look(root, place).Some?
  {
    var at := Look(root, place).value;
    if at.Table? then ReplaceAt(root, place, Table(OverlayKeys(at.fields, user.fields, place, keys))) else root
  }

  function Merged(root: Item, user: Item, place: seq<string>): Item
    requires user.Table? && Look(root, place).Some?
  {
    MergedKeys(root, user, place, user.fields.Keys)
  }

  lemma NothingMerged(root: Item, user: Item, place: seq<string>)
    requires user.Table? && Look(root, place).Some?
    ensures MergedKeys(root, user, place, {}) == root
  {
    var at := Look(root, place).value;
    if at.Table? {
      assert OverlayKeys(at.fields, user.fields, place, {}) == at.fields;
      ReplaceSame(root, place);
    }
  }

  /** What the merge finds below a place before it handles a key. */
  lemma BeforeKey(root: Item, user: Item, place: seq<string>, keys: set<string>, k: string)
    requires user.Table? && Look(root, place).Some? && k in user.fields && k !in keys
    ensures var at := Look(root, place).value;
            Look(MergedKeys(root, user, place, keys), place + [k]) ==
            if at.Table? && k in at.fields then Some(at.fields[k]) else None
  {
    hide Overlay, ReplaceAt;
    var at := Look(root, place).value;
    LookBelow(MergedKeys(root, user, place, keys), place, k);
    if at.Table? {
      ReplaceLook(root, place, Table(OverlayKeys(at.fields, user.fields, place, keys)), root);
    }
  }

  /** Laying one more key over replaces its item, where there is one. */
  lemma OneKey(root: Item, user: Item, place: seq<string>, keys: set<string>, k: string)
    requires user.Table? && Look(root, place).Some? && k in user.fields && k !in keys
    ensures var at, before := Look(root, place).value, MergedKeys(root, user, place, keys);
            MergedKeys(root, user, place, keys + {k}) ==
            if at.Table? && k in at.fields && Look(before, place + [k]).Some?
            then ReplaceAt(before, place + [k], Overlay(at.fields[k], user.fields[k], place + [k]))
            else before
  {
    hide Overlay, ReplaceAt, Look;
    BeforeKey(root, user, place, keys, k);
    var at := Look(root, place).value;
    if at.Table? {
      var fields := OverlayKeys(at.fields, user.fields, place, keys);
      var more := OverlayKeys(at.fields, user.fields, place, keys + {k});
      var before := MergedKeys(root, user, place, keys);
      if k in at.fields {
        var new' := Overlay(at.fields[k], user.fields[k], place + [k]);
        assert more == fields[k := new'];
        ReplaceLook(root, place, Table(fields), Table(more));
        ReplaceBelow(before, place, k, new');
      } else {
        assert more == fields;
      }
    }
  }

  /** An item that stays as it is. */
  lemma KeyStays(root: Item, user: Item, place: seq<string>, keys: set<string>, k: string)
    requires user.Table? && Look(root, place).Some? && k in user.fields && k !in keys
    requires var at := Look(root, place).value;
             at.Table? && k in at.fields ==> Overlay(at.fields[k], user.fields[k], place + [k]) == at.fields[k]
    ensures MergedKeys(root, user, place, keys + {k}) == MergedKeys(root, user, place, keys)
  {
    hide Overlay, ReplaceAt, MergedKeys;
    OneKey(root, user, place, keys, k);
    BeforeKey(root, user, place, keys, k);
    var before := MergedKeys(root, user, place, keys);
    if Look(before, place + [k]).Some? {
      ReplaceSame(before, place + [k]);
    }
  }

  // ---- the document in place ----

  lemma SkipTest(place: seq<string>, key: string, v: Item, fullPath: string)
    requires PlainPlace(place) && key != "" && '.' !in key && fullPath == Dotted(place + [key])
    ensures fullPath == "server.version" <==> place + [key] == VERSION
    ensures fullPath == "server.fetch_music.output_dir" <==> place + [key] == MUSIC_DIR
    ensures fullPath == "server.fetch_video.output_dir" <==> place + [key] == VIDEO_DIR
  {
    hide Dotted;
    WrittenOut();
    DottedSame(place + [key], VERSION);
    DottedSame(place + [key], MUSIC_DIR);
    DottedSame(place + [key], VIDEO_DIR);
  }

  lemma DottedTwo(a: string, b: string)
    ensures Dotted([a, b]) == a + "." + b
  {
    assert [a, b][1..] == [b] && Join([b], '.') == b;
  }

  lemma DottedThree(a: string, b: string, c: string)
    ensures Dotted([a, b, c]) == a + "." + (b + "." + c)
  {
    assert [a, b, c][1..] == [b, c];
    DottedTwo(b, c);
  }

  lemma WrittenOut()
    ensures Dotted(VERSION) == "server.version"
    ensures Dotted(MUSIC_DIR) == "server.fetch_music.output_dir"
    ensures Dotted(VIDEO_DIR) == "server.fetch_video.output_dir"
  {
    hide Dotted;
    DottedTwo("server", "version");
    DottedThree("server", "fetch_music", "output_dir");
    DottedThree("server", "fetch_video", "output_dir");
  }

  /** An item written back into the tables that were entered on the way to it. */
  function WriteBack(trail: seq<map<string, Item>>, parts: seq<string>, item: Option<Item>): Option<Item>
    requires |trail| <= |parts|
  {
    if trail == [] then item else
    var n := |trail| - 1;
    WriteBack(trail[..n], parts, match item case None => None case Some(i) => Some(Table(trail[n][parts[n] := i])))
  }

  lemma {:induction false} NoWriteBack(trail: seq<map<string, Item>>, parts: seq<string>)
    requires |trail| <= |parts|
    ensures WriteBack(trail, parts, None) == None
  {
    if trail != [] {
      NoWriteBack(trail[..|trail| - 1], parts);
    }
  }

  /** One step down the path. */
  lemma StepDown(item: Item, place: seq<string>, v: Item)
    requires |place| > 1
    ensures SetAt(item, place, v) ==
            if !item.Table? then None else
            match SetAt(if place[0] in item.fields then item.fields[place[0]] else Table(map[]), place[1..], v)
            case None => None
            case Some(c) => Some(Table(item.fields[place[0] := c]))
  {
  }

  class ConfigDocument {
    var root: Item

    constructor (root: Item)
      ensures this.root == root
    {
      this.root := root;
    }

    function GetItemAtPath(path: string): Option<Item>
      reads this
    {
      Look(root, Split(path, '.'))
    }

    /** Walks down the path, making the tables that are missing, and writes the value into the last one. */
    method SetNestedValue(keyPath: string, v: Item) returns (ok: bool)
      modifies this
      ensures var set' := SetAt(old(root), Split(keyPath, '.'), v);
              ok == set'.Some? && root == if ok then set'.value else old(root)
    {
      hide Split;
      var parts := Split(keyPath, '.');
      var current, trail := root, [];
      assert parts[0..] == parts;
      for i := 0 to |parts| - 1
        invariant |trail| == i && root == old(root)
        invariant SetAt(root, parts, v) == WriteBack(trail, parts, SetAt(current, parts[i..], v))
      {
        StepDown(current, parts[i..], v);
        if !current.Table? {
          NoWriteBack(trail, parts);
          assert SetAt(root, parts, v) == None;
          return false;
        }
        assert parts[i..][1..] == parts[i + 1..] && (trail + [current.fields])[..i] == trail;
        trail := trail + [current.fields];
        current := if parts[i] in current.fields then current.fields[parts[i]] else Table(map[]);
      }
      if !current.Table? {
        NoWriteBack(trail, parts);
        return false;
      }
      var item := Table(current.fields[parts[|parts| - 1] := v]);
      var i := |trail|;
      assert trail[..i] == trail;
      while i > 0
        invariant i <= |trail| < |parts|
        invariant SetAt(root, parts, v) == WriteBack(trail[..i], parts, Some(item))
      {
        i := i - 1;
        assert trail[..i + 1][..i] == trail[..i];
        item := Table(trail[i][parts[i] := item]);
      }
      root := item;
      return true;
    }

    /** Merges a table of user values, each found again from the root by its dotted path, into the table
        at that place. */
    method MergeValuesIntoDoc(user: Item, prefix: string, ghost place: seq<string>)
      requires user.Table? && PlainKeys(user) && PlainPlace(place) && prefix == Dotted(place)
      requires Look(root, place).Some? && (Look(root, place).value.Table? || Look(root, place).value.Inline?)
      modifies this
      ensures root == Merged(old(root), user, place)
      decreases user
    {
      hide Look, Overlay, ReplaceAt, MergedKeys, SetAt, Dotted, Split, EditValue, Skipped;
      ghost var start := root;
      var rest := user.fields.Keys;
      NothingMerged(root, user, place);
      assert rest - rest == {};
      while rest != {}
        invariant rest <= user.fields.Keys
        invariant root == MergedKeys(start, user, place, user.fields.Keys - rest)
        decreases rest
      {
        var key :| key in rest;
        ghost var keys := user.fields.Keys - rest;
        MergeKey(user, key, prefix, place, start, keys);
        rest := rest - {key};
        assert user.fields.Keys - rest == keys + {key};
      }
      assert user.fields.Keys - {} == user.fields.Keys;
    }

    /** One round of the loop over the user's keys. */
    method MergeKey(user: Item, key: string, prefix: string, ghost place: seq<string>, ghost start: Item,
        ghost keys: set<string>)
      requires user.Table? && PlainKeys(user) && PlainPlace(place) && prefix == Dotted(place)
      requires key in user.fields && key !in keys
      requires Look(start, place).Some? && (Look(start, place).value.Table? || Look(start, place).value.Inline?)
      requires root == MergedKeys(start, user, place, keys)
      modifies this
      ensures root == MergedKeys(start, user, place, keys + {key})
      decreases user, 0
    {
      hide Look, ReplaceAt, MergedKeys, SetAt, Dotted, Split, EditValue;
      var v := user.fields[key];
      var fullPath := if prefix == "" then key else prefix + "." + key;
      ghost var below := place + [key];
      DottedBelow(place, key);
      SkipTest(place, key, v, fullPath);
      DottedSplits(below);
      BeforeKey(start, user, place, keys, key);
      OneKey(start, user, place, keys, key);
      if fullPath == "server.version"
        || ((fullPath == "server.fetch_music.output_dir" || fullPath == "server.fetch_video.output_dir")
           && v == Doc.Text(PLACEHOLDER))
      {
        KeyStays(start, user, place, keys, key);
        return;
      }
      assert !Skipped(below, v);
      var found := GetItemAtPath(fullPath);
      if v.Table? {
        if found.Some? && (found.value.Table? || found.value.Inline?) {
          ghost var before := root;
          MergeValuesIntoDoc(v, fullPath, below);
          MergedBelow(before, v, below);
        } else {
          KeyStays(start, user, place, keys, key);
        }
      } else if found.Some? {
        SetExisting(root, below, EditValue(v));
        var _ := SetNestedValue(fullPath, EditValue(v));
      }
    }
  }

  /** Merging a table below a place is overlaying the item there. */
  lemma MergedBelow(root: Item, v: Item, place: seq<string>)
    requires v.Table? && place != VERSION && Look(root, place).Some?
    ensures Merged(root, v, place) == ReplaceAt(root, place, Overlay(Look(root, place).value, v, place))
  {
    hide ReplaceAt, Look;
    var at := Look(root, place).value;
    if at.Table? {
      OverlayTable(at, v, place);
    } else {
      ReplaceSame(root, place);
    }
  }

  // ---- what the overlay means, place by place ----

  /** No place is added that the template lacks. */
  lemma {:induction false} OverlayAddsNothing(item: Item, v: Item, place: seq<string>, p: seq<string>)
    ensures Look(Overlay(item, v, place), p).Some? ==> Look(item, p).Some?
    decreases |p|
  {
    if p != [] && !Skipped(place, v) && v.Table? && item.Table? && p[0] in item.fields && p[0] in v.fields {
      OverlayAddsNothing(item.fields[p[0]], v.fields[p[0]], place + [p[0]], p[1..]);
    }
  }

  /** A value of the user is taken wherever the template has an item, whatever that item is, unless it is
      one of those that are not carried over. */
  lemma {:induction false} OverlayTakesValues(item: Item, v: Item, place: seq<string>, p: seq<string>)
    requires Look(v, p).Some? && !Look(v, p).value.Table? && Look(item, p).Some?
    requires !(VERSION <= place + p) && !Skipped(place + p, Look(v, p).value)
    ensures Look(Overlay(item, v, place), p) == Some(EditValue(Look(v, p).value))
    decreases |p|
  {
    assert place + [] == place;
    assert place <= place + p;
    if p != [] {
      assert place + p == (place + [p[0]]) + p[1..];
      OverlayTakesValues(item.fields[p[0]], v.fields[p[0]], place + [p[0]], p[1..]);
    }
  }

  /** The user says nothing about a place or anything above it. */
  predicate Untold(v: Item, p: seq<string>) {
    v.Table? && p != [] && (p[0] !in v.fields || Untold(v.fields[p[0]], p[1..]))
  }

  lemma {:induction false} OverlayKeepsTemplate(item: Item, v: Item, place: seq<string>, p: seq<string>)
    requires Untold(v, p)
    ensures Look(Overlay(item, v, place), p) == Look(item, p)
    decreases |p|
  {
    if item.Table? && p[0] in item.fields && p[0] in v.fields {
      OverlayKeepsTemplate(item.fields[p[0]], v.fields[p[0]], place + [p[0]], p[1..]);
    }
  }

  lemma {:induction false} OverlaySkips(item: Item, v: Item, place: seq<string>, p: seq<string>)
    requires Look(v, p).Some? && Look(item, p).Some? && !(VERSION <= place + p && VERSION != place + p)
    requires Skipped(place + p, Look(v, p).value) || (Look(v, p).value.Table? && !Look(item, p).value.Table?)
    ensures Look(Overlay(item, v, place), p) == Look(item, p)
    decreases |p|
  {
    assert place + [] == place;
    if p != [] {
      assert place + p == (place + [p[0]]) + p[1..];
      assert place != VERSION;
      OverlaySkips(item.fields[p[0]], v.fields[p[0]], place + [p[0]], p[1..]);
    }
  }

  /** What is not carried over: the version, the placeholder as a fetch folder, and a table where the template
      has something else. There the template stays. */
  lemma NotCarriedOver(template: Item, user: Item, p: seq<string>)
    requires Look(template, p).Some? && Look(user, p).Some?
    requires || p == ["server", "version"]
             || (p in {["server", "fetch_music", "output_dir"], ["server", "fetch_video", "output_dir"]}
                 && Look(user, p) == Some(Doc.Text("/path/to/fetch/directory")))
             || (Look(user, p).value.Table? && !Look(template, p).value.Table? && !(["server", "version"] <= p))
    ensures Look(Overlay(template, user, []), p) == Look(template, p)
  {
    assert [] + p == p;
    OverlaySkips(template, user, [], p);
  }

  /** Everything else is carried over, wherever the template has an item. */
  lemma CarriedOver(template: Item, user: Item, p: seq<string>)
    requires Look(template, p).Some? && Look(user, p).Some? && !Look(user, p).value.Table?
    requires !(["server", "version"] <= p)
    requires p in {["server", "fetch_music", "output_dir"], ["server", "fetch_video", "output_dir"]} ==>
               Look(user, p) != Some(Doc.Text("/path/to/fetch/directory"))
    ensures Look(Overlay(template, user, []), p) == Some(EditValue(Look(user, p).value))
  {
    assert [] + p == p;
    OverlayTakesValues(template, user, [], p);
  }
}
