/** A whole config upgrade: the merge, the repairs behind their version gates, and the version stamp; and
    why a second upgrade by the same binary changes nothing.
    Models the document part of `upgrade_config`, `config_needs_upgrade`, `fix_stale_video_transcode_args`
    and `fix_missing_fetch_video_output_dir` of grimoire/src/config.rs. */
module ConfigUpgrade {
  import opened Wrappers
  import opened Text
  import opened Documents
  import opened ConfigMerge
  import opened Upgrades

  // ---- looking into a document ----

  /** An entry of any kind of table. */
  function Child(item: Option<Item>, key: string): Option<Item> {
    match item
    case Some(Table(fields)) => if key in fields then Some(fields[key]) else None
    case Some(Inline(inner)) => if key in inner then Some(inner[key]) else None
    case _ => None
  }

  function TextOr(item: Option<Item>, default: string): string {
    if item.Some? && item.value.Text? then item.value.text else default
  }

  /** The version that a config says it was written by. */
  function VersionIn(doc: Item): string {
    TextOr(Child(Child(Some(doc), "server"), "version"), "0.0.0")
  }

  predicate ConfigNeedsUpgrade(doc: Item, binary: string) {
    VersionIn(doc) != binary
  }

  predicate AtMost(version: string, gate: (nat, nat, nat)) {
    !TupleGreater(Tuple(version), gate)
  }

  // ---- the transcode arguments ----

  const STALE_ARGS_PRE_0_3_10 := "-i {input} -map 0:v:0 -map 0:a:0? -c:v libx264 -preset veryfast -crf 23 -c:a aac -b:a 192k -movflags +faststart -f mp4 -y {output}"
  const STALE_ARGS_0_3_10_TO_0_3_21 := "-i {input} -map 0:v:0 -map 0:a:0? -c:v libx264 -preset veryfast -crf 23 -pix_fmt yuv420p -c:a aac -b:a 192k -movflags +faststart -f mp4 -y {output}"
  const CURRENT_ARGS := "-i {input} -map 0:v:0 -map 0:a:0? -c:v libx264 -preset veryfast -profile:v main -crf 23 -maxrate 4000k -bufsize 8000k -vf \"scale='min(iw,1920)':'min(ih,1920)':force_original_aspect_ratio=decrease:force_divisible_by=2\" -pix_fmt yuv420p -force_key_frames expr:gte(t,n_forced*3) -c:a aac -b:a 192k -movflags +faststart -f mp4 -y {output}"

  const ARGS_GATE_1 := (0, 3, 9)
  const ARGS_GATE_2 := (0, 3, 21)
  const VIDEO_GATE := (0, 3, 12)

  predicate IsStale(args: string, oldVersion: string) {
    || (AtMost(oldVersion, ARGS_GATE_1) && args == STALE_ARGS_PRE_0_3_10)
    || (AtMost(oldVersion, ARGS_GATE_2) && args == STALE_ARGS_0_3_10_TO_0_3_21)
  }

  /** A rendition called compatible whose arguments are a stock string of its time. */
  predicate NeedsArgs(fields: map<string, Item>, oldVersion: string) {
    && "label" in fields && fields["label"] == Doc.Text("compatible")
    && "args" in fields && fields["args"].Text? && IsStale(fields["args"].text, oldVersion)
  }

  function FixFields(fields: map<string, Item>, oldVersion: string): map<string, Item> {
    if NeedsArgs(fields, oldVersion) then fields["args" := Doc.Text(CURRENT_ARGS)] else fields
  }

  function FixBlock(row: Item, oldVersion: string): Item {
    if row.Table? then Table(FixFields(row.fields, oldVersion)) else row
  }

  function FixEntry(row: Item, oldVersion: string): Item {
    if row.Inline? then Inline(FixFields(row.inner, oldVersion)) else row
  }

  /** The repair leaves nothing for another repair, keeps all other entries of the rendition, and leaves
      arguments that are not a stock string alone. */
  lemma RepairIsDone(fields: map<string, Item>, oldVersion: string)
    ensures !NeedsArgs(FixFields(fields, oldVersion), oldVersion)
    ensures FixFields(fields, oldVersion) - {"args"} == fields - {"args"}
    ensures "args" in fields && fields["args"] != Doc.Text(STALE_ARGS_PRE_0_3_10)
            && fields["args"] != Doc.Text(STALE_ARGS_0_3_10_TO_0_3_21) ==>
              FixFields(fields, oldVersion) == fields
  {
    hide AtMost;
    assert |CURRENT_ARGS| > |STALE_ARGS_PRE_0_3_10| && |CURRENT_ARGS| > |STALE_ARGS_0_3_10_TO_0_3_21|;
  }

  const RENDITIONS := ["media", "video_transcode_renditions"]

  function FixRenditions(item: Item, oldVersion: string): Item {
    match item
    case Tables(rows) => Tables(seq(|rows|, i requires 0 <= i < |rows| => FixBlock(rows[i], oldVersion)))
    case List(items) => List(seq(|items|, i requires 0 <= i < |items| => FixEntry(items[i], oldVersion)))
    case _ => item
  }

  function FixArgs(doc: Item, oldVersion: string): Item {
    var found := Look(doc, RENDITIONS);
    if found.None? then doc else ReplaceAt(doc, RENDITIONS, FixRenditions(found.value, oldVersion))
  }

  method FixStaleVideoTranscodeArgs(doc: ConfigDocument, oldVersion: string)
    modifies doc
    ensures doc.root == FixArgs(old(doc.root), oldVersion)
  {
    hide FixBlock, FixEntry, Look, ReplaceAt;
    var found := Look(doc.root, RENDITIONS);
    if found.None? {
      return;
    }
    match found.value
    case Tables(rows) =>
      var fixed: seq<Item> := [];
      for i := 0 to |rows|
        invariant fixed == seq(i, k requires 0 <= k < i => FixBlock(rows[k], oldVersion))
      {
        fixed := fixed + [FixBlock(rows[i], oldVersion)];
      }
      doc.root := ReplaceAt(doc.root, RENDITIONS, Tables(fixed));
    case List(items) =>
      var fixed: seq<Item> := [];
      for i := 0 to |items|
        invariant fixed == seq(i, k requires 0 <= k < i => FixEntry(items[k], oldVersion))
      {
        fixed := fixed + [FixEntry(items[i], oldVersion)];
      }
      doc.root := ReplaceAt(doc.root, RENDITIONS, List(fixed));
    case _ =>
      ReplaceSame(doc.root, RENDITIONS);
  }

  // ---- the video fetch folder ----

  predicate Blank(s: string) {
    TrimStart(s) == ""
  }

  function Server(doc: Item, section: string, key: string): Option<Item> {
    Child(Child(Child(Some(doc), "server"), section), key)
  }

  predicate VideoDirMissing(doc: Item) {
    && Server(doc, "fetch_video", "enabled") == Some(Flag(true))
    && Blank(TextOr(Server(doc, "fetch_video", "output_dir"), ""))
    && !Blank(TextOr(Server(doc, "fetch_music", "output_dir"), ""))
  }

  const FETCH_VIDEO := ["server", "fetch_video"]

  function FixVideo(doc: Item, oldVersion: string): Item {
    if !AtMost(oldVersion, VIDEO_GATE) || !VideoDirMissing(doc) then doc
    else
      match Look(doc, FETCH_VIDEO)
      case Some(Table(fields)) =>
        ReplaceAt(doc, FETCH_VIDEO,
          Table(fields["output_dir" := Doc.Text(TextOr(Server(doc, "fetch_music", "output_dir"), ""))]))
      case _ => doc
  }

  method FixMissingFetchVideoOutputDir(doc: ConfigDocument, oldVersion: string)
    modifies doc
    ensures doc.root == FixVideo(old(doc.root), oldVersion)
  {
    hide Look, ReplaceAt, Blank, TupleGreater;
    if TupleGreater(Tuple(oldVersion), VIDEO_GATE) {
      return;
    }
    var enabled := Server(doc.root, "fetch_video", "enabled");
    if enabled != Some(Flag(true)) {
      return;
    }
    var videoDir := TextOr(Server(doc.root, "fetch_video", "output_dir"), "");
    if !Blank(videoDir) {
      return;
    }
    var musicDir := TextOr(Server(doc.root, "fetch_music", "output_dir"), "");
    if Blank(musicDir) {
      return;
    }
    var section := Look(doc.root, FETCH_VIDEO);
    if section.Some? && section.value.Table? {
      doc.root := ReplaceAt(doc.root, FETCH_VIDEO, Table(section.value.fields["output_dir" := Doc.Text(musicDir)]));
    }
  }

  // ---- the whole upgrade ----

  const SERVER := ["server"]

  function SetVersion(doc: Item, binary: string): Item {
    match Look(doc, SERVER)
    case Some(Table(fields)) => ReplaceAt(doc, SERVER, Table(fields["version" := Doc.Text(binary)]))
    case _ => doc
  }

  function Upgraded(template: Item, user: Item, binary: string): Item {
    var oldVersion := VersionIn(user);
    SetVersion(FixVideo(FixArgs(Overlay(template, user, []), oldVersion), oldVersion), binary)
  }

  method UpgradeConfig(template: Item, user: Item, binary: string) returns (upgraded: Item)
    requires template.Table? && user.Table? && IsValue(user) && PlainKeys(user)
    ensures upgraded == Upgraded(template, user, binary)
  {
    hide FixArgs, FixVideo, VersionIn, Overlay, ReplaceAt, OverlayKeys;
    var oldVersion := VersionIn(user);
    var doc := new ConfigDocument(template);
    doc.MergeValuesIntoDoc(user, "", []);
    MergedRoot(template, user);
    FixStaleVideoTranscodeArgs(doc, oldVersion);
    FixMissingFetchVideoOutputDir(doc, oldVersion);
    var server := Look(doc.root, SERVER);
    if server.Some? && server.value.Table? {
      doc.root := ReplaceAt(doc.root, SERVER, Table(server.value.fields["version" := Doc.Text(binary)]));
    }
    upgraded := doc.root;
  }

  lemma MergedRoot(template: Item, user: Item)
    requires template.Table? && user.Table?
    ensures Merged(template, user, []) == Overlay(template, user, [])
  {
    OverlayTable(template, user, []);
  }

  // ---- documents that a merge leaves alone ----

  /** The document could have come out of merging something into the item: tables have the item's keys,
      and nothing stands where it would not be carried over again. */
  predicate Fits(item: Item, r: Item, place: seq<string>)
    decreases r
  {
    || place == VERSION
    || (if r.Table? && item.Table? then
          r.fields.Keys == item.fields.Keys && forall k :: k in r.fields ==>
            Fits(item.fields[k], r.fields[k], place + [k])
        else if r.Table? || r.Inline? then !item.Table? && ValueOf(r) == ValueOf(item)
        else Skipped(place, ValueOf(r)) ==> ValueOf(r) == ValueOf(item))
  }

  lemma {:induction false} SelfFits(item: Item, place: seq<string>)
    ensures Fits(item, item, place)
  {
    if item.Table? {
      forall k | k in item.fields { SelfFits(item.fields[k], place + [k]); }
    }
  }

  lemma {:induction false} OverlayFits(item: Item, v: Item, place: seq<string>)
    requires IsValue(v)
    ensures Fits(item, Overlay(item, v, place), place)
    decreases v
  {
    if Skipped(place, v) || (v.Table? && !item.Table?) {
      SelfFits(item, place);
    } else if !v.Table? {
      EditRoundTrip(v);
    } else {
      forall k | k in item.fields
        ensures Fits(item.fields[k], Overlay(item, v, place).fields[k], place + [k])
      {
        if k in v.fields {
          OverlayFits(item.fields[k], v.fields[k], place + [k]);
        } else {
          SelfFits(item.fields[k], place + [k]);
        }
      }
    }
  }

  /** A table is stable when its entries are. */
  lemma StableTable(item: Item, r: Item, place: seq<string>)
    requires r.Table? && item.Table? && r.fields.Keys == item.fields.Keys && place != VERSION
    requires forall k :: k in r.fields ==>
               ValueOf(Overlay(item.fields[k], ValueOf(r.fields[k]), place + [k])) == ValueOf(r.fields[k])
    ensures ValueOf(Overlay(item, ValueOf(r), place)) == ValueOf(r)
  {
    var v := ValueOf(r);
    OverlayTable(item, v, place);
    hide Overlay;
    var fields := OverlayKeys(item.fields, v.fields, place, v.fields.Keys);
    assert forall k :: k in r.fields ==> k in v.fields && v.fields[k] == ValueOf(r.fields[k]);
    assert ValueOf(Table(fields)).fields == v.fields;
  }

  /** Merging such a document again gives the same values, away from the version. */
  lemma {:induction false} FitIsStable(item: Item, r: Item, place: seq<string>)
    requires Fits(item, r, place) && !(place <= VERSION)
    ensures ValueOf(Overlay(item, ValueOf(r), place)) == ValueOf(r)
    decreases r
  {
    if r.Table? && item.Table? {
      hide Overlay, ValueOf;
      forall k | k in r.fields
        ensures ValueOf(Overlay(item.fields[k], ValueOf(r.fields[k]), place + [k])) == ValueOf(r.fields[k])
      {
        assert place <= place + [k];
        FitIsStable(item.fields[k], r.fields[k], place + [k]);
      }
      StableTable(item, r, place);
    } else {
      StableLeaf(item, r, place);
    }
  }

  lemma StableLeaf(item: Item, r: Item, place: seq<string>)
    requires Fits(item, r, place) && place != VERSION && !(r.Table? && item.Table?)
    ensures ValueOf(Overlay(item, ValueOf(r), place)) == ValueOf(r)
  {
    ValueOfIsValue(r);
    if !r.Table? && !r.Inline? && !Skipped(place, ValueOf(r)) {
      EditRoundTrip(ValueOf(r));
    }
  }

  /** Putting a value that is carried over in a place of the item keeps a document of that form. */
  lemma {:induction false} FitsReplaced(item: Item, r: Item, place: seq<string>, p: seq<string>, new': Item)
    requires Fits(item, r, place) && Look(r, p).Some? && Look(item, p).Some?
    requires !new'.Table? && !new'.Inline? && (place + p == VERSION || !Skipped(place + p, ValueOf(new')))
    requires !(VERSION <= place + p) || place + p == VERSION
    ensures Fits(item, ReplaceAt(r, p, new'), place)
    decreases |p|
  {
    assert place + [] == place;
    if p != [] {
      assert place + p == (place + [p[0]]) + p[1..] && place <= place + p;
      FitsReplaced(item.fields[p[0]], r.fields[p[0]], place + [p[0]], p[1..], new');
    }
  }

  /** Entries of a table at a place of such a document. */
  lemma {:induction false} FitsAt(item: Item, r: Item, place: seq<string>, p: seq<string>)
    requires Fits(item, r, place) && Look(r, p).Some? && Look(item, p).Some? && !(VERSION <= place + p)
    ensures Fits(Look(item, p).value, Look(r, p).value, place + p)
    decreases |p|
  {
    assert place + [] == place;
    if p != [] {
      assert place + p == (place + [p[0]]) + p[1..] && place <= place + p;
      FitsAt(item.fields[p[0]], r.fields[p[0]], place + [p[0]], p[1..]);
    }
  }

  // ---- the second upgrade ----

  /** What the upgrade relies on in the shipped template. */
  predicate TemplateShape(t: Item) {
    && t.Table?
    && Look(t, SERVER).Some? && Look(t, SERVER).value.Table?
    && Look(t, VERSION).Some? && Look(t, RENDITIONS).Some?
    && Look(t, VIDEO_DIR).Some? && Look(t, MUSIC_DIR).Some? && Look(t, MUSIC_DIR) != Some(Doc.Text(PLACEHOLDER))
  }

  lemma FixArgsFits(t: Item, r: Item, oldVersion: string)
    requires TemplateShape(t) && Fits(t, r, [])
    ensures Fits(t, FixArgs(r, oldVersion), [])
  {
    hide FixBlock, FixEntry, Look, ReplaceAt, Fits;
    var found := Look(r, RENDITIONS);
    if found.Some? {
      var new' := FixRenditions(found.value, oldVersion);
      if new'.Table? || new'.Inline? || new'.Text? || new'.Number? || new'.Flag? {
        ReplaceSame(r, RENDITIONS);
      } else {
        assert [] + RENDITIONS == RENDITIONS && RENDITIONS[0] != VERSION[0];
        FitsReplaced(t, r, [], RENDITIONS, new');
      }
    }
  }

  /** The folder that the repair takes over is not the placeholder. */
  lemma MusicDirIsReal(t: Item, r: Item)
    requires TemplateShape(t) && Fits(t, r, []) && Look(r, FETCH_VIDEO).Some?
    ensures TextOr(Server(r, "fetch_music", "output_dir"), "") != PLACEHOLDER
  {
    hide Fits;
    NotInlineMusic(t, r);
    if Look(r, MUSIC_DIR) == Some(Doc.Text(PLACEHOLDER)) {
      assert [] + MUSIC_DIR == MUSIC_DIR && MUSIC_DIR[1] != VERSION[1];
      FitsAt(t, r, [], MUSIC_DIR);
      PlaceholderFits(Look(t, MUSIC_DIR).value);
    }
  }

  lemma PlaceholderFits(item: Item)
    ensures Fits(item, Doc.Text(PLACEHOLDER), MUSIC_DIR) ==> item == Doc.Text(PLACEHOLDER)
  {
    assert MUSIC_DIR[1] != VERSION[1];
  }

  lemma NotInlineMusic(t: Item, r: Item)
    requires TemplateShape(t) && Fits(t, r, []) && Look(r, FETCH_VIDEO).Some?
    ensures Server(r, "fetch_music", "output_dir") == Look(r, MUSIC_DIR)
  {
    hide Fits, Look, TextOr;
    var music := ["server", "fetch_music"];
    assert music + ["output_dir"] == MUSIC_DIR && [] + music == music && music[1] != VERSION[1];
    LookBelow(t, music, "output_dir");
    LookBelow(r, music, "output_dir");
    LookTwo(r, "server", "fetch_video");
    LookTwo(r, "server", "fetch_music");
    MusicKeys(t, r);
    FitsAt(t, r, [], music);
    TableOrLeaf(Look(t, music).value, Look(r, music).value, music);
  }

  lemma MusicKeys(t: Item, r: Item)
    requires TemplateShape(t) && Fits(t, r, []) && Look(r, FETCH_VIDEO).Some?
    ensures Look(t, ["server", "fetch_music"]).Some? && Look(r, ["server", "fetch_music"]).Some?
  {
    hide Fits, Look;
    var music := ["server", "fetch_music"];
    assert music + ["output_dir"] == MUSIC_DIR && [] + SERVER == SERVER;
    LookBelow(t, music, "output_dir");
    LookTwo(t, "server", "fetch_music");
    LookTwo(r, "server", "fetch_music");
    LookTwo(r, "server", "fetch_video");
    LookOne(t, "server");
    LookOne(r, "server");
    FitsAt(t, r, [], SERVER);
    SameKeys(Look(t, SERVER).value, Look(r, SERVER).value, SERVER);
  }

  lemma TableOrLeaf(item: Item, r: Item, place: seq<string>)
    requires Fits(item, r, place) && place != VERSION && item.Table?
    ensures !r.Inline?
  {
  }

  lemma FixVideoFits(t: Item, r: Item, oldVersion: string)
    requires TemplateShape(t) && Fits(t, r, [])
    ensures Fits(t, FixVideo(r, oldVersion), [])
  {
    hide Fits, Server, TextOr, VideoDirMissing, Blank, Look, ReplaceAt;
    var section := Look(r, FETCH_VIDEO);
    if section.Some? && section.value.Table? {
      MusicDirIsReal(t, r);
      var new' := Doc.Text(TextOr(Server(r, "fetch_music", "output_dir"), ""));
      VideoKeys(t, r);
      ReplaceBelow(r, FETCH_VIDEO, "output_dir", new');
      assert FETCH_VIDEO + ["output_dir"] == VIDEO_DIR && [] + VIDEO_DIR == VIDEO_DIR && VIDEO_DIR[1] != VERSION[1];
      FitsReplaced(t, r, [], VIDEO_DIR, new');
    }
  }

  lemma VideoKeys(t: Item, r: Item)
    requires TemplateShape(t) && Fits(t, r, []) && Look(r, FETCH_VIDEO).Some? && Look(r, FETCH_VIDEO).value.Table?
    ensures "output_dir" in Look(r, FETCH_VIDEO).value.fields
  {
    hide Fits, Look;
    assert FETCH_VIDEO + ["output_dir"] == VIDEO_DIR && [] + FETCH_VIDEO == FETCH_VIDEO && FETCH_VIDEO[1] != VERSION[1];
    LookBelow(t, FETCH_VIDEO, "output_dir");
    FitsAt(t, r, [], FETCH_VIDEO);
    SameKeys(Look(t, FETCH_VIDEO).value, Look(r, FETCH_VIDEO).value, FETCH_VIDEO);
  }

  lemma SameKeys(item: Item, r: Item, place: seq<string>)
    requires Fits(item, r, place) && place != VERSION && item.Table? && r.Table?
    ensures r.fields.Keys == item.fields.Keys
    ensures forall k :: k in r.fields ==> Fits(item.fields[k], r.fields[k], place + [k])
  {
  }

  lemma SetVersionFits(t: Item, r: Item, binary: string)
    requires TemplateShape(t) && Fits(t, r, [])
    ensures Fits(t, SetVersion(r, binary), [])
  {
    hide Fits, Look, ReplaceAt;
    var server := Look(r, SERVER);
    if server.Some? && server.value.Table? {
      assert SERVER + ["version"] == VERSION && [] + VERSION == VERSION && [] + SERVER == SERVER;
      FitsAt(t, r, [], SERVER);
      SameKeys(Look(t, SERVER).value, server.value, SERVER);
      LookBelow(t, SERVER, "version");
      ReplaceBelow(r, SERVER, "version", Doc.Text(binary));
      FitsReplaced(t, r, [], VERSION, Doc.Text(binary));
    }
  }

  lemma SameTables(a: map<string, Item>, b: map<string, Item>)
    requires a.Keys == b.Keys && forall k :: k in a ==> ValueOf(a[k]) == ValueOf(b[k])
    ensures ValueOf(Table(a)) == ValueOf(Table(b))
  {
    assert ValueOf(Table(a)).fields == ValueOf(Table(b)).fields;
  }

  /** The server sections of a document and of what merging it again gives have the same values once both
      are stamped with the same version. */
  lemma StableServer(item: Item, r: Item, binary: string)
    requires Fits(item, r, SERVER) && item.Table? && "version" in item.fields
    ensures var again := Overlay(item, ValueOf(r), SERVER);
            && again.Table? == r.Table?
            && (if r.Table? then ValueOf(Table(again.fields["version" := Doc.Text(binary)]))
               == ValueOf(Table(r.fields["version" := Doc.Text(binary)]))
                else ValueOf(again) == ValueOf(r))
  {
    if r.Table? {
      hide Overlay, ValueOf, Fits;
      SameKeys(item, r, SERVER);
      ValueOfTable(r);
      var v := ValueOf(r);
      OverlayTable(item, v, SERVER);
      var again := Overlay(item, v, SERVER);
      forall k | k in r.fields && k != "version" ensures ValueOf(again.fields[k]) == ValueOf(r.fields[k]) {
        assert (SERVER + [k])[1] != VERSION[1];
        FitIsStable(item.fields[k], r.fields[k], SERVER + [k]);
      }
      SameTables(again.fields["version" := Doc.Text(binary)], r.fields["version" := Doc.Text(binary)]);
    } else {
      StableLeaf(item, r, SERVER);
    }
  }

  lemma ValueOfTable(r: Item)
    requires r.Table?
    ensures ValueOf(r).Table? && ValueOf(r).fields.Keys == r.fields.Keys
    ensures forall k :: k in r.fields ==> ValueOf(r).fields[k] == ValueOf(r.fields[k])
  {
  }

  /** The server section alone carries the version. */
  lemma SetVersionAtServer(doc: Item, binary: string)
    requires doc.Table? && "server" in doc.fields
    ensures SetVersion(doc, binary) ==
            match doc.fields["server"]
            case Table(fields) => Table(doc.fields["server" := Table(fields["version" := Doc.Text(binary)])])
            case _ => doc
  {
    hide Look, ReplaceAt;
    LookOne(doc, "server");
  }

  lemma StableDocument(t: Item, r: Item, binary: string)
    requires TemplateShape(t) && Fits(t, r, []) && r.Table?
    ensures ValueOf(SetVersion(Overlay(t, ValueOf(r), []), binary)) == ValueOf(SetVersion(r, binary))
  {
    hide Overlay, ValueOf, Fits, SetVersion;
    ShapeHasServer(t);
    SameKeys(t, r, []);
    ValueOfTable(r);
    var v := ValueOf(r);
    OverlayTable(t, v, []);
    var again := Overlay(t, v, []);
    forall k | k in r.fields && k != "server" ensures ValueOf(again.fields[k]) == ValueOf(r.fields[k]) {
      assert ([] + [k])[0] != VERSION[0];
      FitIsStable(t.fields[k], r.fields[k], [] + [k]);
    }
    assert [] + ["server"] == SERVER;
    StableServer(t.fields["server"], r.fields["server"], binary);
    SetVersionAtServer(again, binary);
    SetVersionAtServer(r, binary);
    SameTables(SetVersion(again, binary).fields, SetVersion(r, binary).fields);
  }

  lemma ShapeHasServer(t: Item)
    requires TemplateShape(t)
    ensures t.Table? && "server" in t.fields && t.fields["server"].Table? && "version" in t.fields["server"].fields
  {
    hide Look, ReplaceAt;
    LookOne(t, "server");
    LookTwo(t, "server", "version");
  }

  lemma UpgradedFits(t: Item, user: Item, binary: string)
    requires TemplateShape(t) && user.Table? && IsValue(user)
    ensures Fits(t, Upgraded(t, user, binary), [])
  {
    hide Fits, FixArgs, FixVideo, SetVersion, Overlay;
    var oldVersion := VersionIn(user);
    OverlayFits(t, user, []);
    FixArgsFits(t, Overlay(t, user, []), oldVersion);
    FixVideoFits(t, FixArgs(Overlay(t, user, []), oldVersion), oldVersion);
    SetVersionFits(t, FixVideo(FixArgs(Overlay(t, user, []), oldVersion), oldVersion), binary);
  }

  /** The upgraded config records the binary's version, so that no other upgrade is called for. */
  lemma UpgradeSettles(t: Item, user: Item, binary: string)
    requires TemplateShape(t) && user.Table? && IsValue(user)
    requires "server" in user.fields ==> user.fields["server"].Table?
    ensures Upgraded(t, user, binary).Table? && VersionIn(ValueOf(Upgraded(t, user, binary))) == binary
    ensures !ConfigNeedsUpgrade(ValueOf(Upgraded(t, user, binary)), binary)
  {
    hide FixArgs, FixVideo, Overlay, Fits;
    var oldVersion := VersionIn(user);
    var r := Overlay(t, user, []);
    ShapeHasServer(t);
    ServerIsTable(t, user);
    FixArgsKeepsServer(r, oldVersion);
    FixVideoKeepsServer(FixArgs(r, oldVersion), oldVersion);
    var fixed := FixVideo(FixArgs(r, oldVersion), oldVersion);
    SetVersionAtServer(fixed, binary);
    StampIsRead(fixed, binary);
  }

  lemma StampIsRead(doc: Item, binary: string)
    requires HasServer(doc)
    ensures var server := Table(doc.fields["server"].fields["version" := Doc.Text(binary)]);
            VersionIn(ValueOf(Table(doc.fields["server" := server]))) == binary
  {
    hide ValueOf;
    var server := Table(doc.fields["server"].fields["version" := Doc.Text(binary)]);
    ValueOfTable(Table(doc.fields["server" := server]));
    ValueOfTable(server);
    ValueOfText(binary);
  }

  lemma ValueOfText(s: string)
    ensures ValueOf(Doc.Text(s)) == Doc.Text(s)
  {
  }

  predicate HasServer(doc: Item) {
    doc.Table? && "server" in doc.fields && doc.fields["server"].Table?
  }

  lemma ServerIsTable(t: Item, user: Item)
    requires HasServer(t) && user.Table? && ("server" in user.fields ==> user.fields["server"].Table?)
    ensures HasServer(Overlay(t, user, []))
  {
    assert [] + ["server"] == ["server"];
  }

  lemma FixArgsKeepsServer(doc: Item, oldVersion: string)
    requires HasServer(doc)
    ensures HasServer(FixArgs(doc, oldVersion))
  {
    hide FixRenditions, Look, ReplaceAt;
    LookTwo(doc, "media", "video_transcode_renditions");
  }

  lemma FixVideoKeepsServer(doc: Item, oldVersion: string)
    requires HasServer(doc)
    ensures HasServer(FixVideo(doc, oldVersion))
  {
    hide VideoDirMissing, Server, Look, ReplaceAt;
    LookTwo(doc, "server", "fetch_video");
  }

  /** A second upgrade by the same binary, when it is newer than the gates of the repairs, leaves every
      value as the first one left it, whatever the user's config was. */
  lemma SecondUpgradeChangesNothing(t: Item, user: Item, binary: string)
    requires TemplateShape(t) && user.Table? && IsValue(user)
    requires "server" in user.fields ==> user.fields["server"].Table?
    requires TupleGreater(Tuple(binary), ARGS_GATE_2)
    ensures var once := Upgraded(t, user, binary);
            ValueOf(Upgraded(t, ValueOf(once), binary)) == ValueOf(once)
  {
    hide FixRenditions, VideoDirMissing, Overlay, Fits, VersionIn, SetVersion, Upgraded, ValueOf, Tuple;
    var once := Upgraded(t, user, binary);
    UpgradedFits(t, user, binary);
    UpgradeSettles(t, user, binary);
    StableDocument(t, once, binary);
    StampedTwice(t, user, binary);
    GatesShut(t, once, binary);
  }

  lemma GatesShut(t: Item, once: Item, binary: string)
    requires TupleGreater(Tuple(binary), ARGS_GATE_2) && VersionIn(ValueOf(once)) == binary
    ensures Upgraded(t, ValueOf(once), binary) == SetVersion(Overlay(t, ValueOf(once), []), binary)
  {
    hide VideoDirMissing, Overlay, VersionIn, SetVersion, ValueOf, Tuple;
    ShutForArgs(Overlay(t, ValueOf(once), []), binary);
  }

  lemma ShutForArgs(doc: Item, version: string)
    requires TupleGreater(Tuple(version), ARGS_GATE_2)
    ensures FixArgs(doc, version) == doc
  {
    hide Tuple;
    var found := Look(doc, RENDITIONS);
    if found.Some? {
      assert FixRenditions(found.value, version) == found.value;
      ReplaceSame(doc, RENDITIONS);
    }
  }

  lemma StampedTwice(t: Item, user: Item, binary: string)
    requires TemplateShape(t) && user.Table?
    ensures SetVersion(Upgraded(t, user, binary), binary) == Upgraded(t, user, binary)
  {
    hide FixArgs, FixVideo, Overlay;
    var doc := FixVideo(FixArgs(Overlay(t, user, []), VersionIn(user)), VersionIn(user));
    if Look(doc, SERVER).Some? && Look(doc, SERVER).value.Table? {
      var stamped := Table(Look(doc, SERVER).value.fields["version" := Doc.Text(binary)]);
      ReplaceLook(doc, SERVER, stamped, stamped);
      assert stamped.fields["version" := Doc.Text(binary)] == stamped.fields;
    }
  }
}
