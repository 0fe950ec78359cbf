/** What the repairs of a config upgrade do to a document, seen from every address of it: which values they
    change, and that everything else stays.
    Models the effect of `fix_stale_video_transcode_args`, `fix_missing_fetch_video_output_dir` and the version
    stamp of `upgrade_config` in grimoire/src/config.rs. */
module ConfigRepair {
  import opened Wrappers
  import opened Text
  import opened Documents
  import opened ConfigMerge
  import opened Upgrades
  import opened ConfigUpgrade

  /** Two nodes are the same, but for what is below them. */
  ghost predicate SameNode(a: Item, b: Item) {
    match a
    case Text(_) => a == b
    case Number(_) => a == b
    case Flag(_) => a == b
    case List(_) => b.List?
    case Inline(_) => b.Inline?
    case Table(_) => b.Table?
    case Tables(_) => b.Tables?
  }

  /** Both documents have the same at an address: nothing, or the same node. */
  ghost predicate SameAt(before: Item, after: Item, address: seq<Step>) {
    match At(before, address)
    case None => At(after, address).None?
    case Some(node) => At(after, address).Some? && SameNode(node, At(after, address).value)
  }

  ghost predicate IsBlockTable(doc: Item, address: seq<Step>) {
    At(doc, address).Some? && At(doc, address).value.Table?
  }

  // ---- the transcode arguments ----

  /** A stock string of a time that the config's version does not exclude. */
  ghost predicate Stale(args: string, oldVersion: string) {
    || (args == STALE_ARGS_PRE_0_3_10 && !TupleGreater(Tuple(oldVersion), (0, 3, 9)))
    || (args == STALE_ARGS_0_3_10_TO_0_3_21 && !TupleGreater(Tuple(oldVersion), (0, 3, 21)))
  }

  const MEDIA: seq<Step> := [Key("media")]
  const ARRAY: seq<Step> := [Key("media"), Key("video_transcode_renditions")]

  /** A rendition called compatible whose arguments are such a string. */
  ghost predicate StaleEntry(entry: Item, oldVersion: string) {
    && At(entry, [Key("label")]) == Some(Doc.Text("compatible"))
    && exists args :: At(entry, [Key("args")]) == Some(Doc.Text(args)) && Stale(args, oldVersion)
  }

  /** In an array of renditions in either style: the arguments of such a rendition. */
  ghost predicate StaleArgsIn(renditions: Item, oldVersion: string, address: seq<Step>) {
    && |address| == 2 && address[0].Index? && address[1] == Key("args")
    && var entry := At(renditions, address[..1]);
       && entry.Some? && StaleEntry(entry.value, oldVersion)
       && ((renditions.Tables? && entry.value.Table?) || (renditions.List? && entry.value.Inline?))
  }

  /** The same in a whole config. */
  ghost predicate StaleArgsAt(doc: Item, oldVersion: string, address: seq<Step>) {
    && ARRAY <= address && IsBlockTable(doc, []) && IsBlockTable(doc, MEDIA) && At(doc, ARRAY).Some?
    && StaleArgsIn(At(doc, ARRAY).value, oldVersion, address[2..])
  }

  /** The stale arguments are the current ones afterwards, and nothing else has changed. */
  ghost predicate ArgsRepaired(before: Item, after: Item, oldVersion: string) {
    forall address: seq<Step> ::
      if StaleArgsAt(before, oldVersion, address) then At(after, address) == Some(Doc.Text(CURRENT_ARGS))
      else SameAt(before, after, address)
  }

  // ---- places and addresses ----

  function Keys(place: seq<string>): seq<Step> {
    seq(|place|, i requires 0 <= i < |place| => Key(place[i]))
  }

  lemma {:induction false} LookIsAt(item: Item, place: seq<string>)
    ensures Look(item, place).Some? <==>
            && At(item, Keys(place)).Some?
            && forall k :: 0 <= k < |place| ==> IsBlockTable(item, Keys(place)[..k])
    ensures Look(item, place).Some? ==> At(item, Keys(place)) == Look(item, place)
  {
    var steps := Keys(place);
    if place != [] {
      assert steps[1..] == Keys(place[1..]);
      if item.Table? && place[0] in item.fields {
        var child := item.fields[place[0]];
        LookIsAt(child, place[1..]);
        forall k | 0 < k <= |place| ensures At(item, steps[..k]) == At(child, Keys(place[1..])[..k - 1]) {
          assert steps[..k][1..] == Keys(place[1..])[..k - 1];
        }
        assert steps[..|place|] == steps && Keys(place[1..])[..|place| - 1] == Keys(place[1..]);
        assert steps[..0] == [];
        assert forall k :: 0 <= k < |place| - 1 ==>
               IsBlockTable(child, Keys(place[1..])[..k]) == IsBlockTable(item, steps[..k + 1]);
      } else {
        assert steps[..0] == [];
      }
    }
  }

  /** A replaced item, seen from every address: at and below its place the new item, on the way to it block
      tables, elsewhere what was there. */
  lemma {:induction false} ReplacedAt(item: Item, place: seq<string>, new': Item, address: seq<Step>)
    requires Look(item, place).Some?
    ensures Keys(place) <= address ==> At(ReplaceAt(item, place, new'), address) == At(new', address[|place|..])
    ensures address < Keys(place) ==> IsBlockTable(item, address) && IsBlockTable(ReplaceAt(item, place, new'), address)
    ensures !(Keys(place) <= address) && !(address <= Keys(place)) ==>
              At(ReplaceAt(item, place, new'), address) == At(item, address)
  {
    var steps := Keys(place);
    if place != [] {
      assert steps[1..] == Keys(place[1..]) && steps[0] == Key(place[0]);
      if address != [] && address[0] == steps[0] {
        ReplacedAt(item.fields[place[0]], place[1..], new', address[1..]);
        assert steps == [steps[0]] + steps[1..] && address == [address[0]] + address[1..];
        if steps <= address {
          assert steps[1..] <= address[1..] && address[1..][|place| - 1..] == address[|place|..];
        }
      }
    }
  }

  lemma {:induction false} AtBelow(doc: Item, a: seq<Step>, b: seq<Step>)
    ensures At(doc, a + b) == match At(doc, a) case None => None case Some(node) => At(node, b)
  {
    if a == [] {
      assert a + b == b;
    } else {
      assert (a + b)[1..] == a[1..] + b && (a + b)[0] == a[0];
      match (doc, a[0])
      case (List(items), Index(i)) => if i < |items| { AtBelow(items[i], a[1..], b); }
      case (Tables(rows), Index(i)) => if i < |rows| { AtBelow(rows[i], a[1..], b); }
      case (Inline(inner), Key(k)) => if k in inner { AtBelow(inner[k], a[1..], b); }
      case (Table(fields), Key(k)) => if k in fields { AtBelow(fields[k], a[1..], b); }
      case _ =>
    }
  }

  lemma SameAtItself(doc: Item, address: seq<Step>)
    ensures SameAt(doc, doc, address)
  {
  }

  // ---- the repair of the arguments ----

  lemma StaleMeans(args: string, oldVersion: string)
    ensures IsStale(args, oldVersion) <==> Stale(args, oldVersion)
  {
    hide Tuple;
  }

  /** A table, written in a block or inline. */
  ghost function TableOf(fields: map<string, Item>, inline: bool): Item {
    if inline then Inline(fields) else Table(fields)
  }

  lemma EntryIsStale(fields: map<string, Item>, oldVersion: string, inline: bool)
    ensures StaleEntry(TableOf(fields, inline), oldVersion) <==> NeedsArgs(fields, oldVersion)
  {
    hide Stale, IsStale;
    var entry := TableOf(fields, inline);
    OneKeyAt(fields, inline, "label");
    OneKeyAt(fields, inline, "args");
    hide TableOf, At;
    if "args" in fields && fields["args"].Text? {
      var args := fields["args"].text;
      StaleMeans(args, oldVersion);
      assert At(entry, [Key("args")]) == Some(Doc.Text(args));
    }
  }

  lemma OneKeyAt(fields: map<string, Item>, inline: bool, key: string)
    ensures At(TableOf(fields, inline), [Key(key)]) == if key in fields then Some(fields[key]) else None
  {
    assert [Key(key)][1..] == [];
  }

  /** One rendition: its arguments are replaced if they are stale and it is called compatible. */
  lemma EntryRepaired(fields: map<string, Item>, oldVersion: string, address: seq<Step>, inline: bool)
    ensures var before, after := TableOf(fields, inline), TableOf(FixFields(fields, oldVersion), inline);
            if address == [Key("args")] && StaleEntry(before, oldVersion)
            then At(after, address) == Some(Doc.Text(CURRENT_ARGS)) else SameAt(before, after, address)
  {
    hide NeedsArgs, StaleEntry;
    EntryIsStale(fields, oldVersion, inline);
    var before, after := TableOf(fields, inline), TableOf(FixFields(fields, oldVersion), inline);
    if NeedsArgs(fields, oldVersion) && address != [] && address[0] == Key("args") {
      assert address == [Key("args")] + address[1..];
      assert fields["args"].Text? by { ArgsAreText(fields, oldVersion); }
      assert At(before, address) == At(fields["args"], address[1..]);
      assert At(after, address) == At(Doc<string>.Text(CURRENT_ARGS), address[1..]);
    }
  }

  lemma ArgsAreText(fields: map<string, Item>, oldVersion: string)
    requires NeedsArgs(fields, oldVersion)
    ensures "args" in fields && fields["args"].Text?
  {
  }

  lemma RenditionsRepaired(item: Item, oldVersion: string, address: seq<Step>)
    ensures if StaleArgsIn(item, oldVersion, address)
            then At(FixRenditions(item, oldVersion), address) == Some(Doc.Text(CURRENT_ARGS))
            else SameAt(item, FixRenditions(item, oldVersion), address)
  {
    hide StaleEntry, FixFields;
    if address != [] && address[0].Index? && (item.Tables? || item.List?) {
      var i, rows := address[0].index, if item.Tables? then item.rows else item.items;
      assert address == [address[0]] + address[1..];
      if i < |rows| {
        assert [Index(i)][1..] == [];
        assert |address| == 2 ==> address[1..] == [address[1]];
        AtBelow(item, [Index(i)], address[1..]);
        AtBelow(FixRenditions(item, oldVersion), [Index(i)], address[1..]);
        if item.Tables? && rows[i].Table? {
          EntryRepaired(rows[i].fields, oldVersion, address[1..], false);
        } else if item.List? && rows[i].Inline? {
          EntryRepaired(rows[i].inner, oldVersion, address[1..], true);
        }
      }
    }
  }

  lemma ArgsAreRepaired(doc: Item, oldVersion: string)
    ensures ArgsRepaired(doc, FixArgs(doc, oldVersion), oldVersion)
  {
    hide FixRenditions, Stale, Look, ReplaceAt, StaleArgsIn;
    var found, after := Look(doc, RENDITIONS), FixArgs(doc, oldVersion);
    assert Keys(RENDITIONS) == ARRAY;
    LookIsAt(doc, RENDITIONS);
    assert ARRAY[..0] == [] && ARRAY[..1] == MEDIA;
    forall address: seq<Step>
      ensures if StaleArgsAt(doc, oldVersion, address) then At(after, address) == Some(Doc.Text(CURRENT_ARGS))
              else SameAt(doc, after, address)
    {
      if found.Some? {
        var new' := FixRenditions(found.value, oldVersion);
        ReplacedAt(doc, RENDITIONS, new', address);
        if ARRAY <= address {
          assert address == ARRAY + address[2..];
          AtBelow(doc, ARRAY, address[2..]);
          RenditionsRepaired(found.value, oldVersion, address[2..]);
        }
      }
    }
  }

  // ---- one entry of a table ----

  /** The text stands at this place afterwards, and nothing else has changed. */
  ghost predicate TextSet(before: Item, after: Item, spot: seq<Step>, text: string) {
    forall address: seq<Step> ::
      if address == spot then At(after, address) == Some(Doc.Text(text))
      else if spot <= address then At(after, address).None?
      else SameAt(before, after, address)
  }

  lemma EntrySet(doc: Item, place: seq<string>, key: string, text: string)
    requires Look(doc, place).Some? && Look(doc, place).value.Table?
    ensures var after := ReplaceAt(doc, place, Table(Look(doc, place).value.fields[key := Doc.Text(text)]));
            TextSet(doc, after, Keys(place) + [Key(key)], text)
  {
    hide Look, ReplaceAt;
    var fields := Look(doc, place).value.fields;
    var new' := Table(fields[key := Doc.Text(text)]);
    var after, way := ReplaceAt(doc, place, new'), Keys(place);
    var spot := way + [Key(key)];
    LookIsAt(doc, place);
    forall address: seq<Step>
      ensures if address == spot then At(after, address) == Some(Doc.Text(text))
              else if spot <= address then At(after, address).None? else SameAt(doc, after, address)
    {
      ReplacedAt(doc, place, new', address);
      if way <= address {
        var rest := address[|place|..];
        assert address == way + rest;
        AtBelow(doc, way, rest);
        KeySet(fields, key, text, rest);
        assert spot <= address <==> [Key(key)] <= rest;
      }
    }
  }

  lemma KeySet(fields: map<string, Item>, key: string, text: string, address: seq<Step>)
    ensures var before, after := Table(fields), Table(fields[key := Doc.Text(text)]);
            if address == [Key(key)] then At(after, address) == Some(Doc.Text(text))
            else if [Key(key)] <= address then At(after, address).None? else SameAt(before, after, address)
  {
    if address != [] && address[0] == Key(key) {
      assert address == [Key(key)] + address[1..];
      assert At(Table(fields[key := Doc.Text(text)]), address) == At(Doc<string>.Text(text), address[1..]);
    }
  }

  // ---- the video fetch folder and the version ----

  lemma {:induction false} BlankIs(s: string)
    ensures Blank(s) <==> AllSpaces(s)
  {
    if s != "" && IsSpace(s[0]) {
      BlankIs(s[1..]);
      assert s == [s[0]] + s[1..];
    }
  }

  const SERVER_AT: seq<Step> := [Key("server")]
  const VIDEO_AT: seq<Step> := [Key("server"), Key("fetch_video")]

  function VideoEntry(key: string): seq<Step> { [Key("server"), Key("fetch_video"), Key(key)] }
  function MusicEntry(key: string): seq<Step> { [Key("server"), Key("fetch_music"), Key(key)] }

  /** Fetching videos is on and has no folder, in a config of 0.3.12 or older, and fetching music has this
      one. */
  ghost predicate FolderMissing(doc: Item, oldVersion: string, music: string) {
    && !TupleGreater(Tuple(oldVersion), (0, 3, 12))
    && At(doc, VideoEntry("enabled")) == Some(Flag(true))
    && (forall folder :: At(doc, VideoEntry("output_dir")) == Some(Doc.Text(folder)) ==> AllSpaces(folder))
    && At(doc, MusicEntry("output_dir")) == Some(Doc.Text(music)) && !AllSpaces(music)
    && IsBlockTable(doc, []) && IsBlockTable(doc, SERVER_AT) && IsBlockTable(doc, VIDEO_AT)
  }

  lemma ChildAt(item: Item, key: string, rest: seq<Step>)
    ensures At(item, [Key(key)] + rest) ==
            match Child(Some(item), key) case None => None case Some(child) => At(child, rest)
  {
    assert ([Key(key)] + rest)[1..] == rest;
  }

  lemma ServerIsAt(doc: Item, section: string, key: string)
    ensures Server(doc, section, key) == At(doc, [Key("server"), Key(section), Key(key)])
  {
    ChildAt(doc, "server", [Key(section), Key(key)]);
    assert [Key("server")] + [Key(section), Key(key)] == [Key("server"), Key(section), Key(key)];
    var server := Child(Some(doc), "server");
    if server.Some? {
      ChildAt(server.value, section, [Key(key)]);
      assert [Key(section)] + [Key(key)] == [Key(section), Key(key)];
      var child := Child(server, section);
      if child.Some? {
        ChildAt(child.value, key, []);
        assert [Key(key)] + [] == [Key(key)];
      }
    }
  }

  /** The repair takes over the folder of the music where there is none, and does nothing otherwise. */
  lemma VideoIsRepaired(doc: Item, oldVersion: string)
    ensures forall music :: FolderMissing(doc, oldVersion, music) ==>
              TextSet(doc, FixVideo(doc, oldVersion), VideoEntry("output_dir"), music)
    ensures (forall music :: !FolderMissing(doc, oldVersion, music)) ==> FixVideo(doc, oldVersion) == doc
  {
    hide Look, ReplaceAt, TextSet, Server, At, Tuple, Blank, AllSpaces;
    ServerIsAt(doc, "fetch_video", "enabled");
    ServerIsAt(doc, "fetch_video", "output_dir");
    ServerIsAt(doc, "fetch_music", "output_dir");
    var video, music := TextOr(Server(doc, "fetch_video", "output_dir"), ""),
      TextOr(Server(doc, "fetch_music", "output_dir"), "");
    BlankIs("");
    BlankIs(video);
    BlankIs(music);
    EmptyIsBlank();
    FetchVideoAt(doc);
    assert FolderMissing(doc, oldVersion, music) <==>
             && VideoDirMissing(doc) && AtMost(oldVersion, VIDEO_GATE)
             && Look(doc, FETCH_VIDEO).Some? && Look(doc, FETCH_VIDEO).value.Table?;
    if Look(doc, FETCH_VIDEO).Some? && Look(doc, FETCH_VIDEO).value.Table? {
      EntrySet(doc, FETCH_VIDEO, "output_dir", music);
      assert Keys(FETCH_VIDEO) + [Key("output_dir")] == VideoEntry("output_dir");
    }
  }

  lemma EmptyIsBlank()
    ensures AllSpaces("")
  {
  }

  lemma FetchVideoAt(doc: Item)
    ensures Look(doc, FETCH_VIDEO).Some? && Look(doc, FETCH_VIDEO).value.Table? <==>
            IsBlockTable(doc, []) && IsBlockTable(doc, SERVER_AT) && IsBlockTable(doc, VIDEO_AT)
  {
    hide Look;
    LookIsAt(doc, FETCH_VIDEO);
    assert Keys(FETCH_VIDEO) == VIDEO_AT && VIDEO_AT[..0] == [] && VIDEO_AT[..1] == SERVER_AT;
  }

  lemma VersionIsStamped(doc: Item, binary: string)
    ensures if IsBlockTable(doc, []) && IsBlockTable(doc, SERVER_AT)
            then TextSet(doc, SetVersion(doc, binary), [Key("server"), Key("version")], binary)
            else SetVersion(doc, binary) == doc
  {
    hide Look, ReplaceAt, TextSet;
    LookIsAt(doc, SERVER);
    assert Keys(SERVER) == SERVER_AT && SERVER_AT[..0] == [];
    if Look(doc, SERVER).Some? && Look(doc, SERVER).value.Table? {
      EntrySet(doc, SERVER, "version", binary);
      assert Keys(SERVER) + [Key("version")] == [Key("server"), Key("version")];
    }
  }

  /** The version that a config is taken to be of. */
  lemma VersionOf(doc: Item)
    ensures VersionIn(doc) ==
            match At(doc, [Key("server"), Key("version")]) {
              case Some(Text(version)) => version
              case _ => "0.0.0"
            }
  {
    ChildAt(doc, "server", [Key("version")]);
    assert [Key("server")] + [Key("version")] == [Key("server"), Key("version")];
    var server := Child(Some(doc), "server");
    if server.Some? {
      ChildAt(server.value, "version", []);
      assert [Key("version")] + [] == [Key("version")];
    }
  }

  // ---- the whole upgrade ----

  lemma ArgsRepairedAt(before: Item, after: Item, oldVersion: string, address: seq<Step>)
    requires ArgsRepaired(before, after, oldVersion)
    ensures if StaleArgsAt(before, oldVersion, address) then At(after, address) == Some(Doc.Text(CURRENT_ARGS))
            else SameAt(before, after, address)
  {
    hide StaleArgsAt, SameAt, At;
  }

  lemma TextSetAt(before: Item, after: Item, spot: seq<Step>, text: string, address: seq<Step>)
    requires TextSet(before, after, spot, text)
    ensures if address == spot then At(after, address) == Some(Doc.Text(text))
            else if spot <= address then At(after, address).None?
            else SameAt(before, after, address)
  {
    hide SameAt, At;
  }

  /** A repair of the arguments does not change what lies elsewhere. */
  lemma FolderAfterArgs(before: Item, after: Item, oldVersion: string, music: string)
    requires ArgsRepaired(before, after, oldVersion)
    ensures FolderMissing(after, oldVersion, music) <==> FolderMissing(before, oldVersion, music)
  {
    hide At, Tuple, StaleArgsAt, AllSpaces, ArgsRepaired;
    NotTheArgs(before, after, oldVersion, VideoEntry("enabled"));
    NotTheArgs(before, after, oldVersion, VideoEntry("output_dir"));
    NotTheArgs(before, after, oldVersion, MusicEntry("output_dir"));
    NotTheArgs(before, after, oldVersion, []);
    NotTheArgs(before, after, oldVersion, SERVER_AT);
    NotTheArgs(before, after, oldVersion, VIDEO_AT);
  }

  lemma NotTheArgs(before: Item, after: Item, oldVersion: string, address: seq<Step>)
    requires ArgsRepaired(before, after, oldVersion) && (address == [] || address[0] == Key("server"))
    ensures !StaleArgsAt(before, oldVersion, address) && SameAt(before, after, address)
  {
    hide StaleArgsIn, ArgsRepaired, SameAt, At;
    assert "server" != "media" by { assert "server"[0] != "media"[0]; }
    ArgsRepairedAt(before, after, oldVersion, address);
  }

  /** What the repair of the folder leaves at an address. */
  lemma VideoAt(before: Item, oldVersion: string, address: seq<Step>)
    ensures var after := FixVideo(before, oldVersion);
            && (forall music :: FolderMissing(before, oldVersion, music) && address == VideoEntry("output_dir") ==>
                  At(after, address) == Some(Doc.Text(music)))
            && ((forall music :: !FolderMissing(before, oldVersion, music)) ==> SameAt(before, after, address))
            && (!(VideoEntry("output_dir") <= address) ==> SameAt(before, after, address))
  {
    hide At, FolderMissing, FixVideo, SameAt, TextSet;
    VideoIsRepaired(before, oldVersion);
    var after := FixVideo(before, oldVersion);
    if music :| FolderMissing(before, oldVersion, music) {
      forall other | FolderMissing(before, oldVersion, other)
        ensures address == VideoEntry("output_dir") ==> At(after, address) == Some(Doc.Text(other))
      {
        TextSetAt(before, after, VideoEntry("output_dir"), other, address);
      }
      TextSetAt(before, after, VideoEntry("output_dir"), music, address);
    } else {
      SameAtItself(before, address);
    }
  }

  /** What the stamp leaves at an address. */
  lemma StampedAt(before: Item, binary: string, address: seq<Step>)
    requires IsBlockTable(before, []) && IsBlockTable(before, SERVER_AT)
    ensures var after, version := SetVersion(before, binary), [Key("server"), Key("version")];
            && (address == version ==> At(after, address) == Some(Doc.Text(binary)))
            && (!(version <= address) ==> SameAt(before, after, address))
  {
    hide At, SetVersion, SameAt, TextSet;
    VersionIsStamped(before, binary);
    TextSetAt(before, SetVersion(before, binary), [Key("server"), Key("version")], binary, address);
  }

  /** The folder for videos was missing and has been taken over there. */
  ghost predicate FolderAt(merged: Item, oldVersion: string, address: seq<Step>) {
    VideoEntry("output_dir") <= address && exists music :: FolderMissing(merged, oldVersion, music)
  }

  /** What an upgraded config holds at every address, given what the merge left: the binary's version, the
      current arguments in place of stale ones, the music's folder where that for videos was missing, and
      everywhere else what the merge left. */
  lemma UpgradedAt(template: Item, user: Item, binary: string, address: seq<Step>)
    requires var merged := Overlay(template, user, []);
             IsBlockTable(merged, []) && IsBlockTable(merged, SERVER_AT)
    ensures var merged, upgraded, oldVersion :=
              Overlay(template, user, []), Upgraded(template, user, binary), VersionIn(user);
            && (address == [Key("server"), Key("version")] ==> At(upgraded, address) == Some(Doc.Text(binary)))
            && (StaleArgsAt(merged, oldVersion, address) ==> At(upgraded, address) == Some(Doc.Text(CURRENT_ARGS)))
            && (forall music :: FolderMissing(merged, oldVersion, music) && address == VideoEntry("output_dir") ==>
                  At(upgraded, address) == Some(Doc.Text(music)))
            && (!([Key("server"), Key("version")] <= address) && !StaleArgsAt(merged, oldVersion, address)
                && !FolderAt(merged, oldVersion, address) ==>
                  SameAt(merged, upgraded, address))
  {
    hide At, StaleArgsAt, FolderMissing, FixArgs, FixVideo, SetVersion, Overlay, VersionIn, SameAt, ArgsRepaired;
    var merged, oldVersion := Overlay(template, user, []), VersionIn(user);
    var args := FixArgs(merged, oldVersion);
    var video := FixVideo(args, oldVersion);
    ArgsAreRepaired(merged, oldVersion);
    forall music ensures FolderMissing(args, oldVersion, music) <==> FolderMissing(merged, oldVersion, music) {
      FolderAfterArgs(merged, args, oldVersion, music);
    }
    TablesStay(merged, args, video, oldVersion);
    ArgsRepairedAt(merged, args, oldVersion, address);
    VideoAt(args, oldVersion, address);
    StampedAt(video, binary, address);
    Composed(merged, args, video, SetVersion(video, binary), address);
    StepsApart(merged, oldVersion, address);
  }

  lemma TablesStay(merged: Item, args: Item, video: Item, oldVersion: string)
    requires args == FixArgs(merged, oldVersion) && video == FixVideo(args, oldVersion)
    requires IsBlockTable(merged, []) && IsBlockTable(merged, SERVER_AT)
    ensures IsBlockTable(video, []) && IsBlockTable(video, SERVER_AT)
  {
    hide At, StaleArgsAt, FolderMissing, FixArgs, FixVideo, ArgsRepaired;
    ArgsAreRepaired(merged, oldVersion);
    NotTheArgs(merged, args, oldVersion, []);
    NotTheArgs(merged, args, oldVersion, SERVER_AT);
    VideoAt(args, oldVersion, []);
    VideoAt(args, oldVersion, SERVER_AT);
  }

  /** What stands at an address after a step stays there in the steps after it. */
  lemma Composed(merged: Item, args: Item, video: Item, upgraded: Item, address: seq<Step>)
    ensures SameAt(merged, args, address) && SameAt(args, video, address) && SameAt(video, upgraded, address) ==>
              SameAt(merged, upgraded, address)
    ensures SameAt(args, video, address) && SameAt(video, upgraded, address) ==>
              (At(args, address) == Some(Doc.Text(CURRENT_ARGS)) ==>
                 At(upgraded, address) == Some(Doc.Text(CURRENT_ARGS)))
    ensures SameAt(video, upgraded, address) ==>
              forall text :: At(video, address) == Some(Doc.Text(text)) ==>
                At(upgraded, address) == Some(Doc.Text(text))
  {
    hide At;
  }

  /** The three steps change different places. */
  lemma StepsApart(merged: Item, oldVersion: string, address: seq<Step>)
    ensures StaleArgsAt(merged, oldVersion, address) ==>
              !([Key("server"), Key("version")] <= address) && !(VideoEntry("output_dir") <= address)
    ensures VideoEntry("output_dir") <= address ==> !([Key("server"), Key("version")] <= address)
  {
    hide At, StaleArgsIn;
    assert "server" != "media" by { assert "server"[0] != "media"[0]; }
    assert "fetch_video" != "version" by { assert "fetch_video"[0] != "version"[0]; }
    if StaleArgsAt(merged, oldVersion, address) {
      assert address[0] == ARRAY[0] == Key("media");
    }
    if VideoEntry("output_dir") <= address {
      assert address[1] == Key("fetch_video");
    }
  }
}
