/** Pointing stored paths at the new place of the files: strings, documents, database rows and
    the transport index. */
module Remapping {
  import opened Wrappers
  import opened Paths
  import opened Documents
  import opened StorageTypes

  /** The first manifest entry that moves exactly this file. */
  function FindEntry(entries: seq<Entry>, p: Path): (found: Option<Entry>)
    ensures found.Some? ==> found.value in entries && found.value.source == p
    ensures found.None? ==> forall e :: e in entries ==> e.source != p
  {
    if entries == [] then None
    else if entries[0].source == p then Some(entries[0])
    else FindEntry(entries[1..], p)
  }

  /** Where a path points after the move: a moved file's own destination, otherwise the same place
      below the new root, otherwise nowhere else. */
  function Remap(p: Path, report: Report, entries: seq<Entry>): Path {
    match FindEntry(entries, p)
    case Some(e) => e.destination
    case None =>
      if report.source <= p then report.destination + p[|report.source|..] else p
  }

  /** The two roots are not nested and the manifest moves files from the one to the other. */
  ghost predicate Rooted(report: Report, entries: seq<Entry>) {
    && Separate(report.source, report.destination)
    && forall e :: e in entries ==> report.source <= e.source && report.destination <= e.destination
  }

  lemma RemapIdempotent(p: Path, report: Report, entries: seq<Entry>)
    requires Rooted(report, entries)
    ensures Remap(Remap(p, report, entries), report, entries) == Remap(p, report, entries)
  {
    var q := Remap(p, report, entries);
    if report.source <= q {
      if q == p && FindEntry(entries, p).None? {
      } else {
        CommonDescendant(report.source, report.destination, q);
      }
    }
  }

  /** Only paths at or below the source change, and every one of those lands below the destination. */
  lemma RemapTouchesOnlyTheSource(p: Path, report: Report, entries: seq<Entry>)
    requires Rooted(report, entries)
    ensures !(report.source <= p) ==> Remap(p, report, entries) == p
    ensures report.source <= p ==> report.destination <= Remap(p, report, entries)
    ensures !(report.source <= Remap(p, report, entries))
  {
    var q := Remap(p, report, entries);
    if report.source <= q && report.destination <= q {
      CommonDescendant(report.source, report.destination, q);
    }
  }

  function Rewrite(doc: Doc<Path>, report: Report, entries: seq<Entry>): Doc<Path> {
    MapTexts(doc, p => Remap(p, report, entries))
  }

  lemma RewriteIdempotent(doc: Doc<Path>, report: Report, entries: seq<Entry>)
    requires Rooted(report, entries)
    ensures Rewrite(Rewrite(doc, report, entries), report, entries) == Rewrite(doc, report, entries)
  {
    var f := (p: Path) => Remap(p, report, entries);
    forall p: Path ensures f(f(p)) == f(p) { RemapIdempotent(p, report, entries); }
    MapTextsIdempotent(doc, f);
  }

  /** A rewritten document has the addresses of the original; a string at an address is the remapped
      string, so one that was not below the source is untouched; every other leaf is untouched. */
  lemma RewriteAt(doc: Doc<Path>, report: Report, entries: seq<Entry>, address: seq<Step>)
    requires Rooted(report, entries)
    ensures At(Rewrite(doc, report, entries), address).None? <==> At(doc, address).None?
    ensures At(doc, address).Some? ==>
              var before, after := At(doc, address).value, At(Rewrite(doc, report, entries), address).value;
              && (before.Text? ==> after == Text(Remap(before.text, report, entries)))
              && (before.Text? && !(report.source <= before.text) ==> after == before)
              && (before.Number? || before.Flag? ==> after == before)
  {
    MapTextsAt(doc, p => Remap(p, report, entries), address);
    if At(doc, address).Some? && At(doc, address).value.Text? {
      RemapTouchesOnlyTheSource(At(doc, address).value.text, report, entries);
    }
  }

  // ---- database rows ----

  /** The new value of a cell; None when a column that must hold JSON does not. */
  function RewriteCell(cell: Cell, report: Report, entries: seq<Entry>): Option<Cell> {
    match cell
    case PathCell(p) => Some(PathCell(Remap(p, report, entries)))
    case JsonCell(Parsed(value)) => Some(JsonCell(Parsed(Rewrite(value, report, entries))))
    case JsonCell(Opaque(_)) => None
    case CheckpointCell(Parsed(value)) => Some(CheckpointCell(Parsed(Rewrite(value, report, entries))))
    case CheckpointCell(Opaque(text)) => Some(CheckpointCell(Opaque(Remap(text, report, entries))))
    case OtherCell(_) => Some(cell)
  }

  predicate Rewritable(rows: seq<Cell>) {
    forall i :: 0 <= i < |rows| ==> !(rows[i].JsonCell? && rows[i].json.Opaque?)
  }

  /** Every row of a database that can be rewritten, rewritten. */
  function RewriteRows(rows: seq<Cell>, report: Report, entries: seq<Entry>): (r: seq<Cell>)
    requires Rewritable(rows)
    ensures |r| == |rows|
  {
    seq(|rows|, i requires 0 <= i < |rows| =>
      var cell := RewriteCell(rows[i], report, entries);
      if cell.Some? then cell.value else rows[i])
  }

  /** Re-running the rewrite after a crash equals running it once. */
  lemma RewriteRowsIdempotent(rows: seq<Cell>, report: Report, entries: seq<Entry>)
    requires Rooted(report, entries) && Rewritable(rows)
    ensures Rewritable(RewriteRows(rows, report, entries))
    ensures RewriteRows(RewriteRows(rows, report, entries), report, entries)
            == RewriteRows(rows, report, entries)
  {
    var once := RewriteRows(rows, report, entries);
    forall i | 0 <= i < |rows|
      ensures !(once[i].JsonCell? && once[i].json.Opaque?)
      ensures RewriteCell(once[i], report, entries) == Some(once[i])
    {
      match rows[i]
      case PathCell(p) => RemapIdempotent(p, report, entries);
      case JsonCell(Parsed(value)) => RewriteIdempotent(value, report, entries);
      case JsonCell(Opaque(_)) => assert false;
      case CheckpointCell(Parsed(value)) => RewriteIdempotent(value, report, entries);
      case CheckpointCell(Opaque(text)) => RemapIdempotent(text, report, entries);
      case OtherCell(_) =>
    }
    var twice := RewriteRows(once, report, entries);
    assert forall i :: 0 <= i < |rows| ==> twice[i] == once[i];
  }

  /** The paths that a cell holds. */
  function CellPaths(cell: Cell): set<Path> {
    match cell
    case PathCell(p) => {p}
    case JsonCell(Parsed(value)) => Texts(value)
    case CheckpointCell(Parsed(value)) => Texts(value)
    case CheckpointCell(Opaque(text)) => {text}
    case _ => {}
  }

  lemma RewriteCellFixes(cell: Cell, report: Report, entries: seq<Entry>)
    requires Rooted(report, entries) && !(cell.JsonCell? && cell.json.Opaque?)
    ensures RewriteCell(cell, report, entries) == Some(cell)
            <==> NamesNothing(CellPaths(cell), report.source)
  {
    if (cell.JsonCell? || cell.CheckpointCell?) && cell.json.Parsed? {
      DocumentFixes(cell.json.value, report, entries);
      assert CellPaths(cell) == Texts(cell.json.value);
      assert RewriteCell(cell, report, entries)
             == Some(cell.(json := Parsed(Rewrite(cell.json.value, report, entries))));
    } else if cell.PathCell? {
      RemapTouchesOnlyTheSource(cell.path, report, entries);
      assert cell.path in CellPaths(cell);
    } else if cell.CheckpointCell? {
      RemapTouchesOnlyTheSource(cell.json.text, report, entries);
      assert cell.json.text in CellPaths(cell);
    }
  }

  /** None of these is a path at or below the source. */
  predicate NamesNothing(paths: set<Path>, source: Path) {
    forall p :: p in paths ==> !(source <= p)
  }

  lemma DocumentFixes(doc: Doc<Path>, report: Report, entries: seq<Entry>)
    requires Rooted(report, entries)
    ensures Rewrite(doc, report, entries) == doc <==> NamesNothing(Texts(doc), report.source)
  {
    var f := (p: Path) => Remap(p, report, entries);
    forall p: Path ensures f(p) == p <==> !(report.source <= p) {
      RemapTouchesOnlyTheSource(p, report, entries);
    }
    MapTextsFixes(doc, f);
    assert Rewrite(doc, report, entries) == MapTexts(doc, f);
  }

  /** Rewriting changes a database if and only if it holds a path at or below the source. */
  lemma RewriteRowsFixes(rows: seq<Cell>, report: Report, entries: seq<Entry>)
    requires Rooted(report, entries) && Rewritable(rows)
    ensures RewriteRows(rows, report, entries) == rows
            <==> forall i :: 0 <= i < |rows| ==> NamesNothing(CellPaths(rows[i]), report.source)
  {
    var written := RewriteRows(rows, report, entries);
    forall i | 0 <= i < |rows|
      ensures written[i] == rows[i] <==> NamesNothing(CellPaths(rows[i]), report.source)
    {
      RewriteCellFixes(rows[i], report, entries);
    }
    assert written == rows <==> forall i :: 0 <= i < |rows| ==> written[i] == rows[i];
  }

  /** One transaction over all rows: every rewritten row, or nothing when a row is malformed. */
  method RewriteTransaction(rows: seq<Cell>, report: Report, entries: seq<Entry>)
    returns (result: Option<seq<Cell>>)
    ensures result == if Rewritable(rows) then Some(RewriteRows(rows, report, entries)) else None
  {
    var written: seq<Cell> := [];
    for i := 0 to |rows|
      invariant |written| == i
      invariant Rewritable(rows[..i])
      invariant forall j :: 0 <= j < i ==> RewriteCell(rows[j], report, entries) == Some(written[j])
    {
      var cell := RewriteCell(rows[i], report, entries);
      if cell.None? {
        return None;
      }
      assert rows[..i + 1] == rows[..i] + [rows[i]];
      written := written + [cell.value];
    }
    assert rows[..|rows|] == rows;
    assert written == RewriteRows(rows, report, entries);
    return Some(written);
  }

  // ---- the transport index ----

  /** Points the reference of every moved blob at its new file, entry by entry. */
  function Repair(references: map<Hash, Path>, entries: seq<Entry>): (r: map<Hash, Path>)
    ensures r.Keys == references.Keys
  {
    if entries == [] then references else
    var done := Repair(references, entries[..|entries| - 1]);
    var last := entries[|entries| - 1];
    if last.hash in done then done[last.hash := last.destination] else done
  }

  /** A repaired reference is at a destination of a file with that digest; a reference to a blob
      that was not moved keeps its path. */
  lemma {:induction false} RepairAt(references: map<Hash, Path>, entries: seq<Entry>, hash: Hash)
    requires hash in references
    ensures (exists e :: e in entries && e.hash == hash && Repair(references, entries)[hash] == e.destination)
            || ((forall e :: e in entries ==> e.hash != hash)
                && Repair(references, entries)[hash] == references[hash])
  {
    if entries != [] {
      var n := |entries| - 1;
      RepairAt(references, entries[..n], hash);
      assert entries == entries[..n] + [entries[n]];
      if entries[n].hash == hash {
        assert entries[n] in entries;
      }
    }
  }

  lemma {:induction false} RepairDependsOnKeys(a: map<Hash, Path>, b: map<Hash, Path>, entries: seq<Entry>, hash: Hash)
    requires a.Keys == b.Keys && hash in a
    requires exists e :: e in entries && e.hash == hash
    ensures Repair(a, entries)[hash] == Repair(b, entries)[hash]
  {
    var n := |entries| - 1;
    if entries[n].hash != hash {
      assert entries == entries[..n] + [entries[n]];
      RepairDependsOnKeys(a, b, entries[..n], hash);
    }
  }

  lemma RepairIdempotent(references: map<Hash, Path>, entries: seq<Entry>)
    ensures Repair(Repair(references, entries), entries) == Repair(references, entries)
  {
    var once := Repair(references, entries);
    forall h | h in references ensures Repair(once, entries)[h] == once[h] {
      RepairAt(references, entries, h);
      RepairAt(once, entries, h);
      if exists e :: e in entries && e.hash == h {
        RepairDependsOnKeys(references, once, entries, h);
      }
    }
  }

  /** Where the last entry that moves a blob of this digest puts it. */
  function Relocated(entries: seq<Entry>, hash: Hash): Option<Path> {
    if entries == [] then None
    else if entries[|entries| - 1].hash == hash then Some(entries[|entries| - 1].destination)
    else Relocated(entries[..|entries| - 1], hash)
  }

  lemma {:induction false} RepairIs(references: map<Hash, Path>, entries: seq<Entry>, hash: Hash)
    requires hash in references
    ensures Repair(references, entries)[hash]
            == match Relocated(entries, hash) case Some(p) => p case None => references[hash]
  {
    if entries != [] {
      RepairIs(references, entries[..|entries| - 1], hash);
    }
  }

  /** Repairing changes the index if and only if a reference to a moved blob is not at its new place
      yet. */
  lemma RepairFixes(references: map<Hash, Path>, entries: seq<Entry>)
    ensures Repair(references, entries) == references
            <==> forall h :: h in references && Relocated(entries, h).Some? ==>
              references[h] == Relocated(entries, h).value
  {
    forall h | h in references
      ensures Repair(references, entries)[h] == references[h]
              <==> (Relocated(entries, h).Some? ==> references[h] == Relocated(entries, h).value)
    {
      RepairIs(references, entries, h);
    }
    assert Repair(references, entries) == references <==> forall h :: h in references ==>
           Repair(references, entries)[h] == references[h];
  }

  // ---- the two documents ----

  /** Writes one entry of a table of either kind. */
  function SetKey(doc: Doc<Path>, key: string, item: Doc<Path>): Doc<Path> {
    match doc
    case Table(fields) => Table(fields[key := item])
    case Inline(inner) => Inline(inner[key := item])
    case _ => doc
  }

  /** An entry, or the empty inline table that indexing makes where there is none. */
  function EntryOrNew(doc: Doc<Path>, key: string): Doc<Path> {
    match At(doc, [Key(key)])
    case Some(item) => item
    case None => Inline(map[])
  }

  /** Sets server.kind.output_dir, making tables on the way. */
  function SetOutputDir(doc: Doc<Path>, kind: string, directory: Path): Doc<Path> {
    var server := EntryOrNew(doc, "server");
    SetKey(doc, "server", SetKey(server, kind, SetKey(EntryOrNew(server, kind), "output_dir", Text(directory))))
  }

  /** The config the move will switch to. */
  function ConfigAfter(config: Doc<Path>, report: Report, entries: seq<Entry>): Doc<Path> {
    match report.operation
    case MoveFetch =>
      SetOutputDir(SetOutputDir(config, "fetch_music", report.destination), "fetch_video", report.destination)
    case _ => SetKey(Rewrite(config, report, entries), "data_dir", Text(report.destination))
  }

  /** The host's preferences after the move: everything but the config's own location. */
  function PreferencesAfter(doc: Doc<Path>, report: Report, entries: seq<Entry>): Doc<Path> {
    if !doc.Table? then doc else
    Table(map k | k in doc.fields ::
      if k == "server_config_path" then doc.fields[k] else Rewrite(doc.fields[k], report, entries))
  }

  predicate IsTable(doc: Doc<Path>) {
    doc.Table? || doc.Inline?
  }

  /** Writing an entry, seen from every address. */
  lemma SetKeyAt(doc: Doc<Path>, key: string, item: Doc<Path>, address: seq<Step>)
    requires IsTable(doc) && address != []
    ensures At(SetKey(doc, key, item), address) ==
            if address[0] == Key(key) then At(item, address[1..]) else At(doc, address)
  {
  }

  function OutputDir(kind: string): seq<Step> {
    [Key("server"), Key(kind), Key("output_dir")]
  }

  /** Setting a fetch folder sets that one string and nothing else; indexing a value that is not a table
      is where the program stops. */
  lemma SetOutputDirAt(doc: Doc<Path>, kind: string, directory: Path, address: seq<Step>)
    requires IsTable(doc) && IsTable(EntryOrNew(doc, "server")) && IsTable(EntryOrNew(EntryOrNew(doc, "server"), kind))
    requires !(address <= OutputDir(kind)) || address == OutputDir(kind)
    ensures At(SetOutputDir(doc, kind, directory), address) ==
            if address == OutputDir(kind) then Some(Text(directory))
            else if OutputDir(kind) <= address then None
            else At(doc, address)
  {
    hide SetKey;
    var server := EntryOrNew(doc, "server");
    var fetch := EntryOrNew(server, kind);
    var newFetch := SetKey(fetch, "output_dir", Text(directory));
    SetKeyAt(doc, "server", SetKey(server, kind, newFetch), address);
    if address[0] == Key("server") {
      assert address[1..] != [] by { assert address != [Key("server")]; }
      EntryAt(doc, "server", address);
      SetKeyAt(server, kind, newFetch, address[1..]);
      if address[1] == Key(kind) {
        assert address[1..][1..] == address[2..];
        assert address[2..] != [] by { assert address != [Key("server"), Key(kind)]; }
        EntryAt(server, kind, address[1..]);
        SetKeyAt(fetch, "output_dir", Text(directory), address[2..]);
      }
    }
  }

  lemma EntryAt(doc: Doc<Path>, key: string, address: seq<Step>)
    requires IsTable(doc) && address != [] && address[0] == Key(key) && address[1..] != []
    ensures At(doc, address) == At(EntryOrNew(doc, key), address[1..])
  {
    var step: seq<Step> := [Key(key)];
    assert step[0] == Key(key) && step[1..] == [];
    var fields := if doc.Table? then doc.fields else doc.inner;
    if key in fields {
      assert At(doc, step) == At(fields[key], []);
    } else {
      assert At(doc, step) == None;
    }
  }

  /** The new config of a data move: the data directory is the destination, every other string is
      remapped, nothing else differs. */
  lemma DataConfigAt(config: Doc<Path>, report: Report, entries: seq<Entry>, address: seq<Step>)
    requires report.operation != MoveFetch && config.Table? && address != []
    ensures At(ConfigAfter(config, report, entries), address) ==
            if address[0] == Key("data_dir") then At(Text(report.destination), address[1..])
            else At(Rewrite(config, report, entries), address)
  {
    SetKeyAt(Rewrite(config, report, entries), "data_dir", Text(report.destination), address);
  }

  /** The new config of a fetch move: both fetch folders are the destination, nothing else differs. */
  lemma FetchConfigAt(config: Doc<Path>, report: Report, entries: seq<Entry>, address: seq<Step>)
    requires report.operation == MoveFetch && IsTable(config) && IsTable(EntryOrNew(config, "server"))
    requires IsTable(EntryOrNew(EntryOrNew(config, "server"), "fetch_music"))
    requires IsTable(EntryOrNew(EntryOrNew(config, "server"), "fetch_video"))
    requires forall kind :: kind in {"fetch_music", "fetch_video"} ==>
             !(address <= OutputDir(kind)) || address == OutputDir(kind)
    ensures At(ConfigAfter(config, report, entries), address) ==
            if address == OutputDir("fetch_music") || address == OutputDir("fetch_video")
            then Some(Text(report.destination))
            else if OutputDir("fetch_music") <= address || OutputDir("fetch_video") <= address then None
            else At(config, address)
  {
    hide SetOutputDir, At;
    var music := SetOutputDir(config, "fetch_music", report.destination);
    assert "fetch_music" in {"fetch_music", "fetch_video"} && "fetch_video" in {"fetch_music", "fetch_video"};
    SetOutputDirAt(config, "fetch_music", report.destination, address);
    OtherFolder(config, "fetch_music", "fetch_video", report.destination);
    SetOutputDirAt(music, "fetch_video", report.destination, address);
    assert OutputDir("fetch_music")[1] != OutputDir("fetch_video")[1];
  }

  lemma OtherFolder(config: Doc<Path>, kind: string, other: string, directory: Path)
    requires IsTable(config) && IsTable(EntryOrNew(config, "server")) && kind != other
    ensures var set' := SetOutputDir(config, kind, directory);
            && IsTable(set') && IsTable(EntryOrNew(set', "server"))
            && EntryOrNew(EntryOrNew(set', "server"), other) == EntryOrNew(EntryOrNew(config, "server"), other)
  {
    var server := EntryOrNew(config, "server");
    var new' := SetKey(server, kind, SetKey(EntryOrNew(server, kind), "output_dir", Text(directory)));
    var step: seq<Step> := [Key("server")];
    SetKeyAt(config, "server", new', step);
    assert step[1..] == [];
    SetKeyAt(server, kind, SetKey(EntryOrNew(server, kind), "output_dir", Text(directory)), [Key(other)]);
  }

  /** The new preferences: where the config lies is kept, every other string is remapped. */
  lemma PreferencesAt(doc: Doc<Path>, report: Report, entries: seq<Entry>, address: seq<Step>)
    requires doc.Table? && address != []
    ensures At(PreferencesAfter(doc, report, entries), address) ==
            if address[0] == Key("server_config_path") then At(doc, address)
            else At(Rewrite(doc, report, entries), address)
  {
  }
}
