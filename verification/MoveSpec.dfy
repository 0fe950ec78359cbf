/** What each phase of a storage move does to the files, and the chain of disks that one move
    passes through. The methods of `StorageMachine` are proved against these functions. */
module MoveSpec {
  import opened Wrappers
  import opened Paths
  import opened StorageTypes
  import opened Remapping

  /** Filling in the verified digests does not change what a manifest moves. */
  predicate SameMoves(a: seq<Entry>, b: seq<Entry>) {
    |a| == |b| && forall i :: 0 <= i < |a| ==>
      a[i].source == b[i].source && a[i].destination == b[i].destination && a[i].hash == b[i].hash
  }

  // ---- phase effects on any files ----

  /** One copy: an existing destination is kept. */
  function CopyStep(files: Files, e: Entry): Files {
    if e.destination in files || e.source !in files then files
    else files[e.destination := files[e.source]]
  }

  /** The files after the first k entries have been copied. */
  function CopyTo(files: Files, entries: seq<Entry>, k: nat): Files
    requires k <= |entries|
  {
    if k == 0 then files else CopyStep(CopyTo(files, entries, k - 1), entries[k - 1])
  }

  /** A copy is refused when the destination holds something else, or the source is not what was
      planned. */
  predicate CopyFails(files: Files, e: Entry) {
    if e.destination in files then Digest(files[e.destination]) != e.hash
    else e.source !in files || Digest(files[e.source]) != e.hash
  }

  /** None of the first k copies is refused. */
  ghost predicate CopiesPass(files: Files, entries: seq<Entry>, k: nat)
    requires k <= |entries|
  {
    k > 0 ==> CopiesPass(files, entries, k - 1) && !CopyFails(CopyTo(files, entries, k - 1), entries[k - 1])
  }

  predicate RewriteFails(files: Files, path: Path) {
    path in files && !(files[path].Database? && Rewritable(files[path].rows))
  }

  function RewriteContent(content: Content, report: Report, entries: seq<Entry>): Content {
    if content.Database? && Rewritable(content.rows)
    then Database(RewriteRows(content.rows, report, entries))
    else content
  }

  function RewriteAtPath(files: Files, path: Path, report: Report, entries: seq<Entry>): Files {
    if path in files then files[path := RewriteContent(files[path], report, entries)] else files
  }

  /** The files after the first k databases have been rewritten. */
  function RewriteTo(files: Files, databases: seq<Path>, k: nat, report: Report, entries: seq<Entry>): Files
    requires k <= |databases|
  {
    if k == 0 then files
    else RewriteAtPath(RewriteTo(files, databases, k - 1, report, entries), databases[k - 1], report, entries)
  }

  predicate RepairFails(files: Files, index: Path) {
    index in files && !files[index].Transport?
  }

  function RepairContent(content: Content, entries: seq<Entry>): Content {
    if content.Transport? then Transport(Repair(content.references, entries)) else content
  }

  function RepairAtPath(files: Files, index: Path, entries: seq<Entry>): Files {
    if index in files then files[index := RepairContent(files[index], entries)] else files
  }

  /** A source is only deleted while it is what was planned and its copy is what was verified. */
  predicate DeleteFails(files: Files, e: Entry) {
    e.source in files
    && (Digest(files[e.source]) != e.hash
        || e.destination !in files
        || Some(Digest(files[e.destination])) != e.destinationHash)
  }

  /** The files after the sources of the first k entries have been deleted. */
  function DeleteTo(files: Files, entries: seq<Entry>, k: nat): Files
    requires k <= |entries|
  {
    if k == 0 then files else DeleteTo(files, entries, k - 1) - {entries[k - 1].source}
  }

  /** Each of the first k deletions passed its checks when its turn came. */
  ghost predicate DeletesPass(files: Files, entries: seq<Entry>, k: nat)
    requires k <= |entries|
  {
    k > 0 ==> DeletesPass(files, entries, k - 1) && !DeleteFails(DeleteTo(files, entries, k - 1), entries[k - 1])
  }

  /** The manifest with the digest of every destination as it stands. */
  function Hashed(files: Files, entries: seq<Entry>): (r: seq<Entry>)
    ensures SameMoves(entries, r)
  {
    seq(|entries|, i requires 0 <= i < |entries| =>
      if entries[i].destination in files
      then entries[i].(destinationHash := Some(Digest(files[entries[i].destination])))
      else entries[i])
  }

  /** The manifest with fresh digests below the transport directory only. */
  function Rehashed(files: Files, entries: seq<Entry>, transport: Path): (r: seq<Entry>)
    ensures SameMoves(entries, r)
  {
    seq(|entries|, i requires 0 <= i < |entries| =>
      if transport <= entries[i].destination && entries[i].destination in files
      then entries[i].(destinationHash := Some(Digest(files[entries[i].destination])))
      else entries[i])
  }

  // ---- which files a journal names ----

  function Target(path: Path, report: Report, entries: seq<Entry>): Path {
    if report.operation == MoveData then Remap(path, report, entries) else path
  }

  function Databases(site: Site, report: Report, entries: seq<Entry>): seq<Path> {
    if report.operation == SelectData then []
    else [Target(site.database, report, entries), Target(site.reliquary, report, entries)]
  }

  function TransportDir(site: Site, report: Report, entries: seq<Entry>): Path {
    Target(site.transport, report, entries)
  }

  function TransportIndex(site: Site, report: Report, entries: seq<Entry>): Path {
    TransportDir(site, report, entries) + ["blobs.db"]
  }

  /** The files that are rewritten where they lie. */
  function Rewritten(site: Site, report: Report, entries: seq<Entry>): set<Path> {
    if report.operation == SelectData then {}
    else (set p | p in Databases(site, report, entries)) + {TransportIndex(site, report, entries)}
  }

  /** The config and the two files that the move keeps beside it. */
  function Companions(site: Site): set<Path>
    requires site.Valid()
  {
    {site.config, site.Pending(), site.Backup()}
  }

  /** Those, and the host's preferences. */
  function Fixed(site: Site, journal: Journal): set<Path>
    requires site.Valid()
  {
    Companions(site) + (if journal.preferences.Some? then {journal.preferences.value.path} else {})
  }

  function Sources(entries: seq<Entry>): set<Path> { set e | e in entries :: e.source }
  function Destinations(entries: seq<Entry>): set<Path> { set e | e in entries :: e.destination }

  // ---- the chain of disks of one planned move ----

  /** Where a move stands, as far as the disk shows. */
  datatype Moment =
    | Copying(k: nat)
    | Rewriting(k: nat)
    | Referencing(repaired: bool)
    | Committing(step: nat)     // 1: preferences switched, 2: backup kept, 3: config switched
    | Deleting(k: nat)
    | Finished

  function StageOf(m: Moment): nat {
    match m
    case Copying(_) => 0
    case Rewriting(_) => 1
    case Referencing(_) => 2
    case Committing(_) => 3
    case Deleting(_) => 4
    case Finished => 5
  }

  function StepOf(m: Moment): nat {
    match m
    case Copying(k) => k
    case Rewriting(k) => k
    case Referencing(repaired) => if repaired then 1 else 0
    case Committing(step) => step
    case Deleting(k) => k
    case Finished => 0
  }

  predicate Later(m: Moment, than: Moment) {
    StageOf(m) > StageOf(than) || (StageOf(m) == StageOf(than) && StepOf(m) > StepOf(than))
  }

  predicate NotEarlier(m: Moment, than: Moment) {
    StageOf(m) > StageOf(than) || (StageOf(m) == StageOf(than) && StepOf(m) >= StepOf(than))
  }

  /** A freshly saved manifest: nothing done yet. */
  predicate FreshManifest(j: Journal) {
    && j.version == 1 && j.entries.Some? && j.configAfter.Some?
    && !j.copied && !j.pathsUpdated && !j.referencesUpdated && !j.committed
    && (j.preferences.Some? ==> j.preferences.value.after.Some?)
    && forall e :: e in j.entries.value ==> e.destinationHash.None?
  }

  predicate ValidMoment(site: Site, j: Journal, m: Moment)
    requires j.entries.Some?
  {
    match m
    case Copying(k) => k <= |j.entries.value|
    case Rewriting(k) => k <= |Databases(site, j.preview, j.entries.value)|
    case Committing(step) => step <= 3
    case Deleting(k) => k <= |j.entries.value|
    case _ => true
  }

  function Copied(files: Files, j: Journal): Files
    requires j.entries.Some?
  {
    CopyTo(files, j.entries.value, |j.entries.value|)
  }

  function Pointed(site: Site, files: Files, j: Journal, k: nat): Files
    requires j.entries.Some? && k <= |Databases(site, j.preview, j.entries.value)|
  {
    RewriteTo(Copied(files, j), Databases(site, j.preview, j.entries.value), k, j.preview, j.entries.value)
  }

  function AllPointed(site: Site, files: Files, j: Journal): Files
    requires j.entries.Some?
  {
    Pointed(site, files, j, |Databases(site, j.preview, j.entries.value)|)
  }

  function Repaired(site: Site, files: Files, j: Journal): Files
    requires j.entries.Some?
  {
    if j.preview.operation == SelectData then AllPointed(site, files, j)
    else RepairAtPath(AllPointed(site, files, j),
           TransportIndex(site, j.preview, j.entries.value), j.entries.value)
  }

  /** The preferences cannot be switched: they are gone, or hold neither the old nor the new text. */
  predicate PreferencesFail(files: Files, j: Journal) {
    j.preferences.Some?
    && var change := j.preferences.value;
       || change.path !in files || change.after.None?
       || (files[change.path] != change.after.value && files[change.path] != change.before)
  }

  function SwitchPreferences(files: Files, j: Journal): Files {
    if j.preferences.Some? && j.preferences.value.after.Some?
    then files[j.preferences.value.path := j.preferences.value.after.value]
    else files
  }

  function KeepBackup(site: Site, files: Files, j: Journal): Files
    requires site.Valid()
  {
    if site.Backup() in files then files else files[site.Backup() := j.configBefore]
  }

  function SwitchConfig(site: Site, files: Files, j: Journal): Files {
    if j.configAfter.Some? then files[site.config := j.configAfter.value] else files
  }

  /** The files after the first steps of the cutover: 1 preferences, 2 backup, 3 config. The last two
      only happen while the config is still the old one. */
  function CutTo(site: Site, files: Files, j: Journal, current: Content, step: nat): Files
    requires site.Valid()
  {
    var preferences := if step >= 1 then SwitchPreferences(files, j) else files;
    if current != j.configBefore then preferences else
    var backup := if step >= 2 then KeepBackup(site, preferences, j) else preferences;
    if step >= 3 then SwitchConfig(site, backup, j) else backup
  }

  function Committed(site: Site, files: Files, j: Journal, step: nat): Files
    requires site.Valid() && j.entries.Some?
  {
    CutTo(site, Repaired(site, files, j), j, j.configBefore, step)
  }

  /** Every file but the journal, at a moment of the move planned as j on `files`. */
  function BodyAt(site: Site, files: Files, j: Journal, m: Moment): Files
    requires site.Valid() && j.entries.Some? && ValidMoment(site, j, m)
  {
    match m
    case Copying(k) => CopyTo(files, j.entries.value, k)
    case Rewriting(k) => Pointed(site, files, j, k)
    case Referencing(repaired) => if repaired then Repaired(site, files, j) else AllPointed(site, files, j)
    case Committing(step) => Committed(site, files, j, step)
    case Deleting(k) => DeleteTo(Committed(site, files, j, 3), j.entries.value, k)
    case Finished => DeleteTo(Committed(site, files, j, 3), j.entries.value, |j.entries.value|)
  }

  /** The manifest with the digests that are verified before anything is deleted. */
  function PointedEntries(site: Site, files: Files, j: Journal): (r: seq<Entry>)
    requires j.entries.Some?
    ensures SameMoves(j.entries.value, r)
  {
    Hashed(AllPointed(site, files, j), j.entries.value)
  }

  function RepairedEntries(site: Site, files: Files, j: Journal): (r: seq<Entry>)
    requires j.entries.Some?
    ensures SameMoves(j.entries.value, r)
  {
    var pointed := PointedEntries(site, files, j);
    if j.preview.operation == MoveData && TransportIndex(site, j.preview, j.entries.value) in AllPointed(site, files, j)
    then Rehashed(Repaired(site, files, j), pointed, TransportDir(site, j.preview, j.entries.value))
    else pointed
  }

  /** The journal on disk at a moment. */
  function JournalAt(site: Site, files: Files, j: Journal, m: Moment): Journal
    requires j.entries.Some?
  {
    match m
    case Copying(_) => j
    case Rewriting(_) => j.(copied := true)
    case Referencing(_) =>
      j.(copied := true, pathsUpdated := true, entries := Some(PointedEntries(site, files, j)))
    case Committing(_) =>
      j.(copied := true, pathsUpdated := true, referencesUpdated := true,
         entries := Some(RepairedEntries(site, files, j)))
    case _ =>
      j.(copied := true, pathsUpdated := true, referencesUpdated := true, committed := true,
         entries := Some(RepairedEntries(site, files, j)))
  }

  /** The whole disk at a moment: the body, and the journal until it is removed. */
  function DiskAt(site: Site, files: Files, j: Journal, m: Moment): Files
    requires site.Valid() && j.entries.Some? && ValidMoment(site, j, m)
  {
    var body := BodyAt(site, files, j, m);
    if m.Finished? then body else body[site.Pending() := Pending(JournalAt(site, files, j, m))]
  }

  // ---- what planning guarantees ----

  /** Every source is there with its digest, and no two entries touch each other's files. */
  ghost predicate ManifestOk(files: Files, entries: seq<Entry>) {
    && (forall e :: e in entries ==> e.source in files && Digest(files[e.source]) == e.hash)
    && (forall e :: e in entries && e.destination in files ==> files[e.destination] == files[e.source])
    && (forall i, j :: 0 <= i < j < |entries| ==>
          entries[i].source != entries[j].source && entries[i].destination != entries[j].destination)
    && Sources(entries) !! Destinations(entries)
  }

  /** The config is the one of the journal; the config and its companions are not moved, and neither they
      nor the preferences are landed on or rewritten in place. Nothing is said of what the preferences
      hold, nor that they stay where they are. */
  ghost predicate FixedOk(site: Site, files: Files, j: Journal)
    requires site.Valid() && j.entries.Some?
  {
    && site.Pending() !in files
    && site.config in files && files[site.config] == j.configBefore
    && (j.preferences.Some? ==> j.preferences.value.path !in Companions(site))
    && Companions(site) !! Sources(j.entries.value)
    && Fixed(site, j) !! Destinations(j.entries.value) + Rewritten(site, j.preview, j.entries.value)
    && forall p :: p in Fixed(site, j) ==> !(j.preview.destination <= p)
  }

  /** What is rewritten in place did not belong to the destination and is not moved away or, in a fetch
      folder, not landed on; the transport index is no database. */
  ghost predicate InPlaceOk(site: Site, files: Files, j: Journal)
    requires j.entries.Some?
  {
    var entries := j.entries.value;
    var rewritten := Rewritten(site, j.preview, entries);
    && rewritten !! (if j.preview.operation == MoveFetch then Destinations(entries) else Sources(entries))
    && (forall p :: p in rewritten && p in files ==> !(j.preview.destination <= p))
    && (j.preview.operation != SelectData ==>
          TransportIndex(site, j.preview, entries) !in Databases(site, j.preview, entries))
  }

  /** A manifest that planning may save for these files. */
  ghost predicate WellPlanned(site: Site, files: Files, j: Journal) {
    && site.Valid() && FreshManifest(j)
    && Rooted(j.preview, j.entries.value)
    && ManifestOk(files, j.entries.value)
    && (j.preview.operation == SelectData ==> j.entries.value == [])
    && FixedOk(site, files, j)
    && InPlaceOk(site, files, j)
  }

  // ---- how far a planned move can come ----

  /** The first k databases hold rows that can be rewritten, or do not exist. */
  ghost predicate DatabasesReadable(site: Site, files: Files, j: Journal, k: nat)
    requires j.entries.Some? && k <= |Databases(site, j.preview, j.entries.value)|
  {
    forall i :: 0 <= i < k ==> !RewriteFails(Copied(files, j), Databases(site, j.preview, j.entries.value)[i])
  }

  predicate IndexReadable(site: Site, files: Files, j: Journal)
    requires j.entries.Some?
  {
    j.preview.operation != SelectData ==>
      !RepairFails(Copied(files, j), TransportIndex(site, j.preview, j.entries.value))
  }

  /** Rewriting databases and index where they lie has left every source as it was planned. */
  ghost predicate SourcesKept(site: Site, files: Files, j: Journal)
    requires j.entries.Some?
  {
    forall e :: e in j.entries.value ==>
      && e.source in files && e.source in Repaired(site, files, j)
      && Repaired(site, files, j)[e.source] == files[e.source]
  }

  /** The preferences are among the files to move, and the cutover will change them where they lie. */
  ghost predicate PreferencesMoved(files: Files, j: Journal)
    requires j.entries.Some?
  {
    && j.preferences.Some? && j.preferences.value.path in Sources(j.entries.value)
    && j.preferences.value.path in files && Some(files[j.preferences.value.path]) != j.preferences.value.after
  }

  /** Nothing stops the phases of this move. */
  ghost predicate Finishable(site: Site, files: Files, j: Journal)
    requires j.entries.Some?
  {
    && DatabasesReadable(site, files, j, |Databases(site, j.preview, j.entries.value)|)
    && IndexReadable(site, files, j)
    && SourcesKept(site, files, j) && !PreferencesFail(files, j) && !PreferencesMoved(files, j)
  }

  /** The checks on the way to this moment have all passed. */
  ghost predicate Reachable(site: Site, files: Files, j: Journal, m: Moment)
    requires j.entries.Some? && ValidMoment(site, j, m)
  {
    var all := |Databases(site, j.preview, j.entries.value)|;
    match m
    case Copying(_) => true
    case Rewriting(k) => DatabasesReadable(site, files, j, k)
    case Referencing(repaired) =>
      DatabasesReadable(site, files, j, all) && (repaired ==> IndexReadable(site, files, j))
    case Committing(step) =>
      && DatabasesReadable(site, files, j, all) && IndexReadable(site, files, j)
      && (step > 0 ==> SourcesKept(site, files, j) && !PreferencesFail(files, j))
    case Deleting(k) =>
      && DatabasesReadable(site, files, j, all) && IndexReadable(site, files, j)
      && SourcesKept(site, files, j) && !PreferencesFail(files, j)
      && (PreferencesMoved(files, j) ==> j.preferences.value.path !in Sources(j.entries.value[..k]))
    case Finished => Finishable(site, files, j)
  }

  /** At this moment the next check fails, and every start stops with an error: a database that is none
      or has a malformed row; a malformed index; before the cutover a source that the rewriting has
      changed, or preferences that are gone or hold neither text; and from its first step on, preferences
      that are to be moved and are no longer what was planned. */
  ghost predicate Refused(site: Site, files: Files, j: Journal, m: Moment)
    requires j.entries.Some?
  {
    var databases := Databases(site, j.preview, j.entries.value);
    match m
    case Rewriting(k) => k < |databases| && RewriteFails(Copied(files, j), databases[k])
    case Referencing(repaired) => !repaired && !IndexReadable(site, files, j)
    case Committing(step) =>
      if step == 0 then !SourcesKept(site, files, j) || PreferencesFail(files, j) else PreferencesMoved(files, j)
    case Deleting(k) =>
      k < |j.entries.value| && PreferencesMoved(files, j) && j.entries.value[k].source == j.preferences.value.path
    case _ => false
  }

  lemma RefusedNeverEnds(site: Site, files: Files, j: Journal, m: Moment)
    requires j.entries.Some? && Refused(site, files, j, m)
    ensures !Finishable(site, files, j)
  {
  }

  /** No moment behind a refused database or index is ever reached. */
  lemma RefusedIsLast(site: Site, files: Files, j: Journal, m: Moment, m': Moment)
    requires j.entries.Some? && Refused(site, files, j, m) && (m.Rewriting? || m.Referencing?)
    requires ValidMoment(site, j, m') && Reachable(site, files, j, m') && NotEarlier(m', m)
    ensures m' == m
  {
  }

  // ---- what holds of any disk, planned or not ----

  /** The files a journal allows to be written: its fixed files and what is rewritten in place. */
  function Free(site: Site, j: Journal): set<Path>
    requires site.Valid()
  {
    Fixed(site, j) + (if j.entries.Some? then Rewritten(site, j.preview, j.entries.value) else {})
  }

  /** Apart from the free files, whatever is not as it was is a planned source that had the planned
      content. */
  ghost predicate Guarded(before: Files, after: Files, free: set<Path>, entries: seq<Entry>) {
    forall p :: p in before && p !in free ==>
      (p in after && after[p] == before[p]) || PlannedSource(entries, p, Digest(before[p]))
  }

  ghost predicate PlannedSource(entries: seq<Entry>, p: Path, hash: Hash) {
    exists i :: 0 <= i < |entries| && entries[i].source == p && entries[i].hash == hash
  }

}
