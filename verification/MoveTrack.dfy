/** The chain of disks of one planned move, path by path: what every file holds at every moment, and
    that no check of the code can fail on that chain. */
module MoveTrack {
  import opened Wrappers
  import opened Paths
  import opened StorageTypes
  import opened Remapping
  import opened MoveSpec
  import opened MoveChain

  /** What a copied file holds once stored paths are rewritten and references repaired. */
  function Updated(site: Site, j: Journal, p: Path, content: Content): Content
    requires j.entries.Some?
  {
    var entries := j.entries.value;
    if p in Databases(site, j.preview, entries) then RewriteContent(content, j.preview, entries)
    else if j.preview.operation != SelectData && p == TransportIndex(site, j.preview, entries)
    then RepairContent(content, entries)
    else content
  }

  lemma PointedAt(site: Site, files: Files, j: Journal, k: nat)
    requires WellPlanned(site, files, j) && k <= |Databases(site, j.preview, j.entries.value)|
    ensures Pointed(site, files, j, k).Keys == Copied(files, j).Keys
    ensures forall p :: p in Copied(files, j) ==>
              Pointed(site, files, j, k)[p]
              == if p in Databases(site, j.preview, j.entries.value)[..k]
                 then RewriteContent(Copied(files, j)[p], j.preview, j.entries.value)
                 else Copied(files, j)[p]
  {
    RewriteToAt(Copied(files, j), Databases(site, j.preview, j.entries.value), k, j.preview, j.entries.value);
  }

  lemma RepairedAt(site: Site, files: Files, j: Journal)
    requires WellPlanned(site, files, j)
    ensures Repaired(site, files, j).Keys == Copied(files, j).Keys
    ensures forall p :: p in Copied(files, j) ==>
              Repaired(site, files, j)[p] == Updated(site, j, p, Copied(files, j)[p])
  {
    var databases := Databases(site, j.preview, j.entries.value);
    PointedAt(site, files, j, |databases|);
    assert databases[..|databases|] == databases;
  }

  /** The journal file is no part of the body, and the body keeps clear of the fixed files until the
      cutover. */
  lemma CopiedClear(site: Site, files: Files, j: Journal, k: nat)
    requires WellPlanned(site, files, j) && k <= |j.entries.value|
    ensures site.Pending() !in CopyTo(files, j.entries.value, k)
    ensures site.Pending() !in Sources(j.entries.value) && site.Pending() !in Destinations(j.entries.value)
    ensures site.Pending() !in Databases(site, j.preview, j.entries.value)
    ensures forall p :: p in Fixed(site, j) && p in CopyTo(files, j.entries.value, k) ==>
              p in files && CopyTo(files, j.entries.value, k)[p] == files[p]
  {
    var entries := j.entries.value;
    CopyAt(files, entries, k);
    assert site.Pending() in Fixed(site, j);
    assert Destinations(entries[..k]) <= Destinations(entries);
    assert forall p :: p in Databases(site, j.preview, entries) ==> p in Rewritten(site, j.preview, entries);
  }

  /** What the preferences hold after so many steps of the cutover: their new text, or what they held. */
  predicate PreferencesAt(before: Files, after: Files, j: Journal, step: nat) {
    j.preferences.Some? ==>
      var p := j.preferences.value.path;
      if step >= 1 then p in after && Some(after[p]) == j.preferences.value.after
      else (p in after <==> p in before) && (p in before ==> after[p] == before[p])
  }

  /** Each step of the cutover switches its own file and leaves everything else alone. */
  lemma CutAt(site: Site, files: Files, j: Journal, step: nat)
    requires site.Valid() && FreshManifest(j) && step <= 3
    requires site.Pending() !in files && site.config in files && files[site.config] == j.configBefore
    requires j.preferences.Some? ==> j.preferences.value.path !in Companions(site)
    ensures var body := CutTo(site, files, j, j.configBefore, step);
            && site.Pending() !in body
            && site.config in body && body[site.config] == (if step >= 3 then j.configAfter.value else j.configBefore)
            && PreferencesAt(files, body, j, step)
            && (step >= 2 ==> site.Backup() in body)
            && (site.Backup() in files ==> site.Backup() in body && body[site.Backup()] == files[site.Backup()])
            && (site.Backup() in body && site.Backup() !in files ==> body[site.Backup()] == j.configBefore)
            && (forall p :: p !in Fixed(site, j) ==> (p in body <==> p in files) && (p in body ==> body[p] == files[p]))
  {
    ReservedNamesDiffer(site);
  }

  /** Before the cutover the fixed files are as they were; each step switches its own file. */
  lemma CommittedAt(site: Site, files: Files, j: Journal, step: nat)
    requires WellPlanned(site, files, j) && step <= 3
    ensures var body := Committed(site, files, j, step);
            && site.Pending() !in body
            && site.config in body && body[site.config] == (if step >= 3 then j.configAfter.value else j.configBefore)
            && PreferencesAt(files, body, j, step)
            && (step >= 2 ==> site.Backup() in body)
            && (site.Backup() in files ==> site.Backup() in body && body[site.Backup()] == files[site.Backup()])
            && (site.Backup() in body && site.Backup() !in files ==> body[site.Backup()] == j.configBefore)
            && (forall p :: p !in Fixed(site, j) ==>
                  && (p in body <==> p in Repaired(site, files, j))
                  && (p in body ==> body[p] == Repaired(site, files, j)[p]))
  {
    RepairedFixed(site, files, j);
    assert site.config in Fixed(site, j) && site.Pending() in Fixed(site, j) && site.Backup() in Fixed(site, j);
    assert j.preferences.Some? ==> j.preferences.value.path in Fixed(site, j);
    hide CutTo, Repaired, InPlaceOk, ManifestOk, Rooted;
    CutAt(site, Repaired(site, files, j), j, step);
  }

  /** Up to the cutover the fixed files are exactly as they were. */
  lemma RepairedFixed(site: Site, files: Files, j: Journal)
    requires WellPlanned(site, files, j)
    ensures forall p :: p in Fixed(site, j) ==>
              && (p in Repaired(site, files, j) <==> p in files)
              && (p in files ==> Repaired(site, files, j)[p] == files[p])
  {
    RepairedAt(site, files, j);
    CopiedClear(site, files, j, |j.entries.value|);
    CopyAt(files, j.entries.value, |j.entries.value|);
    FixedNotRewritten(site, files, j);
  }

  lemma FixedNotRewritten(site: Site, files: Files, j: Journal)
    requires WellPlanned(site, files, j)
    ensures forall p :: p in Fixed(site, j) && p in Copied(files, j) ==>
            Updated(site, j, p, Copied(files, j)[p]) == Copied(files, j)[p]
  {
    assert forall p :: p in Databases(site, j.preview, j.entries.value) ==>
           p in Rewritten(site, j.preview, j.entries.value);
  }

  /** A source holds its planned content until it is deleted, or, in a fetch folder, until it is
      rewritten where it lies. */
  lemma SourceAt(site: Site, files: Files, j: Journal, e: Entry)
    requires WellPlanned(site, files, j) && e in j.entries.value
    ensures e.source in files && Digest(files[e.source]) == e.hash
    ensures e.source in Copied(files, j) && Copied(files, j)[e.source] == files[e.source]
    ensures Repaired(site, files, j).Keys == Copied(files, j).Keys
    ensures forall k: nat :: k <= |Databases(site, j.preview, j.entries.value)| ==>
              && e.source in Pointed(site, files, j, k)
              && Pointed(site, files, j, k)[e.source] in {files[e.source], Updated(site, j, e.source, files[e.source])}
    ensures Repaired(site, files, j)[e.source] == Updated(site, j, e.source, files[e.source])
    ensures j.preview.operation != MoveFetch ==> Updated(site, j, e.source, files[e.source]) == files[e.source]
    ensures e.source !in Companions(site)
  {
    var entries := j.entries.value;
    CopyAt(files, entries, |entries|);
    RepairedAt(site, files, j);
    assert e.source in Sources(entries);
    assert forall p :: p in Databases(site, j.preview, entries) ==> p in Rewritten(site, j.preview, entries);
    forall k: nat | k <= |Databases(site, j.preview, entries)|
      ensures e.source in Pointed(site, files, j, k)
      ensures Pointed(site, files, j, k)[e.source] in {files[e.source], Updated(site, j, e.source, files[e.source])}
    {
      PointedAt(site, files, j, k);
    }
  }

  /** The rewriting can only spoil a source in a fetch folder. */
  lemma KeptUnlessFetched(site: Site, files: Files, j: Journal)
    requires WellPlanned(site, files, j)
    ensures SourcesKept(site, files, j) <==>
              forall e :: e in j.entries.value ==> Updated(site, j, e.source, files[e.source]) == files[e.source]
    ensures j.preview.operation != MoveFetch ==> SourcesKept(site, files, j)
  {
    forall e | e in j.entries.value
      ensures e.source in files && e.source in Repaired(site, files, j)
      ensures Repaired(site, files, j)[e.source] == Updated(site, j, e.source, files[e.source])
      ensures j.preview.operation != MoveFetch ==> Updated(site, j, e.source, files[e.source]) == files[e.source]
    {
      SourceAt(site, files, j, e);
    }
  }

  /** A destination holds its source's content, updated where it is a database or the index. */
  lemma DestinationAt(site: Site, files: Files, j: Journal, i: nat)
    requires WellPlanned(site, files, j) && i < |j.entries.value|
    ensures var e := j.entries.value[i];
            && e.destination in Copied(files, j) && Copied(files, j)[e.destination] == files[e.source]
            && e.destination in AllPointed(site, files, j) && e.destination in Repaired(site, files, j)
            && Repaired(site, files, j)[e.destination] == Updated(site, j, e.destination, files[e.source])
            && (e.destination !in Databases(site, j.preview, j.entries.value) ==>
                  AllPointed(site, files, j)[e.destination] == files[e.source])
            && e.destination !in Fixed(site, j)
            && e.destination !in Sources(j.entries.value)
  {
    var entries, e := j.entries.value, j.entries.value[i];
    var databases := Databases(site, j.preview, entries);
    CopyAt(files, entries, |entries|);
    RepairedAt(site, files, j);
    PointedAt(site, files, j, |databases|);
    assert databases[..|databases|] == databases;
    assert e in entries && e.destination in Destinations(entries);
  }

  /** The digest that is checked before a source is deleted is the digest of the file that stays. */
  lemma VerifiedHash(site: Site, files: Files, j: Journal, i: nat)
    requires WellPlanned(site, files, j) && i < |j.entries.value|
    ensures var e := j.entries.value[i];
            && e.destination in Committed(site, files, j, 3)
            && Committed(site, files, j, 3)[e.destination] == Updated(site, j, e.destination, files[e.source])
            && RepairedEntries(site, files, j)[i]
               == e.(destinationHash := Some(Digest(Committed(site, files, j, 3)[e.destination])))
  {
    DestinationAt(site, files, j, i);
    CommittedAt(site, files, j, 3);
    RepairedHash(site, files, j, i);
  }

  /** The manifest after the repair records what the repaired files hold. */
  lemma RepairedHash(site: Site, files: Files, j: Journal, i: nat)
    requires WellPlanned(site, files, j) && i < |j.entries.value|
    ensures var e := j.entries.value[i];
            && e.destination in Repaired(site, files, j)
            && RepairedEntries(site, files, j)[i]
               == e.(destinationHash := Some(Digest(Repaired(site, files, j)[e.destination])))
  {
    var e := j.entries.value[i];
    DestinationAt(site, files, j, i);
    IndexIsMoved(site, files, j, i);
    var pointed := PointedEntries(site, files, j);
    assert pointed[i] == e.(destinationHash := Some(Digest(AllPointed(site, files, j)[e.destination])));
    hide WellPlanned, Updated, AllPointed, PointedEntries, RepairContent, SameMoves, Fixed, Sources, Databases;
    if e.destination != TransportIndex(site, j.preview, j.entries.value) || j.preview.operation == SelectData {
      assert Repaired(site, files, j)[e.destination] == AllPointed(site, files, j)[e.destination];
    }
  }

  /** The transport index is only ever a destination when its directory moves along. */
  lemma IndexIsMoved(site: Site, files: Files, j: Journal, i: nat)
    requires WellPlanned(site, files, j) && i < |j.entries.value|
    ensures j.entries.value[i].destination == TransportIndex(site, j.preview, j.entries.value) ==>
              j.preview.operation == MoveData
  {
    assert j.entries.value[i] in j.entries.value;
    assert j.entries.value[i].destination in Destinations(j.entries.value);
  }

  /** What stands at a source once the cutover is done. */
  lemma SourceCommitted(site: Site, files: Files, j: Journal, e: Entry, step: nat)
    requires WellPlanned(site, files, j) && SourcesKept(site, files, j) && e in j.entries.value && step <= 3
    ensures e.source in files && Digest(files[e.source]) == e.hash && e.source in Committed(site, files, j, step)
    ensures j.preferences.Some? && step >= 1 && e.source == j.preferences.value.path ==>
              Some(Committed(site, files, j, step)[e.source]) == j.preferences.value.after
    ensures !(j.preferences.Some? && step >= 1 && e.source == j.preferences.value.path) ==>
              Committed(site, files, j, step)[e.source] == files[e.source]
  {
    SourceAt(site, files, j, e);
    CommittedAt(site, files, j, step);
    hide WellPlanned, Committed, Repaired, Copied, Updated;
  }

  /** On the chain, a deletion passes its checks whatever was already deleted, unless it is that of
      preferences which the cutover has changed. */
  lemma DeleteNeverFails(site: Site, files: Files, j: Journal, k: nat, i: nat)
    requires WellPlanned(site, files, j) && SourcesKept(site, files, j)
    requires k <= |j.entries.value| && i < |j.entries.value|
    requires !(PreferencesMoved(files, j) && j.entries.value[i].source == j.preferences.value.path)
    ensures !DeleteFails(DeleteTo(Committed(site, files, j, 3), j.entries.value, k), RepairedEntries(site, files, j)[i])
  {
    var entries := j.entries.value;
    VerifiedHash(site, files, j, i);
    DestinationAt(site, files, j, i);
    SourceCommitted(site, files, j, entries[i], 3);
    DeleteAt(Committed(site, files, j, 3), entries, k);
    assert entries[i] in entries && entries[i].source in Sources(entries);
    assert Sources(entries[..k]) <= Sources(entries);
    hide WellPlanned, Committed, Repaired, SourcesKept;
  }

  /** The deletion of such preferences is refused as long as they are there. */
  lemma DeleteFailsForMoved(site: Site, files: Files, j: Journal, k: nat, i: nat)
    requires WellPlanned(site, files, j) && SourcesKept(site, files, j)
    requires k <= i < |j.entries.value|
    requires PreferencesMoved(files, j) && j.entries.value[i].source == j.preferences.value.path
    ensures DeleteFails(DeleteTo(Committed(site, files, j, 3), j.entries.value, k), RepairedEntries(site, files, j)[i])
  {
    var entries := j.entries.value;
    SourceCommitted(site, files, j, entries[i], 3);
    DeleteAt(Committed(site, files, j, 3), entries, k);
    forall e | e in entries[..k] ensures e.source != entries[i].source {
      var a :| 0 <= a < k && entries[a] == e;
    }
    hide Committed, Repaired, SourcesKept, RepairedEntries;
  }

  /** No moment of the body includes the journal. */
  lemma PendingOutside(site: Site, files: Files, j: Journal, m: Moment)
    requires WellPlanned(site, files, j) && ValidMoment(site, j, m)
    ensures site.Pending() !in BodyAt(site, files, j, m)
  {
    var entries := j.entries.value;
    match m
    case Copying(k) => CopiedClear(site, files, j, k);
    case Rewriting(k) =>
      CopiedClear(site, files, j, |entries|);
      PointedAt(site, files, j, k);
    case Referencing(repaired) =>
      CopiedClear(site, files, j, |entries|);
      PointedAt(site, files, j, |Databases(site, j.preview, entries)|);
      RepairedAt(site, files, j);
    case Committing(step) => CommittedAt(site, files, j, step);
    case Deleting(k) =>
      CommittedAt(site, files, j, 3);
      DeleteAt(Committed(site, files, j, 3), entries, k);
    case Finished =>
      CommittedAt(site, files, j, 3);
      DeleteAt(Committed(site, files, j, 3), entries, |entries|);
  }

  /** The config has been switched at this moment. */
  predicate Switched(m: Moment) {
    m.Deleting? || m.Finished? || (m.Committing? && m.step >= 3)
  }

  /** The preferences have been switched at this moment. */
  predicate PreferencesSwitched(m: Moment) {
    m.Deleting? || m.Finished? || (m.Committing? && m.step >= 1)
  }

  /** Until the cutover the body holds the fixed files as they were. */
  lemma FixedBefore(site: Site, files: Files, j: Journal, m: Moment, p: Path)
    requires WellPlanned(site, files, j) && ValidMoment(site, j, m) && StageOf(m) <= 2
    requires p in Fixed(site, j)
    ensures p in BodyAt(site, files, j, m) <==> p in files
    ensures p in files ==> BodyAt(site, files, j, m)[p] == files[p]
  {
    match m
    case Copying(k) => CopiedClear(site, files, j, k); CopyAt(files, j.entries.value, k);
    case Rewriting(k) => PointedFixed(site, files, j, k);
    case Referencing(repaired) =>
      PointedFixed(site, files, j, |Databases(site, j.preview, j.entries.value)|);
      RepairedFixed(site, files, j);
  }

  /** After the cutover deleting the sources does not touch the fixed files that are not among them. */
  lemma FixedAfter(site: Site, files: Files, j: Journal, m: Moment, p: Path)
    requires WellPlanned(site, files, j) && ValidMoment(site, j, m) && StageOf(m) >= 4
    requires p in Fixed(site, j) && p in Committed(site, files, j, 3)
    ensures p !in Sources(j.entries.value) ==> p in BodyAt(site, files, j, m)
    ensures p in BodyAt(site, files, j, m) ==> BodyAt(site, files, j, m)[p] == Committed(site, files, j, 3)[p]
  {
    var entries := j.entries.value;
    var k := if m.Deleting? then m.k else |entries|;
    assert Sources(entries[..k]) <= Sources(entries);
    hide Committed, WellPlanned, Fixed, DeleteTo;
    DeleteAt(Committed(site, files, j, 3), entries, k);
  }

  /** The preferences at a moment: as they were until they are switched, and their new text from then on,
      until they are deleted because they were moved along. */
  predicate PreferencesShow(base: Files, disk: Files, j: Journal, m: Moment)
    requires j.entries.Some?
  {
    j.preferences.Some? ==>
      var p := j.preferences.value.path;
      if PreferencesSwitched(m) then
        && (p in disk ==> Some(disk[p]) == j.preferences.value.after)
        && (p !in disk ==> p in Sources(j.entries.value) && StageOf(m) >= 4)
      else (p in disk <==> p in base) && (p in base ==> disk[p] == base[p])
  }

  /** The config is always exactly one of its two texts, and the preferences are as they were or their new
      text; which one depends on the moment only. */
  lemma FixedAt(site: Site, files: Files, j: Journal, m: Moment)
    requires WellPlanned(site, files, j) && ValidMoment(site, j, m)
    ensures var disk := DiskAt(site, files, j, m);
            && site.config in disk
            && disk[site.config] == (if Switched(m) then j.configAfter.value else j.configBefore)
            && PreferencesShow(files, disk, j, m)
  {
    ReservedNamesDiffer(site);
    assert site.config in Fixed(site, j);
    var step := if m.Committing? then m.step else 3;
    CommittedAt(site, files, j, step);
    if StageOf(m) <= 2 {
      FixedBefore(site, files, j, m, site.config);
    } else if StageOf(m) >= 4 {
      FixedAfter(site, files, j, m, site.config);
    }
    if j.preferences.Some? {
      var p := j.preferences.value.path;
      assert p in Fixed(site, j);
      if StageOf(m) <= 2 {
        FixedBefore(site, files, j, m, p);
      } else if StageOf(m) >= 4 {
        FixedAfter(site, files, j, m, p);
      }
    }
  }

  lemma PointedFixed(site: Site, files: Files, j: Journal, k: nat)
    requires WellPlanned(site, files, j) && k <= |Databases(site, j.preview, j.entries.value)|
    ensures forall p :: p in Fixed(site, j) ==>
              && (p in Pointed(site, files, j, k) <==> p in files)
              && (p in files ==> Pointed(site, files, j, k)[p] == files[p])
  {
    CopiedClear(site, files, j, |j.entries.value|);
    CopyAt(files, j.entries.value, |j.entries.value|);
    PointedAt(site, files, j, k);
    assert forall p :: p in Databases(site, j.preview, j.entries.value) ==>
           p in Rewritten(site, j.preview, j.entries.value);
  }
}
