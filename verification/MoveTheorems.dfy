/** What a storage move promises, about every moment of it and about its end. By
    `StorageMove.MoveThroughCrashes` every disk that any number of crashed or refused starts can leave
    is that of a reachable moment or, where a fetch folder holds the journal, a stalled one, so each
    statement here holds of every reachable disk, also of those from which no start gets any further. */
module MoveTheorems {
  import opened Wrappers
  import opened Paths
  import opened Documents
  import opened StorageTypes
  import opened Remapping
  import opened MoveSpec
  import opened MoveChain
  import opened MoveTrack
  import opened MoveJournal
  import opened MovePlan
  import opened MoveOutlook
  import opened StorageMove

  /** The source still holds its planned content. */
  ghost predicate SourceKept(base: Files, disk: Files, e: Entry) {
    e.source in base && e.source in disk && disk[e.source] == base[e.source] && Digest(disk[e.source]) == e.hash
  }

  /** The destination holds the source's content, updated where it is a database or the index, and its
      digest is the one the journal recorded. */
  ghost predicate CopyKept(site: Site, base: Files, plan: Journal, disk: Files, e: Entry, recorded: Entry)
    requires plan.entries.Some? && e.source in base
  {
    && e.destination in disk
    && disk[e.destination] == Updated(site, plan, e.destination, base[e.source])
    && recorded.destinationHash == Some(Digest(disk[e.destination]))
  }

  /** The bodies from the cutover on keep what is neither a fixed file nor a deleted source. */
  lemma AfterCutover(site: Site, base: Files, plan: Journal, m: Moment, p: Path)
    requires WellPlanned(site, base, plan) && ValidMoment(site, plan, m) && (m.Deleting? || m.Finished?)
    ensures p !in Sources(plan.entries.value) && p !in Fixed(site, plan) ==>
              && (p in DiskAt(site, base, plan, m) <==> p in Repaired(site, base, plan))
              && (p in DiskAt(site, base, plan, m) ==> DiskAt(site, base, plan, m)[p] == Repaired(site, base, plan)[p])
    ensures p in DiskAt(site, base, plan, m) && p != site.Pending() ==>
              && p in Committed(site, base, plan, 3)
              && DiskAt(site, base, plan, m)[p] == Committed(site, base, plan, 3)[p]
    ensures m.Finished? && p in Sources(plan.entries.value) ==> p !in DiskAt(site, base, plan, m)
    ensures p in Committed(site, base, plan, 3) && p !in DiskAt(site, base, plan, m) ==>
            p in Sources(plan.entries.value)
  {
    var entries := plan.entries.value;
    var k := if m.Deleting? then m.k else |entries|;
    CommittedAt(site, base, plan, 3);
    DeleteAt(Committed(site, base, plan, 3), entries, k);
    CopiedClear(site, base, plan, 0);
    assert Sources(entries[..k]) <= Sources(entries);
    assert entries[..|entries|] == entries;
    assert site.Pending() in Fixed(site, plan);
  }

  /** In a fetch folder: the source has been rewritten where it lies, and the destination holds it as it
      was. */
  ghost predicate OriginalKept(site: Site, base: Files, plan: Journal, disk: Files, e: Entry)
    requires plan.entries.Some? && e.source in base
  {
    && plan.preview.operation == MoveFetch && e.source in Rewritten(site, plan.preview, plan.entries.value)
    && e.source in disk && disk[e.source] == Updated(site, plan, e.source, base[e.source])
    && e.destination in disk && disk[e.destination] == base[e.source] && Digest(disk[e.destination]) == e.hash
  }

  /** In a fetch move nothing at the destination is rewritten. */
  lemma FetchedCopy(site: Site, base: Files, plan: Journal, i: nat, k: nat)
    requires WellPlanned(site, base, plan) && plan.preview.operation == MoveFetch && i < |plan.entries.value|
    requires k <= |Databases(site, plan.preview, plan.entries.value)|
    ensures var e := plan.entries.value[i];
            && e.source in base && Digest(base[e.source]) == e.hash
            && e.destination in Pointed(site, base, plan, k)
               && Pointed(site, base, plan, k)[e.destination] == base[e.source]
            && e.destination in Repaired(site, base, plan)
               && Repaired(site, base, plan)[e.destination] == base[e.source]
            && e.destination !in Fixed(site, plan)
  {
    var entries, e := plan.entries.value, plan.entries.value[i];
    DestinationAt(site, base, plan, i);
    PointedAt(site, base, plan, k);
    assert e in entries && e.destination in Destinations(entries);
    assert forall p :: p in Databases(site, plan.preview, entries) ==> p in Rewritten(site, plan.preview, entries);
  }

  /** Before the cutover every source is kept, or was copied before it was rewritten. */
  lemma SourceBeforeCutover(site: Site, base: Files, plan: Journal, m: Moment, i: nat)
    requires WellPlanned(site, base, plan) && ValidMoment(site, plan, m) && StageOf(m) <= 2
    requires i < |plan.entries.value|
    ensures var e, disk := plan.entries.value[i], DiskAt(site, base, plan, m);
            e.source in base && (SourceKept(base, disk, e) || OriginalKept(site, base, plan, disk, e))
  {
    var e := plan.entries.value[i];
    SourceUntilCutover(site, base, plan, m, i);
    if plan.preferences.Some? && plan.preferences.value.path == e.source {
      FixedBefore(site, base, plan, m, e.source);
    }
    if plan.preview.operation == MoveFetch && Updated(site, plan, e.source, base[e.source]) != base[e.source]
      && !m.Copying? {
      OnlyRewrittenChange(site, plan, e.source, base[e.source]);
      FetchedCopyAt(site, base, plan, m, i);
    }
    hide WellPlanned, DiskAt, Updated, Rewritten;
  }

  lemma SourceUntilCutover(site: Site, base: Files, plan: Journal, m: Moment, i: nat)
    requires WellPlanned(site, base, plan) && ValidMoment(site, plan, m) && StageOf(m) <= 2
    requires i < |plan.entries.value|
    ensures var e, disk := plan.entries.value[i], DiskAt(site, base, plan, m);
            && e.source in base && Digest(base[e.source]) == e.hash && e.source in disk
            && (disk[e.source] == base[e.source] || disk[e.source] == Updated(site, plan, e.source, base[e.source]))
            && (m.Copying? || plan.preview.operation != MoveFetch ==> disk[e.source] == base[e.source])
  {
    var e := plan.entries.value[i];
    assert e in plan.entries.value;
    SourceAt(site, base, plan, e);
    assert site.Pending() in Companions(site);
    match m
    case Copying(k) => CopyAt(base, plan.entries.value, k);
    case Rewriting(k) =>
    case Referencing(_) =>
  }

  lemma FetchedCopyAt(site: Site, base: Files, plan: Journal, m: Moment, i: nat)
    requires WellPlanned(site, base, plan) && ValidMoment(site, plan, m) && 1 <= StageOf(m) <= 2
    requires i < |plan.entries.value| && plan.preview.operation == MoveFetch
    ensures var e, disk := plan.entries.value[i], DiskAt(site, base, plan, m);
            && e.source in base && Digest(base[e.source]) == e.hash
            && e.destination in disk && disk[e.destination] == base[e.source]
  {
    FetchedCopy(site, base, plan, i, if m.Rewriting? then m.k else |Databases(site, plan.preview, plan.entries.value)|);
    assert site.Pending() in Fixed(site, plan);
  }

  /** During the cutover every copy is kept with its recorded digest, and no source is gone. */
  lemma CopyAtCutover(site: Site, base: Files, plan: Journal, m: Moment, i: nat)
    requires WellPlanned(site, base, plan) && ValidMoment(site, plan, m) && m.Committing?
    requires i < |plan.entries.value|
    ensures var e, disk := plan.entries.value[i], DiskAt(site, base, plan, m);
            && e.source in base && e.source in disk
            && CopyKept(site, base, plan, disk, e, JournalAt(site, base, plan, m).entries.value[i])
  {
    var e := plan.entries.value[i];
    assert e in plan.entries.value;
    SourceAt(site, base, plan, e);
    DestinationAt(site, base, plan, i);
    RepairedHash(site, base, plan, i);
    CommittedAt(site, base, plan, m.step);
    RepairedFixed(site, base, plan);
    assert site.Pending() in Fixed(site, plan);
    hide WellPlanned, Committed, Repaired, RepairedEntries, Updated, PointedEntries;
  }

  lemma OnlyRewrittenChange(site: Site, plan: Journal, p: Path, content: Content)
    requires plan.entries.Some? && Updated(site, plan, p, content) != content
    ensures p in Rewritten(site, plan.preview, plan.entries.value)
  {
  }

  /** No loss: at every moment each planned file has its source as it was planned, or its copy as it
      was verified, or, when a fetch move rewrites it where it lies, its copy as it was planned; and a
      source is only gone once the config is the new one. */
  lemma NoLoss(site: Site, base: Files, plan: Journal, m: Moment, i: nat)
    requires WellPlanned(site, base, plan) && ValidMoment(site, plan, m) && i < |plan.entries.value|
    ensures var e, disk := plan.entries.value[i], DiskAt(site, base, plan, m);
            && e.source in base
            && (|| SourceKept(base, disk, e)
                || CopyKept(site, base, plan, disk, e, JournalAt(site, base, plan, m).entries.value[i])
                || OriginalKept(site, base, plan, disk, e))
            && (e.source !in disk ==>
                  && Switched(m)
                  && site.config in disk && disk[site.config] == plan.configAfter.value
                  && CopyKept(site, base, plan, disk, e, JournalAt(site, base, plan, m).entries.value[i]))
  {
    var e := plan.entries.value[i];
    if m.Deleting? || m.Finished? {
      DestinationAt(site, base, plan, i);
      VerifiedHash(site, base, plan, i);
      AfterCutover(site, base, plan, m, e.destination);
      FixedAt(site, base, plan, m);
    } else if m.Committing? {
      CopyAtCutover(site, base, plan, m, i);
    } else {
      SourceBeforeCutover(site, base, plan, m, i);
    }
  }

  /** A move that stalls in front of its own journal has lost nothing at all, and never switches. */
  lemma StalledKeepsAll(site: Site, base: Files, q: Journal, plan: Journal, m: Moment, disk: Files)
    requires site.Valid() && Holds(site, base, q, Planned(plan, m), disk) && !JournalClear(site, q)
    ensures forall p :: p in base ==> p in disk && disk[p] == base[p]
    ensures site.config in disk && disk[site.config] == plan.configBefore
    ensures m.Copying?
  {
    StalledReads(site, base, plan, m, disk);
  }

  /** The preferences hold their new text, or were moved along and are gone. */
  ghost predicate PreferencesSwitched(plan: Journal, disk: Files)
    requires plan.preferences.Some? && plan.entries.Some?
  {
    var p := plan.preferences.value.path;
    if p in disk then Some(disk[p]) == plan.preferences.value.after else p in Sources(plan.entries.value)
  }

  /** Cutover order: the config is always one of its two texts, and the new one only shows when every
      copy is in place with its database paths and references updated and the preferences are already
      switched, also when the journal does not yet say so. */
  lemma CutoverOrder(site: Site, base: Files, plan: Journal, m: Moment)
    requires WellPlanned(site, base, plan) && ValidMoment(site, plan, m)
    ensures var disk := DiskAt(site, base, plan, m);
            && site.config in disk
               && (disk[site.config] == plan.configBefore || disk[site.config] == plan.configAfter.value)
            && (disk[site.config] != plan.configBefore ==>
                  && (forall i :: 0 <= i < |plan.entries.value| ==>
                        var e := plan.entries.value[i];
                        && e.source in base && e.destination in disk
                        && disk[e.destination] == Updated(site, plan, e.destination, base[e.source]))
                  && (forall p ::
                     p in base
                       && p in Rewritten(site, plan.preview, plan.entries.value) - Sources(plan.entries.value) ==>
                        p in disk && disk[p] == Updated(site, plan, p, base[p]))
                  && (plan.preferences.Some? ==> PreferencesSwitched(plan, disk))
                  && site.Backup() in disk)
  {
    FixedAt(site, base, plan, m);
    var disk := DiskAt(site, base, plan, m);
    if disk[site.config] != plan.configBefore {
      CommittedAt(site, base, plan, 3);
      RepairedAt(site, base, plan);
      CopyAt(base, plan.entries.value, |plan.entries.value|);
      BackupKept(site, base, plan, m);
      forall i | 0 <= i < |plan.entries.value|
        ensures var e := plan.entries.value[i];
                e.source in base && e.destination in disk
                  && disk[e.destination] == Updated(site, plan, e.destination, base[e.source])
      {
        DestinationAt(site, base, plan, i);
        if !m.Committing? { AfterCutover(site, base, plan, m, plan.entries.value[i].destination); }
        assert site.Pending() in Fixed(site, plan);
      }
      forall p | p in base && p in Rewritten(site, plan.preview, plan.entries.value) - Sources(plan.entries.value)
        ensures p in disk && disk[p] == Updated(site, plan, p, base[p])
      {
        if !m.Committing? { AfterCutover(site, base, plan, m, p); }
        assert site.Pending() in Fixed(site, plan);
      }
    }
  }

  lemma BackupKept(site: Site, base: Files, plan: Journal, m: Moment)
    requires WellPlanned(site, base, plan) && ValidMoment(site, plan, m) && Switched(m)
    ensures site.Backup() in DiskAt(site, base, plan, m)
  {
    ReservedNamesDiffer(site);
    CommittedAt(site, base, plan, 3);
    if !m.Committing? {
      AfterCutover(site, base, plan, m, site.Backup());
      assert site.Backup() in Companions(site);
    }
  }

  /** A file that is not moved, not rewritten in place and not one of the fixed files is the same at
      every moment. */
  lemma Untouched(site: Site, base: Files, plan: Journal, m: Moment, p: Path)
    requires WellPlanned(site, base, plan) && ValidMoment(site, plan, m) && p in base
    requires p !in Fixed(site, plan) && p !in Sources(plan.entries.value)
    requires p !in Rewritten(site, plan.preview, plan.entries.value)
    ensures p in DiskAt(site, base, plan, m) && DiskAt(site, base, plan, m)[p] == base[p]
  {
    var entries := plan.entries.value;
    assert site.Pending() in Fixed(site, plan);
    CopyAt(base, entries, |entries|);
    RepairedAt(site, base, plan);
    assert forall d :: d in Databases(site, plan.preview, entries) ==> d in Rewritten(site, plan.preview, entries);
    match m
    case Copying(k) => CopyAt(base, entries, k);
    case Rewriting(k) => PointedAt(site, base, plan, k);
    case Referencing(_) => PointedAt(site, base, plan, |Databases(site, plan.preview, entries)|);
    case Committing(step) => CommittedAt(site, base, plan, step);
    case Deleting(_) => CommittedAt(site, base, plan, 3); AfterCutover(site, base, plan, m, p);
    case Finished => CommittedAt(site, base, plan, 3); AfterCutover(site, base, plan, m, p);
  }

  /** Nothing that was at the destination before the move is ever changed or removed. */
  lemma DestinationPreserved(site: Site, base: Files, plan: Journal, m: Moment, p: Path)
    requires WellPlanned(site, base, plan) && ValidMoment(site, plan, m)
    requires p in base && plan.preview.destination <= p
    ensures p in DiskAt(site, base, plan, m) && DiskAt(site, base, plan, m)[p] == base[p]
  {
    forall e | e in plan.entries.value ensures e.source != p {
      if e.source == p {
        CommonDescendant(plan.preview.source, plan.preview.destination, p);
      }
    }
    Untouched(site, base, plan, m, p);
  }

  /** The end of a move, file by file: the sources and the journal are gone, every copy is there and
      up to date, the config and preferences are switched, the old config is backed up, and nothing
      else has changed. */
  lemma FinalDisk(site: Site, base: Files, plan: Journal)
    requires WellPlanned(site, base, plan)
    ensures var disk, entries := DiskAt(site, base, plan, Finished), plan.entries.value;
            && disk.Keys == base.Keys - Sources(entries) + Destinations(entries) + {site.Backup()}
                            + (PreferencesOf(plan) - Sources(entries))
            && (forall i :: 0 <= i < |entries| ==>
                  entries[i].source in base && entries[i].destination in disk
                  && disk[entries[i].destination]
                     == Updated(site, plan, entries[i].destination, base[entries[i].source]))
            && (forall p ::
               p in base && p !in Sources(entries) && p !in Destinations(entries) && p !in Fixed(site, plan) ==>
                  p in disk && disk[p] == Updated(site, plan, p, base[p]))
            && site.config in disk && disk[site.config] == plan.configAfter.value
            && (plan.preferences.Some? && plan.preferences.value.path !in Sources(entries) ==>
                  && plan.preferences.value.path in disk
                  && Some(disk[plan.preferences.value.path]) == plan.preferences.value.after)
            && disk[site.Backup()] == if site.Backup() in base then base[site.Backup()] else plan.configBefore
  {
    FinalKeys(site, base, plan);
    FinalFixed(site, base, plan);
    FixedAt(site, base, plan, Finished);
    forall i | 0 <= i < |plan.entries.value|
      ensures var e, disk := plan.entries.value[i], DiskAt(site, base, plan, Finished);
              e.source in base && e.destination in disk
              && disk[e.destination] == Updated(site, plan, e.destination, base[e.source])
    {
      DestinationAt(site, base, plan, i);
      VerifiedHash(site, base, plan, i);
      AfterCutover(site, base, plan, Finished, plan.entries.value[i].destination);
    }
    forall p | p in base && p !in Sources(plan.entries.value) && p !in Destinations(plan.entries.value)
      && p !in Fixed(site, plan)
      ensures var disk := DiskAt(site, base, plan, Finished); p in disk && disk[p] == Updated(site, plan, p, base[p])
    {
      CopyAt(base, plan.entries.value, |plan.entries.value|);
      RepairedAt(site, base, plan);
      AfterCutover(site, base, plan, Finished, p);
    }
  }

  /** The preferences, if the move has any. */
  function PreferencesOf(plan: Journal): set<Path> {
    if plan.preferences.Some? then {plan.preferences.value.path} else {}
  }

  lemma FinalFixed(site: Site, base: Files, plan: Journal)
    requires WellPlanned(site, base, plan)
    ensures var disk := DiskAt(site, base, plan, Finished);
            && site.Backup() in disk
            && disk[site.Backup()] == if site.Backup() in base then base[site.Backup()] else plan.configBefore
  {
    BackupKept(site, base, plan, Finished);
    ReservedNamesDiffer(site);
    CommittedAt(site, base, plan, 3);
    AfterCutover(site, base, plan, Finished, site.Backup());
  }

  lemma CommittedKeys(site: Site, base: Files, plan: Journal)
    requires WellPlanned(site, base, plan)
    ensures Committed(site, base, plan, 3).Keys == Copied(base, plan).Keys + {site.Backup()} + PreferencesOf(plan)
  {
    RepairedAt(site, base, plan);
    CommittedAt(site, base, plan, 3);
    RepairedFixed(site, base, plan);
    CopiedClear(site, base, plan, |plan.entries.value|);
    CopyAt(base, plan.entries.value, |plan.entries.value|);
    assert site.config in Companions(site) && site.Backup() in Companions(site);
    hide Repaired, Committed, Copied, InPlaceOk, ManifestOk, CopyTo;
  }

  lemma FinalIsCommitted(site: Site, base: Files, plan: Journal)
    requires site.Valid() && plan.entries.Some?
    ensures DiskAt(site, base, plan, Finished) == Committed(site, base, plan, 3) - Sources(plan.entries.value)
  {
    hide Committed, DeleteTo;
    var entries := plan.entries.value;
    DeleteAt(Committed(site, base, plan, 3), entries, |entries|);
    assert entries[..|entries|] == entries;
  }

  lemma SourcesApart(site: Site, base: Files, plan: Journal)
    requires WellPlanned(site, base, plan)
    ensures Destinations(plan.entries.value) !! Sources(plan.entries.value)
            && site.Backup() !in Sources(plan.entries.value)
  {
    assert site.Backup() in Companions(site);
  }

  lemma FinalKeys(site: Site, base: Files, plan: Journal)
    requires WellPlanned(site, base, plan)
    ensures DiskAt(site, base, plan, Finished).Keys
            == base.Keys - Sources(plan.entries.value) + Destinations(plan.entries.value) + {site.Backup()}
               + (PreferencesOf(plan) - Sources(plan.entries.value))
  {
    CopiedKeys(base, plan.entries.value);
    CommittedKeys(site, base, plan);
    FinalIsCommitted(site, base, plan);
    SourcesApart(site, base, plan);
    hide Committed, DiskAt, Sources, Destinations, CopyTo, WellPlanned, PreferencesOf;
    RemoveThenAdd(base.Keys, Destinations(plan.entries.value), Sources(plan.entries.value), site.Backup(),
      PreferencesOf(plan));
  }

  lemma RemoveThenAdd<T>(kept: set<T>, added: set<T>, removed: set<T>, x: T, more: set<T>)
    requires added !! removed && x !in removed
    ensures kept + added + {x} + more - removed == kept - removed + added + {x} + (more - removed)
  {
  }

  // ---- stored paths still lead to the same content ----

  /** This path leads to the content that p led to before the move. */
  predicate LeadsTo(site: Site, base: Files, plan: Journal, disk: Files, q: Path, p: Path)
    requires plan.entries.Some? && p in base
  {
    q in disk && disk[q] == Updated(site, plan, q, base[p])
  }

  /** At the end of the move this path leads to this content, updated as the content of that place is. */
  ghost predicate FollowsTo(site: Site, base: Files, plan: Journal, q: Path, content: Content)
    requires site.Valid() && plan.entries.Some?
  {
    var disk := DiskAt(site, base, plan, Finished);
    q in disk && disk[q] == Updated(site, plan, q, content)
  }

  lemma {:induction false} FindMoved(entries: seq<Entry>, i: nat)
    requires i < |entries| && forall a, b :: 0 <= a < b < |entries| ==> entries[a].source != entries[b].source
    ensures FindEntry(entries, entries[i].source) == Some(entries[i])
  {
    if i > 0 {
      FindMoved(entries[1..], i - 1);
    }
  }

  /** Following a path before the move, or its remapped form after it, leads to the same content, if the
      file was moved or lies outside the source. */
  lemma StoredPathFollows(site: Site, base: Files, plan: Journal, p: Path)
    requires WellPlanned(site, base, plan) && p in base
    requires p in Sources(plan.entries.value) || (!(plan.preview.source <= p) && p !in Fixed(site, plan))
    ensures var disk, q := DiskAt(site, base, plan, Finished), Remap(p, plan.preview, plan.entries.value);
            q in disk && disk[q] == Updated(site, plan, q, base[p])
  {
    if p in Sources(plan.entries.value) {
      var i :| 0 <= i < |plan.entries.value| && plan.entries.value[i].source == p;
      MovedPathFollows(site, base, plan, i);
    } else {
      OutsidePathStays(site, base, plan, p);
    }
  }

  lemma MovedPathFollows(site: Site, base: Files, plan: Journal, i: nat)
    requires WellPlanned(site, base, plan) && i < |plan.entries.value|
    ensures var e, disk := plan.entries.value[i], DiskAt(site, base, plan, Finished);
            && Remap(e.source, plan.preview, plan.entries.value) == e.destination
            && e.source in base && e.destination in disk
            && disk[e.destination] == Updated(site, plan, e.destination, base[e.source])
  {
    FinalDisk(site, base, plan);
    FindMoved(plan.entries.value, i);
  }

  lemma OutsidePathStays(site: Site, base: Files, plan: Journal, p: Path)
    requires WellPlanned(site, base, plan) && p in base && p !in Fixed(site, plan) && !(plan.preview.source <= p)
    ensures var disk := DiskAt(site, base, plan, Finished);
            && Remap(p, plan.preview, plan.entries.value) == p
            && p in disk && disk[p] == Updated(site, plan, p, base[p])
  {
    RemapTouchesOnlyTheSource(p, plan.preview, plan.entries.value);
    FinalDisk(site, base, plan);
    SourcesBelow(plan, p);
    if p in Destinations(plan.entries.value) {
      var i :| 0 <= i < |plan.entries.value| && plan.entries.value[i].destination == p;
      IdenticalCopy(site, base, plan, i);
    }
  }

  lemma SourcesBelow(plan: Journal, p: Path)
    requires plan.entries.Some? && Rooted(plan.preview, plan.entries.value) && !(plan.preview.source <= p)
    ensures p !in Sources(plan.entries.value)
  {
  }

  lemma IdenticalCopy(site: Site, base: Files, plan: Journal, i: nat)
    requires WellPlanned(site, base, plan) && i < |plan.entries.value|
    ensures var e := plan.entries.value[i];
            e.source in base && (e.destination in base ==> base[e.destination] == base[e.source])
  {
    assert plan.entries.value[i] in plan.entries.value;
  }

  /** A path to a file that stays behind below the source is redirected all the same: it still leads to
      that content if and only if the destination held the same content under that name, or some moved
      file with that content lands there. */
  lemma RetainedPathDangles(site: Site, base: Files, plan: Journal, p: Path)
    requires WellPlanned(site, base, plan) && p in base
    requires plan.preview.source <= p && p !in Sources(plan.entries.value)
    ensures var q := Remap(p, plan.preview, plan.entries.value);
            && q == TargetOf(plan.preview, p)
            && (FollowsTo(site, base, plan, q, base[p])
                <==> || (q in base && base[q] == base[p])
                     || exists e :: e in plan.entries.value && e.destination == q
                          && Updated(site, plan, q, base[e.source]) == Updated(site, plan, q, base[p]))
  {
    var entries, q := plan.entries.value, TargetOf(plan.preview, p);
    RetainedGoes(site, base, plan, p);
    if q in base {
      DestinationPreserved(site, base, plan, Finished, q);
      NotRewrittenThere(site, base, plan, q);
    }
    if q in Destinations(entries) {
      var i: nat :| i < |entries| && entries[i].destination == q;
      MovedPathFollows(site, base, plan, i);
      DestinationsOnce(site, base, plan);
      OnlyOneLands(entries, i);
      assert entries[i] in entries;
    }
    hide WellPlanned, DiskAt, Updated, Remap;
    assert forall e :: e in entries && e.destination == q ==> q in Destinations(entries);
  }

  lemma DestinationsOnce(site: Site, base: Files, plan: Journal)
    requires WellPlanned(site, base, plan)
    ensures forall a, b :: 0 <= a < b < |plan.entries.value| ==>
              plan.entries.value[a].destination != plan.entries.value[b].destination
  {
  }

  /** Where the path of a retained file is redirected to, and when anything is there. */
  lemma RetainedGoes(site: Site, base: Files, plan: Journal, p: Path)
    requires WellPlanned(site, base, plan) && plan.preview.source <= p && p !in Sources(plan.entries.value)
    ensures var q := TargetOf(plan.preview, p);
            && Remap(p, plan.preview, plan.entries.value) == q && plan.preview.destination <= q
            && (q in DiskAt(site, base, plan, Finished) <==> q in base || q in Destinations(plan.entries.value))
  {
    var entries, q := plan.entries.value, TargetOf(plan.preview, p);
    var found := FindEntry(entries, p);
    assert found.Some? ==> p in Sources(entries);
    FinalKeys(site, base, plan);
    RemapTouchesOnlyTheSource(p, plan.preview, []);
    assert q !in Fixed(site, plan);
    forall e | e in plan.entries.value ensures e.source != q { }
  }

  /** What was at the destination before the move is not rewritten. */
  lemma NotRewrittenThere(site: Site, base: Files, plan: Journal, q: Path)
    requires WellPlanned(site, base, plan) && q in base && plan.preview.destination <= q
    ensures forall content :: Updated(site, plan, q, content) == content
  {
    var entries := plan.entries.value;
    assert q !in Rewritten(site, plan.preview, entries);
    assert forall d :: d in Databases(site, plan.preview, entries) ==> d in Rewritten(site, plan.preview, entries);
  }

  lemma OnlyOneLands(entries: seq<Entry>, i: nat)
    requires i < |entries|
    requires forall a, b :: 0 <= a < b < |entries| ==> entries[a].destination != entries[b].destination
    ensures forall e :: e in entries && e.destination == entries[i].destination ==> e == entries[i]
  {
  }

  /** For a planned move, told before it: the path of a retained file still leads to its content if and
      only if the destination holds the same content under that name already. */
  lemma RetainedPathExactly(site: Site, files: Files, q: Journal, uuids: nat -> string, plan: Journal, p: Path)
    requires site.Valid() && plan.entries.Some?
    requires Orderly(site, files, q) && JournalClear(site, q) && Plannable(site, files, q)
    requires FreshQueue(q) && PlannedFrom(q, plan)
    requires FreshUuids(site, files, uuids) && Manifest(site, files, q.preview, uuids, plan.entries.value)
    requires p in files && p != site.Pending() && Inside(p, q.preview.source) && p !in Sources(plan.entries.value)
    ensures var to := TargetOf(q.preview, p);
            && Remap(p, plan.preview, plan.entries.value) == to
            && (FollowsTo(site, files - {site.Pending()}, plan, to, files[p]) <==> to in files && files[to] == files[p])
  {
    hide Orderly, Accepted, FreshUuids, Manifest, WellPlanned, PlannedFrom, DiskAt, Updated, Remap, JournalClear,
      FreshManifest;
    var base, to := files - {site.Pending()}, TargetOf(q.preview, p);
    PlanKeepsReport(q, plan);
    PlanIsWell(site, files, q, uuids, plan);
    RetainedPathDangles(site, base, plan, p);
    RetainedNotLanded(site, files, q.preview, uuids, plan.entries.value, p);
    JournalOutside(site, files, q);
    TargetKeepsName(q.preview, p);
    assert forall e :: e in plan.entries.value && e.destination == to ==> to in Destinations(plan.entries.value);
  }

  lemma JournalOutside(site: Site, files: Files, q: Journal)
    requires Orderly(site, files, q) && Accepted(site, files, q.preview, q.merge)
    ensures !(q.preview.destination <= site.Pending())
  {
    FixedOutsideDestination(site, files, q, site.Pending());
  }

  // ---- what databases and index say after the move ----

  /** Following these paths after the move leads to the content they led to before. */
  predicate Followable(site: Site, base: Files, plan: Journal, p: Path)
    requires site.Valid() && plan.entries.Some?
  {
    p in base && (p in Sources(plan.entries.value) || (!(plan.preview.source <= p) && p !in Fixed(site, plan)))
  }

  /** A database that is not itself taken away by a fetch move is there after the move, row by row
      rewritten. */
  lemma DatabaseAfter(site: Site, base: Files, plan: Journal, d: Path)
    requires WellPlanned(site, base, plan) && Finishable(site, base, plan) && plan.preview.operation != SelectData
    requires d in Databases(site, plan.preview, plan.entries.value) && d !in Sources(plan.entries.value)
    requires d in Copied(base, plan)
    ensures var disk, before := DiskAt(site, base, plan, Finished), Copied(base, plan)[d];
            && before.Database? && Rewritable(before.rows)
            && d in disk && disk[d] == Database(RewriteRows(before.rows, plan.preview, plan.entries.value))
  {
    var entries, databases := plan.entries.value, Databases(site, plan.preview, plan.entries.value);
    assert d in Rewritten(site, plan.preview, entries);
    assert d !in Fixed(site, plan);
    RepairedAt(site, base, plan);
    CommittedAt(site, base, plan, 3);
    AfterCutover(site, base, plan, Finished, d);
    var i :| 0 <= i < |databases| && databases[i] == d;
    assert !RewriteFails(Copied(base, plan), databases[i]);
  }

  /** Every path in a database of the installation, before and after the move, names the same content:
      path columns, opaque checkpoints, and every string at every address of a JSON column. */
  lemma DatabasePathsFollow(site: Site, base: Files, plan: Journal, d: Path, r: nat, address: seq<Step>)
    requires WellPlanned(site, base, plan) && Finishable(site, base, plan) && plan.preview.operation != SelectData
    requires d in Databases(site, plan.preview, plan.entries.value) && d !in Sources(plan.entries.value)
    requires d in Copied(base, plan) && Copied(base, plan)[d].Database? && r < |Copied(base, plan)[d].rows|
    ensures var disk, before := DiskAt(site, base, plan, Finished), Copied(base, plan)[d].rows[r];
            && d in disk && disk[d].Database? && r < |disk[d].rows|
            && var after := disk[d].rows[r];
            && (before.PathCell? && Followable(site, base, plan, before.path) ==>
                  after.PathCell? && LeadsTo(site, base, plan, disk, after.path, before.path))
            && (before.CheckpointCell? && before.json.Opaque? && Followable(site, base, plan, before.json.text) ==>
                  after.CheckpointCell? && after.json.Opaque?
                  && LeadsTo(site, base, plan, disk, after.json.text, before.json.text))
            && ((before.JsonCell? || before.CheckpointCell?) && before.json.Parsed? ==>
                  && (after.JsonCell? <==> before.JsonCell?) && (after.CheckpointCell? <==> before.CheckpointCell?)
                  && after.json.Parsed?
                  && var was, now := At(before.json.value, address), At(after.json.value, address);
                  && (now.Some? <==> was.Some?)
                  && (was.Some? && was.value.Text? && Followable(site, base, plan, was.value.text) ==>
                        now.value.Text? && LeadsTo(site, base, plan, disk, now.value.text, was.value.text)))
            && (before.OtherCell? ==> after == before)
  {
    DatabaseAfter(site, base, plan, d);
    var before := Copied(base, plan)[d].rows[r];
    if before.PathCell? && Followable(site, base, plan, before.path) {
      StoredPathFollows(site, base, plan, before.path);
    } else if before.CheckpointCell? && before.json.Opaque? && Followable(site, base, plan, before.json.text) {
      StoredPathFollows(site, base, plan, before.json.text);
    } else if (before.JsonCell? || before.CheckpointCell?) && before.json.Parsed? {
      RewriteAt(before.json.value, plan.preview, plan.entries.value, address);
      var was := At(before.json.value, address);
      if was.Some? && was.value.Text? && Followable(site, base, plan, was.value.text) {
        StoredPathFollows(site, base, plan, was.value.text);
      }
    }
  }

  /** This entry has put a blob of that digest here. */
  predicate HoldsBlob(site: Site, base: Files, plan: Journal, disk: Files, e: Entry, hash: Hash, q: Path)
    requires plan.entries.Some?
  {
    && e.hash == hash && e.destination == q
    && e.source in base && Digest(base[e.source]) == hash && LeadsTo(site, base, plan, disk, q, e.source)
  }

  /** The index knows the same blobs as before; one that was moved is referred to at a destination that
      holds the content of its digest, and every other reference is as it was. */
  ghost predicate StillRefers(site: Site, base: Files, plan: Journal, disk: Files, before: Content, after: Content,
      hash: Hash)
    requires plan.entries.Some?
  {
    && before.Transport? && after.Transport? && after.references.Keys == before.references.Keys
    && (hash in before.references ==>
          var q := after.references[hash];
          || (exists e :: e in plan.entries.value && HoldsBlob(site, base, plan, disk, e, hash, q))
          || ((forall e :: e in plan.entries.value ==> e.hash != hash) && q == before.references[hash]))
  }

  /** At the end of the move the index is there and still refers to what it referred to. */
  ghost predicate IndexFollows(site: Site, base: Files, plan: Journal, index: Path, hash: Hash)
    requires site.Valid() && plan.entries.Some?
  {
    var disk := DiskAt(site, base, plan, Finished);
    && index in Copied(base, plan) && index in disk
    && StillRefers(site, base, plan, disk, Copied(base, plan)[index], disk[index], hash)
  }

  lemma RepairLeads(site: Site, base: Files, plan: Journal, references: map<Hash, Path>, hash: Hash)
    requires WellPlanned(site, base, plan)
    ensures StillRefers(site, base, plan, DiskAt(site, base, plan, Finished), Transport(references),
                        Transport(Repair(references, plan.entries.value)), hash)
  {
    var entries, disk := plan.entries.value, DiskAt(site, base, plan, Finished);
    if hash in references {
      RepairAt(references, entries, hash);
      var q := Repair(references, entries)[hash];
      if exists e :: e in entries && e.hash == hash && q == e.destination {
        var e :| e in entries && e.hash == hash && q == e.destination;
        BlobHeld(site, base, plan, e);
      }
    }
    hide WellPlanned, DiskAt, HoldsBlob, Repair;
  }

  lemma BlobHeld(site: Site, base: Files, plan: Journal, e: Entry)
    requires WellPlanned(site, base, plan) && e in plan.entries.value
    ensures HoldsBlob(site, base, plan, DiskAt(site, base, plan, Finished), e, e.hash, e.destination)
  {
    var i :| 0 <= i < |plan.entries.value| && plan.entries.value[i] == e;
    SourceAt(site, base, plan, e);
    MovedPathFollows(site, base, plan, i);
  }

  lemma IndexAfter(site: Site, base: Files, plan: Journal, index: Path)
    requires site.Valid() && plan.entries.Some? && plan.preview.operation != SelectData
    requires WellPlanned(site, base, plan) && Finishable(site, base, plan)
    requires index == TransportIndex(site, plan.preview, plan.entries.value)
    requires index !in Sources(plan.entries.value) && index in Copied(base, plan)
    ensures var disk, before := DiskAt(site, base, plan, Finished), Copied(base, plan)[index];
            && before.Transport? && index in disk
            && disk[index] == Transport(Repair(before.references, plan.entries.value))
  {
    assert index in Rewritten(site, plan.preview, plan.entries.value);
    assert index !in Fixed(site, plan);
    RepairedAt(site, base, plan);
    CommittedAt(site, base, plan, 3);
    AfterCutover(site, base, plan, Finished, index);
  }

  /** After the move every reference of the transport index leads where it should. */
  lemma TransportFollows(site: Site, base: Files, plan: Journal, index: Path, hash: Hash)
    requires site.Valid() && plan.entries.Some? && plan.preview.operation != SelectData
    requires WellPlanned(site, base, plan) && Finishable(site, base, plan)
    requires index == TransportIndex(site, plan.preview, plan.entries.value)
    requires index !in Sources(plan.entries.value) && index in Copied(base, plan)
    ensures IndexFollows(site, base, plan, index, hash)
  {
    hide WellPlanned, DiskAt, Finishable, Copied, Repair, StillRefers, Sources, TransportIndex;
    IndexAfter(site, base, plan, index);
    var before := Copied(base, plan)[index];
    RepairLeads(site, base, plan, before.references, hash);
    assert before == Transport(before.references);
  }

  /** A fetch move that takes a database along, because rewriting it changes nothing, ends with the
      database gone from the path that the unchanged part of the config still names. */
  lemma FetchedDatabaseIsGone(site: Site, base: Files, plan: Journal, d: Path)
    requires WellPlanned(site, base, plan) && plan.preview.operation == MoveFetch
    requires d in {site.database, site.reliquary} && d in Sources(plan.entries.value)
    ensures var disk := DiskAt(site, base, plan, Finished);
            && d in base && d !in disk
            && exists i :: 0 <= i < |plan.entries.value| && plan.entries.value[i].source == d
                 && plan.entries.value[i].destination in disk && disk[plan.entries.value[i].destination] == base[d]
  {
    var entries := plan.entries.value;
    var i: nat :| i < |entries| && entries[i].source == d;
    FinalDisk(site, base, plan);
    AfterCutover(site, base, plan, Finished, d);
    FetchedCopy(site, base, plan, i, 0);
    assert entries[i] in entries && entries[i].destination in Destinations(entries);
    assert forall p :: p in Databases(site, plan.preview, entries) ==> p in Rewritten(site, plan.preview, entries);
  }
}
