/** The phases seen from outside: what each leaves at every path, that re-running one after a crash
    adds nothing, and that none of them depends on the journal file. */
module MoveChain {
  import opened Wrappers
  import opened Paths
  import opened StorageTypes
  import opened Remapping
  import opened MoveSpec

  // ---- copying ----

  /** Copying never changes a file that is already there, on any disk. */
  lemma {:induction false} CopyKeepsFiles(files: Files, entries: seq<Entry>, k: nat)
    requires k <= |entries|
    ensures forall p :: p in files ==> p in CopyTo(files, entries, k) && CopyTo(files, entries, k)[p] == files[p]
  {
    if k > 0 {
      CopyKeepsFiles(files, entries, k - 1);
    }
  }

  /** What copying adds are the destinations of the entries copied. */
  lemma {:induction false} CopyAdds(files: Files, entries: seq<Entry>, k: nat)
    requires k <= |entries|
    ensures forall p :: p in CopyTo(files, entries, k) && p !in files ==> p in Destinations(entries[..k])
  {
    if k > 0 {
      CopyAdds(files, entries, k - 1);
      assert entries[..k] == entries[..k - 1] + [entries[k - 1]];
    }
  }

  /** A destination holds its source once its entry has been copied. */
  lemma {:induction false} CopyLands(files: Files, entries: seq<Entry>, k: nat, i: nat)
    requires ManifestOk(files, entries) && i < k <= |entries|
    ensures entries[i].source in files
    ensures entries[i].destination in CopyTo(files, entries, k)
    ensures CopyTo(files, entries, k)[entries[i].destination] == files[entries[i].source]
  {
    var e := entries[i];
    assert e in entries;
    CopyKeepsFiles(files, entries, k - 1);
    if i < k - 1 {
      CopyLands(files, entries, k - 1, i);
    } else if e.destination !in files && e.destination in CopyTo(files, entries, k - 1) {
      CopyAdds(files, entries, k - 1);
      DestinationOnce(entries, i);
    }
  }

  lemma DestinationOnce(entries: seq<Entry>, i: nat)
    requires i < |entries|
    requires forall a, b :: 0 <= a < b < |entries| ==> entries[a].destination != entries[b].destination
    ensures entries[i].destination !in Destinations(entries[..i])
  {
  }

  /** After k copies every old file is as it was, the first k destinations hold their sources, and
      there is nothing else. */
  lemma CopyAt(files: Files, entries: seq<Entry>, k: nat)
    requires ManifestOk(files, entries) && k <= |entries|
    ensures var copied := CopyTo(files, entries, k);
            && (forall p :: p in files ==> p in copied && copied[p] == files[p])
            && (forall i :: 0 <= i < k ==> entries[i].destination in copied
                                           && copied[entries[i].destination] == files[entries[i].source])
            && (forall p :: p in copied && p !in files ==> p in Destinations(entries[..k]))
  {
    CopyKeepsFiles(files, entries, k);
    CopyAdds(files, entries, k);
    forall i | 0 <= i < k
      ensures entries[i].source in files && entries[i].destination in CopyTo(files, entries, k)
      ensures CopyTo(files, entries, k)[entries[i].destination] == files[entries[i].source]
    {
      CopyLands(files, entries, k, i);
    }
  }

  lemma CopiedKeys(files: Files, entries: seq<Entry>)
    requires ManifestOk(files, entries)
    ensures CopyTo(files, entries, |entries|).Keys == files.Keys + Destinations(entries)
  {
    CopyAt(files, entries, |entries|);
    assert entries[..|entries|] == entries;
    forall p | p in Destinations(entries) ensures p in CopyTo(files, entries, |entries|) {
      var i :| 0 <= i < |entries| && entries[i].destination == p;
    }
  }

  /** Copying is not disturbed by the copies a crashed run already made. */
  lemma CopyKeepsManifest(files: Files, entries: seq<Entry>, k: nat)
    requires ManifestOk(files, entries) && k <= |entries|
    ensures ManifestOk(CopyTo(files, entries, k), entries)
  {
    CopyAt(files, entries, k);
    var copied := CopyTo(files, entries, k);
    forall e | e in entries && e.destination in copied
      ensures copied[e.destination] == copied[e.source]
    {
      if e.destination !in files {
        assert e.destination in Destinations(entries[..k]);
        var i :| 0 <= i < k && entries[i].destination == e.destination;
        var j :| 0 <= j < |entries| && entries[j] == e;
      }
    }
  }

  lemma CopyResumes(files: Files, entries: seq<Entry>, k: nat, again: nat)
    requires ManifestOk(files, entries) && k <= |entries| && again <= |entries|
    ensures CopyTo(CopyTo(files, entries, k), entries, again)
            == CopyTo(files, entries, if again > k then again else k)
  {
    if again <= k {
      CopyAbsorbs(CopyTo(files, entries, k), entries, again, files, k);
    } else {
      CopyContinues(files, entries, k, again);
    }
  }

  /** Copying what is already copied changes nothing. */
  lemma {:induction false} CopyAbsorbs(copied: Files, entries: seq<Entry>, again: nat, files: Files, k: nat)
    requires ManifestOk(files, entries) && again <= k <= |entries| && copied == CopyTo(files, entries, k)
    ensures CopyTo(copied, entries, again) == copied
  {
    if again > 0 {
      CopyAbsorbs(copied, entries, again - 1, files, k);
      CopyAt(files, entries, k);
    }
  }

  /** Copying further than a crashed run is copying from the start. */
  lemma {:induction false} CopyContinues(files: Files, entries: seq<Entry>, k: nat, again: nat)
    requires ManifestOk(files, entries) && k <= again <= |entries|
    ensures CopyTo(CopyTo(files, entries, k), entries, again) == CopyTo(files, entries, again)
    decreases again - k
  {
    if again == k {
      CopyAbsorbs(CopyTo(files, entries, k), entries, k, files, k);
    } else {
      CopyContinues(files, entries, k, again - 1);
    }
  }

  lemma CopyNeverFails(files: Files, entries: seq<Entry>, k: nat, i: nat)
    requires ManifestOk(files, entries) && k <= |entries| && i < |entries|
    ensures !CopyFails(CopyTo(files, entries, k), entries[i])
  {
    CopyAt(files, entries, k);
    CopyKeepsManifest(files, entries, k);
    assert entries[i] in entries;
  }

  /** A copy that is refused when its turn comes stops the run. */
  lemma {:induction false} FailureStops(files: Files, entries: seq<Entry>, k: nat, i: nat)
    requires i < k <= |entries| && CopyFails(CopyTo(files, entries, i), entries[i])
    ensures !CopiesPass(files, entries, k)
  {
    if i < k - 1 {
      FailureStops(files, entries, k - 1, i);
    }
  }

  lemma {:induction false} AllPass(files: Files, entries: seq<Entry>, k: nat)
    requires k <= |entries| && forall i: nat :: i < |entries| ==> !CopyFails(CopyTo(files, entries, i), entries[i])
    ensures CopiesPass(files, entries, k)
  {
    if k > 0 {
      AllPass(files, entries, k - 1);
    }
  }

  /** Whatever the disk and the manifest: once copies have passed, each of their destinations holds a file with
      the planned digest. */
  lemma {:induction false} CopiesHold(files: Files, entries: seq<Entry>, k: nat, i: nat)
    requires i < k <= |entries| && CopiesPass(files, entries, k)
    ensures var disk, e := CopyTo(files, entries, k), entries[i];
            e.destination in disk && Digest(disk[e.destination]) == e.hash
  {
    if i < k - 1 {
      CopiesHold(files, entries, k - 1, i);
    }
  }

  /** No two entries have a destination in common, and no destination is a source. */
  ghost predicate Untangled(entries: seq<Entry>) {
    && (forall i, j :: 0 <= i < j < |entries| ==>
          entries[i].source != entries[j].source && entries[i].destination != entries[j].destination)
    && Sources(entries) !! Destinations(entries)
  }

  /** Copies pass if and only if each destination holds the planned content already, or is free and the source
      holds it. */
  lemma {:induction false} CopiesPassExactly(files: Files, entries: seq<Entry>, k: nat)
    requires Untangled(entries) && k <= |entries|
    ensures CopiesPass(files, entries, k) <==>
            forall i :: 0 <= i < k ==>
              var e := entries[i];
              if e.destination in files then Digest(files[e.destination]) == e.hash
              else e.source in files && Digest(files[e.source]) == e.hash
  {
    if k > 0 {
      CopiesPassExactly(files, entries, k - 1);
      CopyTurn(files, entries, k - 1);
      hide Untangled;
    }
  }

  /** What a copy finds when its turn comes is what was there before the first one. */
  lemma CopyTurn(files: Files, entries: seq<Entry>, k: nat)
    requires Untangled(entries) && k < |entries|
    ensures var before, e := CopyTo(files, entries, k), entries[k];
            CopyFails(before, e) <==>
            if e.destination in files then Digest(files[e.destination]) != e.hash
            else e.source !in files || Digest(files[e.source]) != e.hash
  {
    hide CopyTo;
    var e := entries[k];
    assert e in entries && e.source in Sources(entries);
    CopyKeepsFiles(files, entries, k);
    CopyAdds(files, entries, k);
    assert e.destination !in Destinations(entries[..k]) && e.source !in Destinations(entries[..k]);
  }

  // ---- rewriting databases ----

  /** Rewriting never touches another file, on any disk. */
  lemma {:induction false} RewriteKeepsOthers(files: Files, databases: seq<Path>, k: nat, report: Report,
      entries: seq<Entry>)
    requires k <= |databases|
    ensures forall p :: p in files && p !in databases ==>
              && p in RewriteTo(files, databases, k, report, entries)
              && RewriteTo(files, databases, k, report, entries)[p] == files[p]
  {
    if k > 0 {
      RewriteKeepsOthers(files, databases, k - 1, report, entries);
      assert databases[k - 1] in databases;
    }
  }

  lemma RewriteContentIdempotent(content: Content, report: Report, entries: seq<Entry>)
    requires Rooted(report, entries)
    ensures RewriteContent(RewriteContent(content, report, entries), report, entries)
            == RewriteContent(content, report, entries)
  {
    if content.Database? && Rewritable(content.rows) {
      RewriteRowsIdempotent(content.rows, report, entries);
    }
  }

  /** After k rewrites exactly the first k databases are rewritten, each once. */
  lemma {:induction false} RewriteToAt(files: Files, databases: seq<Path>, k: nat, report: Report, entries: seq<Entry>)
    requires Rooted(report, entries) && k <= |databases|
    ensures var done := RewriteTo(files, databases, k, report, entries);
            && done.Keys == files.Keys
            && forall p :: p in files ==>
                 done[p] == if p in databases[..k] then RewriteContent(files[p], report, entries) else files[p]
  {
    if k > 0 {
      RewriteToAt(files, databases, k - 1, report, entries);
      assert databases[..k] == databases[..k - 1] + [databases[k - 1]];
      if databases[k - 1] in files {
        RewriteContentIdempotent(files[databases[k - 1]], report, entries);
      }
    }
  }

  lemma RewriteResumes(files: Files, databases: seq<Path>, k: nat, again: nat, report: Report, entries: seq<Entry>)
    requires Rooted(report, entries) && k <= |databases| && again <= |databases|
    ensures RewriteTo(RewriteTo(files, databases, k, report, entries), databases, again, report, entries)
            == RewriteTo(files, databases, if again > k then again else k, report, entries)
  {
    var once, most := RewriteTo(files, databases, k, report, entries), if again > k then again else k;
    RewriteToAt(files, databases, k, report, entries);
    RewriteToAt(once, databases, again, report, entries);
    RewriteToAt(files, databases, most, report, entries);
    forall p | p in files ensures
      RewriteTo(once, databases, again, report, entries)[p] == RewriteTo(files, databases, most, report, entries)[p]
    {
      RewriteContentIdempotent(files[p], report, entries);
      assert p in databases[..most] <==> p in databases[..k] || p in databases[..again];
    }
  }

  /** Rewriting neither heals nor harms: a database is refused afterwards if and only if it was
      before. */
  lemma RewriteKeepsFailing(files: Files, databases: seq<Path>, k: nat, report: Report, entries: seq<Entry>, path: Path)
    requires Rooted(report, entries) && k <= |databases|
    ensures RewriteFails(RewriteTo(files, databases, k, report, entries), path) <==> RewriteFails(files, path)
  {
    RewriteToAt(files, databases, k, report, entries);
    if path in files && files[path].Database? && Rewritable(files[path].rows) {
      RewriteRowsIdempotent(files[path].rows, report, entries);
    }
  }

  // ---- repairing the transport index ----

  lemma RepairResumes(files: Files, index: Path, entries: seq<Entry>)
    ensures RepairAtPath(RepairAtPath(files, index, entries), index, entries) == RepairAtPath(files, index, entries)
  {
    if index in files && files[index].Transport? {
      RepairIdempotent(files[index].references, entries);
    }
  }

  // ---- deleting ----

  lemma {:induction false} DeleteAt(files: Files, entries: seq<Entry>, k: nat)
    requires k <= |entries|
    ensures DeleteTo(files, entries, k) == files - Sources(entries[..k])
  {
    if k > 0 {
      DeleteAt(files, entries, k - 1);
      assert entries[..k] == entries[..k - 1] + [entries[k - 1]];
      assert Sources(entries[..k]) == Sources(entries[..k - 1]) + {entries[k - 1].source};
    }
  }

  lemma DeleteResumes(files: Files, entries: seq<Entry>, k: nat, again: nat)
    requires k <= |entries| && again <= |entries|
    ensures DeleteTo(DeleteTo(files, entries, k), entries, again)
            == DeleteTo(files, entries, if again > k then again else k)
  {
    var most := if again > k then again else k;
    DeleteAt(files, entries, k);
    DeleteAt(DeleteTo(files, entries, k), entries, again);
    DeleteAt(files, entries, most);
    assert entries[..most] == if again > k then entries[..again] else entries[..k];
    if again > k {
      assert entries[..k] <= entries[..again];
      assert Sources(entries[..k]) <= Sources(entries[..again]);
    } else {
      assert entries[..again] <= entries[..k];
      assert Sources(entries[..again]) <= Sources(entries[..k]);
    }
  }

  /** Deletions pass if and only if each source is gone, or both it and its copy still have the digests that
      were recorded for them. */
  lemma {:induction false} DeletesPassExactly(files: Files, entries: seq<Entry>, k: nat)
    requires Untangled(entries) && k <= |entries|
    ensures DeletesPass(files, entries, k) <==>
            forall i :: 0 <= i < k ==>
              var e := entries[i];
              e.source in files ==>
                && Digest(files[e.source]) == e.hash
                && e.destination in files && Some(Digest(files[e.destination])) == e.destinationHash
  {
    if k > 0 {
      DeletesPassExactly(files, entries, k - 1);
      var e := entries[k - 1];
      DeleteAt(files, entries, k - 1);
      assert e in entries && e.destination in Destinations(entries) && e.source !in Sources(entries[..k - 1]);
      assert Sources(entries[..k - 1]) <= Sources(entries);
    }
  }

  /** Whatever a checked deletion removed was a planned source with the planned content, on any
      disk. */
  lemma {:induction false} DeleteGuarded(files: Files, entries: seq<Entry>, k: nat)
    requires k <= |entries| && DeletesPass(files, entries, k)
    ensures DeleteTo(files, entries, k).Keys <= files.Keys
    ensures Guarded(files, DeleteTo(files, entries, k), {}, entries)
    ensures forall p :: p in DeleteTo(files, entries, k) ==> DeleteTo(files, entries, k)[p] == files[p]
  {
    if k > 0 {
      DeleteGuarded(files, entries, k - 1);
      var before, e := DeleteTo(files, entries, k - 1), entries[k - 1];
      if e.source in before {
        assert PlannedSource(entries, e.source, Digest(files[e.source]));
      }
    }
  }

  // ---- none of the phases looks at the journal file ----

  lemma {:induction false} CopyPut(files: Files, entries: seq<Entry>, k: nat, p: Path, content: Content)
    requires k <= |entries| && p !in Sources(entries) && p !in Destinations(entries)
    ensures CopyTo(files[p := content], entries, k) == CopyTo(files, entries, k)[p := content]
  {
    if k > 0 {
      CopyPut(files, entries, k - 1, p, content);
      assert entries[k - 1].source in Sources(entries) && entries[k - 1].destination in Destinations(entries);
    }
  }

  lemma {:induction false} RewritePut(files: Files, databases: seq<Path>, k: nat, report: Report,
      entries: seq<Entry>, p: Path, content: Content)
    requires k <= |databases| && p !in databases
    ensures RewriteTo(files[p := content], databases, k, report, entries)
            == RewriteTo(files, databases, k, report, entries)[p := content]
  {
    if k > 0 {
      RewritePut(files, databases, k - 1, report, entries, p, content);
      assert databases[k - 1] in databases;
    }
  }

  lemma DeletePut(files: Files, entries: seq<Entry>, k: nat, p: Path, content: Content)
    requires k <= |entries| && p !in Sources(entries)
    ensures DeleteTo(files[p := content], entries, k) == DeleteTo(files, entries, k)[p := content]
  {
    DeleteAt(files, entries, k);
    DeleteAt(files[p := content], entries, k);
    assert p !in Sources(entries[..k]);
  }

  /** Copying goes on where a crashed run stopped, whatever the journal file says by then, and is
      never refused. */
  lemma CopyGoesOn(files: Files, entries: seq<Entry>, k: nat, again: nat, p: Path, content: Content)
    requires ManifestOk(files, entries) && k <= |entries| && again <= |entries|
    requires p !in Sources(entries) && p !in Destinations(entries)
    ensures CopyTo(CopyTo(files, entries, k)[p := content], entries, again)
            == CopyTo(files, entries, if again > k then again else k)[p := content]
    ensures forall i :: 0 <= i < |entries| ==>
              !CopyFails(CopyTo(files, entries, if again > k then again else k)[p := content], entries[i])
  {
    var most := if again > k then again else k;
    CopyPut(CopyTo(files, entries, k), entries, again, p, content);
    CopyResumes(files, entries, k, again);
    forall i | 0 <= i < |entries|
      ensures !CopyFails(CopyTo(files, entries, most)[p := content], entries[i])
    {
      CopyNeverFails(files, entries, most, i);
      assert entries[i].source in Sources(entries) && entries[i].destination in Destinations(entries);
    }
  }

  /** Rewriting goes on where a crashed run stopped, whatever the journal file says by then, and a
      database that it refuses was refused from the start. */
  lemma RewriteGoesOn(files: Files, databases: seq<Path>, k: nat, again: nat, report: Report,
      entries: seq<Entry>, p: Path, content: Content)
    requires Rooted(report, entries) && k <= |databases| && again <= |databases| && p !in databases
    ensures RewriteTo(RewriteTo(files, databases, k, report, entries)[p := content], databases, again, report, entries)
            == RewriteTo(files, databases, if again > k then again else k, report, entries)[p := content]
    ensures forall d :: d in databases ==>
              (RewriteFails(RewriteTo(files, databases, k, report, entries)[p := content], d) <==>
                RewriteFails(files, d))
  {
    RewritePut(RewriteTo(files, databases, k, report, entries), databases, again, report, entries, p, content);
    RewriteResumes(files, databases, k, again, report, entries);
    forall d | d in databases
      ensures RewriteFails(RewriteTo(files, databases, k, report, entries)[p := content], d) <==> RewriteFails(files, d)
    {
      RewriteKeepsFailing(files, databases, k, report, entries, d);
    }
  }

  // ---- none of the phases looks at the verified digests ----

  lemma {:induction false} SameMovesFind(a: seq<Entry>, b: seq<Entry>, p: Path)
    requires SameMoves(a, b)
    ensures FindEntry(a, p).Some? <==> FindEntry(b, p).Some?
    ensures FindEntry(a, p).Some? ==> FindEntry(a, p).value.destination == FindEntry(b, p).value.destination
  {
    if a != [] && a[0].source != p {
      SameMovesFind(a[1..], b[1..], p);
    }
  }

  lemma SameMovesNames(site: Site, report: Report, a: seq<Entry>, b: seq<Entry>)
    requires SameMoves(a, b)
    ensures Databases(site, report, a) == Databases(site, report, b)
    ensures TransportDir(site, report, a) == TransportDir(site, report, b)
    ensures Rewritten(site, report, a) == Rewritten(site, report, b)
  {
    SameMovesFind(a, b, site.database);
    SameMovesFind(a, b, site.reliquary);
    SameMovesFind(a, b, site.transport);
  }

  lemma {:induction false} SameMovesRepair(references: map<Hash, Path>, a: seq<Entry>, b: seq<Entry>)
    requires SameMoves(a, b)
    ensures Repair(references, a) == Repair(references, b)
  {
    if a != [] {
      SameMovesRepair(references, a[..|a| - 1], b[..|b| - 1]);
    }
  }

  /** Repairing goes on where a crashed run stopped, whatever the journal file says by then. */
  lemma RepairGoesOn(files: Files, index: Path, a: seq<Entry>, b: seq<Entry>, p: Path, content: Content)
    requires SameMoves(a, b) && p != index
    ensures RepairAtPath(files[p := content], index, b) == RepairAtPath(files, index, a)[p := content]
    ensures RepairAtPath(RepairAtPath(files, index, a)[p := content], index, b)
            == RepairAtPath(files, index, a)[p := content]
  {
    if index in files && files[index].Transport? {
      SameMovesRepair(files[index].references, a, b);
      SameMovesRepair(Repair(files[index].references, a), a, b);
      RepairIdempotent(files[index].references, a);
    }
  }

  lemma {:induction false} SameMovesDelete(files: Files, a: seq<Entry>, b: seq<Entry>, k: nat)
    requires SameMoves(a, b) && k <= |a|
    ensures DeleteTo(files, a, k) == DeleteTo(files, b, k)
  {
    if k > 0 {
      SameMovesDelete(files, a, b, k - 1);
    }
  }

  // ---- guarding composes ----

  lemma GuardedCompose(before: Files, middle: Files, after: Files, free: set<Path>, a: seq<Entry>, b: seq<Entry>)
    requires SameMoves(a, b)
    requires Guarded(before, middle, free, a) && Guarded(middle, after, free, b)
    ensures Guarded(before, after, free, a)
  {
    forall p | p in before && p !in free && !(p in after && after[p] == before[p])
      ensures PlannedSource(a, p, Digest(before[p]))
    {
      if p in middle && middle[p] == before[p] {
        assert PlannedSource(b, p, Digest(before[p]));
        var i :| 0 <= i < |b| && b[i].source == p && b[i].hash == Digest(before[p]);
        assert a[i].source == p && a[i].hash == Digest(before[p]);
      }
    }
  }
}
