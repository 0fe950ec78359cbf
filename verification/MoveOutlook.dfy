/** How far a planned move can come, told from what the installation looks like before it: whether the
    journal lies in its way, whether databases and index can be read, and whether rewriting them where
    they lie spoils the folder that is being moved. */
module MoveOutlook {
  import opened Wrappers
  import opened Paths
  import opened Documents
  import opened StorageTypes
  import opened Remapping
  import opened MoveSpec
  import opened MoveChain
  import opened MoveTrack
  import opened MoveJournal
  import opened MovePlan

  /** Nothing will stop this planned move. */
  ghost predicate Ends(site: Site, base: Files, q: Journal, plan: Journal)
    requires site.Valid() && plan.entries.Some?
  {
    JournalClear(site, q) && Finishable(site, base, plan)
  }

  // ---- a fetch folder that holds the journal ----

  lemma JournalEntry(site: Site, files: Files, q: Journal, uuids: nat -> string, entries: seq<Entry>, i: nat)
    requires Orderly(site, files, q) && Accepted(site, files, q.preview, q.merge)
    requires site.Pending() in files
    requires FreshUuids(site, files, uuids) && Manifest(site, files, q.preview, uuids, entries)
    requires i < |entries| && entries[i].source == site.Pending()
    ensures entries[i].hash == Digest(files[site.Pending()])
    ensures entries[i].destination !in files && entries[i].destination != site.Pending()
    ensures entries[i].destination !in Destinations(entries[..i]) && site.Pending() !in Destinations(entries)
  {
    EntryLands(site, files, q.preview, uuids, entries, i);
    assert entries[i] in entries && entries[i].source in Sources(entries);
    var target, blockers := TargetOf(q.preview, site.Pending()), Blockers(site, files, q.preview);
    assert Clashes(site, files, q.preview, site.Pending()) ==> target in blockers;
    FixedOutsideDestination(site, files, q, site.Pending());
    forall j | 0 <= j < |entries|
      ensures entries[j].destination != site.Pending() && (j < i ==> entries[j].destination != entries[i].destination)
    {
      EntryLands(site, files, q.preview, uuids, entries, j);
      if j < i { DestinationsDiffer(site, files, q.preview, uuids, entries, i, j); }
    }
  }

  /** The part of a sound manifest before the journal is sound without the journal. */
  lemma ManifestBefore(files: Files, entries: seq<Entry>, i: nat, p: Path)
    requires ManifestOk(files, entries) && i < |entries| && entries[i].source == p && p !in Destinations(entries)
    ensures ManifestOk(files - {p}, entries[..i]) && p !in Sources(entries[..i]) && p !in Destinations(entries[..i])
  {
    forall e | e in entries[..i]
      ensures e in entries && e.source != p && e.destination != p
      ensures e.source in Sources(entries) && e.destination in Destinations(entries)
    {
      var j :| 0 <= j < i && entries[j] == e;
      assert entries[j].source != entries[i].source;
      assert e in entries;
    }
    assert Sources(entries[..i]) <= Sources(entries) && Destinations(entries[..i]) <= Destinations(entries);
  }

  /** A planned move whose folder holds its own journal stalls in front of it. */
  lemma PlanStalls(site: Site, files: Files, q: Journal, uuids: nat -> string, plan: Journal)
    requires site.Valid() && plan.entries.Some?
    requires Orderly(site, files, q) && !JournalClear(site, q) && Plannable(site, files, q)
    requires FreshQueue(q) && site.Pending() in files && files[site.Pending()] == Pending(q)
    requires PlannedFrom(q, plan)
    requires FreshUuids(site, files, uuids) && Manifest(site, files, q.preview, uuids, plan.entries.value)
    ensures Stalled(site, files - {site.Pending()}, plan, Copying(0), files[site.Pending() := Pending(plan)])
  {
    hide Orderly, Accepted, Manifest, FreshUuids, FreshManifest, PlannedFrom, FreshQueue;
    var entries := plan.entries.value;
    PlanKeepsConfig(q, plan);
    var i := JournalListed(site, files, q, uuids, entries);
    PlanIsFresh(site, files, q, uuids, plan);
    SavedDiffers(q, plan);
    ReservedNamesDiffer(site);
    JournalEntry(site, files, q, uuids, entries, i);
    ManifestIsOk(site, files, q.preview, q.merge, uuids, entries);
    ManifestBefore(files, entries, i, site.Pending());
    DestinationBefore(files, entries, i, site.Pending());
    hide ManifestOk, Sources, Destinations;
    assert StalledBefore(site, files - {site.Pending()}, plan, 0, i, files[site.Pending() := Pending(plan)]);
  }

  lemma JournalListed(site: Site, files: Files, q: Journal, uuids: nat -> string, entries: seq<Entry>) returns (i: nat)
    requires site.Valid() && !JournalClear(site, q) && site.Pending() in files
    requires Manifest(site, files, q.preview, uuids, entries)
    ensures i < |entries| && entries[i].source == site.Pending()
  {
    JournalMovable(site, files, q);
    assert site.Pending() in Sources(entries);
    i :| i < |entries| && entries[i].source == site.Pending();
  }

  /** Saving the manifest changes the journal. */
  lemma SavedDiffers(q: Journal, plan: Journal)
    requires FreshQueue(q) && PlannedFrom(q, plan)
    ensures Pending(plan) != Pending(q)
  {
  }

  lemma PlanKeepsConfig(q: Journal, plan: Journal)
    requires PlannedFrom(q, plan)
    ensures plan.configBefore == q.configBefore
  {
  }

  lemma DestinationBefore(files: Files, entries: seq<Entry>, i: nat, p: Path)
    requires i < |entries| && p !in Destinations(entries)
    ensures p !in Destinations(entries[..i])
  {
  }

  // ---- databases and index that cannot be read ----

  /** This file of the config will be at its new place when stored paths are rewritten. */
  predicate Arrives(site: Site, files: Files, q: Journal, p: Path)
    requires site.Valid()
  {
    p in files && (q.preview.operation == MoveData && q.preview.source <= p ==> p in Movable(site, files, q.preview))
  }

  lemma ManagedArrives(site: Site, files: Files, q: Journal, uuids: nat -> string, entries: seq<Entry>,
      base: Files, p: Path)
    requires site.Valid()
    requires Orderly(site, files, q) && Accepted(site, files, q.preview, q.merge)
    requires FreshUuids(site, files, uuids) && Manifest(site, files, q.preview, uuids, entries)
    requires ManifestOk(base, entries) && base == files - {site.Pending()}
    requires p in Managed(site)
    ensures var copied, t := CopyTo(base, entries, |entries|), NewPlace(q, p);
            && (t in copied <==> Arrives(site, files, q, p))
            && (t in copied ==> p in files && copied[t] == files[p])
  {
    hide Orderly, Accepted, FreshUuids, EntryFor, CopyTo;
    var copied, t := CopyTo(base, entries, |entries|), NewPlace(q, p);
    CopyAt(base, entries, |entries|);
    CopiedKeys(base, entries);
    ManagedPlace(site, files, q, uuids, entries, p);
    ManagedApart(site, files, q, p);
    if t in Destinations(entries) {
      var i :| 0 <= i < |entries| && entries[i].destination == t;
      assert entries[i].source == p && entries[i] in entries && p in Sources(entries);
      assert copied[t] == base[p];
    }
    if Arrives(site, files, q, p) && t != p {
      assert p in Sources(entries);
      var i :| 0 <= i < |entries| && entries[i].source == p;
      FoundFirst(entries, i);
      assert entries[i] in entries && entries[i].destination == t;
    }
  }

  lemma ManagedApart(site: Site, files: Files, q: Journal, p: Path)
    requires Orderly(site, files, q) && p in Managed(site)
    ensures p != site.Pending()
  {
  }

  lemma {:induction false} FoundFirst(entries: seq<Entry>, i: nat)
    requires i < |entries| && forall a, b :: 0 <= a < b < |entries| ==> entries[a].source != entries[b].source
    ensures FindEntry(entries, entries[i].source) == Some(entries[i])
  {
    if i > 0 {
      FoundFirst(entries[1..], i - 1);
    }
  }

  /** The databases that will be rewritten hold no malformed row, and the index that will be repaired
      is one. */
  predicate Workable(site: Site, files: Files, q: Journal)
    requires site.Valid()
  {
    q.preview.operation != SelectData ==>
      && (forall d :: d in {site.database, site.reliquary} && Arrives(site, files, q, d) ==> !RewriteFails(files, d))
      && (Arrives(site, files, q, site.transport + ["blobs.db"]) ==> !RepairFails(files, site.transport + ["blobs.db"]))
  }

  /** Before the move one can see whether its databases and its index will be refused. */
  lemma WorkableExactly(site: Site, files: Files, q: Journal, uuids: nat -> string, plan: Journal)
    requires site.Valid() && plan.entries.Some?
    requires Orderly(site, files, q) && JournalClear(site, q) && Accepted(site, files, q.preview, q.merge)
    requires PlannedFrom(q, plan)
    requires FreshUuids(site, files, uuids) && Manifest(site, files, q.preview, uuids, plan.entries.value)
    ensures var base := files - {site.Pending()};
            && DatabasesReadable(site, base, plan, |Databases(site, plan.preview, plan.entries.value)|)
            && IndexReadable(site, base, plan)
            <==> Workable(site, files, q)
  {
    hide Orderly, Accepted, Manifest, FreshUuids, Fixed, Movable, Arrives, PlannedFrom, NewPlace, CopyTo, ManifestOk,
      Remap;
    var base, entries, index := files - {site.Pending()}, plan.entries.value, site.transport + ["blobs.db"];
    PlanKeepsReport(q, plan);
    ManifestWithoutJournal(site, files, q, uuids, entries);
    IndexPlace(site, files, q, uuids, entries);
    forall p | p in Managed(site)
      ensures Target(p, q.preview, entries) == NewPlace(q, p)
      ensures NewPlace(q, p) in Copied(base, plan) <==> Arrives(site, files, q, p)
      ensures NewPlace(q, p) in Copied(base, plan) ==> p in files && Copied(base, plan)[NewPlace(q, p)] == files[p]
    {
      ManagedPlace(site, files, q, uuids, entries, p);
      ManagedArrives(site, files, q, uuids, entries, base, p);
    }
    ReadableByPlace(site, files, q, base, plan);
  }

  lemma PlanKeepsReport(q: Journal, plan: Journal)
    requires PlannedFrom(q, plan)
    ensures plan.preview == q.preview
  {
  }

  /** Once it is known where each file goes, being readable is the same before and after the copying. */
  lemma ReadableByPlace(site: Site, files: Files, q: Journal, base: Files, plan: Journal)
    requires site.Valid() && plan.entries.Some? && plan.preview == q.preview
    requires forall p :: p in Managed(site) ==>
               && Target(p, q.preview, plan.entries.value) == NewPlace(q, p)
               && (NewPlace(q, p) in Copied(base, plan) <==> Arrives(site, files, q, p))
               && (NewPlace(q, p) in Copied(base, plan) ==>
                  p in files && Copied(base, plan)[NewPlace(q, p)] == files[p])
    requires TransportIndex(site, q.preview, plan.entries.value) == NewPlace(q, site.transport + ["blobs.db"])
    ensures && DatabasesReadable(site, base, plan, |Databases(site, plan.preview, plan.entries.value)|)
            && IndexReadable(site, base, plan)
            <==> Workable(site, files, q)
  {
    hide NewPlace, Arrives, Copied, TransportIndex, Target, Rewritable;
    if q.preview.operation != SelectData {
      var databases := Databases(site, q.preview, plan.entries.value);
      assert databases[0] == Target(site.database, q.preview, plan.entries.value)
             && databases[1] == Target(site.reliquary, q.preview, plan.entries.value) && |databases| == 2;
      assert site.database in Managed(site) && site.reliquary in Managed(site);
      assert site.transport + ["blobs.db"] in Managed(site);
      assert forall d :: d in {site.database, site.reliquary} ==>
        (RewriteFails(Copied(base, plan), NewPlace(q, d)) <==> Arrives(site, files, q, d) && RewriteFails(files, d));
      assert DatabasesReadable(site, base, plan, 2)
        <==> !RewriteFails(Copied(base, plan), databases[0]) && !RewriteFails(Copied(base, plan), databases[1]);
    }
  }

  // ---- rewriting inside the folder that moves ----

  /** A database below the source of a fetch move holds no path into that source. */
  predicate PointsElsewhere(files: Files, q: Journal, d: Path) {
    d in files && q.preview.source <= d && files[d].Database? && Rewritable(files[d].rows) ==>
      forall i :: 0 <= i < |files[d].rows| ==> NamesNothing(CellPaths(files[d].rows[i]), q.preview.source)
  }

  /** The transport index below the source of a fetch move refers to no moved blob, or already to where
      it is going. */
  predicate RefersElsewhere(files: Files, q: Journal, index: Path, entries: seq<Entry>) {
    index in files && q.preview.source <= index && files[index].Transport? ==>
      forall h :: h in files[index].references && Relocated(entries, h).Some? ==>
        files[index].references[h] == Relocated(entries, h).value
  }

  /** Rewriting databases and index changes no file of the folder that a fetch move takes away. */
  predicate Undisturbed(site: Site, files: Files, q: Journal, entries: seq<Entry>) {
    q.preview.operation == MoveFetch ==>
      && (forall d :: d in {site.database, site.reliquary} ==> PointsElsewhere(files, q, d))
      && RefersElsewhere(files, q, site.transport + ["blobs.db"], entries)
  }

  lemma DatabaseUndisturbed(files: Files, q: Journal, entries: seq<Entry>, d: Path)
    requires Rooted(q.preview, entries) && d in files && q.preview.source <= d
    ensures RewriteContent(files[d], q.preview, entries) == files[d] <==> PointsElsewhere(files, q, d)
  {
    if files[d].Database? && Rewritable(files[d].rows) {
      RewriteRowsFixes(files[d].rows, q.preview, entries);
    }
  }

  lemma IndexUndisturbed(files: Files, q: Journal, entries: seq<Entry>, index: Path)
    requires index in files && q.preview.source <= index
    ensures RepairContent(files[index], entries) == files[index] <==> RefersElsewhere(files, q, index, entries)
  {
    if files[index].Transport? {
      RepairFixes(files[index].references, entries);
    }
  }

  /** In a fetch move databases and index stay where they are. */
  lemma FetchedPlaces(site: Site, q: Journal, entries: seq<Entry>)
    requires q.preview.operation == MoveFetch
    ensures Databases(site, q.preview, entries) == [site.database, site.reliquary]
    ensures TransportIndex(site, q.preview, entries) == site.transport + ["blobs.db"]
  {
  }

  lemma FetchedListed(site: Site, files: Files, q: Journal, uuids: nat -> string, entries: seq<Entry>, p: Path)
    requires Orderly(site, files, q) && Manifest(site, files, q.preview, uuids, entries)
    requires q.preview.operation == MoveFetch && p in Managed(site) && p in files && q.preview.source <= p
    ensures p in Sources(entries) && p != site.Pending()
  {
  }

  /** A fetch move passes the check of its sources if and only if nothing below the folder is both
      moved and rewritten. */
  lemma UndisturbedExactly(site: Site, files: Files, q: Journal, uuids: nat -> string, plan: Journal)
    requires site.Valid() && plan.entries.Some? && plan.preview == q.preview && q.preview.operation == MoveFetch
    requires Orderly(site, files, q) && Manifest(site, files, q.preview, uuids, plan.entries.value)
    requires WellPlanned(site, files - {site.Pending()}, plan)
    ensures SourcesKept(site, files - {site.Pending()}, plan) <==> Undisturbed(site, files, q, plan.entries.value)
  {
    hide Orderly, Manifest, WellPlanned, SourcesKept, Undisturbed;
    var base, entries := files - {site.Pending()}, plan.entries.value;
    KeptUnlessFetched(site, base, plan);
    SourcesThere(site, files, q, plan);
    forall p | p in Managed(site) && p in files && q.preview.source <= p
      ensures exists e :: e in entries && e.source == p
    {
      FetchedListed(site, files, q, uuids, entries, p);
    }
    UndisturbedBySource(site, files, q, base, plan);
    IndexIsNoDatabase(site, files, q);
    UndisturbedByFile(site, files, q, plan);
  }

  lemma IndexIsNoDatabase(site: Site, files: Files, q: Journal)
    requires Orderly(site, files, q)
    ensures site.transport + ["blobs.db"] !in {site.database, site.reliquary}
  {
  }

  lemma SourcesThere(site: Site, files: Files, q: Journal, plan: Journal)
    requires site.Valid() && plan.entries.Some? && plan.preview == q.preview
    requires WellPlanned(site, files - {site.Pending()}, plan)
    ensures Rooted(q.preview, plan.entries.value)
    ensures forall e :: e in plan.entries.value ==>
              && e.source in files - {site.Pending()} && e.source in files
              && (files - {site.Pending()})[e.source] == files[e.source] && q.preview.source <= e.source
  {
    forall e | e in plan.entries.value
      ensures e.source in files - {site.Pending()} && q.preview.source <= e.source
    {
    }
  }

  lemma UndisturbedByFile(site: Site, files: Files, q: Journal, plan: Journal)
    requires plan.entries.Some? && plan.preview == q.preview && q.preview.operation == MoveFetch
    requires Rooted(q.preview, plan.entries.value) && site.transport + ["blobs.db"] !in {site.database, site.reliquary}
    ensures Undisturbed(site, files, q, plan.entries.value)
            <==> forall p :: p in Managed(site) && p in files && q.preview.source <= p ==>
                   Updated(site, plan, p, files[p]) == files[p]
  {
    var entries, index := plan.entries.value, site.transport + ["blobs.db"];
    FetchedPlaces(site, q, entries);
    assert Managed(site) == {site.database, site.reliquary, index};
    forall d | d in {site.database, site.reliquary} && d in files && q.preview.source <= d
      ensures Updated(site, plan, d, files[d]) == files[d] <==> PointsElsewhere(files, q, d)
    {
      DatabaseUndisturbed(files, q, entries, d);
    }
    if index in files && q.preview.source <= index {
      IndexUndisturbed(files, q, entries, index);
      assert Updated(site, plan, index, files[index]) == files[index] <==> RefersElsewhere(files, q, index, entries);
    }
    hide PointsElsewhere, RefersElsewhere, Updated;
    assert forall p :: !(p in files && q.preview.source <= p) ==>
           PointsElsewhere(files, q, p) && RefersElsewhere(files, q, p, entries);
  }

  lemma UndisturbedBySource(site: Site, files: Files, q: Journal, base: Files, plan: Journal)
    requires plan.entries.Some? && plan.preview == q.preview && q.preview.operation == MoveFetch
    requires forall e :: e in plan.entries.value ==>
               e.source in base && e.source in files && base[e.source] == files[e.source]
                 && q.preview.source <= e.source
    requires forall p :: p in Managed(site) && p in files && q.preview.source <= p ==>
               exists e :: e in plan.entries.value && e.source == p
    ensures (forall e :: e in plan.entries.value ==> Updated(site, plan, e.source, base[e.source]) == base[e.source])
            <==> forall p :: p in Managed(site) && p in files && q.preview.source <= p ==>
                   Updated(site, plan, p, files[p]) == files[p]
  {
    FetchedPlaces(site, q, plan.entries.value);
  }

  // ---- the preferences ----

  /** The text that the preferences are switched to. */
  function NewPreferences(q: Journal, entries: seq<Entry>): Content
    requires q.preferences.Some? && q.preferences.value.before.Document?
  {
    Document(PreferencesAfter(q.preferences.value.before.doc, q.preview, entries))
  }

  /** The preferences are still what was queued, or already the new text; and where they are to be moved
      they already are the new text. */
  predicate PreferencesHold(site: Site, files: Files, q: Journal, entries: seq<Entry>)
    requires site.Valid()
  {
    q.preferences.Some? && q.preferences.value.before.Document? ==>
      var p := q.preferences.value.path;
      && p in files && files[p] in {q.preferences.value.before, NewPreferences(q, entries)}
      && (p in Movable(site, files, q.preview) ==> files[p] == NewPreferences(q, entries))
  }

  /** The new text is the old one if and only if no string of the preferences, other than where the config
      lies, is a path at or below the source. */
  lemma PreferencesFixes(doc: Doc<Path>, report: Report, entries: seq<Entry>)
    requires Rooted(report, entries) && doc.Table?
    ensures PreferencesAfter(doc, report, entries) == doc
            <==> forall k :: k in doc.fields && k != "server_config_path" ==>
              NamesNothing(Texts(doc.fields[k]), report.source)
  {
    hide NamesNothing, Rewrite;
    var after := PreferencesAfter(doc, report, entries);
    assert after.Table? && after.fields.Keys == doc.fields.Keys;
    forall k | k in doc.fields
      ensures after.fields[k] == doc.fields[k] <==>
              (k == "server_config_path" || NamesNothing(Texts(doc.fields[k]), report.source))
    {
      if k != "server_config_path" {
        DocumentFixes(doc.fields[k], report, entries);
      }
    }
    if after == doc {
      forall k | k in doc.fields && k != "server_config_path"
        ensures NamesNothing(Texts(doc.fields[k]), report.source) {
        assert after.fields[k] == doc.fields[k];
      }
    } else {
      assert after.fields != doc.fields;
      var k :| k in doc.fields && after.fields[k] != doc.fields[k];
    }
  }

  /** Before the move one can see whether the preferences will stop it. */
  lemma PreferencesExactly(site: Site, files: Files, q: Journal, uuids: nat -> string, plan: Journal)
    requires site.Valid() && plan.entries.Some? && PlannedFrom(q, plan)
    requires q.preferences.Some? ==> q.preferences.value.path !in Companions(site)
    requires Manifest(site, files, q.preview, uuids, plan.entries.value)
    ensures var base := files - {site.Pending()};
            !PreferencesFail(base, plan) && !PreferencesMoved(base, plan)
            <==> PreferencesHold(site, files, q, plan.entries.value)
  {
    hide Movable, PreferencesAfter, ConfigAfter;
    assert plan.preferences.Some? ==> plan.preferences.value.after == Some(NewPreferences(q, plan.entries.value));
  }

  /** The end of a move, told before it: a planned move can be finished if and only if its journal lies
      outside the folder it moves, its databases and its index can be read, in a fetch move none of them
      that lies in the folder is changed by the rewriting, and the preferences are still there as queued
      and do not move along. Otherwise no number of starts gets it done. */
  lemma EndsExactly(site: Site, files: Files, q: Journal, uuids: nat -> string, plan: Journal)
    requires site.Valid() && plan.entries.Some?
    requires Orderly(site, files, q) && Plannable(site, files, q)
    requires FreshQueue(q) && PlannedFrom(q, plan)
    requires FreshUuids(site, files, uuids) && Manifest(site, files, q.preview, uuids, plan.entries.value)
    ensures Ends(site, files - {site.Pending()}, q, plan)
            <==> && JournalClear(site, q) && Workable(site, files, q)
                 && Undisturbed(site, files, q, plan.entries.value)
                 && PreferencesHold(site, files, q, plan.entries.value)
  {
    hide Orderly, Manifest, FreshUuids, WellPlanned, PlannedFrom, FreshQueue, SourcesKept, DatabasesReadable,
      IndexReadable,
      PreferencesFail, PreferencesMoved, PreferencesHold, Accepted, FreshManifest, JournalClear, Workable;
    PlanKeepsReport(q, plan);
    PreferencesApart(site, files, q);
    PreferencesExactly(site, files, q, uuids, plan);
    if JournalClear(site, q) {
      PlanIsWell(site, files, q, uuids, plan);
      WorkableExactly(site, files, q, uuids, plan);
      if q.preview.operation == MoveFetch {
        UndisturbedExactly(site, files, q, uuids, plan);
      } else {
        KeptUnlessFetched(site, files - {site.Pending()}, plan);
      }
    }
  }

  lemma PreferencesApart(site: Site, files: Files, q: Journal)
    requires Orderly(site, files, q)
    ensures q.preferences.Some? ==> q.preferences.value.path !in Companions(site)
  {
  }

  // ---- files that stay behind ----

  /** No moved file takes the place that a retained file would have had. */
  lemma RetainedNotLanded(site: Site, files: Files, report: Report, uuids: nat -> string, entries: seq<Entry>, p: Path)
    requires site.Valid() && FreshUuids(site, files, uuids) && Manifest(site, files, report, uuids, entries)
    requires p in files && Inside(p, report.source) && p !in Sources(entries)
    ensures TargetOf(report, p) !in Destinations(entries)
  {
    TargetKeepsName(report, p);
    forall i | 0 <= i < |entries| ensures entries[i].destination != TargetOf(report, p) {
      EntryLands(site, files, report, uuids, entries, i);
      assert entries[i] in entries;
      if !Taken(files, report, entries[i].source) && entries[i].destination == TargetOf(report, p) {
        TargetInjective(report, entries[i].source, p);
      }
    }
  }
}
