/** The journal file among the files: no phase loses it or makes a started move look unstarted, and a
    manifest that lists the journal itself stalls the copying at that entry. */
module MoveJournal {
  import opened Paths
  import opened StorageTypes
  import opened MoveSpec
  import opened MoveChain

  // ---- a started move stays started ----

  /** The journal does not take its own file for the preferences. */
  predicate Tame(site: Site, j: Journal)
    requires site.Valid()
  {
    j.preferences.Some? ==> j.preferences.value.path != site.Pending()
  }

  /** The pending file is a journal with a manifest, which cannot be cancelled. */
  predicate Journaled(site: Site, files: Files)
    requires site.Valid()
  {
    && site.Pending() in files && files[site.Pending()].Pending?
    && files[site.Pending()].journal.entries.Some? && Tame(site, files[site.Pending()].journal)
  }

  /** What every phase before the last keeps, on any disk: only planned sources are gone, nothing else
      but the free files has changed, and a started move is still one. */
  ghost predicate Keeps(site: Site, j: Journal, was: Files, now: Files)
    requires site.Valid() && j.entries.Some?
  {
    && Guarded(was, now, Free(site, j), j.entries.value)
    && (Journaled(site, was) && Tame(site, j) ==> Journaled(site, now))
  }

  /** The same of a whole run, which may also remove the journal. */
  ghost predicate Leaves(site: Site, j: Journal, was: Files, now: Files)
    requires site.Valid() && j.entries.Some?
  {
    && Guarded(was, now, Free(site, j), j.entries.value)
    && (Journaled(site, was) && Tame(site, j) ==> Journaled(site, now) || site.Pending() !in now)
  }

  lemma KeepsSame(site: Site, j: Journal, files: Files)
    requires site.Valid() && j.entries.Some?
    ensures Keeps(site, j, files, files)
  {
  }

  lemma KeepsSave(site: Site, j: Journal, was: Files, now: Files, saved: Journal)
    requires site.Valid() && j.entries.Some? && Keeps(site, j, was, now)
    requires saved.entries.Some? && saved.preferences == j.preferences
    ensures Keeps(site, j, was, now[site.Pending() := Pending(saved)])
  {
  }

  /** The phases only fill in digests, so what a journal allows to be written never changes. */
  lemma FreeSame(site: Site, a: Journal, b: Journal)
    requires site.Valid() && a.entries.Some? && b.entries.Some? && SameMoves(a.entries.value, b.entries.value)
    requires a.preview == b.preview && a.preferences == b.preferences
    ensures Free(site, a) == Free(site, b)
  {
    SameMovesNames(site, a.preview, a.entries.value, b.entries.value);
  }

  lemma KeepsThen(site: Site, a: Journal, b: Journal, was: Files, middle: Files, now: Files)
    requires site.Valid() && a.entries.Some? && b.entries.Some? && SameMoves(a.entries.value, b.entries.value)
    requires a.preview == b.preview && a.preferences == b.preferences
    requires Keeps(site, a, was, middle)
    ensures Keeps(site, b, middle, now) ==> Keeps(site, a, was, now)
    ensures Leaves(site, b, middle, now) ==> Leaves(site, a, was, now)
  {
    hide Guarded, Free, SameMoves;
    FreeSame(site, a, b);
    if Guarded(middle, now, Free(site, b), b.entries.value) {
      GuardedCompose(was, middle, now, Free(site, a), a.entries.value, b.entries.value);
    }
  }

  lemma MovesSelf(entries: seq<Entry>)
    ensures SameMoves(entries, entries)
  {
  }

  lemma KeepsLeaves(site: Site, j: Journal, was: Files, now: Files)
    requires site.Valid() && j.entries.Some? && Keeps(site, j, was, now)
    ensures Leaves(site, j, was, now)
  {
  }

  // ---- each phase ----

  lemma CopyKeeps(site: Site, j: Journal, was: Files, k: nat)
    requires site.Valid() && j.entries.Some? && k <= |j.entries.value|
    ensures Keeps(site, j, was, CopyTo(was, j.entries.value, k))
  {
    CopyKeepsFiles(was, j.entries.value, k);
  }

  /** The journal is no database, so rewriting databases does not change it even where a config names
      it as one. */
  lemma {:induction false} RewriteJournaled(site: Site, files: Files, databases: seq<Path>, k: nat, report: Report,
      entries: seq<Entry>)
    requires site.Valid() && Journaled(site, files) && k <= |databases|
    ensures Journaled(site, RewriteTo(files, databases, k, report, entries))
  {
    if k > 0 {
      RewriteJournaled(site, files, databases, k - 1, report, entries);
    }
  }

  lemma RewriteKeeps(site: Site, j: Journal, was: Files, k: nat)
    requires site.Valid() && j.entries.Some? && k <= |Databases(site, j.preview, j.entries.value)|
    ensures Keeps(site, j, was,
              RewriteTo(was, Databases(site, j.preview, j.entries.value), k, j.preview, j.entries.value))
  {
    var databases := Databases(site, j.preview, j.entries.value);
    RewriteKeepsOthers(was, databases, k, j.preview, j.entries.value);
    assert forall d :: d in databases ==> d in Free(site, j);
    if Journaled(site, was) {
      RewriteJournaled(site, was, databases, k, j.preview, j.entries.value);
    }
  }

  lemma RepairKeeps(site: Site, j: Journal, was: Files)
    requires site.Valid() && j.entries.Some? && j.preview.operation != SelectData
    ensures Keeps(site, j, was, RepairAtPath(was, TransportIndex(site, j.preview, j.entries.value), j.entries.value))
  {
    assert TransportIndex(site, j.preview, j.entries.value) in Free(site, j);
  }

  lemma CutKeeps(site: Site, j: Journal, was: Files, current: Content, step: nat)
    requires site.Valid() && j.entries.Some?
    ensures Keeps(site, j, was, CutTo(site, was, j, current, step))
  {
    ReservedNamesDiffer(site);
  }

  lemma DeleteLeaves(site: Site, j: Journal, was: Files, k: nat)
    requires site.Valid() && j.entries.Some? && k <= |j.entries.value| && DeletesPass(was, j.entries.value, k)
    ensures Leaves(site, j, was, DeleteTo(was, j.entries.value, k))
    ensures Leaves(site, j, was, DeleteTo(was, j.entries.value, k) - {site.Pending()})
  {
    DeleteGuarded(was, j.entries.value, k);
  }

  // ---- a manifest that lists the journal ----

  /** The first k entries are copied; entry i, not earlier, is the journal with the text it had before
      the manifest was saved. */
  ghost predicate StalledBefore(site: Site, base: Files, plan: Journal, k: nat, i: nat, files: Files)
    requires site.Valid() && plan.entries.Some?
  {
    var entries := plan.entries.value;
    && k <= i < |entries| && entries[i].source == site.Pending() && entries[i].hash != Digest(Pending(plan))
    && site.Pending() !in base && site.config in base && base[site.config] == plan.configBefore
    && ManifestOk(base, entries[..i])
    && site.Pending() !in Sources(entries[..i]) && site.Pending() !in Destinations(entries[..i])
    && entries[i].destination !in base && entries[i].destination !in Destinations(entries[..i])
    && entries[i].destination != site.Pending()
    && files == CopyTo(base, entries[..i], k)[site.Pending() := Pending(plan)]
  }

  /** The disk of a move that has begun to copy and cannot get beyond its own journal. */
  ghost predicate Stalled(site: Site, base: Files, plan: Journal, m: Moment, files: Files) {
    && site.Valid() && FreshManifest(plan) && m.Copying?
    && exists i: nat :: StalledBefore(site, base, plan, m.k, i, files)
  }

  /** What a run leaves of a stalled move: more copies perhaps, but never its end. */
  ghost predicate Stopped(site: Site, base: Files, plan: Journal, m: Moment, m': Moment, files: Files,
      done: bool, cutOff: bool, power: nat)
  {
    && Stalled(site, base, plan, m', files) && NotEarlier(m', m) && !done
    && (cutOff && power >= 3 ==> Later(m', m))
  }

  lemma StoppedShort(site: Site, base: Files, plan: Journal, m: Moment, m': Moment, files: Files, done: bool,
      cutOff: bool, power: nat)
    requires Stopped(site, base, plan, m, m', files, done, cutOff, power)
    ensures !done
  {
  }

  /** Copying looks at no entry beyond the ones it copies. */
  lemma {:induction false} CopyPrefix(files: Files, entries: seq<Entry>, k: nat, i: nat)
    requires k <= i <= |entries|
    ensures CopyTo(files, entries[..i], k) == CopyTo(files, entries, k)
  {
    if k > 0 {
      CopyPrefix(files, entries, k - 1, i);
    }
  }

  /** The copies before the journal's own can be made again, and go on. */
  lemma StallGoesOn(site: Site, base: Files, plan: Journal, k: nat, i: nat, was: Files, again: nat)
    requires site.Valid() && plan.entries.Some? && StalledBefore(site, base, plan, k, i, was) && again <= i
    ensures StalledBefore(site, base, plan, if again > k then again else k, i, CopyTo(was, plan.entries.value, again))
    ensures again <= k ==> CopyTo(was, plan.entries.value, again) == was
  {
    var entries := plan.entries.value;
    CopyPrefix(was, entries, again, i);
    hide ManifestOk, CopyTo;
    CopyGoesOn(base, entries[..i], k, again, site.Pending(), Pending(plan));
  }

  /** The copy of the journal itself is refused when its turn comes. */
  lemma StallFails(site: Site, base: Files, plan: Journal, k: nat, i: nat, was: Files)
    requires site.Valid() && plan.entries.Some? && StalledBefore(site, base, plan, k, i, was)
    ensures CopyFails(CopyTo(was, plan.entries.value, i), plan.entries.value[i])
  {
    var entries := plan.entries.value;
    StallGoesOn(site, base, plan, k, i, was, i);
    CopyAdds(base, entries[..i], i);
    assert entries[..i][..i] == entries[..i];
    hide ManifestOk, CopyTo;
  }

  /** A stalled move stays stalled: the copies before the journal are made, the journal's own is
      refused. */
  lemma StallStays(site: Site, base: Files, plan: Journal, m: Moment, was: Files, k: nat)
    requires Stalled(site, base, plan, m, was) && k <= |plan.entries.value|
    requires CopiesPass(was, plan.entries.value, k)
    ensures Stalled(site, base, plan, Copying(if k > m.k then k else m.k), CopyTo(was, plan.entries.value, k))
    ensures k < |plan.entries.value|
    ensures k <= m.k ==> CopyTo(was, plan.entries.value, k) == was
  {
    hide StalledBefore, CopyTo, CopyFails;
    var i: nat :| StalledBefore(site, base, plan, m.k, i, was);
    StallWithin(site, base, plan, m.k, i, was);
    if k > i {
      StallFails(site, base, plan, m.k, i, was);
      FailureStops(was, plan.entries.value, k, i);
    }
    StallGoesOn(site, base, plan, m.k, i, was, k);
  }

  lemma StallWithin(site: Site, base: Files, plan: Journal, k: nat, i: nat, was: Files)
    requires site.Valid() && plan.entries.Some? && StalledBefore(site, base, plan, k, i, was)
    ensures k <= i < |plan.entries.value|
  {
  }

  /** A stalled disk still reads like a started move, and has lost nothing. */
  lemma StalledReads(site: Site, base: Files, plan: Journal, m: Moment, files: Files)
    requires Stalled(site, base, plan, m, files)
    ensures site.Pending() in files && files[site.Pending()] == Pending(plan)
    ensures site.config in files && files[site.config] == plan.configBefore
    ensures forall p :: p in base ==> p in files && files[p] == base[p]
  {
    var i: nat :| StalledBefore(site, base, plan, m.k, i, files);
    CopyKeepsFiles(base, plan.entries.value[..i], m.k);
    ReservedNamesDiffer(site);
  }
}
