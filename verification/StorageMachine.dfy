/** The disk that a storage move works on, one filesystem operation at a time. The power lasts for a
    given number of writes: when it is used up, the next write does not happen and the run ends
    there, so a contract that holds for every value of `power` holds for a crash at any point. */
module StorageMachine {
  import opened Wrappers
  import opened Paths
  import opened StorageTypes
  import opened Remapping
  import opened MoveSpec

  datatype MoveError =
    | JournalMissing | UnsupportedVersion | ConfigMissing | ConfigChanged | PreviewRefused
    | DestinationUnsafe | NewCollisions | FileCollision | ManifestMissing | TargetConfigMissing
    | DestinationChanged | SourceChanged | FileMissing | BadDatabase | BadTransport
    | PreferencesChanged | PreferencesMissing

  datatype Outcome = Done | PowerLost | Failed(error: MoveError)

  class Storage {
    const site: Site
    var files: Files
    var power: nat

    constructor (site: Site, files: Files, power: nat)
      ensures this.site == site && this.files == files && this.power == power
    {
      this.site, this.files, this.power := site, files, power;
    }

    // ---- single filesystem operations ----

    /** Replaces a file as a whole, or leaves the disk as it was. */
    method WriteAtomic(path: Path, content: Content) returns (outcome: Outcome)
      modifies this
      ensures outcome == if old(power) > 0 then Done else PowerLost
      ensures files == if outcome.Done? then old(files)[path := content] else old(files)
      ensures power == if outcome.Done? then old(power) - 1 else 0
    {
      if power == 0 {
        return PowerLost;
      }
      files, power := files[path := content], power - 1;
      return Done;
    }

    /** Creates a file, and refuses to replace one. */
    method PersistNoClobber(path: Path, content: Content) returns (outcome: Outcome)
      modifies this
      ensures path in old(files) ==> outcome.Failed? && files == old(files) && power == old(power)
      ensures path !in old(files) ==>
                && outcome == (if old(power) > 0 then Done else PowerLost)
                && files == (if outcome.Done? then old(files)[path := content] else old(files))
                && power == (if outcome.Done? then old(power) - 1 else 0)
    {
      if path in files {
        return Failed(DestinationChanged);
      }
      outcome := WriteAtomic(path, content);
    }

    method RemoveFile(path: Path) returns (outcome: Outcome)
      modifies this
      ensures outcome == if old(power) > 0 then Done else PowerLost
      ensures files == if outcome.Done? then old(files) - {path} else old(files)
      ensures power == if outcome.Done? then old(power) - 1 else 0
    {
      if power == 0 {
        return PowerLost;
      }
      files, power := files - {path}, power - 1;
      return Done;
    }

    // ---- copying ----

    /** Copies one entry through a temporary file, checking the digest of what was read, of the
        source again, and of what was persisted. */
    method CopyVerified(e: Entry) returns (outcome: Outcome)
      modifies this
      ensures outcome.Failed? <==> CopyFails(old(files), e)
      ensures files == if outcome.Done? then CopyStep(old(files), e) else old(files)
      ensures outcome.PowerLost? ==> power == 0 && e.destination !in files
      ensures power + |files| == old(power) + |old(files)|
    {
      if e.destination in files {
        return if Digest(files[e.destination]) != e.hash then Failed(DestinationChanged) else Done;
      }
      if e.source !in files {
        return Failed(FileMissing);
      }
      var temporary := files[e.source];
      if Digest(temporary) != e.hash || Digest(files[e.source]) != e.hash {
        return Failed(SourceChanged);
      }
      outcome := PersistNoClobber(e.destination, temporary);
      if outcome.Done? && Digest(files[e.destination]) != e.hash {
        assert false;
      }
    }

    /** Copies the manifest in order, up to the first entry that is refused or that the power does
        not reach. */
    method CopyAll(entries: seq<Entry>) returns (outcome: Outcome, ghost k: nat)
      modifies this
      ensures k <= |entries| && files == CopyTo(old(files), entries, k)
      ensures CopiesPass(old(files), entries, k)
      ensures outcome.Done? ==> k == |entries|
      ensures outcome.Failed? ==> k < |entries| && CopyFails(files, entries[k])
      ensures outcome.PowerLost? ==> k < |entries| && power == 0 && !CopyFails(files, entries[k])
      ensures power + |files| == old(power) + |old(files)|
    {
      k := 0;
      for i := 0 to |entries|
        invariant k == i && files == CopyTo(old(files), entries, k)
        invariant CopiesPass(old(files), entries, k)
        invariant power + |files| == old(power) + |old(files)|
      {
        outcome := CopyVerified(entries[i]);
        if !outcome.Done? {
          return;
        }
        k := k + 1;
      }
      outcome := Done;
    }

    // ---- stored paths ----

    /** Rewrites one database in a single transaction; a missing database is skipped. */
    method RewriteDatabase(path: Path, report: Report, entries: seq<Entry>) returns (outcome: Outcome)
      modifies this
      ensures outcome.Failed? <==> RewriteFails(old(files), path)
      ensures files == if outcome.Done? then RewriteAtPath(old(files), path, report, entries) else old(files)
      ensures outcome.PowerLost? ==> old(power) == 0 && power == 0
      ensures !outcome.PowerLost? ==> power <= old(power) <= power + 1
      ensures outcome.Failed? ==> power == old(power)
    {
      if path !in files {
        return Done;
      }
      if !files[path].Database? {
        return Failed(BadDatabase);
      }
      var written := RewriteTransaction(files[path].rows, report, entries);
      if written.None? {
        return Failed(BadDatabase);
      }
      outcome := WriteAtomic(path, Database(written.value));
    }

    method RewriteDatabases(databases: seq<Path>, report: Report, entries: seq<Entry>)
      returns (outcome: Outcome, ghost k: nat)
      modifies this
      ensures k <= |databases| && files == RewriteTo(old(files), databases, k, report, entries)
      ensures forall i :: 0 <= i < k ==>
                !RewriteFails(RewriteTo(old(files), databases, i, report, entries), databases[i])
      ensures outcome.Done? ==> k == |databases|
      ensures outcome.Failed? ==> k < |databases| && RewriteFails(files, databases[k])
      ensures outcome.PowerLost? ==> k < |databases| && power == 0 && !RewriteFails(files, databases[k])
      ensures old(power) <= power + k
    {
      k := 0;
      for i := 0 to |databases|
        invariant k == i && files == RewriteTo(old(files), databases, k, report, entries)
        invariant forall i :: 0 <= i < k ==>
          !RewriteFails(RewriteTo(old(files), databases, i, report, entries), databases[i])
        invariant old(power) <= power + k
      {
        outcome := RewriteDatabase(databases[i], report, entries);
        if !outcome.Done? {
          return;
        }
        k := k + 1;
      }
      outcome := Done;
    }

    /** Records the digest of every destination; only a rewritten database may differ from its
        source. */
    method HashDestinations(entries: seq<Entry>, databases: seq<Path>) returns (result: Option<seq<Entry>>)
      ensures result.Some? <==> forall e :: e in entries ==>
                e.destination in files && (e.destination in databases || Digest(files[e.destination]) == e.hash)
      ensures result.Some? ==> result.value == Hashed(files, entries)
    {
      var hashed: seq<Entry> := [];
      for i := 0 to |entries|
        invariant |hashed| == i
        invariant forall j :: 0 <= j < i ==> hashed[j] == Hashed(files, entries)[j]
        invariant forall j :: 0 <= j < i ==>
          entries[j].destination in files
            && (entries[j].destination in databases || Digest(files[entries[j].destination]) == entries[j].hash)
      {
        var e := entries[i];
        assert e in entries;
        if e.destination !in files {
          return None;
        }
        var hash := Digest(files[e.destination]);
        if e.destination !in databases && hash != e.hash {
          return None;
        }
        hashed := hashed + [e.(destinationHash := Some(hash))];
      }
      assert hashed == Hashed(files, entries);
      return Some(hashed);
    }

    /** Records fresh digests below the transport directory. */
    method RehashTransport(entries: seq<Entry>, transport: Path) returns (result: Option<seq<Entry>>)
      ensures result.Some? <==> forall e :: e in entries && transport <= e.destination ==> e.destination in files
      ensures result.Some? ==> result.value == Rehashed(files, entries, transport)
    {
      var hashed: seq<Entry> := [];
      for i := 0 to |entries|
        invariant |hashed| == i
        invariant forall j :: 0 <= j < i ==> hashed[j] == Rehashed(files, entries, transport)[j]
        invariant forall j :: 0 <= j < i && transport <= entries[j].destination ==> entries[j].destination in files
      {
        var e := entries[i];
        assert e in entries;
        if transport <= e.destination {
          if e.destination !in files {
            return None;
          }
          e := e.(destinationHash := Some(Digest(files[e.destination])));
        }
        hashed := hashed + [e];
      }
      assert hashed == Rehashed(files, entries, transport);
      return Some(hashed);
    }

    // ---- cutover ----

    /** All sources are still what was planned. */
    method SourcesUnchanged(entries: seq<Entry>) returns (ok: bool)
      ensures ok <==> forall e :: e in entries ==> e.source in files && Digest(files[e.source]) == e.hash
    {
      for i := 0 to |entries|
        invariant forall j :: 0 <= j < i ==>
          entries[j].source in files && Digest(files[entries[j].source]) == entries[j].hash
      {
        assert entries[i] in entries;
        if entries[i].source !in files || Digest(files[entries[i].source]) != entries[i].hash {
          return false;
        }
      }
      return true;
    }

    // ---- cleanup ----

    /** Deletes one source after both digests were checked again; one that is gone is skipped. */
    method DeleteVerified(e: Entry) returns (outcome: Outcome)
      modifies this
      ensures outcome.Failed? <==> DeleteFails(old(files), e)
      ensures files == if outcome.Done? then old(files) - {e.source} else old(files)
      ensures outcome.PowerLost? ==> power == 0
      ensures power <= old(power) && old(power) + |files| == power + |old(files)|
    {
      if e.source !in files {
        assert files - {e.source} == files;
        return Done;
      }
      if Digest(files[e.source]) != e.hash {
        return Failed(SourceChanged);
      }
      if e.destination !in files {
        return Failed(FileMissing);
      }
      if Some(Digest(files[e.destination])) != e.destinationHash {
        return Failed(DestinationChanged);
      }
      assert |files.Keys - {e.source}| == |files.Keys| - 1 && (files - {e.source}).Keys == files.Keys - {e.source};
      outcome := RemoveFile(e.source);
    }

    /** Deletes the sources in order, up to the first entry that fails its checks or that the power
        does not reach. */
    method DeleteSources(entries: seq<Entry>) returns (outcome: Outcome, ghost k: nat)
      modifies this
      ensures k <= |entries| && files == DeleteTo(old(files), entries, k)
      ensures DeletesPass(old(files), entries, k)
      ensures outcome.Done? ==> k == |entries|
      ensures outcome.Failed? ==> k < |entries| && DeleteFails(files, entries[k])
      ensures outcome.PowerLost? ==> k < |entries| && power == 0 && !DeleteFails(files, entries[k])
      ensures power <= old(power) && old(power) + |files| == power + |old(files)|
    {
      k := 0;
      for i := 0 to |entries|
        invariant k == i && files == DeleteTo(old(files), entries, k)
        invariant DeletesPass(old(files), entries, k)
        invariant power <= old(power) && old(power) + |files| == power + |old(files)|
      {
        outcome := DeleteVerified(entries[i]);
        if !outcome.Done? {
          return;
        }
        k := k + 1;
      }
      outcome := Done;
    }
  }
}
