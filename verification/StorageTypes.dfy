/** The data of a storage move: what files hold, the journal, and the names the move reserves.
    Models the declarations of grimoire/src/storage_migration.rs. */
module StorageTypes {
  import opened Wrappers
  import opened Paths
  import opened Documents

  datatype Operation = MoveData | MoveFetch | SelectData

  /** A file's content. Every string that may hold a path is kept as a path. */
  datatype Content =
    | Bytes(data: seq<int>)
    | Document(doc: Doc<Path>)          // the config or the host's preferences
    | Database(rows: seq<Cell>)
    | Transport(references: map<Hash, Path>)
    | Pending(journal: Journal)

  /** The digest of a file, taken to be injective. */
  datatype Hash = Digest(content: Content)

  /** One value of a column that the move rewrites, by the kind of its column. */
  datatype Cell =
    | PathCell(path: Path)              // local_path, path, directory_path, ...
    | JsonCell(json: JsonText)          // jobz.parameters and jobz.result: must parse
    | CheckpointCell(json: JsonText)    // job_sessionz.last_checkpoint: may be opaque
    | OtherCell(value: int)

  datatype JsonText = Parsed(value: Doc<Path>) | Opaque(text: Path)

  datatype Report = Report(operation: Operation, source: Path, destination: Path)

  datatype Entry = Entry(source: Path, destination: Path, hash: Hash, destinationHash: Option<Hash>)

  datatype DocumentChange = DocumentChange(path: Path, before: Content, after: Option<Content>)

  datatype Journal = Journal(
    version: nat,
    preview: Report,
    configBefore: Content,
    configAfter: Option<Content>,
    merge: bool,
    entries: Option<seq<Entry>>,
    copied: bool,
    pathsUpdated: bool,
    referencesUpdated: bool,
    committed: bool,
    preferences: Option<DocumentChange>)

  type Files = map<Path, Content>

  /** Where one installation keeps its config, and the paths its config names. */
  datatype Site = Site(
    config: Path,
    database: Path,
    reliquary: Path,
    transport: Path,
    mediaExtensions: set<string>)
  {
    predicate Valid() {
      config != []
    }

    function Pending(): Path
      requires Valid()
    {
      WithExtension(config, "toml.storage-move.json")
    }

    function Backup(): Path
      requires Valid()
    {
      WithExtension(config, "toml.storage-before")
    }

    /** Recognised as audio, video or image by its name. */
    predicate Media(p: Path) {
      p != [] && Extension(p[|p| - 1]) in mediaExtensions
    }
  }

  const DATA_LOCK := ".freqhole-storage.lock"
  const HOST_NAMES := {"charnel-config.toml", "charnel.log", "logs", "WebKit", "EBWebView", "webview"}

  /** Files a data move leaves where they are: the config and its companions, the data lock, and
      whatever belongs to the host application. */
  predicate Retained(site: Site, p: Path, root: Path)
    requires site.Valid()
  {
    || p == site.config
    || p == site.Pending()
    || p == WithExtension(site.config, "toml.storage.lock")
    || p == WithExtension(site.config, "toml.storage-queue.lock")
    || p == site.Backup()
    || p == root + [DATA_LOCK]
    || (Inside(p, root) && p[|root|] in HOST_NAMES)
  }

  /** The files below a root, minus the retained ones when the host's files stay behind. */
  function Tree(site: Site, files: Files, root: Path, retainHost: bool): set<Path>
    requires site.Valid()
  {
    set p | p in files && Inside(p, root) && p != root + [DATA_LOCK]
            && (!retainHost || !Retained(site, p, root))
  }

  /** The three files the move keeps beside each other are three different files. */
  lemma ReservedNamesDiffer(site: Site)
    requires site.Valid()
    ensures site.config != site.Pending() && site.config != site.Backup()
    ensures site.Pending() != site.Backup()
  {
    assert "toml.storage-move.json"[4] == '.' && "toml.storage-before"[4] == '.';
    assert |"toml.storage-move.json"| != |"toml.storage-before"|;
    DottedExtensionIsSibling(site.config, "toml.storage-move.json");
    DottedExtensionIsSibling(site.config, "toml.storage-before");
    ExtensionsDiffer(site.config, "toml.storage-move.json", "toml.storage-before");
  }
}
