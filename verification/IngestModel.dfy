/**
 The three metadata files of the DC-02 ingest transaction, the semantic store they guard,
 and the atomic effects an apply run has on them.

 A digest is identified with what it hashes, so SHA-256 is injective by construction.
 */
module IngestModel {
  import opened Wrappers

  type Path = string
  type Tag = string
  type Text = string
  type CheckpointId = string

  datatype Digest = Sha256(text: Text)

  datatype NoteSnapshot = NoteSnapshot(size: nat, mtime: nat, text: Text)
  /** One admitted scan of the vault, keyed by relative path. */
  type Vault = map<Path, NoteSnapshot>

  datatype FileMeta = FileMeta(size: nat, mtime: nat, sha: Digest, tag: Tag)
  type FileMap = map<Path, FileMeta>
  datatype FilesDigest = FilesSha256(files: FileMap)

  datatype Checkpoint = Checkpoint(id: CheckpointId, files: FileMap)
  datatype Journal = Journal(
    base: CheckpointId, target: CheckpointId,
    baseDigest: FilesDigest, targetDigest: FilesDigest,
    paths: map<Path, Tag>)

  /**
   The vendor's tag function (not injective), case folding, the directory entry a path names (a file system that
   ignores case gives one entry many names), and the identifier of the empty checkpoint.
   */
  datatype Env = Env(docTag: Path -> Tag, fold: Path -> string, entry: Path -> string, genesis: CheckpointId)

  datatype Disk = Disk(
    state: Option<Checkpoint>, pending: Option<Journal>, owner: bool,
    store: map<Tag, Text>)

  const EMPTY_DISK := Disk(None, None, false, map[])

  /** `load_state`: a missing file reads as the empty checkpoint. */
  function LoadState(env: Env, d: Disk): Checkpoint {
    match d.state
    case Some(checkpoint) => checkpoint
    case None => Checkpoint(env.genesis, map[])
  }

  predicate ValidTag(tag: Tag) {
    |tag| > 4 && tag[..4] == "doc:"
  }

  /** `_files_payload`: what a checkpoint records about the scanned notes. */
  function FilesPayload(env: Env, notes: Vault): (files: FileMap)
    ensures files.Keys == notes.Keys
  {
    map p | p in notes :: FileMeta(notes[p].size, notes[p].mtime, Sha256(notes[p].text), env.docTag(p))
  }

  // ---------- What the store should hold ----------

  /** At this tag the store holds exactly what the checkpointed files say. */
  ghost predicate AgreesAt(store: map<Tag, Text>, files: FileMap, tag: Tag) {
    && (forall p :: p in files && files[p].tag == tag ==> tag in store && store[tag] == files[p].sha.text)
    && (tag in store ==> exists p :: p in files && files[p].tag == tag)
  }

  ghost predicate Mirrors(store: map<Tag, Text>, files: FileMap) {
    forall tag :: AgreesAt(store, files, tag)
  }

  ghost predicate TagsDistinct(env: Env, paths: set<Path>) {
    forall p, q :: p in paths && q in paths && env.docTag(p) == env.docTag(q) ==> p == q
  }

  ghost predicate FoldsDistinct(env: Env, paths: set<Path>) {
    forall p, q :: p in paths && q in paths && env.fold(p) == env.fold(q) ==> p == q
  }

  /** Paths that fold alike are different entries all the same. */
  ghost predicate KeptApart(env: Env, paths: set<Path>) {
    forall p, q :: p in paths && q in paths && env.fold(p) == env.fold(q) && env.entry(p) == env.entry(q) ==> p == q
  }

  /** No deleted path is another name of a note. */
  ghost predicate Absent(env: Env, deleted: set<Path>, notes: set<Path>) {
    forall p, q :: p in deleted && q in notes ==> env.entry(p) != env.entry(q)
  }

  // ---------- Effects ----------

  /** One atomic change: a file replaced or removed, or one document studied or faded. */
  datatype Effect =
    | WritePending(journal: Journal)
    | ClearPending
    | WriteOwner
    | WriteState(checkpoint: Checkpoint)
    | Study(tag: Tag, text: Text)
    | Fade(faded: Tag)

  function Perform(d: Disk, e: Effect): Disk {
    match e
    case WritePending(journal) => d.(pending := Some(journal))
    case ClearPending => d.(pending := None)
    case WriteOwner => d.(owner := true)
    case WriteState(checkpoint) => d.(state := Some(checkpoint))
    case Study(tag, text) => d.(store := d.store[tag := text])
    case Fade(tag) => d.(store := d.store - {tag})
  }

  /** How an effect that was never completed leaves the disk. */
  datatype Tear = NotBegun | Left(text: Option<Text>)

  /** File replacement is atomic; an interrupted study or fade may leave its one tag holding anything. */
  function Interrupt(d: Disk, e: Effect, tear: Tear): Disk {
    if tear.NotBegun? || !(e.Study? || e.Fade?) then d else
      var tag := if e.Study? then e.tag else e.faded;
      match tear.text
      case Some(text) => d.(store := d.store[tag := text])
      case None => d.(store := d.store - {tag})
  }

  function PerformAll(d: Disk, es: seq<Effect>): Disk
    decreases |es|
  {
    if es == [] then d else PerformAll(Perform(d, es[0]), es[1..])
  }

  /** The run dies after `cut` completed effects, possibly in the middle of the next one. */
  function Cut(d: Disk, es: seq<Effect>, cut: nat, tear: Tear): Disk
    decreases |es|
  {
    if es == [] then d
    else if cut == 0 then Interrupt(d, es[0], tear)
    else Cut(Perform(d, es[0]), es[1..], cut - 1, tear)
  }

  lemma {:induction false} PerformAllConcat(d: Disk, a: seq<Effect>, b: seq<Effect>)
    ensures PerformAll(d, a + b) == PerformAll(PerformAll(d, a), b)
    decreases |a|
  {
    if a == [] {
      assert a + b == b;
    } else {
      assert (a + b)[0] == a[0] && (a + b)[1..] == a[1..] + b;
      PerformAllConcat(Perform(d, a[0]), a[1..], b);
    }
  }

  lemma {:induction false} UncutRun(d: Disk, es: seq<Effect>, cut: nat, tear: Tear)
    requires |es| <= cut
    ensures Cut(d, es, cut, tear) == PerformAll(d, es)
    decreases |es|
  {
    if es != [] {
      UncutRun(Perform(d, es[0]), es[1..], cut - 1, tear);
    }
  }
}
