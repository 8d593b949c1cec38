/**
 Crash safety of the DC-02 ingest transaction over every history of apply runs: each run sees an
 arbitrary vault and dies after an arbitrary number of effects, possibly in the middle of a study.
 */
module IngestRun {
  import opened Wrappers
  import opened IngestModel
  import opened IngestPlan

  // ---------- One run ----------

  /** All the checks an apply run makes before it plans. */
  ghost predicate Admissible(env: Env, d: Disk, notes: Vault) {
    && FileMapOk(env, LoadState(env, d).files)
    && !(d.owner && d.state.None? && d.pending.None?)
    && FoldsDistinct(env, notes.Keys)
    && TagsAdmissible(env, notes.Keys, LoadState(env, d).files)
    && PendingOf(env, d, notes.Keys).Some?
  }

  /** The tags recovered from an active journal. */
  ghost function Carried(env: Env, d: Disk, notes: set<Path>): map<Path, Tag> {
    var status := PendingOf(env, d, notes);
    if status.Some? && status.value.Active? then status.value.docTags else map[]
  }

  ghost function PlanOf(env: Env, d: Disk, notes: Vault): SyncPlan {
    PlanFor(notes, LoadState(env, d).files, Carried(env, d, notes.Keys).Keys)
  }

  ghost function NewJournal(env: Env, d: Disk, notes: Vault, target: CheckpointId): Journal {
    var state, carried := LoadState(env, d), Carried(env, d, notes.Keys);
    var paths := map p | p in Affected(PlanOf(env, d, notes)) && JournalTag(env, notes, state.files, carried, p).Some?
                   :: JournalTag(env, notes, state.files, carried, p).value;
    Journal(state.id, target, FilesSha256(state.files), FilesSha256(FilesPayload(env, notes)), paths)
  }

  ghost predicate TagsKnown(env: Env, d: Disk, notes: Vault) {
    forall p :: p in Affected(PlanOf(env, d, notes)) ==>
      JournalTag(env, notes, LoadState(env, d).files, Carried(env, d, notes.Keys), p).Some?
  }

  function Studies(env: Env, notes: Vault, order: seq<Path>): (es: seq<Effect>)
    requires forall p :: p in order ==> p in notes
  {
    seq(|order|, i requires 0 <= i < |order| => Study(env.docTag(order[i]), notes[order[i]].text))
  }

  function Fades(env: Env, order: seq<Path>): (es: seq<Effect>) {
    seq(|order|, i requires 0 <= i < |order| => Fade(env.docTag(order[i])))
  }

  /** An order in which a loop visits every element of a set once. */
  ghost predicate Orders(q: seq<Path>, s: set<Path>) {
    && (forall p :: p in q <==> p in s)
    && (forall i, j :: 0 <= i < j < |q| ==> q[i] != q[j])
  }

  /** One apply: the scanned vault, the orders its loops take, the random id, and where it dies. */
  datatype Run = Run(notes: Vault, studied: seq<Path>, faded: seq<Path>, target: CheckpointId, cut: nat, tear: Tear)

  ghost predicate Scheduled(env: Env, d: Disk, run: Run) {
    var plan := PlanOf(env, d, run.notes);
    Orders(run.studied, plan.added + plan.changed) && Orders(run.faded, plan.deleted)
  }

  ghost function Head(env: Env, d: Disk, notes: set<Path>): seq<Effect> {
    if PendingOf(env, d, notes) == Some(Completed) then [ClearPending] else []
  }

  /** `validate_deleted_absence`. */
  ghost predicate DeletedAbsent(env: Env, d: Disk, notes: Vault) {
    Absent(env, PlanOf(env, d, notes).deleted, notes.Keys)
  }

  function OwnerEffects(d: Disk): seq<Effect> {
    if d.owner then [] else [WriteOwner]
  }

  ghost function Mutations(env: Env, d: Disk, run: Run): seq<Effect>
    requires Scheduled(env, d, run)
  {
    Studies(env, run.notes, run.studied) + Fades(env, run.faded)
  }

  /** The effects of an admitted run after the clearing of a completed journal, in order. */
  ghost function Body(env: Env, d: Disk, run: Run): seq<Effect>
    requires Scheduled(env, d, run)
  {
    var state, files := LoadState(env, d), FilesPayload(env, run.notes);
    if Affected(PlanOf(env, d, run.notes)) == {} then
      [WriteState(Checkpoint(state.id, files))] + OwnerEffects(d) + [ClearPending]
    else if !DeletedAbsent(env, d, run.notes) || run.target == state.id || !TagsKnown(env, d, run.notes) then
      []  // a deleted note is still there, or the journal payload is refused
    else
      BusyPrefix(env, d, run) + [WriteState(Checkpoint(run.target, files)), ClearPending]
  }

  /** Journal first, then ownership, then the store. */
  ghost function BusyPrefix(env: Env, d: Disk, run: Run): seq<Effect>
    requires Scheduled(env, d, run)
  {
    [WritePending(NewJournal(env, d, run.notes, run.target))] + OwnerEffects(d) + Mutations(env, d, run)
  }

  ghost function RunOnce(env: Env, d: Disk, run: Run): Disk {
    if Admissible(env, d, run.notes) && Scheduled(env, d, run)
    then Cut(d, Head(env, d, run.notes.Keys) + Body(env, d, run), run.cut, run.tear)
    else d
  }

  ghost function After(env: Env, runs: seq<Run>): Disk {
    if runs == [] then EMPTY_DISK
    else RunOnce(env, After(env, runs[..|runs| - 1]), runs[|runs| - 1])
  }

  // ---------- The invariant ----------

  ghost predicate JournalOk(env: Env, j: Journal) {
    && j.base != j.target
    && j.paths.Keys != {}
    && TagsDistinct(env, j.paths.Keys) && KeptApart(env, j.paths.Keys)
    && forall p :: p in j.paths ==> ValidTag(env.docTag(p)) && j.paths[p] == env.docTag(p)
  }

  ghost predicate IsCompleted(d: Disk) {
    && d.pending.Some? && d.state.Some?
    && d.state.value.id == d.pending.value.target
    && FilesSha256(d.state.value.files) == d.pending.value.targetDigest
  }

  /** The journal describes work on top of the current checkpoint, and its tags fit that checkpoint's. */
  ghost predicate IsActive(env: Env, d: Disk) {
    && d.pending.Some?
    && LoadState(env, d).id == d.pending.value.base
    && FilesSha256(LoadState(env, d).files) == d.pending.value.baseDigest
    && TagsDistinct(env, d.pending.value.paths.Keys + LoadState(env, d).files.Keys)
    && KeptApart(env, d.pending.value.paths.Keys + LoadState(env, d).files.Keys)
  }

  ghost predicate Journaled(j: Journal, tag: Tag) {
    exists p :: p in j.paths && j.paths[p] == tag
  }

  ghost predicate CheckpointOk(env: Env, files: FileMap) {
    && FileMapOk(env, files)
    && forall p :: p in files ==> files[p].tag == env.docTag(p)
  }

  /** The store differs from the checkpoint only at journaled tags. */
  ghost predicate Covered(env: Env, d: Disk) {
    forall tag :: d.pending.Some? && !Journaled(d.pending.value, tag) ==> AgreesAt(d.store, LoadState(env, d).files, tag)
  }

  ghost predicate Inv(env: Env, d: Disk) {
    && CheckpointOk(env, LoadState(env, d).files)
    && (d.owner ==> d.state.Some? || d.pending.Some?)
    && (d.pending.Some? ==> JournalOk(env, d.pending.value) && (IsCompleted(d) || IsActive(env, d)))
    && (if IsActive(env, d) then Covered(env, d) else Mirrors(d.store, LoadState(env, d).files))
  }

  // ---------- Permitted effects keep the invariant ----------

  /** When an effect may be performed: the ordering discipline the program follows. */
  ghost predicate Permitted(env: Env, d: Disk, e: Effect) {
    match e
    case ClearPending => !IsActive(env, d)
    case WriteOwner => d.state.Some? || d.pending.Some?
    case WritePending(j) =>
      && !IsCompleted(d)
      && JournalOk(env, j) && IsActive(env, d.(pending := Some(j)))
      && (d.pending.Some? ==> d.pending.value.paths.Keys <= j.paths.Keys)
    case Study(tag, _) => IsActive(env, d) && Journaled(d.pending.value, tag)
    case Fade(tag) => IsActive(env, d) && Journaled(d.pending.value, tag)
    case WriteState(c) =>
      && CheckpointOk(env, c.files) && Mirrors(d.store, c.files)
      && (d.pending.Some? ==> c.id == d.pending.value.target && FilesSha256(c.files) == d.pending.value.targetDigest)
  }

  ghost predicate PermittedAll(env: Env, d: Disk, es: seq<Effect>)
    decreases |es|
  {
    es == [] || (Permitted(env, d, es[0]) && PermittedAll(env, Perform(d, es[0]), es[1..]))
  }

  lemma StorePoint(env: Env, d: Disk, store: map<Tag, Text>, tag: Tag)
    requires Inv(env, d) && IsActive(env, d) && Journaled(d.pending.value, tag)
    requires forall t :: t != tag ==> (t in store <==> t in d.store) && (t in store ==> store[t] == d.store[t])
    ensures Inv(env, d.(store := store))
  {
    var d' := d.(store := store);
    forall t | !Journaled(d'.pending.value, t)
      ensures AgreesAt(d'.store, LoadState(env, d').files, t)
    {
      assert AgreesAt(d.store, LoadState(env, d).files, t);
    }
  }

  lemma JournalExtends(env: Env, d: Disk, j: Journal)
    requires Inv(env, d) && Permitted(env, d, WritePending(j))
    ensures Inv(env, d.(pending := Some(j)))
  {
    var d' := d.(pending := Some(j));
    forall tag | !Journaled(j, tag)
      ensures AgreesAt(d'.store, LoadState(env, d').files, tag)
    {
      assert AgreesAt(d.store, LoadState(env, d).files, tag);
    }
  }

  lemma PermittedStep(env: Env, d: Disk, e: Effect, tear: Tear)
    requires Inv(env, d) && Permitted(env, d, e)
    ensures Inv(env, Perform(d, e)) && Inv(env, Interrupt(d, e, tear))
  {
    match e
    case ClearPending =>
    case WriteOwner =>
    case WritePending(j) => JournalExtends(env, d, j);
    case Study(tag, _) => MutationStep(env, d, e, tear, tag);
    case Fade(tag) => MutationStep(env, d, e, tear, tag);
    case WriteState(c) =>
  }

  lemma MutationStep(env: Env, d: Disk, e: Effect, tear: Tear, tag: Tag)
    requires Inv(env, d) && Permitted(env, d, e) && ((e.Study? && e.tag == tag) || (e.Fade? && e.faded == tag))
    ensures Inv(env, Perform(d, e)) && Inv(env, Interrupt(d, e, tear))
  {
    StorePoint(env, d, Perform(d, e).store, tag);
    StorePoint(env, d, Interrupt(d, e, tear).store, tag);
  }

  lemma {:induction false} PermittedKeepsInv(env: Env, d: Disk, es: seq<Effect>, cut: nat, tear: Tear)
    requires Inv(env, d) && PermittedAll(env, d, es)
    ensures Inv(env, Cut(d, es, cut, tear))
    decreases |es|
  {
    if es != [] {
      PermittedStep(env, d, es[0], tear);
      if cut > 0 {
        PermittedKeepsInv(env, Perform(d, es[0]), es[1..], cut - 1, tear);
      }
    }
  }

  lemma {:induction false} PermittedConcat(env: Env, d: Disk, a: seq<Effect>, b: seq<Effect>)
    requires PermittedAll(env, d, a) && PermittedAll(env, PerformAll(d, a), b)
    ensures PermittedAll(env, d, a + b)
    decreases |a|
  {
    if a == [] {
      assert a + b == b;
    } else {
      assert (a + b)[0] == a[0] && (a + b)[1..] == a[1..] + b;
      PermittedConcat(env, Perform(d, a[0]), a[1..], b);
    }
  }

  // ---------- The mutation phase ----------

  predicate IsMutation(e: Effect) { e.Study? || e.Fade? }

  function TagOf(e: Effect): Tag
    requires IsMutation(e)
  {
    if e.Study? then e.tag else e.faded
  }

  ghost predicate MutationList(es: seq<Effect>) {
    && (forall i :: 0 <= i < |es| ==> IsMutation(es[i]))
    && (forall i, j :: 0 <= i < j < |es| ==> TagOf(es[i]) != TagOf(es[j]))
  }

  ghost predicate Applied(store: map<Tag, Text>, e: Effect)
    requires IsMutation(e)
  {
    match e
    case Study(tag, text) => tag in store && store[tag] == text
    case Fade(tag) => tag !in store
  }

  /** A list of studies and fades of distinct tags sets each of them and touches nothing else. */
  lemma {:induction false} MutationsApplied(d: Disk, es: seq<Effect>)
    requires MutationList(es)
    ensures var r := PerformAll(d, es);
      && r == d.(store := r.store)
      && (forall i :: 0 <= i < |es| ==> Applied(r.store, es[i]))
      && (forall t :: (forall i :: 0 <= i < |es| ==> TagOf(es[i]) != t) ==>
            (t in r.store <==> t in d.store) && (t in r.store ==> r.store[t] == d.store[t]))
    decreases |es|
  {
    if es != [] {
      var d', rest := Perform(d, es[0]), es[1..];
      assert forall i :: 0 <= i < |rest| ==> rest[i] == es[i + 1];
      MutationsApplied(d', rest);
      var r := PerformAll(d', rest);
      forall i | 0 <= i < |es| ensures Applied(r.store, es[i]) {
        if i > 0 {
          assert es[i] == rest[i - 1];
        } else {
          assert forall k :: 0 <= k < |rest| ==> TagOf(rest[k]) != TagOf(es[0]);
        }
      }
    }
  }

  lemma {:induction false} MutationsPermitted(env: Env, d: Disk, es: seq<Effect>)
    requires IsActive(env, d)
    requires forall i :: 0 <= i < |es| ==> IsMutation(es[i]) && Journaled(d.pending.value, TagOf(es[i]))
    ensures PermittedAll(env, d, es)
    decreases |es|
  {
    if es != [] {
      MutationsPermitted(env, Perform(d, es[0]), es[1..]);
    }
  }

  // ---------- What a run does ----------

  /** All paths a run has to do with: scanned, checkpointed or journaled. */
  ghost function KnownPaths(env: Env, d: Disk, notes: Vault): set<Path> {
    notes.Keys + LoadState(env, d).files.Keys + Carried(env, d, notes.Keys).Keys
  }

  /**
   Tags stay injective over current notes, checkpoint and active journal together, although no
   check ever compares the journal with the checkpoint.
   */
  lemma TagsInjectiveUnderInv(env: Env, d: Disk, notes: Vault)
    requires Inv(env, d) && Admissible(env, d, notes)
    ensures TagsDistinct(env, KnownPaths(env, d, notes))
    ensures forall p :: p in KnownPaths(env, d, notes) ==> ValidTag(env.docTag(p))
  {
    var files, carried := LoadState(env, d).files, Carried(env, d, notes.Keys);
    forall p, q | p in KnownPaths(env, d, notes) && q in KnownPaths(env, d, notes) && env.docTag(p) == env.docTag(q)
      ensures p == q
    {
      assert carried != map[] ==> IsActive(env, d) && carried == d.pending.value.paths;
    }
  }

  /** A retry always finds a tag for every path it has to journal. */
  lemma TagsKnownUnderInv(env: Env, d: Disk, notes: Vault)
    requires Inv(env, d) && Admissible(env, d, notes)
    ensures TagsKnown(env, d, notes)
    ensures forall target :: NewJournal(env, d, notes, target).paths.Keys == Affected(PlanOf(env, d, notes))
    ensures forall target, p :: p in NewJournal(env, d, notes, target).paths ==>
      NewJournal(env, d, notes, target).paths[p] == env.docTag(p)
  {
    EachTagKnown(env, d, notes);
  }

  lemma EachTagKnown(env: Env, d: Disk, notes: Vault)
    requires Inv(env, d) && Admissible(env, d, notes)
    ensures forall p :: p in Affected(PlanOf(env, d, notes)) ==>
      JournalTag(env, notes, LoadState(env, d).files, Carried(env, d, notes.Keys), p) == Some(env.docTag(p))
  {
    ReconciledPlan(notes, LoadState(env, d).files, Carried(env, d, notes.Keys).Keys);
  }

  /** Every active journal path is affected again, so a retry never finds its journal empty. */
  lemma CarriedIsAffected(env: Env, d: Disk, notes: Vault)
    requires Admissible(env, d, notes)
    ensures Carried(env, d, notes.Keys).Keys <= Affected(PlanOf(env, d, notes))
    ensures PendingOf(env, d, notes.Keys).value.Active? ==> Affected(PlanOf(env, d, notes)) != {}
  {
    ReconciledPlan(notes, LoadState(env, d).files, Carried(env, d, notes.Keys).Keys);
  }

  lemma HeadEffect(env: Env, d: Disk, notes: Vault)
    requires Inv(env, d) && Admissible(env, d, notes)
    ensures PermittedAll(env, d, Head(env, d, notes.Keys))
    ensures var d' := PerformAll(d, Head(env, d, notes.Keys));
      && d' == d.(pending := d'.pending)
      && Inv(env, d') && !IsCompleted(d')
      && (d'.pending.Some? ==> d'.pending == d.pending && d.pending.value.paths == Carried(env, d, notes.Keys))
      && (d'.pending.None? ==> Carried(env, d, notes.Keys) == map[])
  {
    if PendingOf(env, d, notes.Keys) == Some(Completed) {
      assert Head(env, d, notes.Keys)[1..] == [];
      assert !IsActive(env, d);
    }
  }

  /** The store after the whole mutation phase is the admitted snapshot, tag by tag. */
  lemma MutationsReachSnapshot(env: Env, d: Disk, run: Run, x: Disk)
    requires Inv(env, d) && Admissible(env, d, run.notes) && Scheduled(env, d, run)
    requires x.store == d.store
    ensures MutationList(Mutations(env, d, run))
    ensures PerformAll(x, Mutations(env, d, run)) == x.(store := PerformAll(x, Mutations(env, d, run)).store)
    ensures Mirrors(PerformAll(x, Mutations(env, d, run)).store, FilesPayload(env, run.notes))
  {
    var notes, es := run.notes, Mutations(env, d, run);
    var files, carried := LoadState(env, d).files, Carried(env, d, notes.Keys);
    TagsInjectiveUnderInv(env, d, notes);
    var plan := PlanOf(env, d, notes);
    ReconciledPlan(notes, files, carried.Keys);
    var n := |run.studied|;
    assert forall i :: 0 <= i < n ==> es[i] == Study(env.docTag(run.studied[i]), notes[run.studied[i]].text);
    assert forall i :: n <= i < |es| ==> es[i] == Fade(env.docTag(run.faded[i - n]));
    forall i, j | 0 <= i < j < |es| ensures TagOf(es[i]) != TagOf(es[j]) {
      var p := if i < n then run.studied[i] else run.faded[i - n];
      var q := if j < n then run.studied[j] else run.faded[j - n];
      assert p in (if i < n then plan.added + plan.changed else plan.deleted);
      assert q in (if j < n then plan.added + plan.changed else plan.deleted);
      assert p != q;
    }
    MutationsApplied(x, es);
    var store := PerformAll(x, es).store;
    forall tag ensures AgreesAt(store, FilesPayload(env, notes), tag) {
      SnapshotAt(env, d, run, store, tag);
    }
  }

  lemma StudiedTag(env: Env, d: Disk, run: Run, store: map<Tag, Text>, i: nat)
    requires Inv(env, d) && Admissible(env, d, run.notes) && Scheduled(env, d, run) && i < |run.studied|
    requires run.studied[i] in run.notes
    requires Applied(store, Study(env.docTag(run.studied[i]), run.notes[run.studied[i]].text))
    ensures AgreesAt(store, FilesPayload(env, run.notes), env.docTag(run.studied[i]))
  {
    TagsInjectiveUnderInv(env, d, run.notes);
    assert run.studied[i] in run.studied;
  }

  lemma FadedTag(env: Env, d: Disk, run: Run, store: map<Tag, Text>, i: nat)
    requires Inv(env, d) && Admissible(env, d, run.notes) && Scheduled(env, d, run) && i < |run.faded|
    requires Applied(store, Fade(env.docTag(run.faded[i])))
    ensures AgreesAt(store, FilesPayload(env, run.notes), env.docTag(run.faded[i]))
  {
    TagsInjectiveUnderInv(env, d, run.notes);
    assert run.faded[i] in run.faded;
  }

  lemma SnapshotAt(env: Env, d: Disk, run: Run, store: map<Tag, Text>, tag: Tag)
    requires Inv(env, d) && Admissible(env, d, run.notes) && Scheduled(env, d, run)
    requires MutationList(Mutations(env, d, run))
    requires var es := Mutations(env, d, run);
      && (forall i :: 0 <= i < |es| ==> Applied(store, es[i]))
      && ((forall i :: 0 <= i < |es| ==> TagOf(es[i]) != tag) ==>
            (tag in store <==> tag in d.store) && (tag in store ==> store[tag] == d.store[tag]))
    ensures AgreesAt(store, FilesPayload(env, run.notes), tag)
  {
    var es, n := Mutations(env, d, run), |run.studied|;
    if i :| 0 <= i < n && env.docTag(run.studied[i]) == tag {
      assert run.studied[i] in run.studied;
      assert es[i] == Study(tag, run.notes[run.studied[i]].text) && Applied(store, es[i]);
      StudiedTag(env, d, run, store, i);
    } else if i :| 0 <= i < |run.faded| && env.docTag(run.faded[i]) == tag {
      assert es[n + i] == Fade(tag) && Applied(store, es[n + i]);
      FadedTag(env, d, run, store, i);
    } else {
      assert forall i :: 0 <= i < |es| ==> TagOf(es[i]) != tag;
      UntouchedTag(env, d, run, tag);
    }
  }

  /** A tag that the run neither studies nor fades already agrees with the snapshot. */
  lemma UntouchedTag(env: Env, d: Disk, run: Run, tag: Tag)
    requires Inv(env, d) && Admissible(env, d, run.notes) && Scheduled(env, d, run)
    requires forall i :: 0 <= i < |run.studied| ==> env.docTag(run.studied[i]) != tag
    requires forall i :: 0 <= i < |run.faded| ==> env.docTag(run.faded[i]) != tag
    ensures AgreesAt(d.store, FilesPayload(env, run.notes), tag)
  {
    var notes, files, carried := run.notes, LoadState(env, d).files, Carried(env, d, run.notes.Keys);
    assert forall p :: p in Affected(PlanOf(env, d, notes)) ==> env.docTag(p) != tag by {
      forall p | p in Affected(PlanOf(env, d, notes)) ensures env.docTag(p) != tag {
        assert p in run.studied || p in run.faded;
      }
    }
    CarriedIsAffected(env, d, notes);
    assert IsActive(env, d) ==> carried == d.pending.value.paths;
    assert AgreesAt(d.store, files, tag);
    ReconciledPlan(notes, files, carried.Keys);
    assert forall p :: p in notes && env.docTag(p) == tag ==> p in files && files[p].sha == Sha256(notes[p].text);
    assert forall p :: p in files && files[p].tag == tag ==> p in notes;
  }

  lemma OwnerEffect(env: Env, d: Disk, x: Disk)
    requires x.owner == d.owner && (x.state.Some? || x.pending.Some?)
    ensures PermittedAll(env, x, OwnerEffects(d))
    ensures PerformAll(x, OwnerEffects(d)) == x.(owner := true)
  {
    if !d.owner {
      assert OwnerEffects(d)[1..] == [];
    }
  }

  lemma NonEmptyHasElement(q: seq<Path>)
    ensures q == [] || exists p :: p in q
  {
    if q != [] {
      assert q[0] in q;
    }
  }

  /** With nothing to study or fade, the run only refreshes the checkpoint under its old id. */
  lemma QuietBody(env: Env, d: Disk, run: Run, x: Disk)
    requires Inv(env, d) && Admissible(env, d, run.notes) && Scheduled(env, d, run)
    requires x == PerformAll(d, Head(env, d, run.notes.Keys))
    requires Affected(PlanOf(env, d, run.notes)) == {}
    ensures PermittedAll(env, x, Body(env, d, run))
    ensures var r := PerformAll(x, Body(env, d, run));
      && r.pending.None? && r.owner && r.state == Some(Checkpoint(LoadState(env, d).id, FilesPayload(env, run.notes)))
      && Mirrors(r.store, FilesPayload(env, run.notes))
  {
    HeadEffect(env, d, run.notes);
    CarriedIsAffected(env, d, run.notes);
    var state, files := LoadState(env, d), FilesPayload(env, run.notes);
    var write, own, clear := [WriteState(Checkpoint(state.id, files))], OwnerEffects(d), [ClearPending];
    NonEmptyHasElement(run.studied);
    NonEmptyHasElement(run.faded);
    assert run.studied == [] && run.faded == [];
    MutationsReachSnapshot(env, d, run, x);
    assert Mutations(env, d, run) == [];
    assert CheckpointOk(env, files);
    assert x.pending.None?;
    var x1 := Perform(x, write[0]);
    OnePermitted(env, x, write[0]);
    OwnerEffect(env, d, x1);
    PermittedConcat(env, x, write, own);
    PerformAllConcat(x, write, own);
    var x2 := x1.(owner := true);
    OnePermitted(env, x2, ClearPending);
    PermittedConcat(env, x, write + own, clear);
    PerformAllConcat(x, write + own, clear);
  }

  /** The new journal describes the new work on top of the current checkpoint and extends the old one. */
  lemma NewJournalPermitted(env: Env, d: Disk, run: Run, x: Disk)
    requires Inv(env, d) && Admissible(env, d, run.notes)
    requires x == PerformAll(d, Head(env, d, run.notes.Keys))
    requires Affected(PlanOf(env, d, run.notes)) != {} && DeletedAbsent(env, d, run.notes) && run.target != LoadState(env, d).id
    ensures Permitted(env, x, WritePending(NewJournal(env, d, run.notes, run.target)))
  {
    HeadEffect(env, d, run.notes);
    TagsKnownUnderInv(env, d, run.notes);
    CarriedIsAffected(env, d, run.notes);
    TagsInjectiveUnderInv(env, d, run.notes);
    var j, known := NewJournal(env, d, run.notes, run.target), KnownPaths(env, d, run.notes);
    var files := LoadState(env, d).files;
    assert j.paths.Keys + files.Keys <= known;
    FewerTags(env, j.paths.Keys, known);
    FewerTags(env, j.paths.Keys + files.Keys, known);
    KnownKeptApart(env, d, run.notes);
    assert JournalOk(env, j) && IsActive(env, x.(pending := Some(j)));
  }

  /** Whatever folds alike among the paths a run has to do with has entries of its own, once the deleted are seen to be absent. */
  lemma KnownKeptApart(env: Env, d: Disk, notes: Vault)
    requires Inv(env, d) && Admissible(env, d, notes) && DeletedAbsent(env, d, notes)
    ensures KeptApart(env, KnownPaths(env, d, notes))
  {
    var files, carried := LoadState(env, d).files, Carried(env, d, notes.Keys);
    ReconciledPlan(notes, files, carried.Keys);
    assert carried != map[] ==> IsActive(env, d) && carried == d.pending.value.paths;
    forall p, q | p in KnownPaths(env, d, notes) && q in KnownPaths(env, d, notes) && env.fold(p) == env.fold(q) && env.entry(p) == env.entry(q)
      ensures p == q
    {
      assert p !in notes ==> p in PlanOf(env, d, notes).deleted;
      assert q !in notes ==> q in PlanOf(env, d, notes).deleted;
    }
  }

  lemma FewerTags(env: Env, a: set<Path>, b: set<Path>)
    requires a <= b && TagsDistinct(env, b)
    ensures TagsDistinct(env, a)
  {
  }

  lemma OnePermitted(env: Env, d: Disk, e: Effect)
    requires Permitted(env, d, e)
    ensures PermittedAll(env, d, [e]) && PerformAll(d, [e]) == Perform(d, e)
  {
    assert [e][1..] == [];
  }

  lemma BusyPrefixPermitted(env: Env, d: Disk, run: Run, x: Disk)
    requires Inv(env, d) && Admissible(env, d, run.notes) && Scheduled(env, d, run)
    requires x == PerformAll(d, Head(env, d, run.notes.Keys))
    requires Affected(PlanOf(env, d, run.notes)) != {} && DeletedAbsent(env, d, run.notes) && run.target != LoadState(env, d).id
    ensures PermittedAll(env, x, BusyPrefix(env, d, run))
    ensures var r := PerformAll(x, BusyPrefix(env, d, run));
      && r.pending == Some(NewJournal(env, d, run.notes, run.target)) && r.state == d.state && r.owner
      && Mirrors(r.store, FilesPayload(env, run.notes))
  {
    var j := NewJournal(env, d, run.notes, run.target);
    var begin, own, es := [WritePending(j)], OwnerEffects(d), Mutations(env, d, run);
    HeadEffect(env, d, run.notes);
    NewJournalPermitted(env, d, run, x);
    var x1 := x.(pending := Some(j));
    OnePermitted(env, x, WritePending(j));
    OwnerEffect(env, d, x1);
    PermittedConcat(env, x, begin, own);
    PerformAllConcat(x, begin, own);
    var x2 := x1.(owner := true);
    MutationsReachSnapshot(env, d, run, x2);
    MutationsJournaled(env, d, run);
    MutationsPermitted(env, x2, es);
    PermittedConcat(env, x, begin + own, es);
    PerformAllConcat(x, begin + own, es);
  }

  /** With work to do: journal, owner, studies and fades, checkpoint, clear. */
  lemma BusyBody(env: Env, d: Disk, run: Run, x: Disk)
    requires Inv(env, d) && Admissible(env, d, run.notes) && Scheduled(env, d, run)
    requires x == PerformAll(d, Head(env, d, run.notes.Keys))
    requires Affected(PlanOf(env, d, run.notes)) != {} && DeletedAbsent(env, d, run.notes) && run.target != LoadState(env, d).id
    ensures PermittedAll(env, x, Body(env, d, run))
    ensures var r := PerformAll(x, Body(env, d, run));
      && r.pending.None? && r.owner && r.state == Some(Checkpoint(run.target, FilesPayload(env, run.notes)))
      && Mirrors(r.store, FilesPayload(env, run.notes))
  {
    var files := FilesPayload(env, run.notes);
    BusyPrefixPermitted(env, d, run, x);
    TagsKnownUnderInv(env, d, run.notes);
    var before, end := BusyPrefix(env, d, run), [WriteState(Checkpoint(run.target, files)), ClearPending];
    var x3 := PerformAll(x, before);
    assert CheckpointOk(env, files);
    EndPermitted(env, x3, Checkpoint(run.target, files));
    PermittedConcat(env, x, before, end);
    PerformAllConcat(x, before, end);
  }

  lemma EndPermitted(env: Env, d: Disk, c: Checkpoint)
    requires Permitted(env, d, WriteState(c)) && d.pending.Some? && d.pending.value.base != d.pending.value.target
    ensures PermittedAll(env, d, [WriteState(c), ClearPending])
    ensures PerformAll(d, [WriteState(c), ClearPending]) == d.(state := Some(c), pending := None)
  {
    var d', end := Perform(d, WriteState(c)), [WriteState(c), ClearPending];
    assert end[1..] == [ClearPending] && [ClearPending][1..] == [];
    assert PermittedAll(env, d', [ClearPending]);
  }

  lemma MutationsJournaled(env: Env, d: Disk, run: Run)
    requires Inv(env, d) && Admissible(env, d, run.notes) && Scheduled(env, d, run)
    ensures var es, j := Mutations(env, d, run), NewJournal(env, d, run.notes, run.target);
      forall i :: 0 <= i < |es| ==> IsMutation(es[i]) && Journaled(j, TagOf(es[i]))
  {
    TagsKnownUnderInv(env, d, run.notes);
    var j := NewJournal(env, d, run.notes, run.target);
    forall p | p in run.studied || p in run.faded ensures p in j.paths && j.paths[p] == env.docTag(p) {
      assert p in Affected(PlanOf(env, d, run.notes));
    }
    ListedAreJournaled(env, run.notes, run.studied, run.faded, j);
  }

  lemma ListedAreJournaled(env: Env, notes: Vault, studied: seq<Path>, faded: seq<Path>, j: Journal)
    requires forall p :: p in studied ==> p in notes
    requires forall p :: p in studied || p in faded ==> p in j.paths && j.paths[p] == env.docTag(p)
    ensures var es := Studies(env, notes, studied) + Fades(env, faded);
      forall i :: 0 <= i < |es| ==> IsMutation(es[i]) && Journaled(j, TagOf(es[i]))
  {
    var es, n := Studies(env, notes, studied) + Fades(env, faded), |studied|;
    forall i | 0 <= i < |es| ensures IsMutation(es[i]) && Journaled(j, TagOf(es[i])) {
      var p := if i < n then studied[i] else faded[i - n];
      assert p in j.paths && j.paths[p] == TagOf(es[i]);
    }
  }

  lemma RunIsPermitted(env: Env, d: Disk, run: Run)
    requires Inv(env, d) && Admissible(env, d, run.notes) && Scheduled(env, d, run)
    ensures PermittedAll(env, d, Head(env, d, run.notes.Keys) + Body(env, d, run))
  {
    var head := Head(env, d, run.notes.Keys);
    var x := PerformAll(d, head);
    HeadEffect(env, d, run.notes);
    TagsKnownUnderInv(env, d, run.notes);
    if Affected(PlanOf(env, d, run.notes)) == {} {
      QuietBody(env, d, run, x);
    } else if run.target != LoadState(env, d).id && DeletedAbsent(env, d, run.notes) {
      BusyBody(env, d, run, x);
    }
    PermittedConcat(env, d, head, Body(env, d, run));
  }

  // ---------- Over all histories ----------

  lemma RunKeepsInv(env: Env, d: Disk, run: Run)
    requires Inv(env, d)
    ensures Inv(env, RunOnce(env, d, run))
  {
    if Admissible(env, d, run.notes) && Scheduled(env, d, run) {
      RunIsPermitted(env, d, run);
      PermittedKeepsInv(env, d, Head(env, d, run.notes.Keys) + Body(env, d, run), run.cut, run.tear);
    }
  }

  lemma {:induction false} HistoryKeepsInv(env: Env, runs: seq<Run>)
    ensures Inv(env, After(env, runs))
  {
    if runs != [] {
      HistoryKeepsInv(env, runs[..|runs| - 1]);
      RunKeepsInv(env, After(env, runs[..|runs| - 1]), runs[|runs| - 1]);
    }
  }

  /**
   After any sequence of apply runs, each dying anywhere, the store differs from the checkpoint only
   at tags of journaled paths, and not at all once the journal is absent or completed.
   */
  lemma StoreFollowsCheckpoint(env: Env, runs: seq<Run>)
    ensures var d := After(env, runs);
      && (forall tag :: d.pending.Some? && !Journaled(d.pending.value, tag) ==>
            AgreesAt(d.store, LoadState(env, d).files, tag))
      && (d.pending.None? || IsCompleted(d) ==> Mirrors(d.store, LoadState(env, d).files))
  {
    HistoryKeepsInv(env, runs);
  }

  /**
   A run that is not cut off leaves the store equal to the admitted snapshot, whatever happened before it; unless a
   deleted path is another name of a note, and then it does no more than clear a completed journal.
   */
  lemma UncutRunReachesSnapshot(env: Env, runs: seq<Run>, run: Run)
    requires var d := After(env, runs); Admissible(env, d, run.notes) && Scheduled(env, d, run)
    requires run.target != LoadState(env, After(env, runs)).id
    requires var d := After(env, runs); |Head(env, d, run.notes.Keys) + Body(env, d, run)| <= run.cut
    ensures var d := RunOnce(env, After(env, runs), run);
      DeletedAbsent(env, After(env, runs), run.notes) ==>
        && d.pending.None? && d.state.Some? && d.owner
        && d.state.value.files == FilesPayload(env, run.notes)
        && d.state.value.id == (if run.studied == [] && run.faded == [] then LoadState(env, After(env, runs)).id else run.target)
        && Mirrors(d.store, FilesPayload(env, run.notes))
    ensures !DeletedAbsent(env, After(env, runs), run.notes) ==>
      RunOnce(env, After(env, runs), run) == PerformAll(After(env, runs), Head(env, After(env, runs), run.notes.Keys))
  {
    HistoryKeepsInv(env, runs);
    var d := After(env, runs);
    var head, body := Head(env, d, run.notes.Keys), Body(env, d, run);
    var x := PerformAll(d, head);
    UncutRun(d, head + body, run.cut, run.tear);
    PerformAllConcat(d, head, body);
    QuietRunIsEmpty(env, d, run);
    if Affected(PlanOf(env, d, run.notes)) == {} {
      QuietBody(env, d, run, x);
    } else if DeletedAbsent(env, d, run.notes) {
      BusyBody(env, d, run, x);
    }
  }

  /** A note studied by an interrupted run and then removed from the vault is faded, though no checkpoint ever named it. */
  lemma InterruptedStudyIsFaded(env: Env, runs: seq<Run>, run: Run, p: Path)
    requires var d := After(env, runs); Admissible(env, d, run.notes) && Scheduled(env, d, run)
    requires run.target != LoadState(env, After(env, runs)).id
    requires var d := After(env, runs); |Head(env, d, run.notes.Keys) + Body(env, d, run)| <= run.cut
    requires var d := After(env, runs);
      p in Carried(env, d, run.notes.Keys) && p !in LoadState(env, d).files && p !in run.notes
    ensures DeletedAbsent(env, After(env, runs), run.notes) ==> env.docTag(p) !in RunOnce(env, After(env, runs), run).store
    ensures p in run.faded
  {
    HistoryKeepsInv(env, runs);
    UncutRunReachesSnapshot(env, runs, run);
    TagsInjectiveUnderInv(env, After(env, runs), run.notes);
    if DeletedAbsent(env, After(env, runs), run.notes) {
      assert AgreesAt(RunOnce(env, After(env, runs), run).store, FilesPayload(env, run.notes), env.docTag(p));
    }
  }

  /**
   A run studies exactly the notes that are new, differ in content from the checkpoint, or are journaled, and fades
   exactly the checkpointed and journaled paths that are no notes.
   */
  lemma StudiesWhatChanged(env: Env, d: Disk, run: Run)
    requires Scheduled(env, d, run)
    ensures var files, carried := LoadState(env, d).files, Carried(env, d, run.notes.Keys);
      && (forall p :: p in run.studied <==>
        p in run.notes && (p !in files || files[p].sha.text != run.notes[p].text || p in carried))
      && (forall p :: p in run.faded <==> p !in run.notes && (p in files || p in carried))
  {
  }

  lemma QuietRunIsEmpty(env: Env, d: Disk, run: Run)
    requires Scheduled(env, d, run)
    ensures Affected(PlanOf(env, d, run.notes)) == {} <==> run.studied == [] && run.faded == []
  {
    NonEmptyHasElement(run.studied);
    NonEmptyHasElement(run.faded);
    assert run.studied == [] && run.faded == [] ==> forall p :: p !in Affected(PlanOf(env, d, run.notes));
  }

  /** Once a run is complete, another of the same vault has nothing to study or fade. */
  lemma SecondRunIsQuiet(env: Env, runs: seq<Run>, run: Run, again: Run)
    requires var d := After(env, runs); Admissible(env, d, run.notes) && Scheduled(env, d, run) && DeletedAbsent(env, d, run.notes)
    requires run.target != LoadState(env, After(env, runs)).id
    requires var d := After(env, runs); |Head(env, d, run.notes.Keys) + Body(env, d, run)| <= run.cut
    requires again.notes == run.notes && Scheduled(env, After(env, runs + [run]), again)
    ensures again.studied == [] && again.faded == []
  {
    AfterOneMore(env, runs, run);
    UncutRunReachesSnapshot(env, runs, run);
    var d := After(env, runs + [run]);
    StudiesWhatChanged(env, d, again);
    NonEmptyHasElement(again.studied);
    NonEmptyHasElement(again.faded);
    assert Carried(env, d, again.notes.Keys) == map[];
  }

  // ---------- Coverage ----------

  lemma AfterOneMore(env: Env, runs: seq<Run>, run: Run)
    ensures After(env, runs + [run]) == RunOnce(env, After(env, runs), run)
  {
    assert (runs + [run])[..|runs|] == runs;
  }

  /** Effects before the checkpoint is replaced leave it alone and can only replace the journal by `j`. */
  lemma {:induction false} NoCommitYet(d: Disk, es: seq<Effect>, cut: nat, tear: Tear, j: Journal)
    requires forall e :: e in es ==> e == WritePending(j) || e == WriteOwner || IsMutation(e)
    ensures var r := Cut(d, es, cut, tear);
      r.state == d.state && (r.pending == d.pending || r.pending == Some(j))
    decreases |es|
  {
    if es != [] {
      assert es[0] in es;
    }
    if es != [] && cut > 0 {
      NoCommitYet(Perform(d, es[0]), es[1..], cut - 1, tear, j);
    }
  }

  lemma {:induction false} CutConcat(d: Disk, a: seq<Effect>, b: seq<Effect>, cut: nat, tear: Tear)
    ensures Cut(d, a + b, cut, tear) ==
      if cut < |a| then Cut(d, a, cut, tear) else Cut(PerformAll(d, a), b, cut - |a|, tear)
    decreases |a|
  {
    if a == [] {
      assert a + b == b;
    } else {
      assert (a + b)[0] == a[0] && (a + b)[1..] == a[1..] + b;
      if cut > 0 {
        CutConcat(Perform(d, a[0]), a[1..], b, cut - 1, tear);
      }
    }
  }

  lemma BusyPrefixEffects(env: Env, d: Disk, run: Run)
    requires Inv(env, d) && Admissible(env, d, run.notes) && Scheduled(env, d, run)
    ensures forall e :: e in BusyPrefix(env, d, run) ==>
      e == WritePending(NewJournal(env, d, run.notes, run.target)) || e == WriteOwner || IsMutation(e)
  {
    MutationsJournaled(env, d, run);
  }

  lemma BusyCut(env: Env, d: Disk, run: Run)
    requires Inv(env, d) && Admissible(env, d, run.notes) && Scheduled(env, d, run)
    requires d.pending.Some?
    ensures var j, files := NewJournal(env, d, run.notes, run.target), FilesPayload(env, run.notes);
      var r := Cut(d, BusyPrefix(env, d, run) + [WriteState(Checkpoint(run.target, files)), ClearPending], run.cut, run.tear);
      || r.state == Some(Checkpoint(run.target, files))
      || (r.state == d.state && (r.pending == d.pending || r.pending == Some(j)))
  {
    var j, before := NewJournal(env, d, run.notes, run.target), BusyPrefix(env, d, run);
    var end := [WriteState(Checkpoint(run.target, FilesPayload(env, run.notes))), ClearPending];
    BusyPrefixEffects(env, d, run);
    CutConcat(d, before, end, run.cut, run.tear);
    NoCommitYet(d, before, run.cut, run.tear, j);
    NoCommitYet(d, before, |before|, run.tear, j);
    UncutRun(d, before, |before|, run.tear);
    if run.cut >= |before| {
      EndCut(PerformAll(d, before), end, run.cut - |before|, run.tear);
    }
  }

  /** One run leaves its own checkpoint, or a journal that names every path the old one named. */
  lemma RunCoversMore(env: Env, d: Disk, run: Run)
    requires Inv(env, d) && IsActive(env, d)
    ensures var r := RunOnce(env, d, run);
      || r.state == Some(Checkpoint(run.target, FilesPayload(env, run.notes)))
      || (r.state == d.state && r.pending.Some? && d.pending.value.paths.Keys <= r.pending.value.paths.Keys)
  {
    if Admissible(env, d, run.notes) && Scheduled(env, d, run) {
      TagsKnownUnderInv(env, d, run.notes);
      CarriedIsAffected(env, d, run.notes);
      BusyCut(env, d, run);
      assert [] + Body(env, d, run) == Body(env, d, run);
    }
  }

  /** While the checkpoint stays, the journal stays active and keeps its paths. */
  lemma ActiveAgain(env: Env, d: Disk, run: Run)
    requires Inv(env, d) && IsActive(env, d) && RunOnce(env, d, run).state == d.state
    ensures var r := RunOnce(env, d, run);
      IsActive(env, r) && d.pending.value.paths.Keys <= r.pending.value.paths.Keys
  {
    if Admissible(env, d, run.notes) && Scheduled(env, d, run) {
      TagsKnownUnderInv(env, d, run.notes);
      CarriedIsAffected(env, d, run.notes);
      assert [] + Body(env, d, run) == Body(env, d, run);
      if run.target != LoadState(env, d).id { BusyCut(env, d, run); }
    }
    RunKeepsInv(env, d, run);
  }

  /** The same of the last run of a history. */
  lemma StillActive(env: Env, runs: seq<Run>, run: Run, now: Disk)
    requires now == After(env, runs + [run])
    requires IsActive(env, After(env, runs)) && now.state == After(env, runs).state
    ensures IsActive(env, now) && After(env, runs).pending.value.paths.Keys <= now.pending.value.paths.Keys
  {
    HistoryKeepsInv(env, runs);
    AfterOneMore(env, runs, run);
    ActiveAgain(env, After(env, runs), run);
  }

  /** None of the later runs gets its checkpoint into place. */
  ghost predicate Uncommitted(env: Env, runs: seq<Run>, more: seq<Run>)
    decreases |more|
  {
    more == [] ||
    (Uncommitted(env, runs, more[..|more| - 1]) && After(env, runs + more).state == After(env, runs).state)
  }

  /**
   Overwriting an active journal loses nothing, over any number of runs: while the checkpoint is still the old one
   the journal names every path it ever named.
   */
  lemma {:induction false} CoverageGrows(env: Env, runs: seq<Run>, more: seq<Run>)
    requires IsActive(env, After(env, runs)) && Uncommitted(env, runs, more)
    ensures var d, r := After(env, runs), After(env, runs + more);
      r.state == d.state && IsActive(env, r) && d.pending.value.paths.Keys <= r.pending.value.paths.Keys
    decreases |more|
  {
    if more == [] {
      assert runs + more == runs;
    } else {
      var earlier, last := more[..|more| - 1], more[|more| - 1];
      CoverageGrows(env, runs, earlier);
      assert runs + more == (runs + earlier) + [last];
      StillActive(env, runs + earlier, last, After(env, runs + more));
    }
  }

  lemma EndCut(d: Disk, end: seq<Effect>, cut: nat, tear: Tear)
    requires |end| == 2 && end[0].WriteState? && end[1].ClearPending?
    ensures Cut(d, end, cut, tear) == d || Cut(d, end, cut, tear).state == Some(end[0].checkpoint)
  {
    assert end[1..] == [end[1]] && [end[1]][1..] == [];
    if cut > 0 {
      var d' := Perform(d, end[0]);
      assert Cut(d, end, cut, tear) == Cut(d', [end[1]], cut - 1, tear);
      assert Cut(d', [end[1]], cut - 1, tear).state == d'.state;
    }
  }

  // ---------- What a retry can rely on ----------

  /** The tags of notes, checkpoint and active journal are all different, whenever a run is admitted. */
  lemma TagsInjectiveWhenAdmitted(env: Env, runs: seq<Run>, notes: Vault)
    requires Admissible(env, After(env, runs), notes)
    ensures TagsDistinct(env, KnownPaths(env, After(env, runs), notes))
    ensures forall p :: p in KnownPaths(env, After(env, runs), notes) ==> ValidTag(env.docTag(p))
  {
    HistoryKeepsInv(env, runs);
    TagsInjectiveUnderInv(env, After(env, runs), notes);
  }

  /** An admitted run journals exactly the affected paths, each with its own tag; it never lacks one. */
  lemma TagsAlwaysKnown(env: Env, runs: seq<Run>, notes: Vault, target: CheckpointId)
    requires Admissible(env, After(env, runs), notes)
    ensures TagsKnown(env, After(env, runs), notes)
    ensures var j := NewJournal(env, After(env, runs), notes, target);
      && j.paths.Keys == Affected(PlanOf(env, After(env, runs), notes))
      && forall p :: p in j.paths ==> j.paths[p] == env.docTag(p)
  {
    HistoryKeepsInv(env, runs);
    TagsKnownUnderInv(env, After(env, runs), notes);
  }

  /** Every path of an active journal is affected again, so a retry is never empty. */
  lemma ActiveIsNeverEmpty(env: Env, runs: seq<Run>, notes: Vault)
    requires Admissible(env, After(env, runs), notes) && PendingOf(env, After(env, runs), notes.Keys).value.Active?
    ensures var d := After(env, runs);
      Affected(PlanOf(env, d, notes)) != {} && d.pending.value.paths.Keys <= Affected(PlanOf(env, d, notes))
  {
    CarriedIsAffected(env, After(env, runs), notes);
  }

  // ---------- Recovery never wedges, and when it does ----------

  /**
   In every crash-reachable state the journal loads exactly when its paths do not fold together and,
   if it is active, no current note shares a tag with another journaled path. No checkpoint or digest
   mismatch can be reported.
   */
  lemma JournalLoadsExactly(env: Env, runs: seq<Run>, notes: set<Path>)
    ensures var d := After(env, runs);
      PendingOf(env, d, notes).Some? <==>
        (d.pending.Some? ==>
          && FoldsDistinct(env, d.pending.value.paths.Keys)
          && (IsActive(env, d) ==> !Clash(env, notes, d.pending.value.paths.Keys)))
    ensures var d := After(env, runs);
      PendingOf(env, d, notes).Some? ==>
        && (PendingOf(env, d, notes).value.NoPending? <==> d.pending.None?)
        && (PendingOf(env, d, notes).value.Completed? <==> IsCompleted(d))
        && (PendingOf(env, d, notes).value.Active? ==> PendingOf(env, d, notes).value.docTags == d.pending.value.paths)
    ensures var d := After(env, runs);
      && (d.owner ==> d.state.Some? || d.pending.Some?)
      && FileMapOk(env, LoadState(env, d).files)
  {
    HistoryKeepsInv(env, runs);
  }

  /** Paths that fold alike but are different entries share a tag, as far as the vendor's tags are accepted at all. */
  ghost predicate TagsRespectFolding(env: Env) {
    forall p, q :: env.fold(p) == env.fold(q) && env.entry(p) != env.entry(q) && ValidTag(env.docTag(p)) && ValidTag(env.docTag(q)) ==>
      env.docTag(p) == env.docTag(q)
  }

  /** Whatever crashed before, only a collision of tags or of folded note names keeps a run out. */
  ghost predicate NeverWedges(env: Env) {
    forall runs: seq<Run>, notes: Vault :: var d := After(env, runs);
      && FoldsDistinct(env, notes.Keys)
      && TagsAdmissible(env, notes.Keys, LoadState(env, d).files)
      && !(d.pending.Some? && IsActive(env, d) && Clash(env, notes.Keys, d.pending.value.paths.Keys))
      ==> Admissible(env, d, notes)
  }

  lemma JournalFolds(env: Env, runs: seq<Run>)
    requires TagsRespectFolding(env)
    ensures var d := After(env, runs); d.pending.Some? ==> FoldsDistinct(env, d.pending.value.paths.Keys)
  {
    HistoryKeepsInv(env, runs);
    var d := After(env, runs);
    if d.pending.Some? {
      forall p, q | p in d.pending.value.paths && q in d.pending.value.paths && env.fold(p) == env.fold(q)
        ensures p == q
      {
        assert env.docTag(p) == env.docTag(q);
      }
    }
  }

  /** A run that dies just after writing its journal. */
  lemma JournalOnly(env: Env, d: Disk, run: Run)
    requires Inv(env, d) && Admissible(env, d, run.notes) && Scheduled(env, d, run)
    requires !IsCompleted(d) && Affected(PlanOf(env, d, run.notes)) != {} && run.target != LoadState(env, d).id
    requires DeletedAbsent(env, d, run.notes)
    requires run.cut == 1 && run.tear == NotBegun
    ensures RunOnce(env, d, run) == d.(pending := Some(NewJournal(env, d, run.notes, run.target)))
  {
    TagsKnownUnderInv(env, d, run.notes);
    HeadEffect(env, d, run.notes);
    var es := Head(env, d, run.notes.Keys) + Body(env, d, run);
    var d' := Perform(d, es[0]);
    assert es[0] == WritePending(NewJournal(env, d, run.notes, run.target));
    assert Cut(d, es, 1, NotBegun) == Cut(d', es[1..], 0, NotBegun) == d';
  }

  function OneNote(p: Path): Vault {
    map[p := NoteSnapshot(0, 0, "")]
  }

  lemma FirstPlan(env: Env, p: Path)
    requires ValidTag(env.docTag(p))
    ensures Admissible(env, EMPTY_DISK, OneNote(p)) && PlanOf(env, EMPTY_DISK, OneNote(p)) == SyncPlan({p}, {}, {}, {})
  {
  }

  /** A first run, of one note, that dies just after writing its journal. */
  lemma FirstJournal(env: Env, p: Path, target: CheckpointId)
    requires ValidTag(env.docTag(p)) && target != env.genesis
    ensures var d := After(env, [Run(OneNote(p), [p], [], target, 1, NotBegun)]);
      && IsActive(env, d) && d == EMPTY_DISK.(pending := d.pending) && d.pending.value.paths == map[p := env.docTag(p)]
  {
    var run := Run(OneNote(p), [p], [], target, 1, NotBegun);
    HistoryKeepsInv(env, [run]);
    assert [] + [run] == [run];
    AfterOneMore(env, [], run);
    FirstPlan(env, p);
    JournalOnly(env, EMPTY_DISK, run);
    TagsKnownUnderInv(env, EMPTY_DISK, run.notes);
  }

  lemma RenameAdmitted(env: Env, d: Disk, p: Path, q: Path)
    requires Inv(env, d) && IsActive(env, d) && !IsCompleted(d)
    requires d == EMPTY_DISK.(pending := d.pending) && d.pending.value.paths == map[p := env.docTag(p)]
    requires ValidTag(env.docTag(p)) && ValidTag(env.docTag(q)) && env.docTag(p) != env.docTag(q)
    ensures Admissible(env, d, OneNote(q))
    ensures PlanOf(env, d, OneNote(q)) == SyncPlan({q}, {}, {}, {p})
  {
    var j := d.pending.value;
    assert j.paths.Keys == {p} && OneNote(q).Keys == {q};
    assert FoldsDistinct(env, {p}) && TagsDistinct(env, {p}) && JournalReadable(env, j);
    assert !Clash(env, {q}, {p});
    assert PendingOf(env, d, {q}) == Some(Active(j.paths));
    assert FoldsDistinct(env, {q}) && TagsAdmissible(env, {q}, map[]);
  }

  /** A retry after the note was renamed to one that folds alike, dying at the same point. */
  lemma RenamedJournal(env: Env, p: Path, q: Path, target: CheckpointId)
    requires ValidTag(env.docTag(p)) && ValidTag(env.docTag(q)) && target != env.genesis
    requires env.docTag(p) != env.docTag(q) && env.entry(p) != env.entry(q)
    ensures var d := After(env, [Run(OneNote(p), [p], [], target, 1, NotBegun), Run(OneNote(q), [q], [p], target, 1, NotBegun)]);
      && IsActive(env, d) && d.state.None? && d.pending.value.paths.Keys == {p, q}
  {
    var first, second := Run(OneNote(p), [p], [], target, 1, NotBegun), Run(OneNote(q), [q], [p], target, 1, NotBegun);
    FirstJournal(env, p, target);
    HistoryKeepsInv(env, [first]);
    HistoryKeepsInv(env, [first, second]);
    assert [first] + [second] == [first, second];
    AfterOneMore(env, [first], second);
    SecondJournal(env, After(env, [first]), p, q, second);
  }

  lemma SecondJournal(env: Env, d: Disk, p: Path, q: Path, second: Run)
    requires Inv(env, d) && IsActive(env, d) && d == EMPTY_DISK.(pending := d.pending) && d.pending.value.paths == map[p := env.docTag(p)]
    requires ValidTag(env.docTag(p)) && ValidTag(env.docTag(q)) && env.docTag(p) != env.docTag(q) && env.entry(p) != env.entry(q)
    requires second.target != env.genesis && second == Run(OneNote(q), [q], [p], second.target, 1, NotBegun)
    ensures var r := RunOnce(env, d, second); r == d.(pending := r.pending) && r.pending.Some? && r.pending.value.paths.Keys == {p, q}
  {
    RenameAdmitted(env, d, p, q);
    JournalOnly(env, d, second);
    TagsKnownUnderInv(env, d, second.notes);
  }

  /**
   Recovery never wedges exactly when the vendor's tags respect case folding among names the file system keeps
   apart. Otherwise renaming a note to one that folds alike, between two runs that die early, leaves a journal no
   later run can load.
   */
  lemma NeverWedgesExactly(env: Env)
    ensures NeverWedges(env) <==> TagsRespectFolding(env)
  {
    if TagsRespectFolding(env) {
      forall runs: seq<Run>, notes: Vault |
        var d := After(env, runs);
        && FoldsDistinct(env, notes.Keys)
        && TagsAdmissible(env, notes.Keys, LoadState(env, d).files)
        && !(d.pending.Some? && IsActive(env, d) && Clash(env, notes.Keys, d.pending.value.paths.Keys))
        ensures Admissible(env, After(env, runs), notes)
      {
        JournalFolds(env, runs);
        JournalLoadsExactly(env, runs, notes.Keys);
      }
    } else {
      var p, q :| env.fold(p) == env.fold(q) && env.entry(p) != env.entry(q) && ValidTag(env.docTag(p)) && ValidTag(env.docTag(q))
        && env.docTag(p) != env.docTag(q);
      RenameBreaksAdmission(env, p, q);
    }
  }

  lemma RenameBreaksAdmission(env: Env, p: Path, q: Path)
    requires env.fold(p) == env.fold(q) && env.entry(p) != env.entry(q) && env.docTag(p) != env.docTag(q)
    requires ValidTag(env.docTag(p)) && ValidTag(env.docTag(q))
    ensures !NeverWedges(env)
  {
    var target := env.genesis + "0";
    var runs := CaseRename(p, q, target);
    RenamedJournal(env, p, q, target);
    var d, notes := After(env, runs), OneNote(q);
    HistoryKeepsInv(env, runs);
    assert p in d.pending.value.paths && q in d.pending.value.paths;
    assert !FoldsDistinct(env, d.pending.value.paths.Keys);
    assert TagsAdmissible(env, notes.Keys, LoadState(env, d).files) && !Clash(env, notes.Keys, {p, q});
    assert !Admissible(env, d, notes);
  }

  /** One note, then the same note under a name that folds alike; both runs die after writing their journal. */
  function CaseRename(p: Path, q: Path, target: CheckpointId): seq<Run> {
    [Run(OneNote(p), [p], [], target, 1, NotBegun), Run(OneNote(q), [q], [p], target, 1, NotBegun)]
  }

  /** No vault whatever lets the journal load, exactly when two of its own paths fold alike. */
  lemma StuckExactly(env: Env, runs: seq<Run>)
    ensures var d := After(env, runs);
      (forall notes :: PendingOf(env, d, notes).None?) <==> d.pending.Some? && !FoldsDistinct(env, d.pending.value.paths.Keys)
  {
    var d := After(env, runs);
    forall notes ensures PendingOf(env, d, notes).Some? <==>
        (d.pending.Some? ==>
          && FoldsDistinct(env, d.pending.value.paths.Keys)
          && (IsActive(env, d) ==> !Clash(env, notes, d.pending.value.paths.Keys)))
    {
      JournalLoadsExactly(env, runs, notes);
    }
    assert d.pending.Some? ==> !Clash(env, {}, d.pending.value.paths.Keys);
    assert PendingOf(env, d, {}).None? ==> d.pending.Some? && !FoldsDistinct(env, d.pending.value.paths.Keys);
  }

  /** And then nothing ever changes again: every later run, of any vault, is refused. */
  lemma {:induction false} StuckForEver(env: Env, runs: seq<Run>, more: seq<Run>)
    requires forall notes :: PendingOf(env, After(env, runs), notes).None?
    ensures After(env, runs + more) == After(env, runs)
    decreases more
  {
    if more == [] {
      assert runs + more == runs;
    } else {
      var earlier := more[..|more| - 1];
      StuckForEver(env, runs, earlier);
      assert (runs + more)[..|runs + more| - 1] == runs + earlier;
    }
  }

  /**
   Two paths that fold alike, are different entries and have different tags are enough: after the renaming history no vault lets the
   journal load, and no later run changes anything.
   */
  lemma RenameWedges(env: Env, p: Path, q: Path, target: CheckpointId)
    requires env.fold(p) == env.fold(q) && env.entry(p) != env.entry(q) && env.docTag(p) != env.docTag(q)
    requires ValidTag(env.docTag(p)) && ValidTag(env.docTag(q)) && target != env.genesis
    ensures var runs := CaseRename(p, q, target);
      && (forall notes :: PendingOf(env, After(env, runs), notes).None?)
      && (forall more :: After(env, runs + more) == After(env, runs))
  {
    var runs := CaseRename(p, q, target);
    RenamedJournal(env, p, q, target);
    var paths := After(env, runs).pending.value.paths;
    assert p in paths && q in paths;
    StuckExactly(env, runs);
    forall more ensures After(env, runs + more) == After(env, runs) {
      StuckForEver(env, runs, more);
    }
  }

  /** Where the file system takes both for one entry, no run gets past a rename of a journaled note. */
  lemma SameEntryIsRefused(env: Env, runs: seq<Run>, run: Run, p: Path, q: Path)
    requires var d := After(env, runs); d.pending.Some? && IsActive(env, d) && p in d.pending.value.paths
    requires env.entry(p) == env.entry(q) && p !in run.notes && q in run.notes
    ensures After(env, runs + [run]) == After(env, runs)
  {
    var d := After(env, runs);
    HistoryKeepsInv(env, runs);
    AfterOneMore(env, runs, run);
    if Admissible(env, d, run.notes) && Scheduled(env, d, run) {
      ReconciledPlan(run.notes, LoadState(env, d).files, Carried(env, d, run.notes.Keys).Keys);
      assert p in PlanOf(env, d, run.notes).deleted;
      assert !DeletedAbsent(env, d, run.notes);
    }
  }
}
