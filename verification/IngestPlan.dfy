/**
 Admission, planning and journal loading of the DC-02 ingest transaction: each loop of the
 program as a method, against the set-level condition it decides.
 */
module IngestPlan {
  import opened Wrappers
  import opened IngestModel

  /** The four lists of a plan; their sorted order is not modelled. */
  datatype SyncPlan = SyncPlan(added: set<Path>, changed: set<Path>, same: set<Path>, deleted: set<Path>)

  datatype PendingStatus = NoPending | Completed | Active(docTags: map<Path, Tag>)

  // ---------- Admission of tags ----------

  /** What `_validate_file_map` accepts. */
  ghost predicate FileMapOk(env: Env, files: FileMap) {
    && FoldsDistinct(env, files.Keys)
    && (forall p :: p in files ==> ValidTag(files[p].tag))
    && (forall p, q :: p in files && q in files && files[p].tag == files[q].tag ==> p == q)
  }

  method ValidateFileMap(env: Env, files: FileMap) returns (ok: bool)
    ensures ok <==> FileMapOk(env, files)
  {
    var todo := files.Keys;
    var seenFold: map<string, Path> := map[];
    var seenTags: map<Tag, Path> := map[];
    while todo != {}
      invariant todo <= files.Keys
      invariant forall p :: p in files.Keys - todo ==>
        && ValidTag(files[p].tag)
        && env.fold(p) in seenFold && seenFold[env.fold(p)] == p
        && files[p].tag in seenTags && seenTags[files[p].tag] == p
      invariant forall f :: f in seenFold ==> seenFold[f] in files.Keys - todo && env.fold(seenFold[f]) == f
      invariant forall t :: t in seenTags ==> seenTags[t] in files.Keys - todo && files[seenTags[t]].tag == t
      decreases todo
    {
      var rel :| rel in todo;
      var tag := files[rel].tag;
      if env.fold(rel) in seenFold || !ValidTag(tag) || tag in seenTags {
        return false;
      }
      seenFold := seenFold[env.fold(rel) := rel];
      seenTags := seenTags[tag := rel];
      todo := todo - {rel};
    }
    ok := true;
  }

  /** What `validate_doc_tags` accepts: current notes against each other and against the checkpoint. */
  ghost predicate TagsAdmissible(env: Env, notes: set<Path>, files: FileMap) {
    && (forall p :: p in notes ==> ValidTag(env.docTag(p)))
    && TagsDistinct(env, notes)
    && (forall q :: q in files ==> ValidTag(env.docTag(q)) && files[q].tag == env.docTag(q))
    && (forall p, q :: p in notes && q in files && env.docTag(p) == env.docTag(q) ==> p == q)
  }

  method ValidateDocTags(env: Env, notes: Vault, files: FileMap) returns (r: Result<map<Path, Tag>, string>)
    ensures r.Ok? <==> TagsAdmissible(env, notes.Keys, files)
    ensures r.Ok? ==> r.value == map p | p in notes :: env.docTag(p)
  {
    var current: map<Path, Tag> := map[];
    var byTag: map<Tag, Path> := map[];
    var todo := notes.Keys;
    while todo != {}
      invariant todo <= notes.Keys
      invariant current.Keys == notes.Keys - todo
      invariant forall p :: p in current ==>
        current[p] == env.docTag(p) && ValidTag(current[p]) && current[p] in byTag && byTag[current[p]] == p
      invariant forall t :: t in byTag ==> byTag[t] in current && current[byTag[t]] == t
      decreases todo
    {
      var rel :| rel in todo;
      var tag := env.docTag(rel);
      if !ValidTag(tag) {
        return Err("doc_tag_invalid");
      }
      if tag in byTag {
        return Err("doc_tag_collision");
      }
      byTag := byTag[tag := rel];
      current := current[rel := tag];
      todo := todo - {rel};
    }
    assert current.Keys == notes.Keys;
    var error := CheckHistory(env, current, byTag, files);
    r := if error.Some? then Err(error.value) else Ok(current);
  }

  /** The second loop of `validate_doc_tags`: the checkpoint's tags against the vendor and the current notes. */
  method CheckHistory(env: Env, current: map<Path, Tag>, byTag: map<Tag, Path>, files: FileMap)
    returns (error: Option<string>)
    requires forall p :: p in current ==> current[p] == env.docTag(p) && current[p] in byTag && byTag[current[p]] == p
    requires forall t :: t in byTag ==> byTag[t] in current && current[byTag[t]] == t
    ensures error.None? <==>
      && (forall q :: q in files ==> ValidTag(env.docTag(q)) && files[q].tag == env.docTag(q))
      && (forall p, q :: p in current && q in files && env.docTag(p) == env.docTag(q) ==> p == q)
  {
    var previous := files.Keys;
    while previous != {}
      invariant previous <= files.Keys
      invariant forall q :: q in files.Keys - previous ==>
        && ValidTag(env.docTag(q)) && files[q].tag == env.docTag(q)
        && (env.docTag(q) in byTag ==> byTag[env.docTag(q)] == q)
      decreases previous
    {
      var rel :| rel in previous;
      var expected := env.docTag(rel);
      if !ValidTag(expected) {
        return Some("doc_tag_invalid");
      }
      if files[rel].tag != expected {
        return Some("state_doc_tag_vendor_mismatch");
      }
      if expected in byTag && byTag[expected] != rel {
        return Some("historical_doc_tag_collision");
      }
      previous := previous - {rel};
    }
    error := None;
  }

  // ---------- Planning ----------

  function PlanFor(notes: Vault, files: FileMap, carried: set<Path>): SyncPlan {
    SyncPlan(
      notes.Keys - files.Keys,
      (set p | p in notes && p in files && (files[p].sha != Sha256(notes[p].text) || p in carried)),
      (set p | p in notes && p in files && files[p].sha == Sha256(notes[p].text) && p !in carried),
      files.Keys + carried - notes.Keys)
  }

  method BuildPlan(notes: Vault, files: FileMap) returns (plan: SyncPlan)
    ensures plan == PlanFor(notes, files, {})
  {
    var added, changed, same: set<Path> := {}, {}, {};
    var todo := notes.Keys;
    while todo != {}
      invariant todo <= notes.Keys
      invariant added == notes.Keys - todo - files.Keys
      invariant changed == set p | p in notes.Keys - todo && p in files && files[p].sha != Sha256(notes[p].text)
      invariant same == set p | p in notes.Keys - todo && p in files && files[p].sha == Sha256(notes[p].text)
      decreases todo
    {
      var rel :| rel in todo;
      if rel !in files {
        added := added + {rel};
      } else if files[rel].sha != Sha256(notes[rel].text) {
        changed := changed + {rel};
      } else {
        same := same + {rel};
      }
      todo := todo - {rel};
    }
    plan := SyncPlan(added, changed, same, files.Keys - notes.Keys);
  }

  /** `reconcile_active_pending` starting from any plan at all. */
  function Reconciled(plan: SyncPlan, current: set<Path>, previous: set<Path>, paths: set<Path>): SyncPlan {
    SyncPlan(
      plan.added - paths + (paths * current - previous),
      plan.changed - paths + paths * current * previous,
      plan.same - paths,
      plan.deleted - paths + (paths - current))
  }

  method ReconcileActivePending(plan: SyncPlan, current: set<Path>, previous: set<Path>, paths: set<Path>)
    returns (r: SyncPlan)
    ensures r == Reconciled(plan, current, previous, paths)
  {
    var added, changed, same, deleted := plan.added, plan.changed, plan.same, plan.deleted;
    var todo := paths;
    while todo != {}
      invariant todo <= paths
      invariant SyncPlan(added, changed, same, deleted) == Reconciled(plan, current, previous, paths - todo)
      decreases todo
    {
      var rel :| rel in todo;
      if rel in current {
        deleted, same := deleted - {rel}, same - {rel};
        if rel in previous {
          added, changed := added - {rel}, changed + {rel};
        } else {
          changed, added := changed - {rel}, added + {rel};
        }
      } else {
        added, changed, same := added - {rel}, changed - {rel}, same - {rel};
        deleted := deleted + {rel};
      }
      todo := todo - {rel};
    }
    assert paths - todo == paths;
    r := SyncPlan(added, changed, same, deleted);
  }

  /**
   Reconciling the initial plan forces every journaled path to be studied again or faded,
   and leaves the four lists a partition of everything known.
   */
  lemma ReconciledPlan(notes: Vault, files: FileMap, carried: set<Path>)
    ensures Reconciled(PlanFor(notes, files, {}), notes.Keys, files.Keys, carried) == PlanFor(notes, files, carried)
    ensures var plan := PlanFor(notes, files, carried);
      && plan.added + plan.changed + plan.same == notes.Keys
      && plan.added + plan.changed + plan.same + plan.deleted == notes.Keys + files.Keys + carried
      && plan.added !! plan.changed !! plan.same !! plan.deleted
      && carried <= plan.added + plan.changed + plan.deleted
  {
    var initial := PlanFor(notes, files, {});
    var plan := PlanFor(notes, files, carried);
    var again := Reconciled(initial, notes.Keys, files.Keys, carried);
    assert again.added == plan.added;
    assert again.changed == plan.changed;
    assert again.same == plan.same;
    assert again.deleted == plan.deleted;
  }

  // ---------- The journal ----------

  function Affected(plan: SyncPlan): set<Path> {
    plan.added + plan.changed + plan.deleted
  }

  /** The tag a journal records for a path: the current note's, else the checkpoint's, else the old journal's. */
  function JournalTag(env: Env, notes: Vault, files: FileMap, carried: map<Path, Tag>, p: Path): Option<Tag> {
    if p in notes then Some(env.docTag(p))
    else if p in files then Some(files[p].tag)
    else if p in carried then Some(carried[p])
    else None
  }

  method PendingPayload(env: Env, state: Checkpoint, notes: Vault, docTags: map<Path, Tag>, plan: SyncPlan,
                        target: CheckpointId, recoveryTags: map<Path, Tag>)
    returns (r: Result<Journal, string>)
    requires docTags == map p | p in notes :: env.docTag(p)
    ensures r.Ok? <==>
      && target != state.id && Affected(plan) != {}
      && forall p :: p in Affected(plan) ==> JournalTag(env, notes, state.files, recoveryTags, p).Some?
    ensures r.Ok? ==>
      && r.value.paths.Keys == Affected(plan)
      && (forall p :: p in r.value.paths ==>
            Some(r.value.paths[p]) == JournalTag(env, notes, state.files, recoveryTags, p))
      && r.value.base == state.id && r.value.target == target
      && r.value.baseDigest == FilesSha256(state.files)
      && r.value.targetDigest == FilesSha256(FilesPayload(env, notes))
  {
    if target == state.id {
      return Err("pending_target_checkpoint_id_invalid");
    }
    var affected := Affected(plan);
    if affected == {} {
      return Err("pending_empty");
    }
    var paths: map<Path, Tag> := map[];
    while affected != {}
      invariant affected <= Affected(plan)
      invariant paths.Keys == Affected(plan) - affected
      invariant forall p :: p in paths ==> Some(paths[p]) == JournalTag(env, notes, state.files, recoveryTags, p)
      decreases affected
    {
      var rel :| rel in affected;
      var tag: Tag;
      if rel in docTags {
        tag := docTags[rel];
      } else if rel in state.files {
        tag := state.files[rel].tag;
      } else if rel in recoveryTags {
        tag := recoveryTags[rel];
      } else {
        return Err("pending_missing_deleted_tag");
      }
      paths := paths[rel := tag];
      affected := affected - {rel};
    }
    r := Ok(Journal(state.id, target, FilesSha256(state.files), FilesSha256(FilesPayload(env, notes)), paths));
  }

  /** What the scan of a journal's entries accepts. */
  ghost predicate JournalReadable(env: Env, j: Journal) {
    && j.base != j.target
    && j.paths.Keys != {}
    && FoldsDistinct(env, j.paths.Keys)
    && TagsDistinct(env, j.paths.Keys)
    && forall p :: p in j.paths ==> ValidTag(env.docTag(p)) && j.paths[p] == env.docTag(p)
  }

  ghost predicate Clash(env: Env, notes: set<Path>, paths: set<Path>) {
    exists p, q :: p in notes && q in paths && env.docTag(p) == env.docTag(q) && p != q
  }

  /** The entry loop of `load_pending`: the journal's own paths and tags, with the path of each tag. */
  method ReadJournal(env: Env, j: Journal) returns (r: Result<map<Tag, Path>, string>)
    ensures r.Ok? <==> JournalReadable(env, j)
    ensures r.Ok? ==> forall p :: p in j.paths ==> env.docTag(p) in r.value && r.value[env.docTag(p)] == p
    ensures r.Ok? ==> forall t :: t in r.value ==> r.value[t] in j.paths && env.docTag(r.value[t]) == t
  {
    if j.base == j.target {
      return Err("pending_target_checkpoint_id_invalid");
    }
    if j.paths == map[] {
      return Err("pending_paths_invalid");
    }
    var seenTags: map<Tag, Path> := map[];
    var seenFold: map<string, Path> := map[];
    var todo := j.paths.Keys;
    while todo != {}
      invariant todo <= j.paths.Keys
      invariant forall p :: p in j.paths.Keys - todo ==>
        && ValidTag(env.docTag(p)) && j.paths[p] == env.docTag(p)
        && env.fold(p) in seenFold && seenFold[env.fold(p)] == p
        && env.docTag(p) in seenTags && seenTags[env.docTag(p)] == p
      invariant forall f :: f in seenFold ==> seenFold[f] in j.paths.Keys - todo && env.fold(seenFold[f]) == f
      invariant forall t :: t in seenTags ==> seenTags[t] in j.paths.Keys - todo && env.docTag(seenTags[t]) == t
      decreases todo
    {
      var rel :| rel in todo;
      var folded, expected := env.fold(rel), env.docTag(rel);
      if folded in seenFold {
        return Err("pending_casefold_collision");
      }
      if !ValidTag(expected) {
        return Err("doc_tag_invalid");
      }
      if j.paths[rel] != expected {
        return Err("pending_doc_tag_vendor_mismatch");
      }
      if expected in seenTags {
        return Err("pending_doc_tag_collision");
      }
      seenFold := seenFold[folded := rel];
      seenTags := seenTags[expected := rel];
      todo := todo - {rel};
    }
    r := Ok(seenTags);
  }

  /** What `load_pending` returns; None where it raises. */
  ghost function PendingOf(env: Env, d: Disk, notes: set<Path>): Option<PendingStatus> {
    if d.pending.None? then Some(NoPending)
    else
      var j, state := d.pending.value, LoadState(env, d);
      if !JournalReadable(env, j) then None
      else if state.id == j.target then
        if FilesSha256(state.files) == j.targetDigest then Some(Completed) else None
      else if state.id == j.base then
        if FilesSha256(state.files) == j.baseDigest && !Clash(env, notes, j.paths.Keys)
        then Some(Active(j.paths)) else None
      else None
  }

  method LoadPending(env: Env, d: Disk, docTags: map<Path, Tag>) returns (r: Result<PendingStatus, string>)
    requires forall p :: p in docTags ==> docTags[p] == env.docTag(p)
    requires TagsDistinct(env, docTags.Keys)
    ensures r.Ok? <==> PendingOf(env, d, docTags.Keys).Some?
    ensures r.Ok? ==> PendingOf(env, d, docTags.Keys) == Some(r.value)
  {
    if d.pending.None? {
      return Ok(NoPending);
    }
    var j, state := d.pending.value, LoadState(env, d);
    var read := ReadJournal(env, j);
    if read.Err? {
      return Err(read.error);
    }
    var seenTags := read.value;
    if state.id == j.target {
      if FilesSha256(state.files) != j.targetDigest {
        return Err("pending_target_digest_mismatch");
      }
      return Ok(Completed);
    }
    if state.id == j.base {
      if FilesSha256(state.files) != j.baseDigest {
        return Err("pending_base_digest_mismatch");
      }
      var notes := docTags.Keys;
      while notes != {}
        invariant notes <= docTags.Keys
        invariant !Clash(env, docTags.Keys - notes, j.paths.Keys)
        decreases notes
      {
        var rel :| rel in notes;
        var tag := docTags[rel];
        if tag in seenTags && seenTags[tag] != rel {
          assert Clash(env, docTags.Keys, j.paths.Keys);
          return Err("pending_doc_tag_collision");
        }
        notes := notes - {rel};
      }
      assert docTags.Keys - notes == docTags.Keys;
      return Ok(Active(j.paths));
    }
    r := Err("pending_state_mismatch");
  }
}
