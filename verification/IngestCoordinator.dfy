/**
 The apply command itself: one object holding the three metadata files and the store, changed one
 atomic effect at a time by a process that may die before, or in the middle of, any of them.
 */
module IngestCoordinator {
  import opened Wrappers
  import opened IngestModel
  import opened IngestPlan
  import opened IngestRun

  datatype Outcome = Applied(plan: SyncPlan) | Rejected(error: string) | Died

  class Coordinator {
    var state: Option<Checkpoint>
    var pending: Option<Journal>
    var owner: bool
    var store: map<Tag, Text>
    /** How many more effects the process lives to complete, and how the next one would be left. */
    var life: nat
    var tear: Tear

    constructor ()
      ensures Snapshot() == EMPTY_DISK
    {
      state, pending, owner, store, life, tear := None, None, false, map[], 0, NotBegun;
    }

    function Snapshot(): Disk
      reads this
    {
      Disk(state, pending, owner, store)
    }

    /**
     One file replacement, file removal or vendor call, unless the process dies first. `script` is
     what the process would still do, this effect first.
     */
    method Do(e: Effect, ghost script: seq<Effect>) returns (alive: bool)
      requires script != [] && script[0] == e
      modifies this
      ensures tear == old(tear) && alive == (old(life) > 0)
      ensures alive ==> life == old(life) - 1 && Snapshot() == Perform(old(Snapshot()), e)
      ensures !alive ==> Snapshot() == Interrupt(old(Snapshot()), e, tear)
      ensures Cut(old(Snapshot()), script, old(life), tear)
        == if alive then Cut(Snapshot(), script[1..], life, tear) else Snapshot()
    {
      alive := life > 0;
      if alive {
        life := life - 1;
        match e
        case WritePending(journal) => pending := Some(journal);
        case ClearPending => pending := None;
        case WriteOwner => owner := true;
        case WriteState(checkpoint) => state := Some(checkpoint);
        case Study(tag, text) => store := store[tag := text];
        case Fade(tag) => store := store - {tag};
      } else if tear.Left? && (e.Study? || e.Fade?) {
        var tag := if e.Study? then e.tag else e.faded;
        store := if tear.text.Some? then store[tag := tear.text.value] else store - {tag};
      }
    }

    /** The first loop of `apply_plan`: study every new or changed note. */
    method StudyAll(env: Env, notes: Vault, studied: seq<Path>, ghost rest: seq<Effect>) returns (alive: bool)
      requires forall p :: p in studied ==> p in notes
      modifies this
      ensures tear == old(tear) && Snapshot() == old(Snapshot()).(store := store)
      ensures (alive <==> |studied| <= old(life)) && (alive ==> life + |studied| == old(life))
      ensures Cut(old(Snapshot()), Studies(env, notes, studied) + rest, old(life), tear)
        == if alive then Cut(Snapshot(), rest, life, tear) else Snapshot()
    {
      var i := 0;
      assert studied[i..] == studied;
      while i < |studied|
        invariant 0 <= i <= |studied| && tear == old(tear) && life + i == old(life)
        invariant Snapshot() == old(Snapshot()).(store := store)
        invariant Cut(old(Snapshot()), Studies(env, notes, studied) + rest, old(life), tear)
          == Cut(Snapshot(), Studies(env, notes, studied[i..]) + rest, life, tear)
      {
        ghost var script := Studies(env, notes, studied[i..]) + rest;
        assert studied[i] in studied;
        var e := Study(env.docTag(studied[i]), notes[studied[i]].text);
        assert script[0] == e && script[1..] == Studies(env, notes, studied[i + 1..]) + rest;
        alive := Do(e, script);
        if !alive {
          return;
        }
        i := i + 1;
      }
      assert Studies(env, notes, studied[i..]) + rest == rest;
      alive := true;
    }

    /** The second loop of `apply_plan`: fade every deleted note. */
    method FadeAll(env: Env, faded: seq<Path>, ghost rest: seq<Effect>) returns (alive: bool)
      modifies this
      ensures tear == old(tear) && Snapshot() == old(Snapshot()).(store := store)
      ensures (alive <==> |faded| <= old(life)) && (alive ==> life + |faded| == old(life))
      ensures Cut(old(Snapshot()), Fades(env, faded) + rest, old(life), tear)
        == if alive then Cut(Snapshot(), rest, life, tear) else Snapshot()
    {
      var i := 0;
      assert faded[i..] == faded;
      while i < |faded|
        invariant 0 <= i <= |faded| && tear == old(tear) && life + i == old(life)
        invariant Snapshot() == old(Snapshot()).(store := store)
        invariant Cut(old(Snapshot()), Fades(env, faded) + rest, old(life), tear)
          == Cut(Snapshot(), Fades(env, faded[i..]) + rest, life, tear)
      {
        ghost var script := Fades(env, faded[i..]) + rest;
        var e := Fade(env.docTag(faded[i]));
        assert script[0] == e && script[1..] == Fades(env, faded[i + 1..]) + rest;
        alive := Do(e, script);
        if !alive {
          return;
        }
        i := i + 1;
      }
      assert Fades(env, faded[i..]) + rest == rest;
      alive := true;
    }

    /** The checks before anything is changed: the loaded status, or the first error. */
    method Admit(env: Env, notes: Vault) returns (r: Result<(map<Path, Tag>, PendingStatus), string>)
      requires FoldsDistinct(env, notes.Keys)  // the scan refuses a vault whose names fold together
      ensures r.Ok? <==> Admissible(env, Snapshot(), notes)
      ensures r.Ok? ==>
        && r.value.0 == (map p | p in notes :: env.docTag(p))
        && PendingOf(env, Snapshot(), notes.Keys) == Some(r.value.1)
    {
      var checkpoint := LoadState(env, Snapshot());
      var ok := ValidateFileMap(env, checkpoint.files);
      if !ok {
        return Err("state_files_invalid");
      }
      if owner && state.None? && pending.None? {
        return Err("owned_store_missing_state_and_pending");
      }
      var docTags := ValidateDocTags(env, notes, checkpoint.files);
      if docTags.Err? {
        return Err(docTags.error);
      }
      assert docTags.value.Keys == notes.Keys;
      var status := LoadPending(env, Snapshot(), docTags.value);
      r := if status.Err? then Err(status.error) else Ok((docTags.value, status.value));
    }

    /**
     One apply run. What it leaves on disk is exactly the cut-off script of that run, so everything
     proved about histories of such scripts holds of histories of these calls.
     */
    method Apply(env: Env, notes: Vault, target: CheckpointId, cut: nat, torn: Tear)
      returns (outcome: Outcome, studied: seq<Path>, faded: seq<Path>)
      requires FoldsDistinct(env, notes.Keys)
      requires Inv(env, Snapshot())
      modifies this
      ensures Snapshot() == RunOnce(env, old(Snapshot()), Run(notes, studied, faded, target, cut, torn))
      ensures Inv(env, Snapshot())
      ensures Answers(env, old(Snapshot()), Run(notes, studied, faded, target, cut, torn), outcome)
      ensures outcome.Rejected? && old(Admissible(env, Snapshot(), notes)) ==>
        Snapshot() == PerformAll(old(Snapshot()), Head(env, old(Snapshot()), notes.Keys))
      ensures old(!Admissible(env, Snapshot(), notes)) ==> Snapshot() == old(Snapshot())
      ensures outcome.Applied? ==>
        && Snapshot().pending.None? && state.Some? && state.value.files == FilesPayload(env, notes)
        && Mirrors(store, FilesPayload(env, notes))
        && outcome.plan == PlanOf(env, old(Snapshot()), notes)
    {
      studied, faded := [], [];
      ghost var start := Snapshot();
      var admitted := Admit(env, notes);
      if admitted.Err? {
        outcome := Rejected(admitted.error);
        return;
      }
      var docTags, status := admitted.value.0, admitted.value.1;
      var plan;
      plan, studied, faded := MakePlan(env, notes, status);
      var run := Run(notes, studied, faded, target, cut, torn);
      RunKeepsInv(env, start, run);
      outcome := Execute(env, docTags, status, plan, run);
    }

    method MakePlan(env: Env, notes: Vault, status: PendingStatus)
      returns (plan: SyncPlan, studied: seq<Path>, faded: seq<Path>)
      requires PendingOf(env, Snapshot(), notes.Keys) == Some(status)
      ensures plan == PlanOf(env, Snapshot(), notes)
      ensures Orders(studied, plan.added + plan.changed) && Orders(faded, plan.deleted)
    {
      var files := LoadState(env, Snapshot()).files;
      plan := BuildPlan(notes, files);
      if status.Active? {
        plan := ReconcileActivePending(plan, notes.Keys, files.Keys, status.docTags.Keys);
        ReconciledPlan(notes, files, status.docTags.Keys);
      }
      studied := Order(plan.added + plan.changed);
      faded := Order(plan.deleted);
    }

    /** An admitted, planned run: everything it changes. */
    method Execute(env: Env, docTags: map<Path, Tag>, status: PendingStatus, plan: SyncPlan, run: Run)
      returns (outcome: Outcome)
      requires Inv(env, Snapshot()) && Admissible(env, Snapshot(), run.notes) && Scheduled(env, Snapshot(), run)
      requires docTags == map p | p in run.notes :: env.docTag(p)
      requires PendingOf(env, Snapshot(), run.notes.Keys) == Some(status) && plan == PlanOf(env, Snapshot(), run.notes)
      modifies this
      ensures Snapshot() == RunOnce(env, old(Snapshot()), run)
      ensures Answers(env, old(Snapshot()), run, outcome)
      ensures outcome.Rejected? ==> Snapshot() == PerformAll(old(Snapshot()), Head(env, old(Snapshot()), run.notes.Keys))
      ensures outcome.Applied? ==>
        && Snapshot().pending.None? && state.Some? && state.value.files == FilesPayload(env, run.notes)
        && Mirrors(store, FilesPayload(env, run.notes)) && outcome.plan == plan
    {
      ghost var start := Snapshot();
      var notes := run.notes;
      var checkpoint := LoadState(env, Snapshot());
      var carried := if status.Active? then status.docTags else map[];
      life, tear := run.cut, run.tear;
      ghost var body := Body(env, start, run);
      ghost var script := Head(env, start, notes.Keys) + body;
      assert Cut(Snapshot(), script, life, tear) == RunOnce(env, start, run);
      if status.Completed? {
        assert script[0] == ClearPending && script[1..] == body && Head(env, start, notes.Keys)[1..] == [];
        var alive := Do(ClearPending, script);
        if !alive {
          outcome := Died;
          return;
        }
      } else {
        assert script == body;
      }
      if plan.added + plan.changed + plan.deleted == {} {
        outcome := Refresh(env, notes, checkpoint, plan, start, run);
      } else {
        outcome := Commit(env, notes, docTags, checkpoint, carried, plan, start, run);
      }
    }

    /** The rest of a run with nothing to do: the checkpoint is rewritten under its old id. */
    method Refresh(env: Env, notes: Vault, checkpoint: Checkpoint, plan: SyncPlan, ghost start: Disk, ghost run: Run)
      returns (outcome: Outcome)
      requires Inv(env, start) && Admissible(env, start, notes) && Scheduled(env, start, run) && run.notes == notes
      requires Snapshot() == PerformAll(start, Head(env, start, notes.Keys))
      requires plan == PlanOf(env, start, notes) && Affected(plan) == {} && checkpoint == LoadState(env, start)
      modifies this
      ensures outcome == if |Body(env, start, run)| <= old(life) then Applied(plan) else Died
      ensures Snapshot() == Cut(old(Snapshot()), Body(env, start, run), old(life), old(tear))
      ensures outcome.Applied? ==>
        && Snapshot().pending.None? && state.Some? && state.value.files == FilesPayload(env, notes)
        && Mirrors(store, FilesPayload(env, notes)) && outcome.plan == plan
    {
      QuietBody(env, start, run, Snapshot());
      HeadEffect(env, start, notes);
      var first := WriteState(Checkpoint(checkpoint.id, FilesPayload(env, notes)));
      ghost var body, end := Body(env, start, run), [ClearPending];
      assert body[0] == first && body[1..] == OwnerEffects(start) + end;
      outcome := Died;
      var alive := Do(first, body);
      if !alive {
        return;
      }
      if !owner {
        assert body[1..][1..] == end;
        alive := Do(WriteOwner, body[1..]);
        if !alive {
          return;
        }
      } else {
        assert body[1..] == end;
      }
      assert end[1..] == [];
      alive := Do(ClearPending, end);
      if alive {
        UncutRun(old(Snapshot()), body, old(life), tear);
        outcome := Applied(plan);
      }
    }

    /** The rest of a run with work to do: journal, owner, store, checkpoint, clear. */
    method Commit(env: Env, notes: Vault, docTags: map<Path, Tag>, checkpoint: Checkpoint, carried: map<Path, Tag>,
                  plan: SyncPlan, ghost start: Disk, run: Run)
      returns (outcome: Outcome)
      requires Inv(env, start) && Admissible(env, start, notes) && Scheduled(env, start, run) && run.notes == notes
      requires Snapshot() == PerformAll(start, Head(env, start, notes.Keys))
      requires docTags == map p | p in notes :: env.docTag(p)
      requires checkpoint == LoadState(env, start) && carried == Carried(env, start, notes.Keys)
      requires plan == PlanOf(env, start, notes) && Affected(plan) != {}
      modifies this
      ensures outcome.Rejected? <==> PlanRefused(env, start, run)
      ensures outcome.Died? <==> old(life) < |Body(env, start, run)|
      ensures Snapshot() == Cut(old(Snapshot()), Body(env, start, run), old(life), old(tear))
      ensures outcome.Applied? ==>
        && Snapshot().pending.None? && state.Some? && state.value.files == FilesPayload(env, notes)
        && Mirrors(store, FilesPayload(env, notes)) && outcome.plan == plan
    {
      var absent := ValidateDeletedAbsence(env, notes, run.faded, plan.deleted);
      if !absent {
        outcome := Rejected("deleted_source_reappeared_before_apply");
        return;
      }
      outcome := Begin(env, notes, docTags, checkpoint, carried, plan, start, run);
    }

    /** What is left to refuse is the journal itself. */
    method Begin(env: Env, notes: Vault, docTags: map<Path, Tag>, checkpoint: Checkpoint, carried: map<Path, Tag>,
                 plan: SyncPlan, ghost start: Disk, run: Run)
      returns (outcome: Outcome)
      requires Inv(env, start) && Admissible(env, start, notes) && Scheduled(env, start, run) && run.notes == notes
      requires Snapshot() == PerformAll(start, Head(env, start, notes.Keys))
      requires docTags == map p | p in notes :: env.docTag(p)
      requires checkpoint == LoadState(env, start) && carried == Carried(env, start, notes.Keys)
      requires plan == PlanOf(env, start, notes) && Affected(plan) != {} && DeletedAbsent(env, start, notes)
      modifies this
      ensures outcome.Rejected? <==> PlanRefused(env, start, run)
      ensures outcome.Died? <==> old(life) < |Body(env, start, run)|
      ensures Snapshot() == Cut(old(Snapshot()), Body(env, start, run), old(life), old(tear))
      ensures outcome.Applied? ==>
        && Snapshot().pending.None? && state.Some? && state.value.files == FilesPayload(env, notes)
        && Mirrors(store, FilesPayload(env, notes)) && outcome.plan == plan
    {
      TagsKnownUnderInv(env, start, notes);
      var journal := PendingPayload(env, checkpoint, notes, docTags, plan, run.target, carried);
      if journal.Err? {
        outcome := Rejected(journal.error);
        return;
      }
      JournaledRun(env, start, run, journal.value, Snapshot());
      var alive := JournalAndFinish(env, notes, journal.value, start, run);
      outcome := if alive then Applied(plan) else Died;
    }

    /** From the journal to the cleared journal. */
    method JournalAndFinish(env: Env, notes: Vault, journal: Journal, ghost start: Disk, run: Run) returns (alive: bool)
      requires Scheduled(env, start, run) && run.notes == notes && TagsKnown(env, start, notes) && owner == start.owner
      requires Affected(PlanOf(env, start, notes)) != {} && DeletedAbsent(env, start, notes) && run.target != LoadState(env, start).id
      requires journal == NewJournal(env, start, notes, run.target)
      modifies this
      ensures Snapshot() == Cut(old(Snapshot()), Body(env, start, run), old(life), old(tear))
      ensures alive <==> |Body(env, start, run)| <= old(life)
      ensures alive ==> Snapshot() == PerformAll(old(Snapshot()), Body(env, start, run))
    {
      ghost var body := Body(env, start, run);
      BodyShape(env, start, run);
      alive := Do(WritePending(journal), body);
      if !alive {
        return;
      }
      alive := Finish(env, notes, start, run);
      if alive {
        UncutRun(old(Snapshot()), body, old(life), tear);
      }
    }

    method Finish(env: Env, notes: Vault, ghost start: Disk, run: Run)
      returns (alive: bool)
      requires Scheduled(env, start, run) && run.notes == notes && owner == start.owner
      modifies this
      ensures tear == old(tear)
      ensures Snapshot() == Cut(old(Snapshot()), AfterJournal(env, start, run), old(life), tear)
      ensures alive <==> |AfterJournal(env, start, run)| <= old(life)
    {
      var final := WriteState(Checkpoint(run.target, FilesPayload(env, notes)));
      ghost var end := [final, ClearPending];
      ghost var fades := Fades(env, run.faded) + end;
      ghost var studies := Studies(env, notes, run.studied) + fades;
      ghost var script := OwnerEffects(start) + studies;
      if !owner {
        assert script[1..] == studies;
        alive := Do(WriteOwner, script);
        if !alive {
          return;
        }
      } else {
        assert script == studies;
      }
      alive := StudyAll(env, notes, run.studied, fades);
      if !alive {
        return;
      }
      alive := FadeAll(env, run.faded, end);
      if !alive {
        return;
      }
      assert end[1..] == [ClearPending] && [ClearPending][1..] == [];
      alive := Do(final, end);
      if !alive {
        return;
      }
      alive := Do(ClearPending, [ClearPending]);
    }
  }

  /** An admitted plan is not carried out: a deleted note is still there, or the new checkpoint id is the old one. */
  ghost predicate PlanRefused(env: Env, d: Disk, run: Run) {
    Affected(PlanOf(env, d, run.notes)) != {} && (!DeletedAbsent(env, d, run.notes) || run.target == LoadState(env, d).id)
  }

  /**
   The command's answer: rejected exactly when the run is not admitted, or its plan is refused once a completed
   journal is cleared; applied exactly when it is carried out to its last effect; died exactly when it is cut off
   before.
   */
  ghost predicate Answers(env: Env, d: Disk, run: Run, outcome: Outcome) {
    && (Admissible(env, d, run.notes) ==> Scheduled(env, d, run))
    && (Admissible(env, d, run.notes) ==>
      var head, script := Head(env, d, run.notes.Keys), Head(env, d, run.notes.Keys) + Body(env, d, run);
      && (outcome.Rejected? <==> PlanRefused(env, d, run) && |head| <= run.cut)
      && (outcome.Died? <==> run.cut < |script|)
      && (outcome.Applied? <==> !PlanRefused(env, d, run) && |script| <= run.cut))
    && (!Admissible(env, d, run.notes) ==> outcome.Rejected?)
  }

  /** What follows the journal in a run with work to do. */
  ghost function AfterJournal(env: Env, d: Disk, run: Run): seq<Effect>
    requires Scheduled(env, d, run)
  {
    OwnerEffects(d) + (Studies(env, run.notes, run.studied) + (Fades(env, run.faded)
      + [WriteState(Checkpoint(run.target, FilesPayload(env, run.notes))), ClearPending]))
  }

  /** What the busy run starts from and comes to, once its journal is accepted. */
  lemma JournaledRun(env: Env, d: Disk, run: Run, journal: Journal, x: Disk)
    requires Inv(env, d) && Admissible(env, d, run.notes) && Scheduled(env, d, run)
    requires x == PerformAll(d, Head(env, d, run.notes.Keys))
    requires Affected(PlanOf(env, d, run.notes)) != {} && DeletedAbsent(env, d, run.notes) && run.target != LoadState(env, d).id
    requires journal.paths.Keys == Affected(PlanOf(env, d, run.notes)) && forall p :: p in journal.paths ==> journal.paths[p] == env.docTag(p)
    ensures x.owner == d.owner && journal.paths == NewJournal(env, d, run.notes, run.target).paths
    ensures var r := PerformAll(x, Body(env, d, run));
      && r.pending.None? && r.state == Some(Checkpoint(run.target, FilesPayload(env, run.notes)))
      && Mirrors(r.store, FilesPayload(env, run.notes))
  {
    TagsKnownUnderInv(env, d, run.notes);
    HeadEffect(env, d, run.notes);
    BusyBody(env, d, run, x);
    var j := NewJournal(env, d, run.notes, run.target);
    assert j.paths.Keys == journal.paths.Keys;
  }

  lemma FirstThenRest(first: Effect, own: seq<Effect>, studies: seq<Effect>, fades: seq<Effect>, end: seq<Effect>)
    ensures var body := [first] + own + (studies + fades) + end;
      body[0] == first && body[1..] == own + (studies + (fades + end))
  {
  }

  lemma BodyShape(env: Env, d: Disk, run: Run)
    requires Scheduled(env, d, run) && TagsKnown(env, d, run.notes)
    requires Affected(PlanOf(env, d, run.notes)) != {} && DeletedAbsent(env, d, run.notes) && run.target != LoadState(env, d).id
    ensures var body := Body(env, d, run);
      && body != [] && body[0] == WritePending(NewJournal(env, d, run.notes, run.target))
      && body[1..] == AfterJournal(env, d, run)
  {
    FirstThenRest(
      WritePending(NewJournal(env, d, run.notes, run.target)), OwnerEffects(d), Studies(env, run.notes, run.studied),
      Fades(env, run.faded), [WriteState(Checkpoint(run.target, FilesPayload(env, run.notes))), ClearPending]);
  }

  /** The loop of `validate_deleted_absence`: no deleted path may still be found, under whatever name. */
  method ValidateDeletedAbsence(env: Env, notes: Vault, faded: seq<Path>, ghost deleted: set<Path>) returns (absent: bool)
    requires Orders(faded, deleted)
    ensures absent <==> Absent(env, deleted, notes.Keys)
  {
    var found := set q | q in notes :: env.entry(q);
    for k := 0 to |faded|
      invariant forall i, q :: 0 <= i < k && q in notes ==> env.entry(faded[i]) != env.entry(q)
    {
      if env.entry(faded[k]) in found {
        assert faded[k] in deleted;
        return false;
      }
    }
    absent := true;
  }

  /** Some order of a set of paths; which one is irrelevant to everything proved. */
  method Order(s: set<Path>) returns (q: seq<Path>)
    ensures Orders(q, s)
  {
    q := [];
    var todo := s;
    while todo != {}
      invariant todo <= s && Orders(q, s - todo)
      decreases todo
    {
      var rel :| rel in todo;
      q := q + [rel];
      todo := todo - {rel};
    }
    assert s - todo == s;
  }
}
