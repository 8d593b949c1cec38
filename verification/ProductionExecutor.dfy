/**
 The protected part of the executor as it is written: one call that re-reads, records, writes, verifies and
 commits, file after file. Any operation may raise or be the last one the process does. Every call is a run of
 the step model, so what is proved about such runs holds of it.
 */
module ProductionExecutor {
  import opened Wrappers
  import opened VaultModel
  import opened Recovery
  import opened Executor
  import opened Solo

  /** What happens to the operation at each point of one call; no point is passed twice. */
  type Faults = Pc -> Choice

  /** A call in progress: where it began, the choices met so far, and where the step model is after them. */
  datatype Trail = Trail(w0: World, p0: Proc, cs: seq<Choice>, w: World, p: Proc)

  ghost predicate Follows(env: Env, t: Trail) { Alone(env, t.w0, t.p0, t.cs) == (t.w, t.p) }

  lemma Onward(env: Env, t: Trail, c: Choice, w: World, p: Proc)
    requires Follows(env, t) && Step(env, t.w, t.p, c) == (w, p)
    ensures Follows(env, Trail(t.w0, t.p0, t.cs + [c], w, p))
  {
    assert (t.cs + [c])[..|t.cs|] == t.cs;
  }

  lemma ProtectIsStep(env: Env, w: World, p: Proc, c: Choice)
    requires p.pc.Protect?
    ensures Step(env, w, p, c) == ProtectStep(w, p, c)
    ensures var p' := ProtectStep(w, p, c).1; p'.token == p.token && (p'.Over() || p.token.plan.MoveDraft? || p'.pc == Verify)
  {
  }

  class VaultExecutor {
    const env: Env
    var vault: map<Path, Text>
    var inbox: map<Path, Text>
    var temps: map<Token, Text>
    var records: map<Token, Record>
    var unreadable: set<Place>
    var strays: set<string>
    var mem: Memory
    var nextKey: nat
    ghost var log: seq<Event>
    ghost var trail: Trail

    ghost function View(): World
      reads this
    {
      World(Disk(vault, inbox, temps, records, unreadable, strays), mem, nextKey, log)
    }

    /** The trail is up to date: the call in progress is at `p`. */
    ghost predicate On(p: Proc)
      reads this
    {
      trail.w == View() && trail.p == p
    }

    /** The call is still the one that left `t`, for the same plan as `p`, and still a run of the step model. */
    ghost predicate SameCall(t: Trail, p: Proc, q: Proc)
      reads this
    {
      trail.w0 == t.w0 && trail.p0 == t.p0 && q.token == p.token && (Follows(env, t) ==> Follows(env, trail))
    }

    /** It has done one operation since, and the step model one step with this choice. */
    ghost predicate Onto(t: Trail, c: Choice, p: Proc, q: Proc)
      reads this
    {
      On(q) && SameCall(t, p, q) && trail.cs == t.cs + [c]
    }

    ghost method Took(q: Proc, c: Choice)
      modifies this`trail
      requires Step(env, trail.w, trail.p, c) == (View(), q) && q.token == trail.p.token
      ensures Onto(old(trail), c, old(trail).p, q)
    {
      if Follows(env, trail) { Onward(env, trail, c, View(), q); }
      trail := Trail(trail.w0, trail.p0, trail.cs + [c], View(), q);
    }

    /** Re-reads the notes and takes the bytes to keep. */
    method Reread(p: Proc, c: Choice) returns (q: Proc)
      modifies this`trail
      requires On(p) && p.pc.Admit?
      ensures Onto(old(trail), c, p, q) && (q.Over() || q.pc == MakeRecord)
    {
      var d := Disk(vault, inbox, temps, records, unreadable, strays);
      var problem, kept := NoteProblem(env, d, p.token.plan), KeptBytes(d, p);
      if c.Die? {
        q := p.To(Dead);
      } else if !c.Go? {
        q := p.Stop(Refused(if c.Refuse? then c.why else CandidateFailure));
      } else if problem.Some? && problem != Some(MissingError(p.token.plan)) && problem != Some(NoteUnreadable) {
        q := p.Stop(Refused(problem.value));
      } else if problem.Some? || kept.None? {
        q := p.Stop(Refused(CandidateFailure));
      } else {
        q := p.(pc := MakeRecord, kept := kept.value);
      }
      Took(q, c);
    }

    /** The exclusive `mkdir` of the record. */
    method MakeRecordDirectory(p: Proc, c: Choice) returns (q: Proc)
      modifies this`records, this`log, this`trail
      requires On(p) && p.pc.MakeRecord?
      ensures Onto(old(trail), c, p, q) && (q.Over() || q.pc == Backup)
    {
      if c.Die? {
        q := p.To(Dead);
      } else if !c.Go? {
        q := p.Stop(Refused(CandidateFailure));
      } else if p.token in records {
        q := p.Stop(Refused(ProductionRecoveryOrTargetExists));
      } else {
        records := records[p.token := EMPTY_RECORD];
        log := log + [Event.Opened(p.token)];
        q := p.To(Backup);
      }
      Took(q, c);
    }

    /** The kept bytes, exclusively created: a crash may leave their beginning. */
    method WriteKept(p: Proc, c: Choice) returns (q: Proc)
      modifies this`records, this`trail
      requires On(p) && p.pc.Backup?
      ensures Onto(old(trail), c, p, q) && (q.Over() || q.pc == WriteManifest)
    {
      q := Broken(p, c, p.started);
      if p.token in records {
        var rec, name, left := records[p.token], BackupName(p.token.plan.Act()), Extent(c);
        if !left.NoFile? {
          rec := rec.(artifacts := rec.artifacts[name := if left.Part? then Cut(p.kept, left.n) else p.kept]);
        }
        records := records[p.token := rec];
        if c.Go? {
          q := p.To(WriteManifest);
        }
      }
      Took(q, c);
    }

    /** The manifest, renamed into place whole or not at all. */
    method PutManifest(p: Proc, c: Choice) returns (q: Proc)
      modifies this`records, this`trail
      requires On(p) && (p.pc.WriteManifest? || p.pc.CommitManifest?)
      ensures Onto(old(trail), c, p, q) && (q.Over() || q.pc == (if p.pc.WriteManifest? then WriteReceipt else CommitReceipt))
    {
      q := Broken(p, c, p.started);
      if p.token in records {
        var rec := records[p.token];
        if Extent(c).Full? {
          var phase := if p.pc.WriteManifest? then Prepared else Committed;
          rec := rec.(manifest := Some(Manifest(phase, p.token, BodyOf(p.token.plan))));
        }
        records := records[p.token := rec];
        if c.Go? {
          q := p.To(if p.pc.WriteManifest? then WriteReceipt else CommitReceipt);
        }
      }
      Took(q, c);
    }

    /** The prepared receipt, exclusively created. */
    method WriteReceiptPrepared(p: Proc, c: Choice) returns (q: Proc)
      modifies this`records, this`trail
      requires On(p) && p.pc.WriteReceipt?
      ensures Onto(old(trail), c, p, q) && (q.Over() || q.pc == Consume)
    {
      q := Broken(p, c, p.started);
      if p.token in records {
        var rec, plan := records[p.token], p.token.plan;
        if Extent(c).Part? {
          rec := rec.(receipt := Some(TornReceipt));
        } else if Extent(c).Full? {
          var receipt := Receipt(
            p.token, plan, p.Approval(), BackupName(plan.Act()), ReceiptBackupSha(p), Prepared, OriginOf(plan));
          rec := rec.(receipt := Some(Whole(receipt)));
        }
        records := records[p.token := rec];
        if c.Go? {
          q := p.To(Consume);
        }
      }
      Took(q, c);
    }

    /** `_commit_candidate_receipt`: only a readable prepared receipt is committed. */
    method CommitReceiptFile(p: Proc, c: Choice) returns (q: Proc)
      modifies this`records, this`trail
      requires On(p) && p.pc.CommitReceipt?
      ensures Onto(old(trail), c, p, q) && q.Over()
    {
      q := Broken(p, c, p.started);
      if p.token in records {
        var rec := records[p.token];
        var readable := rec.receipt.Some? && rec.receipt.value.Whole? && rec.receipt.value.receipt.phase == Prepared;
        if readable && Extent(c).Full? {
          rec := rec.(receipt := Some(Whole(rec.receipt.value.receipt.(phase := Committed))));
        }
        records := records[p.token := rec];
        if readable && c.Go? {
          q := p.Stop(Outcome(true, NoError, true, false));
        }
      }
      Took(q, c);
    }

    /** `_candidate_mark_consumed`. */
    method MarkConsumed(p: Proc, c: Choice) returns (q: Proc)
      modifies this`mem, this`trail
      requires On(p) && p.pc.Consume?
      ensures Onto(old(trail), c, p, q)
      ensures q.Over() || q.pc == (if Replaces(p.token.plan) then StageFile else if p.token.plan.MoveDraft? then Probe else Protect)
    {
      if !c.Go? {
        q := Broken(p, c, false);
      } else if p.token in mem.consumed {
        q := p.Stop(Refused(PlanAlreadyConsumed));
      } else {
        mem := mem.(consumed := mem.consumed + {p.token});
        q := p.To(if Replaces(p.token.plan) then StageFile else if p.token.plan.MoveDraft? then Probe else Protect);
      }
      Took(q, c);
    }

    /** Writes the replacement next to its target. */
    method StageReplacement(p: Proc, c: Choice) returns (q: Proc)
      modifies this`temps, this`trail
      requires On(p) && p.pc.StageFile?
      ensures Onto(old(trail), c, p, q) && (q.Over() || q.pc == Protect)
    {
      if c.Go? {
        temps := temps[p.token := p.proposed];
        q := p.To(Protect);
      } else if c.Die? {
        if c.left.Part? {
          temps := temps[p.token := Cut(p.proposed, c.left.n)];
        }
        q := p.To(Dead);
      } else {
        temps := temps - {p.token};
        q := Broken(p, c, false);
      }
      Took(q, c);
    }

    ghost method Log(p: Proc, place: Place, before: Option<Text>, after: Option<Text>)
      modifies this`log
      ensures log == old(log) + [Changed(p.key, p.token, place, before, after)]
    {
      log := log + [Changed(p.key, p.token, place, before, after)];
    }

    /** Final hash check, then the atomic replacement; the temporary file is gone afterwards either way. */
    method ReplaceFile(p: Proc, c: Choice) returns (q: Proc)
      modifies this`vault, this`temps, this`log
      requires p.pc.Protect? && Replaces(p.token.plan)
      ensures (View(), q) == ProtectStep(old(View()), p, c)
    {
      var plan, target, staged := p.token.plan, p.token.plan.target, p.token in temps;
      var replacement := if staged then temps[p.token] else "";
      if !c.Die? {
        temps := temps - {p.token};
      }
      if c.Refuse? {
        q := p.Stop(Outcome(false, if plan.EditNote? then TargetFileIdChanged else RestoreTargetFileIdChanged, false, true));
      } else if target !in vault {
        q := Broken(p, c, false);
      } else if Some(Sha256(vault[target])) != Expected(plan) {
        q := if c.Die? then p.To(Dead) else p.Stop(Outcome(false, LateError(plan), false, true));
      } else {
        q := p.(started := !Extent(c).NoFile?, wrote := Extent(c).Full? && staged);
        if Extent(c).Full? && staged {
          Log(p, InVault(target), Some(vault[target]), Some(replacement));
          vault := vault[target := replacement];
        }
        q := if c.Go? && staged then q.To(Verify) else Broken(q, c, q.started);
      }
    }

    method ReplaceTarget(p: Proc, c: Choice) returns (q: Proc)
      modifies this`vault, this`temps, this`log, this`trail
      requires On(p) && p.pc.Protect? && Replaces(p.token.plan)
      ensures Onto(old(trail), c, p, q) && (q.Over() || q.pc == Verify)
    {
      ghost var w := View();
      q := ReplaceFile(p, c);
      ProtectIsStep(env, w, p, c);
      Took(q, c);
    }

    /** Final hash check, then the unlink. */
    method DeleteTarget(p: Proc, c: Choice) returns (q: Proc)
      modifies this`vault, this`log, this`trail
      requires On(p) && p.pc.Protect? && p.token.plan.DeleteNote?
      ensures Onto(old(trail), c, p, q) && (q.Over() || q.pc == Verify)
    {
      var plan, target := p.token.plan, p.token.plan.target;
      if target !in vault {
        q := Broken(p, c, false);
      } else if Sha256(vault[target]) != plan.targetSha {
        q := if c.Die? then p.To(Dead) else p.Stop(Outcome(false, DeleteTargetChangedBeforeDelete, false, true));
      } else {
        q := p.(started := !Extent(c).NoFile?, wrote := Extent(c).Full?);
        if Extent(c).Full? {
          Log(p, InVault(target), Some(vault[target]), None);
          vault := vault - {target};
        }
        q := if c.Go? then q.To(Verify) else Broken(q, c, q.started);
      }
      Took(q, c);
    }

    /** An exclusive create in the vault (a move) or in the inbox (a restored source). */
    method CreateNote(p: Proc, c: Choice) returns (q: Proc)
      modifies this`vault, this`inbox, this`log, this`trail
      requires On(p) && p.pc.Protect? && Creates(p.token.plan)
      ensures Onto(old(trail), c, p, q) && (q.Over() || q.pc == (if p.token.plan.MoveDraft? then VerifyCopy else Verify))
    {
      var plan, left := p.token.plan, Extent(c);
      var taken := if plan.MoveDraft? then plan.target in vault else plan.source in inbox;
      if taken {
        q := if c.Die? then p.To(Dead) else p.Stop(Outcome(false, LateError(plan), false, true));
      } else {
        q := p.(started := true, wrote := !left.NoFile?);
        if !left.NoFile? {
          var content := if left.Part? then Cut(p.kept, left.n) else p.kept;
          Log(p, MainPlace(plan), None, Some(content));
          if plan.MoveDraft? {
            vault := vault[plan.target := content];
          } else {
            inbox := inbox[plan.source := content];
          }
        }
        q := if c.Go? then q.To(if plan.MoveDraft? then VerifyCopy else Verify) else Broken(q, c, true);
      }
      Took(q, c);
    }

    method ProbeTarget(p: Proc, c: Choice) returns (q: Proc)
      modifies this`trail
      requires On(p) && p.pc.Probe? && p.token.plan.MoveDraft?
      ensures Onto(old(trail), c, p, q) && (q.Over() || q.pc == Protect)
    {
      if !c.Go? {
        q := Broken(p, c, false);
      } else if p.token.plan.target in vault {
        q := p.Stop(Outcome(false, TargetAlreadyExists, false, true));
      } else {
        q := p.To(Protect);
      }
      Took(q, c);
    }

    /** Removes the source of a move if it still holds the approved bytes. */
    method RemoveSource(p: Proc, c: Choice) returns (q: Proc)
      modifies this`inbox, this`log, this`trail
      requires On(p) && p.pc.Unlink? && p.token.plan.MoveDraft?
      ensures Onto(old(trail), c, p, q) && (q.Over() || q.pc == Verify)
    {
      var source := p.token.plan.source;
      if source !in inbox {
        q := Broken(p, c, p.started);
      } else if Sha256(inbox[source]) != p.token.plan.sourceSha {
        q := if c.Die? then p.To(Dead) else p.Stop(Outcome(false, SourceChangedBeforeDelete, true, true));
      } else {
        if Extent(c).Full? {
          Log(p, InInbox(source), Some(inbox[source]), None);
          inbox := inbox - {source};
        }
        q := if c.Go? then p.To(Verify) else Broken(p, c, p.started);
      }
      Took(q, c);
    }

    /** The check after a write. */
    method CheckResult(p: Proc, c: Choice) returns (q: Proc)
      modifies this`trail
      requires On(p) && (p.pc.VerifyCopy? || p.pc.Verify?)
      ensures Onto(old(trail), c, p, q) && (q.Over() || q.pc == (if p.pc.VerifyCopy? then Unlink else CommitManifest))
    {
      var d, plan := Disk(vault, inbox, temps, records, unreadable, strays), p.token.plan;
      var current := At(d, MainPlace(plan));
      var unreadable, asPromised := Promised(plan).Some? && current.None?, ShaOf(current) == Promised(plan);
      if !c.Go? {
        q := Broken(p, c, p.started);
      } else if p.pc.Verify? && plan.MoveDraft? && plan.source in inbox {
        q := p.Stop(Outcome(false, MismatchError(plan), true, true));
      } else if unreadable {
        q := Broken(p, c, p.started);
      } else if asPromised {
        q := p.To(if p.pc.VerifyCopy? then Unlink else CommitManifest);
      } else {
        q := p.Stop(Outcome(false, if p.pc.VerifyCopy? then TargetHashMismatch else MismatchError(plan), true, true));
      }
      Took(q, c);
    }

    /** The write of an edit, a delete or a restore. */
    method ChangeOne(p1: Proc, faults: Faults) returns (p: Proc)
      modifies this
      requires On(p1) && !p1.token.plan.MoveDraft? && p1.pc == (if Replaces(p1.token.plan) then StageFile else Protect)
      ensures On(p) && SameCall(old(trail), p1, p) && (p.Over() || p.pc == Verify)
    {
      p := p1;
      if Replaces(p.token.plan) {
        p := StageReplacement(p, faults(StageFile));
        if p.Over() { return; }
        p := ReplaceTarget(p, faults(Protect));
      } else if p.token.plan.DeleteNote? {
        p := DeleteTarget(p, faults(Protect));
      } else {
        p := CreateNote(p, faults(Protect));
      }
    }

    /** The two writes of a move. */
    method CopyAndRemove(p1: Proc, faults: Faults) returns (p: Proc)
      modifies this
      requires On(p1) && p1.pc.Probe? && p1.token.plan.MoveDraft?
      ensures On(p) && SameCall(old(trail), p1, p) && (p.Over() || p.pc == Verify)
    {
      p := ProbeTarget(p1, faults(Probe));
      if p.Over() { return; }
      p := CreateNote(p, faults(Protect));
      if p.Over() { return; }
      p := CheckResult(p, faults(VerifyCopy));
      if p.Over() { return; }
      p := RemoveSource(p, faults(Unlink));
    }

    /** From the re-read to the consumed plan. */
    method Prepare(p0: Proc, faults: Faults) returns (p: Proc)
      modifies this
      requires On(p0) && p0.pc.Admit?
      ensures On(p) && SameCall(old(trail), p0, p)
      ensures p.Over() || p.pc == (if Replaces(p.token.plan) then StageFile else if p.token.plan.MoveDraft? then Probe else Protect)
    {
      p := Reread(p0, faults(Pc.Admit));
      if p.Over() { return; }
      p := MakeRecordDirectory(p, faults(MakeRecord));
      if p.Over() { return; }
      p := WriteKept(p, faults(Backup));
      if p.Over() { return; }
      p := PutManifest(p, faults(WriteManifest));
      if p.Over() { return; }
      p := WriteReceiptPrepared(p, faults(WriteReceipt));
      if p.Over() { return; }
      p := MarkConsumed(p, faults(Consume));
    }

    /** The last check and the two commits. */
    method Commit(p1: Proc, faults: Faults) returns (p: Proc)
      modifies this
      requires On(p1) && p1.pc == Verify
      ensures On(p) && SameCall(old(trail), p1, p) && p.Over()
    {
      p := CheckResult(p1, faults(Verify));
      if p.Over() { return; }
      p := PutManifest(p, faults(CommitManifest));
      if p.Over() { return; }
      p := CommitReceiptFile(p, faults(CommitReceipt));
    }

    /**
     The protected part of `_execute_production_plan_candidate`. Whatever faults it meets, it is a run of the
     step model to its end, and the record it leaves tells the truth about the notes.
     */
    method Execute(c: Cached, approval: Evidence, faults: Faults) returns (outcome: Option<Outcome>)
      modifies this
      ensures exists cs :: Concluded(env, old(View()), CallFor(c, approval), cs, View(), outcome)
      ensures Effective(c.plan) && SummaryOk(c) && c.Token() !in old(records) ==>
        match Inspect(View().disk, c.Token())
        case Unreadable(_) => vault == old(vault) && inbox == old(inbox)
        case Inspected(action, phase, kind, _) =>
          action == c.plan.Act() && ClassMeans(old(View()).disk, View(), trail.p, phase, kind)
    {
      ghost var w0 := View();
      var p := CallFor(c, approval);
      ghost var p0 := p;
      trail := Trail(w0, p, [], w0, p);
      assert Follows(env, trail);
      p := Prepare(p, faults);
      if !p.Over() {
        if p.token.plan.MoveDraft? {
          p := CopyAndRemove(p, faults);
        } else {
          p := ChangeOne(p, faults);
        }
      }
      if !p.Over() {
        p := Commit(p, faults);
      }
      outcome := if p.pc.Finished? then Some(p.pc.outcome) else None;
      assert Concluded(env, w0, p0, trail.cs, View(), outcome);
      if Fresh(w0, p0) && Effective(c.plan) {
        RecordTellsTheTruth(env, w0, p0, trail.cs);
      }
    }
  }

  /** The call followed these choices to an end: this result, or none when the process died. */
  ghost predicate Concluded(env: Env, w0: World, p0: Proc, cs: seq<Choice>, w: World, outcome: Option<Outcome>) {
    var (w', p') := Alone(env, w0, p0, cs);
    w' == w && p'.Over() && outcome == if p'.pc.Finished? then Some(p'.pc.outcome) else None
  }
}
