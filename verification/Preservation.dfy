/**
 Every happening keeps the invariant of the system, by what a step does to its own thread, to the other
 threads, to the records and to the log.
 */
module Preservation {
  import opened Wrappers
  import opened VaultModel
  import opened Recovery
  import opened Executor
  import opened System
  import opened StepForms

  // ---------- Records ----------

  /** The stage a record is at after its owner's current write got as far as `left`. */
  function Reaches(pc: Pc, left: Left): Stage
    requires Owns(pc)
  {
    match pc
    case Backup => if left.NoFile? then Stage.Opened else if left.Part? then BackupTorn(left.n) else BackedUp
    case WriteManifest => if left.Full? then ManifestReady else BackedUp
    case WriteReceipt => if left.NoFile? then ManifestReady else if left.Part? then ReceiptTorn else ReceiptReady
    case CommitManifest => if left.Full? then ManifestDone else ReceiptReady
    case CommitReceipt => if left.Full? then ReceiptDone else ManifestDone
    case _ => ReceiptReady
  }

  lemma ReceiptShaIsKept(p: Proc)
    requires SummaryOk(p.Entry()) && Sha256(p.kept) == KeptSha(BodyOf(p.token.plan))
    ensures ReceiptBackupSha(p) == Sha256(p.kept)
  {
  }

  lemma RecordAdvances(p: Proc, left: Left)
    requires Recording(p.pc) || p.pc.CommitManifest? || p.pc.CommitReceipt?
    requires SummaryOk(p.Entry()) && Sha256(p.kept) == KeptSha(BodyOf(p.token.plan))
    ensures RecordWrite(p, RecordAt(p.token.plan, p.kept, p.Approval(), StageOf(p.pc)), left)
      == RecordAt(p.token.plan, p.kept, p.Approval(), Reaches(p.pc, left))
  {
    ReceiptShaIsKept(p);
  }

  lemma RecordIsSound(env: Env, w: World, p: Proc, stage: Stage)
    requires Consistent(env) && Authorised(env, w, p) && SummaryOk(p.Entry())
    requires Sha256(p.kept) == KeptSha(BodyOf(p.token.plan))
    ensures Sound(env, p.token, RecordAt(p.token.plan, p.kept, p.Approval(), stage))
  {
    assert env.accepts(p.token.plan, env.render(p.Entry()));
  }

  lemma EmptyIsSound(env: Env, token: Token)
    ensures Sound(env, token, EMPTY_RECORD)
  {
  }

  /** A step leaves every record sound. */
  lemma StepKeepsSound(env: Env, w: World, p: Proc, c: Choice)
    requires Consistent(env) && AllSound(env, w) && ProcOk(env, w, p)
    ensures AllSound(env, Step(env, w, p, c).0)
  {
    var (w', p') := Step(env, w, p, c);
    StepIsLocal(env, w, p, c);
    if Recording(p.pc) || p.pc.CommitManifest? || p.pc.CommitReceipt? {
      RecordKeepsSound(env, w, p, c);
    } else if Owns(p.pc) {
      QuietRecord(env, w, p, c);
    } else if p.pc.MakeRecord? {
      EmptyIsSound(env, p.token);
    } else {
      GateKeepsDisk(env, w, p, c);
    }
  }

  lemma RecordKeepsSound(env: Env, w: World, p: Proc, c: Choice)
    requires Consistent(env) && AllSound(env, w) && ProcOk(env, w, p)
    requires Recording(p.pc) || p.pc.CommitManifest? || p.pc.CommitReceipt?
    ensures AllSound(env, RecordStep(w, p, c).0)
  {
    RecordAdvances(p, Extent(c));
    RecordIsSound(env, w, p, Reaches(p.pc, Extent(c)));
  }

  lemma QuietRecord(env: Env, w: World, p: Proc, c: Choice)
    requires Owns(p.pc) && !Recording(p.pc) && !p.pc.CommitManifest? && !p.pc.CommitReceipt?
    ensures Step(env, w, p, c).0.disk.records == w.disk.records
  {
    match p.pc
    case Consume =>
    case StageFile =>
    case Probe =>
    case Protect =>
    case VerifyCopy =>
    case Unlink =>
    case Verify =>
  }

  lemma AskKeepsDisk(env: Env, w: World, p: Proc, c: Choice)
    requires p.pc.Ask?
    ensures AskStep(env, w, p, c).0.disk == w.disk && !Owns(AskStep(env, w, p, c).1.pc)
  {
  }

  lemma AwaitKeepsDisk(env: Env, w: World, p: Proc, c: Choice)
    requires p.pc.Await?
    ensures AwaitStep(env, w, p, c).0.disk == w.disk && !Owns(AwaitStep(env, w, p, c).1.pc)
  {
  }

  lemma GateKeepsDisk(env: Env, w: World, p: Proc, c: Choice)
    requires !Owns(p.pc) && !p.pc.MakeRecord?
    ensures Step(env, w, p, c).0.disk == w.disk && !Owns(Step(env, w, p, c).1.pc)
  {
    if p.pc.Ask? { AskKeepsDisk(env, w, p, c); }
    else if p.pc.Await? { AwaitKeepsDisk(env, w, p, c); }
    else { ThoughtKeepsDisk(env, w, p, c); }
  }

  lemma ThoughtKeepsDisk(env: Env, w: World, p: Proc, c: Choice)
    requires !Owns(p.pc) && !p.pc.MakeRecord? && !p.pc.Ask? && !p.pc.Await?
    ensures Step(env, w, p, c).0.disk == w.disk && !Owns(Step(env, w, p, c).1.pc)
  {
    match p.pc
    case Inventory => InventoryKeeps(env, w, p, c, Lookup);
    case Lookup => LookupKeeps(w, p, c);
    case Revalidate => RevalidateKeeps(env, w, p, c);
    case Reinventory => InventoryKeeps(env, w, p, c, Admit);
    case Admit => AdmitKeeps(env, w, p, c);
    case Finished(_) =>
    case Dead =>
  }

  // ---------- Other threads ----------

  lemma LogMembers(w: World, p: Proc, w': World, p': Proc)
    requires LocalLog(w, p, w', p')
    ensures forall e :: e in w.log ==> e in w'.log
    ensures forall e :: e in w'.log ==> e in w.log || e == Event.Opened(p.token) || (OwnChange(e, p) && Owns(p.pc))
  {
  }

  lemma OthersStayApart(env: Env, w: World, p: Proc, q: Proc, w': World, p': Proc)
    requires ProcOk(env, w, p) && ProcOk(env, w, q) && Apart(p, q) && Local(w, p, w', p')
    ensures Apart(p', q)
  {
  }

  lemma OthersKeepRecord(env: Env, w: World, p: Proc, q: Proc, w': World, p': Proc)
    requires ProcOk(env, w, p) && ProcOk(env, w, q) && Apart(p, q) && Local(w, p, w', p')
    requires Owns(q.pc) || (q.pc.Finished? && q.pc.outcome.success)
    ensures q.token in w.disk.records && q.token in w'.disk.records && w'.disk.records[q.token] == w.disk.records[q.token]
    ensures Owns(q.pc) && q.token in w.disk.temps ==> q.token in w'.disk.temps && w'.disk.temps[q.token] == w.disk.temps[q.token]
  {
  }

  lemma OthersKeepLog(env: Env, w: World, p: Proc, q: Proc, w': World, p': Proc)
    requires ProcOk(env, w, p) && ProcOk(env, w, q) && Apart(p, q) && Local(w, p, w', p')
    ensures q.wrote <==> exists e :: e in w'.log && Carries(e, q.key) && e.token == q.token
    ensures Unused(w.log, q.key) ==> Unused(w'.log, q.key)
    ensures OwnKey(w', q)
    ensures Owns(q.pc) && Untouched(w.log, q.token) ==> Untouched(w'.log, q.token)
    ensures Owns(q.pc) && OnlyMine(w, q) ==> OnlyMine(w', q)
  {
    LogMembers(w, p, w', p');
    assert Owns(p.pc) ==> p.key > 0;
  }

  lemma OthersKeepApproval(env: Env, w: World, p: Proc, q: Proc, w': World, p': Proc)
    requires ProcOk(env, w, p) && ProcOk(env, w, q) && Apart(p, q) && Local(w, p, w', p')
    ensures ApprovalPart(env, w', q)
  {
    LogMembers(w, p, w', p');
  }

  lemma OthersKeep(env: Env, w: World, p: Proc, q: Proc, w': World, p': Proc)
    requires ProcOk(env, w, p) && ProcOk(env, w, q) && Apart(p, q) && Local(w, p, w', p')
    ensures ProcOk(env, w', q)
  {
    OthersKeepApproval(env, w, p, q, w', p');
    OthersKeepLog(env, w, p, q, w', p');
    if Owns(q.pc) || (q.pc.Finished? && q.pc.outcome.success) {
      OthersKeepRecord(env, w, p, q, w', p');
    }
  }

  // ---------- The thread itself ----------

  lemma LogFacts(env: Env, w: World)
    requires LogOk(env, w)
    ensures forall e :: e in w.log && e.Changed? ==> 0 < e.key < w.nextKey && e.token in w.disk.records
  {
    forall e | e in w.log && e.Changed? ensures 0 < e.key < w.nextKey && e.token in w.disk.records {
      var i :| 0 <= i < |w.log| && w.log[i] == e;
      assert EntryOk(env, w, i);
    }
  }

  /** How a call may end: it never denies a change, and what it says of a success is true. */
  ghost predicate HonestEnd(w: World, p: Proc, c: Choice, p': Proc) {
    && (p'.pc.Finished? && p'.wrote ==> p'.pc.outcome.mutated)
    && (p'.pc.Finished? && p'.pc.outcome.success ==>
      p.pc.CommitReceipt? && c.Go? && p'.wrote && p'.pc.outcome.mutated && !p'.pc.outcome.recovery)
  }

  lemma EarlyEndIsHonest(env: Env, w: World, p: Proc, c: Choice)
    requires !Owns(p.pc) && !p.Over() && !p.wrote
    ensures HonestEnd(w, p, c, Step(env, w, p, c).1)
  {
    match p.pc
    case Inventory =>
    case Lookup =>
    case Ask =>
    case Await =>
    case Revalidate =>
    case Reinventory =>
    case Admit =>
    case MakeRecord =>
  }

  lemma SetupEndIsHonest(env: Env, w: World, p: Proc, c: Choice)
    requires (Recording(p.pc) || Armed(p.pc)) && !p.wrote
    ensures HonestEnd(w, p, c, Step(env, w, p, c).1)
  {
    match p.pc
    case Backup => RecordForm(w, p, c);
    case WriteManifest => RecordForm(w, p, c);
    case WriteReceipt => RecordForm(w, p, c);
    case Consume =>
    case StageFile =>
    case Probe =>
    case Protect =>
  }

  lemma WriterEndIsHonest(env: Env, w: World, p: Proc, c: Choice)
    requires Writing(p.pc) && p.wrote && p.started
    ensures HonestEnd(w, p, c, Step(env, w, p, c).1)
  {
    match p.pc
    case VerifyCopy =>
    case Unlink =>
    case Verify =>
    case CommitManifest =>
    case CommitReceipt =>
  }

  lemma EndIsHonest(env: Env, w: World, p: Proc, c: Choice)
    requires !p.Over() && (p.wrote ==> p.started) && (p.wrote <==> Writing(p.pc))
    ensures HonestEnd(w, p, c, Step(env, w, p, c).1)
  {
    if Writing(p.pc) { WriterEndIsHonest(env, w, p, c); }
    else if Owns(p.pc) { SetupEndIsHonest(env, w, p, c); }
    else { EarlyEndIsHonest(env, w, p, c); }
  }

  lemma EndedOk(env: Env, w: World, p: Proc, c: Choice, w': World, p': Proc)
    requires ProcOk(env, w, p) && Local(w, p, w', p') && HonestEnd(w, p, c, p') && p'.Over() && p'.key == p.key
    requires p'.pc.Finished? && p'.pc.outcome.success ==> p.token in w'.disk.records && Settled(w'.disk.records[p.token])
    ensures ProcOk(env, w', p')
  {
    LogMembers(w, p, w', p');
  }

  lemma InventoryGoesOn(env: Env, w: World, p: Proc, c: Choice, next: Pc)
    requires ProcOk(env, w, p) && !InventoryStep(env, w, p, c, next).Over()
    requires (p.pc.Inventory? && next.Lookup?) || (p.pc.Reinventory? && next.Admit?)
    ensures ProcOk(env, w, InventoryStep(env, w, p, c, next))
  {
    assert InventoryStep(env, w, p, c, next) == p.To(next);
  }

  lemma RevalidateGoesOn(env: Env, w: World, p: Proc, c: Choice)
    requires ProcOk(env, w, p) && p.pc.Revalidate? && !RevalidateStep(env, w, p, c).Over()
    ensures ProcOk(env, w, RevalidateStep(env, w, p, c))
  {
    assert RevalidateStep(env, w, p, c) == p.To(Reinventory);
  }

  lemma LookupGoesOn(env: Env, w: World, p: Proc, c: Choice)
    requires ProcOk(env, w, p) && p.pc.Lookup? && AttemptsOk(w) && !LookupStep(w, p, c).Over()
    ensures ProcOk(env, w, LookupStep(w, p, c))
  {
  }

  lemma AskGoesOn(env: Env, w: World, p: Proc, c: Choice)
    requires ProcOk(env, w, p) && p.pc.Ask? && AttemptsOk(w) && LogOk(env, w) && !AskStep(env, w, p, c).1.Over()
    ensures var (w', p') := AskStep(env, w, p, c); ProcOk(env, w', p')
  {
    LogFacts(env, w);
  }

  lemma AwaitGoesOn(env: Env, w: World, p: Proc, c: Choice)
    requires ProcOk(env, w, p) && p.pc.Await? && !AwaitStep(env, w, p, c).1.Over()
    ensures var (w', p') := AwaitStep(env, w, p, c); ProcOk(env, w', p')
  {
  }

  /** The re-read admits only bytes whose hash the plan names. */
  lemma AdmittedBytes(env: Env, d: Disk, p: Proc)
    requires SummaryOk(p.Entry()) && NoteProblem(env, d, p.token.plan).None? && KeptBytes(d, p).Some?
    ensures Sha256(KeptBytes(d, p).value) == KeptSha(BodyOf(p.token.plan))
  {
  }

  lemma AdmitGoesOn(env: Env, w: World, p: Proc, c: Choice)
    requires ProcOk(env, w, p) && p.pc.Admit? && !AdmitStep(env, w, p, c).Over()
    ensures ProcOk(env, w, AdmitStep(env, w, p, c))
  {
    AdmittedBytes(env, w.disk, p);
  }

  lemma MakeRecordGoesOn(env: Env, w: World, p: Proc, c: Choice)
    requires ProcOk(env, w, p) && p.pc.MakeRecord? && LogOk(env, w) && !MakeRecordStep(w, p, c).1.Over()
    ensures var (w', p') := MakeRecordStep(w, p, c); ProcOk(env, w', p')
  {
    LogFacts(env, w);
  }

  /** An approved thread carries its decision as long as the log keeps it. */
  lemma ApprovalStays(env: Env, w: World, p: Proc, w': World, p': Proc)
    requires ApprovalPart(env, w, p) && Owns(p.pc) && Owns(p'.pc) && SameJob(p, p')
    requires w.nextKey <= w'.nextKey && forall e :: e in w.log ==> e in w'.log
    ensures ApprovalPart(env, w', p')
  {
  }

  /** Before the protected write and after it, an owner that logs nothing stands as it did. */
  predicate SamePhase(pc: Pc, next: Pc) {
    || ((Recording(pc) || Armed(pc)) && (Recording(next) || Armed(next)))
    || (Writing(pc) && Writing(next) && (next.VerifyCopy? || next.Unlink? ==> pc.VerifyCopy? || pc.Unlink?))
  }

  lemma LogPartStays(w: World, p: Proc, w': World, p': Proc)
    requires LogPart(w, p) && Unmoved(w, p, w', p') && SamePhase(p.pc, p'.pc)
    ensures LogPart(w', p')
  {
  }

  /** So only its record is left to look at. */
  lemma OwnerGoesOn(env: Env, w: World, p: Proc, w': World, p': Proc)
    requires ProcOk(env, w, p) && Unmoved(w, p, w', p') && SamePhase(p.pc, p'.pc) && RecordPart(w', p')
    ensures ProcOk(env, w', p')
  {
    ApprovalStays(env, w, p, w', p');
    LogPartStays(w, p, w', p');
  }

  lemma RecordHeld(env: Env, w: World, p: Proc, w': World, p': Proc)
    requires ProcOk(env, w, p) && (Recording(p.pc) || p.pc.CommitManifest?) && p' == p.To(AfterWrite(p))
    requires w'.disk == Put(w.disk, p.token, RecordWrite(p, w.disk.records[p.token], Full))
    ensures RecordPart(w', p')
  {
    RecordAdvances(p, Full);
  }

  lemma RecordGoesOn(env: Env, w: World, p: Proc, c: Choice)
    requires ProcOk(env, w, p) && (Recording(p.pc) || p.pc.CommitManifest?) && !RecordStep(w, p, c).1.Over()
    ensures var (w', p') := RecordStep(w, p, c); ProcOk(env, w', p')
  {
    var (w', p') := RecordStep(w, p, c);
    RecordForm(w, p, c);
    RecordPut(w, p, c);
    RecordHeld(env, w, p, w', p');
    OwnerGoesOn(env, w, p, w', p');
  }

  /** A thread that succeeds leaves a committed receipt. */
  lemma SuccessIsSettled(env: Env, w: World, p: Proc)
    requires ProcOk(env, w, p) && p.pc.CommitReceipt?
    ensures var (w', p') := RecordStep(w, p, Go); p.token in w'.disk.records && Settled(w'.disk.records[p.token])
  {
    RecordAdvances(p, Full);
  }

  /** The record stays as it is between its receipt and its commit. */
  lemma HeldStill(env: Env, w: World, p: Proc, w': World, p': Proc)
    requires ProcOk(env, w, p) && Owns(p.pc) && Owns(p'.pc) && SameJob(p, p')
    requires StageOf(p.pc) == StageOf(p'.pc) && w'.disk.records == w.disk.records
    requires p'.pc.Protect? && Replaces(p.token.plan) ==> p.token in w'.disk.temps && w'.disk.temps[p.token] == p.proposed
    requires p'.pc.Probe? || p'.pc.VerifyCopy? || p'.pc.Unlink? ==> p.token.plan.MoveDraft?
    ensures RecordPart(w', p')
  {
  }

  lemma ConsumeGoesOn(env: Env, w: World, p: Proc, c: Choice)
    requires ProcOk(env, w, p) && p.pc.Consume? && !ConsumeStep(w, p, c).1.Over()
    ensures var (w', p') := ConsumeStep(w, p, c); ProcOk(env, w', p')
  {
    var (w', p') := ConsumeStep(w, p, c);
    ConsumeForm(w, p, c);
    HeldStill(env, w, p, w', p');
    OwnerGoesOn(env, w, p, w', p');
  }

  lemma StageGoesOn(env: Env, w: World, p: Proc, c: Choice)
    requires ProcOk(env, w, p) && p.pc.StageFile? && !StageStep(w, p, c).1.Over()
    ensures var (w', p') := StageStep(w, p, c); ProcOk(env, w', p')
  {
    var (w', p') := StageStep(w, p, c);
    StageForm(w, p, c);
    HeldStill(env, w, p, w', p');
    OwnerGoesOn(env, w, p, w', p');
  }

  lemma ProbeGoesOn(env: Env, w: World, p: Proc, c: Choice)
    requires ProcOk(env, w, p) && p.pc.Probe? && !ProbeStep(w, p, c).1.Over()
    ensures var (w', p') := ProbeStep(w, p, c); ProcOk(env, w', p')
  {
    var (w', p') := ProbeStep(w, p, c);
    ProbeForm(w, p, c);
    HeldStill(env, w, p, w', p');
    OwnerGoesOn(env, w, p, w', p');
  }

  lemma VerifyGoesOn(env: Env, w: World, p: Proc, c: Choice)
    requires ProcOk(env, w, p) && (p.pc.VerifyCopy? || p.pc.Verify?) && !VerifyStep(w, p, c).1.Over()
    ensures var (w', p') := VerifyStep(w, p, c); ProcOk(env, w', p')
  {
    var (w', p') := VerifyStep(w, p, c);
    VerifyForm(w, p, c);
    HeldStill(env, w, p, w', p');
    OwnerGoesOn(env, w, p, w', p');
  }

  /** What a protected write that happens leaves besides the notes. */
  ghost predicate Performed(w: World, p: Proc, w': World, place: Place, content: Option<Text>) {
    && w'.log == w.log + [Changed(p.key, p.token, place, At(w.disk, place), content)]
    && w'.disk.records == w.disk.records && w'.mem == w.mem && w'.nextKey == w.nextKey
  }

  lemma ProtectPerforms(w: World, p: Proc, c: Choice)
    requires p.pc.Protect? && ProtectStep(w, p, c).0.log != w.log
    ensures var (w', p') := ProtectStep(w, p, c);
      && ShaOf(At(w.disk, MainPlace(p.token.plan))) == Expected(p.token.plan)
      && Written(w.disk, p, Extent(c)).Some?
      && Performed(w, p, w', MainPlace(p.token.plan), Written(w.disk, p, Extent(c)).value)
  {
  }

  lemma ProtectMovesOn(w: World, p: Proc, c: Choice)
    requires p.pc.Protect? && !ProtectStep(w, p, c).1.Over()
    ensures var (w', p') := ProtectStep(w, p, c);
      && w'.log != w.log
      && p' == p.(pc := if p.token.plan.MoveDraft? then VerifyCopy else Verify, started := true, wrote := true)
  {
  }

  lemma PerformedIsMine(env: Env, w: World, p: Proc, w': World, p': Proc, content: Option<Text>)
    requires p.pc.Protect? && ProcOk(env, w, p) && Performed(w, p, w', MainPlace(p.token.plan), content)
    requires p'.token == p.token && p'.key == p.key
    ensures OnlyMine(w', p') && OwnKey(w', p') && exists e :: e in w'.log && Carries(e, p.key) && e.token == p.token
  {
    var e := w'.log[|w.log|];
    assert e in w'.log && Carries(e, p.key) && e.token == p.token;
  }

  lemma PerformedOk(env: Env, w: World, p: Proc, w': World, p': Proc, content: Option<Text>)
    requires ProcOk(env, w, p) && p.pc.Protect? && Performed(w, p, w', MainPlace(p.token.plan), content)
    requires p' == p.(pc := if p.token.plan.MoveDraft? then VerifyCopy else Verify, started := true, wrote := true)
    ensures ProcOk(env, w', p')
  {
    PerformedIsMine(env, w, p, w', p', content);
    ApprovalStays(env, w, p, w', p');
    HeldStill(env, w, p, w', p');
  }

  lemma ProtectGoesOn(env: Env, w: World, p: Proc, c: Choice)
    requires ProcOk(env, w, p) && p.pc.Protect? && !ProtectStep(w, p, c).1.Over()
    ensures var (w', p') := ProtectStep(w, p, c); ProcOk(env, w', p')
  {
    ProtectMovesOn(w, p, c);
    ProtectPerforms(w, p, c);
    var (w', p') := ProtectStep(w, p, c);
    PerformedOk(env, w, p, w', p', Written(w.disk, p, Extent(c)).value);
  }

  lemma UnlinkMovesOn(w: World, p: Proc, c: Choice)
    requires p.pc.Unlink? && p.token.plan.MoveDraft? && !UnlinkStep(w, p, c).1.Over()
    ensures var (w', p') := UnlinkStep(w, p, c);
      p' == p.To(Verify) && Performed(w, p, w', InInbox(p.token.plan.source), None)
  {
  }

  lemma UnlinkedOk(env: Env, w: World, p: Proc, w': World, p': Proc)
    requires ProcOk(env, w, p) && p.pc.Unlink? && p' == p.To(Verify) && Performed(w, p, w', InInbox(p.token.plan.source), None)
    ensures ProcOk(env, w', p')
  {
    var e := w'.log[|w.log|];
    assert forall f :: f in w'.log <==> f in w.log || f == e;
    ApprovalStays(env, w, p, w', p');
    HeldStill(env, w, p, w', p');
    assert LogPart(w', p');
  }

  lemma UnlinkGoesOn(env: Env, w: World, p: Proc, c: Choice)
    requires ProcOk(env, w, p) && p.pc.Unlink? && !UnlinkStep(w, p, c).1.Over()
    ensures var (w', p') := UnlinkStep(w, p, c); ProcOk(env, w', p')
  {
    UnlinkMovesOn(w, p, c);
    var (w', p') := UnlinkStep(w, p, c);
    UnlinkedOk(env, w, p, w', p');
  }

  lemma EarlyThreadOk(env: Env, w: World, p: Proc, c: Choice)
    requires ProcOk(env, w, p) && AttemptsOk(w) && LogOk(env, w) && !Owns(p.pc) && !Step(env, w, p, c).1.Over()
    ensures var (w', p') := Step(env, w, p, c); ProcOk(env, w', p')
  {
    match p.pc
    case Inventory => InventoryGoesOn(env, w, p, c, Lookup);
    case Lookup => LookupGoesOn(env, w, p, c);
    case Ask => AskGoesOn(env, w, p, c);
    case Await => AwaitGoesOn(env, w, p, c);
    case Revalidate => RevalidateGoesOn(env, w, p, c);
    case Reinventory => InventoryGoesOn(env, w, p, c, Admit);
    case Admit => AdmitGoesOn(env, w, p, c);
    case MakeRecord => MakeRecordGoesOn(env, w, p, c);
    case _ =>
  }

  lemma OwnerThreadOk(env: Env, w: World, p: Proc, c: Choice)
    requires ProcOk(env, w, p) && Owns(p.pc) && !Step(env, w, p, c).1.Over()
    ensures var (w', p') := Step(env, w, p, c); ProcOk(env, w', p')
  {
    match p.pc
    case Backup => RecordGoesOn(env, w, p, c);
    case WriteManifest => RecordGoesOn(env, w, p, c);
    case WriteReceipt => RecordGoesOn(env, w, p, c);
    case Consume => ConsumeGoesOn(env, w, p, c);
    case StageFile => StageGoesOn(env, w, p, c);
    case Probe => ProbeGoesOn(env, w, p, c);
    case Protect => ProtectGoesOn(env, w, p, c);
    case VerifyCopy => VerifyGoesOn(env, w, p, c);
    case Unlink => UnlinkGoesOn(env, w, p, c);
    case Verify => VerifyGoesOn(env, w, p, c);
    case CommitManifest => RecordGoesOn(env, w, p, c);
    case _ =>
  }

  lemma EndedThreadOk(env: Env, w: World, p: Proc, c: Choice)
    requires ProcOk(env, w, p) && !p.Over() && Step(env, w, p, c).1.Over()
    ensures var (w', p') := Step(env, w, p, c); ProcOk(env, w', p')
  {
    var (w', p') := Step(env, w, p, c);
    StepIsLocal(env, w, p, c);
    EndIsHonest(env, w, p, c);
    if p.pc.CommitReceipt? && c.Go? { SuccessIsSettled(env, w, p); }
    assert p.pc.Ask? ==> p'.key == p.key;
    EndedOk(env, w, p, c, w', p');
  }

  lemma ThreadOk(env: Env, w: World, p: Proc, c: Choice)
    requires ProcOk(env, w, p) && AttemptsOk(w) && LogOk(env, w)
    ensures var (w', p') := Step(env, w, p, c); ProcOk(env, w', p')
  {
    if p.Over() {
      assert Step(env, w, p, c) == (w, p);
    } else if Step(env, w, p, c).1.Over() {
      EndedThreadOk(env, w, p, c);
    } else if Owns(p.pc) {
      OwnerThreadOk(env, w, p, c);
    } else {
      EarlyThreadOk(env, w, p, c);
    }
  }

  // ---------- The log ----------

  /** Receipts are never forgotten and never change the decision they name. */
  ghost predicate ReceiptsLast(w: World, w': World) {
    forall t, key :: Documented(w, t, key) ==> Documented(w', t, key) && DecidedText(w', t, key) == DecidedText(w, t, key)
  }

  lemma EntriesLast(env: Env, w: World, w': World)
    requires LogOk(env, w) && ReceiptsLast(w, w') && w.log <= w'.log && w.nextKey <= w'.nextKey
    ensures forall i :: 0 <= i < |w.log| ==> EntryOk(env, w', i)
  {
    forall i | 0 <= i < |w.log| ensures EntryOk(env, w', i) {
      assert EntryOk(env, w, i);
      assert w'.log[..i] == w.log[..i];
    }
  }

  lemma RecordStepKeepsReceipts(env: Env, w: World, p: Proc, c: Choice)
    requires ProcOk(env, w, p) && (Recording(p.pc) || p.pc.CommitManifest? || p.pc.CommitReceipt?)
    ensures ReceiptsLast(w, RecordStep(w, p, c).0)
  {
    RecordAdvances(p, Extent(c));
    RecordPut(w, p, c);
  }

  lemma StepKeepsReceipts(env: Env, w: World, p: Proc, c: Choice)
    requires ProcOk(env, w, p)
    ensures ReceiptsLast(w, Step(env, w, p, c).0)
  {
    if Recording(p.pc) || p.pc.CommitManifest? || p.pc.CommitReceipt? {
      RecordStepKeepsReceipts(env, w, p, c);
    } else if Owns(p.pc) {
      QuietRecord(env, w, p, c);
    } else {
      StepIsLocal(env, w, p, c);
    }
  }

  /** The entry an owner adds with its receipt in place. */
  lemma OwnEntryOk(env: Env, w: World, p: Proc, w': World, place: Place, content: Option<Text>)
    requires ProcOk(env, w, p) && (p.pc.Protect? || p.pc.Unlink?) && Performed(w, p, w', place, content)
    requires Faithful(p.token.plan, Changed(p.key, p.token, place, At(w.disk, place), content))
    ensures EntryOk(env, w', |w.log|)
  {
    assert w'.log[..|w.log|] == w.log;
    assert Documented(w', p.token, p.key);
    assert DecidedText(w', p.token, p.key) == p.message == env.render(p.Entry());
  }

  lemma WholeCreateIsPromised(plan: Plan, proposed: Text, kept: Text, diff: Text)
    requires SummaryOk(Cached(plan, diff, proposed)) && Creates(plan) && Sha256(kept) == KeptSha(BodyOf(plan))
    ensures Promised(plan) == Some(Sha256(kept))
  {
  }

  lemma ProtectIsFaithful(env: Env, w: World, p: Proc, c: Choice)
    requires ProcOk(env, w, p) && p.pc.Protect? && Written(w.disk, p, Extent(c)).Some?
    requires ShaOf(At(w.disk, MainPlace(p.token.plan))) == Expected(p.token.plan)
    ensures var place := MainPlace(p.token.plan);
      Faithful(p.token.plan, Changed(p.key, p.token, place, At(w.disk, place), Written(w.disk, p, Extent(c)).value))
  {
    var plan, left := p.token.plan, Extent(c);
    if Creates(plan) {
      WholeCreateIsPromised(plan, p.proposed, p.kept, p.diff);
      if left.Part? {
        assert TornCreate(plan, Some(Cut(p.kept, left.n)));
      }
    }
  }

  lemma UnlinkPerforms(w: World, p: Proc, c: Choice)
    requires p.pc.Unlink? && p.token.plan.MoveDraft? && UnlinkStep(w, p, c).0.log != w.log
    ensures var w', place := UnlinkStep(w, p, c).0, InInbox(p.token.plan.source);
      ShaOf(At(w.disk, place)) == Some(p.token.plan.sourceSha) && Performed(w, p, w', place, None)
  {
  }

  /** A new change pairs with every earlier one. */
  lemma NewPairOk(env: Env, w: World, p: Proc, w': World, place: Place, content: Option<Text>)
    requires LogOk(env, w) && ProcOk(env, w, p) && Performed(w, p, w', place, content)
    requires p.pc.Protect? || (p.pc.Unlink? && place == InInbox(p.token.plan.source))
    ensures forall i :: 0 <= i < |w.log| ==> PairOk(w.log[i], w'.log[|w.log|])
  {
    forall i | 0 <= i < |w.log| ensures PairOk(w.log[i], w'.log[|w.log|]) {
      assert w.log[i] in w.log;
    }
  }

  lemma LogGrows(env: Env, w: World, w': World)
    requires LogOk(env, w) && ReceiptsLast(w, w') && w.nextKey <= w'.nextKey
    requires |w'.log| == |w.log| + 1 && w.log <= w'.log && EntryOk(env, w', |w.log|)
    requires forall i :: 0 <= i < |w.log| ==> PairOk(w.log[i], w'.log[|w.log|])
    requires forall t :: t in w'.disk.records <==> t in w.disk.records || w'.log[|w.log|] == Event.Opened(t)
    ensures LogOk(env, w')
  {
    EntriesLast(env, w, w');
    assert w'.log == w.log + [w'.log[|w.log|]];
  }

  lemma LogStays(env: Env, w: World, w': World)
    requires LogOk(env, w) && ReceiptsLast(w, w') && w.nextKey <= w'.nextKey && w'.log == w.log
    requires w'.disk.records.Keys == w.disk.records.Keys
    ensures LogOk(env, w')
  {
    EntriesLast(env, w, w');
  }

  lemma ProtectKeepsLog(env: Env, w: World, p: Proc, c: Choice)
    requires LogOk(env, w) && ProcOk(env, w, p) && p.pc.Protect? && ProtectStep(w, p, c).0.log != w.log
    ensures LogOk(env, ProtectStep(w, p, c).0)
  {
    var w', place, content := ProtectStep(w, p, c).0, MainPlace(p.token.plan), Written(w.disk, p, Extent(c));
    ProtectPerforms(w, p, c);
    ProtectIsFaithful(env, w, p, c);
    OwnEntryOk(env, w, p, w', place, content.value);
    NewPairOk(env, w, p, w', place, content.value);
    LogGrows(env, w, w');
  }

  lemma UnlinkKeepsLog(env: Env, w: World, p: Proc, c: Choice)
    requires LogOk(env, w) && ProcOk(env, w, p) && p.pc.Unlink? && UnlinkStep(w, p, c).0.log != w.log
    ensures LogOk(env, UnlinkStep(w, p, c).0)
  {
    var w', place := UnlinkStep(w, p, c).0, InInbox(p.token.plan.source);
    UnlinkPerforms(w, p, c);
    OwnEntryOk(env, w, p, w', place, None);
    NewPairOk(env, w, p, w', place, None);
    LogGrows(env, w, w');
  }

  lemma QuietKeepsLog(env: Env, w: World, p: Proc, w': World, p': Proc)
    requires LogOk(env, w) && Local(w, p, w', p') && ReceiptsLast(w, w')
    requires w'.log == w.log || (p.pc.MakeRecord? && w'.log == w.log + [Event.Opened(p.token)])
    ensures LogOk(env, w')
  {
    if w'.log == w.log { LogStays(env, w, w'); } else { LogGrows(env, w, w'); }
  }

  lemma NoteStepKeepsLog(env: Env, w: World, p: Proc, c: Choice)
    requires LogOk(env, w) && ProcOk(env, w, p) && (p.pc.Protect? || p.pc.Unlink?) && Step(env, w, p, c).0.log != w.log
    ensures LogOk(env, Step(env, w, p, c).0)
  {
    if p.pc.Protect? { ProtectKeepsLog(env, w, p, c); } else { UnlinkKeepsLog(env, w, p, c); }
  }

  lemma StepKeepsLog(env: Env, w: World, p: Proc, c: Choice)
    requires LogOk(env, w) && ProcOk(env, w, p)
    ensures LogOk(env, Step(env, w, p, c).0)
  {
    var (w', p') := Step(env, w, p, c);
    if (p.pc.Protect? || p.pc.Unlink?) && w'.log != w.log {
      NoteStepKeepsLog(env, w, p, c);
    } else {
      StepIsLocal(env, w, p, c);
      StepKeepsReceipts(env, w, p, c);
      if w'.log != w.log { OnlyTwoStepsChange(env, w, p, c); }
      QuietKeepsLog(env, w, p, w', p');
    }
  }

  /** Apart from the two that change notes, only making a record is logged. */
  lemma OnlyTwoStepsChange(env: Env, w: World, p: Proc, c: Choice)
    requires !p.pc.Protect? && !p.pc.Unlink? && Step(env, w, p, c).0.log != w.log
    ensures p.pc.MakeRecord? && Step(env, w, p, c).0.log == w.log + [Event.Opened(p.token)]
  {
    match p.pc
    case Ask =>
    case Await =>
    case MakeRecord =>
    case Backup =>
    case WriteManifest =>
    case WriteReceipt =>
    case Consume =>
    case StageFile =>
    case Probe =>
    case VerifyCopy =>
    case Verify =>
    case CommitManifest =>
    case CommitReceipt =>
    case _ =>
  }

  // ---------- Happenings ----------

  lemma StepKeepsAttempts(env: Env, w: World, p: Proc, c: Choice)
    requires AttemptsOk(w) && ProcOk(env, w, p)
    ensures AttemptsOk(Step(env, w, p, c).0)
  {
    StepIsLocal(env, w, p, c);
  }

  lemma TurnKeepsInv(env: Env, s: Sys, pid: nat, c: Choice)
    requires Consistent(env) && Inv(env, s) && pid in s.procs
    ensures Inv(env, Happen(env, s, Turn(pid, c)))
  {
    var p, s' := s.procs[pid], Happen(env, s, Turn(pid, c));
    var (w', p') := Step(env, s.w, p, c);
    assert s' == s.(w := w', procs := s.procs[pid := p']);
    StepIsLocal(env, s.w, p, c);
    StepKeepsAttempts(env, s.w, p, c);
    StepKeepsLog(env, s.w, p, c);
    StepKeepsSound(env, s.w, p, c);
    ThreadOk(env, s.w, p, c);
    TurnKeepsThreads(env, s, pid, w', p');
  }

  lemma TurnKeepsThreads(env: Env, s: Sys, pid: nat, w': World, p': Proc)
    requires Inv(env, s) && pid in s.procs && Local(s.w, s.procs[pid], w', p') && ProcOk(env, w', p')
    ensures var procs := s.procs[pid := p'];
      && (forall q :: q in procs ==> q < s.nextPid && ProcOk(env, w', procs[q]))
      && (forall a, b :: a in procs && b in procs && a != b ==> Apart(procs[a], procs[b]))
  {
    var p := s.procs[pid];
    forall q | q in s.procs && q != pid ensures ProcOk(env, w', s.procs[q]) && Apart(p', s.procs[q]) && Apart(s.procs[q], p') {
      assert Apart(p, s.procs[q]);
      OthersKeep(env, s.w, p, s.procs[q], w', p');
      OthersStayApart(env, s.w, p, s.procs[q], w', p');
    }
  }

  /** Memory and notes may change under a thread; its attempt may only gain a logged decision. */
  ghost predicate Beneath(w: World, w': World) {
    && w'.disk.records == w.disk.records && w'.disk.temps == w.disk.temps && w'.nextKey == w.nextKey
    && w.log <= w'.log
    && (forall i :: |w.log| <= i < |w'.log| ==> w'.log[i].Decided?)
    && (forall k :: k in w'.mem.attempts ==>
      && k in w.mem.attempts
      && w'.mem.attempts[k].description == w.mem.attempts[k].description
      && (w'.mem.attempts[k].once ==> w.mem.attempts[k].once || Decided(k, w.mem.attempts[k].description) in w'.log))
  }

  lemma BeneathMembers(w: World, w': World)
    requires Beneath(w, w')
    ensures forall e :: e in w.log ==> e in w'.log
    ensures forall e :: e in w'.log ==> e in w.log || e.Decided?
  {
    forall e | e in w'.log ensures e in w.log || e.Decided? {
      var i :| 0 <= i < |w'.log| && w'.log[i] == e;
      if i < |w.log| { assert w.log[i] == e; }
    }
  }

  lemma BeneathKeeps(env: Env, w: World, w': World, p: Proc)
    requires ProcOk(env, w, p) && Beneath(w, w')
    ensures ProcOk(env, w', p)
  {
    BeneathMembers(w, w');
  }

  lemma BeneathKeepsLog(env: Env, w: World, w': World)
    requires LogOk(env, w) && Beneath(w, w') && |w'.log| <= |w.log| + 1
    ensures LogOk(env, w')
  {
    if w'.log == w.log {
      LogStays(env, w, w');
    } else {
      assert w'.log == w.log + [w'.log[|w.log|]];
      LogGrows(env, w, w');
    }
  }

  lemma BeneathKeepsInv(env: Env, s: Sys, w': World)
    requires Inv(env, s) && Beneath(s.w, w') && |w'.log| <= |s.w.log| + 1 && AttemptsOk(w')
    ensures Inv(env, s.(w := w'))
  {
    BeneathKeepsLog(env, s.w, w');
    forall pid | pid in s.procs ensures ProcOk(env, w', s.procs[pid]) {
      BeneathKeeps(env, s.w, w', s.procs[pid]);
    }
  }

  lemma SpawnKeepsInv(env: Env, s: Sys, token: Token)
    requires Inv(env, s)
    ensures Inv(env, Happen(env, s, Spawn(token)))
  {
    var s', p := Happen(env, s, Spawn(token)), NewProc(token);
    LogFacts(env, s.w);
    assert ProcOk(env, s.w, p);
  }

  lemma HappenKeepsInv(env: Env, s: Sys, h: Happening)
    requires Consistent(env) && Inv(env, s)
    ensures Inv(env, Happen(env, s, h))
  {
    match h
    case Spawn(token) => SpawnKeepsInv(env, s, token);
    case Turn(pid, c) => if pid in s.procs { TurnKeepsInv(env, s, pid, c); }
    case Restart =>
      BeneathKeepsLog(env, s.w, s.w.(mem := BLANK_MEMORY));
    case _ => BeneathKeepsInv(env, s, Happen(env, s, h).w);
  }

  lemma {:induction false} RunKeepsInv(env: Env, s: Sys, hs: seq<Happening>)
    requires Consistent(env) && Inv(env, s)
    ensures Inv(env, Run(env, s, hs))
    decreases hs
  {
    if hs != [] {
      RunKeepsInv(env, s, hs[..|hs| - 1]);
      HappenKeepsInv(env, Run(env, s, hs[..|hs| - 1]), hs[|hs| - 1]);
    }
  }

  lemma StartInv(env: Env, vault: map<Path, Text>, inbox: map<Path, Text>)
    ensures Inv(env, Start(vault, inbox))
  {
  }
}
