/**
 One execution with no outside writer, cut off anywhere: what the notes and the record look like, and that
 the classification read from disk tells the truth about it.
 */
module Solo {
  import opened Wrappers
  import opened VaultModel
  import opened Recovery
  import opened Executor
  import opened System
  import opened StepForms
  import opened Preservation

  /** The steps of one thread, with nothing in between. */
  function Alone(env: Env, w: World, p: Proc, cs: seq<Choice>): (World, Proc)
    decreases cs
  {
    if cs == [] then (w, p)
    else var (w', p') := Alone(env, w, p, cs[..|cs| - 1]); Step(env, w', p', cs[|cs| - 1])
  }

  /** How far the notes have got: untouched, a create torn after n characters, both copies of a move, done. */
  datatype Notes = Pre | Torn(n: nat) | Both | Post

  /** The notes of a plan that started from `d` and kept `kept`. */
  function NotesAt(d: Disk, p: Proc, notes: Notes): Disk {
    var plan := p.token.plan;
    match notes
    case Pre => d
    case Torn(n) => With(d, MainPlace(plan), Some(Cut(p.kept, n)))
    case Both => With(d, MainPlace(plan), Some(p.kept))
    case Post =>
      if Replaces(plan) then With(d, MainPlace(plan), Some(p.proposed))
      else if plan.DeleteNote? then With(d, MainPlace(plan), None)
      else if plan.MoveDraft? then With(With(d, MainPlace(plan), Some(p.kept)), InInbox(plan.source), None)
      else With(d, MainPlace(plan), Some(p.kept))
  }

  /** Which states of notes and record can be left on disk together. */
  predicate Allowed(plan: Plan, notes: Notes, stage: Option<Stage>) {
    && (notes != Pre ==> stage in {Some(ReceiptReady), Some(ManifestDone), Some(ReceiptDone)})
    && (stage in {Some(ManifestDone), Some(ReceiptDone)} ==> notes == Post)
    && (notes.Torn? ==> Creates(plan))
    && (notes.Both? ==> plan.MoveDraft?)
  }

  predicate PastAdmit(pc: Pc) { pc.MakeRecord? || Owns(pc) }

  /** Where a live thread is, seen from the notes and the record. */
  predicate Keeps(p: Proc, notes: Notes, stage: Option<Stage>) {
    match p.pc
    case Admit => notes == Pre && stage == None
    case MakeRecord => notes == Pre && stage == None
    case VerifyCopy => notes == Both && stage == Some(ReceiptReady)
    case Unlink => notes == Both && stage == Some(ReceiptReady)
    case Verify => notes == Post && stage == Some(ReceiptReady)
    case CommitManifest => notes == Post && stage == Some(ReceiptReady)
    case CommitReceipt => notes == Post && stage == Some(ManifestDone)
    case Finished(outcome) => outcome.success ==> stage == Some(ReceiptDone) && notes == Post
    case Dead => true
    case _ => notes == Pre && Owns(p.pc) && stage == Some(StageOf(p.pc))
  }

  /** What the re-read established about the disk the execution started from. */
  predicate Admitted(env: Env, d: Disk, p: Proc) {
    NoteProblem(env, d, p.token.plan).None? && KeptBytes(d, p) == Some(p.kept)
  }

  /** The disk, as far as this plan is concerned. */
  ghost predicate OnDisk(d: Disk, w: World, p: Proc, notes: Notes, stage: Option<Stage>) {
    && SameNotes(w.disk, NotesAt(d, p, notes))
    && w.disk.records == (if stage.None? then d.records
       else d.records[p.token := RecordAt(p.token.plan, p.kept, p.Approval(), stage.value)])
  }

  ghost predicate Ready(w: World, p: Proc) {
    && (p.pc.Protect? && Replaces(p.token.plan) ==> p.token in w.disk.temps && w.disk.temps[p.token] == p.proposed)
    && (p.pc.Probe? || p.pc.VerifyCopy? || p.pc.Unlink? ==> p.token.plan.MoveDraft?)
  }

  ghost predicate SoloState(env: Env, d: Disk, w: World, p: Proc, notes: Notes, stage: Option<Stage>) {
    && SummaryOk(p.Entry()) && p.token !in d.records
    && (PastAdmit(p.pc) || stage.Some? ==> Admitted(env, d, p))
    && Allowed(p.token.plan, notes, stage) && Keeps(p, notes, stage)
    && OnDisk(d, w, p, notes, stage) && Ready(w, p)
  }

  // ---------- One step ----------

  lemma KeptHash(env: Env, d: Disk, p: Proc)
    requires SummaryOk(p.Entry()) && Admitted(env, d, p)
    ensures Sha256(p.kept) == KeptSha(BodyOf(p.token.plan))
  {
  }

  lemma SoloNext(env: Env, d: Disk, w: World, p: Proc, notes: Notes, stage: Option<Stage>, w': World, p': Proc, notes': Notes, stage': Option<Stage>)
    requires SoloState(env, d, w, p, notes, stage) && stage.Some? && stage'.Some?
    requires SameJob(p, p') && OnDisk(d, w', p, notes', stage')
    requires Allowed(p.token.plan, notes', stage') && Keeps(p', notes', stage') && Ready(w', p')
    ensures SoloState(env, d, w', p', notes', stage')
  {
  }

  lemma SameNotesSameAnswers(env: Env, d: Disk, e: Disk, p: Proc)
    requires SameNotes(d, e)
    ensures NoteProblem(env, d, p.token.plan) == NoteProblem(env, e, p.token.plan) && KeptBytes(d, p) == KeptBytes(e, p)
  {
  }

  lemma AdmitAlone(env: Env, d: Disk, w: World, p: Proc, c: Choice)
    requires SoloState(env, d, w, p, Pre, None) && p.pc.Admit?
    ensures SoloState(env, d, w, AdmitStep(env, w, p, c), Pre, None)
  {
    AdmitForm(env, w, p, c);
    SameNotesSameAnswers(env, d, w.disk, p);
  }

  lemma MakeAlone(env: Env, d: Disk, w: World, p: Proc, c: Choice)
    requires SoloState(env, d, w, p, Pre, None) && p.pc.MakeRecord?
    ensures var (w', p') := MakeRecordStep(w, p, c);
      SoloState(env, d, w', p', Pre, if p'.pc.Backup? then Some(Stage.Opened) else None)
  {
  }

  lemma RecordDisk(env: Env, d: Disk, w: World, p: Proc, c: Choice, notes: Notes, stage: Stage)
    requires SoloState(env, d, w, p, notes, Some(stage)) && (Recording(p.pc) || p.pc.CommitManifest? || p.pc.CommitReceipt?)
    ensures stage == StageOf(p.pc)
    ensures var rec := RecordAt(p.token.plan, p.kept, p.Approval(), Reaches(p.pc, Extent(c)));
      && p.token in w.disk.records && RecordWrite(p, w.disk.records[p.token], Extent(c)) == rec
      && w.disk.records[p.token := rec] == d.records[p.token := rec]
  {
    KeptHash(env, d, p);
    RecordAdvances(p, Extent(c));
  }

  lemma RecordControl(p: Proc, p': Proc, c: Choice, notes: Notes, stage: Stage)
    requires Recording(p.pc) || p.pc.CommitManifest? || p.pc.CommitReceipt?
    requires Keeps(p, notes, Some(stage)) && Allowed(p.token.plan, notes, Some(stage))
    requires Failed(p') || (c.Go? && p' == p.To(AfterWrite(p)))
    ensures var stage' := Some(Reaches(p.pc, Extent(c)));
      Allowed(p.token.plan, notes, stage') && Keeps(p', notes, stage')
  {
  }

  lemma WrittenRecordAlone(env: Env, d: Disk, w: World, p: Proc, c: Choice, notes: Notes, stage: Stage, w': World, p': Proc)
    requires SoloState(env, d, w, p, notes, Some(stage)) && (Recording(p.pc) || p.pc.CommitManifest? || p.pc.CommitReceipt?)
    requires SameJob(p, p') && p.token in w.disk.records
    requires w'.disk == Put(w.disk, p.token, RecordWrite(p, w.disk.records[p.token], Extent(c)))
    requires Failed(p') || (c.Go? && p' == p.To(AfterWrite(p)))
    ensures SoloState(env, d, w', p', notes, Some(Reaches(p.pc, Extent(c))))
  {
    RecordDisk(env, d, w, p, c, notes, stage);
    assert OnDisk(d, w', p, notes, Some(Reaches(p.pc, Extent(c))));
    RecordControl(p, p', c, notes, stage);
    SoloNext(env, d, w, p, notes, Some(stage), w', p', notes, Some(Reaches(p.pc, Extent(c))));
  }

  lemma RecordAlone(env: Env, d: Disk, w: World, p: Proc, c: Choice, notes: Notes, stage: Stage)
    requires SoloState(env, d, w, p, notes, Some(stage)) && (Recording(p.pc) || p.pc.CommitManifest? || p.pc.CommitReceipt?)
    ensures var (w', p') := RecordStep(w, p, c); SoloState(env, d, w', p', notes, Some(Reaches(p.pc, Extent(c))))
  {
    var (w', p') := RecordStep(w, p, c);
    RecordPut(w, p, c);
    RecordForm(w, p, c);
    WrittenRecordAlone(env, d, w, p, c, notes, stage, w', p');
  }

  lemma ConsumedAlone(env: Env, d: Disk, w: World, p: Proc, w': World, p': Proc)
    requires SoloState(env, d, w, p, Pre, Some(ReceiptReady)) && p.pc.Consume? && SameJob(p, p') && w'.disk == w.disk
    requires Failed(p') || p'.pc == (if Replaces(p.token.plan) then StageFile else if p.token.plan.MoveDraft? then Probe else Protect)
    ensures SoloState(env, d, w', p', Pre, Some(ReceiptReady))
  {
    SoloNext(env, d, w, p, Pre, Some(ReceiptReady), w', p', Pre, Some(ReceiptReady));
  }

  lemma ConsumeAlone(env: Env, d: Disk, w: World, p: Proc, c: Choice)
    requires SoloState(env, d, w, p, Pre, Some(ReceiptReady)) && p.pc.Consume?
    ensures var (w', p') := ConsumeStep(w, p, c); SoloState(env, d, w', p', Pre, Some(ReceiptReady))
  {
    var (w', p') := ConsumeStep(w, p, c);
    ConsumeForm(w, p, c);
    ConsumedAlone(env, d, w, p, w', p');
  }

  lemma StagedAlone(env: Env, d: Disk, w: World, p: Proc, w': World, p': Proc)
    requires SoloState(env, d, w, p, Pre, Some(ReceiptReady)) && p.pc.StageFile? && SameJob(p, p')
    requires SameNotes(w'.disk, w.disk) && w'.disk.records == w.disk.records
    requires Failed(p') || (p'.pc.Protect? && p.token in w'.disk.temps && w'.disk.temps[p.token] == p.proposed)
    ensures SoloState(env, d, w', p', Pre, Some(ReceiptReady))
  {
    SoloNext(env, d, w, p, Pre, Some(ReceiptReady), w', p', Pre, Some(ReceiptReady));
  }

  lemma StageAlone(env: Env, d: Disk, w: World, p: Proc, c: Choice)
    requires SoloState(env, d, w, p, Pre, Some(ReceiptReady)) && p.pc.StageFile?
    ensures var (w', p') := StageStep(w, p, c); SoloState(env, d, w', p', Pre, Some(ReceiptReady))
  {
    var (w', p') := StageStep(w, p, c);
    StageForm(w, p, c);
    StagedAlone(env, d, w, p, w', p');
  }

  lemma ProbeAlone(env: Env, d: Disk, w: World, p: Proc, c: Choice)
    requires SoloState(env, d, w, p, Pre, Some(ReceiptReady)) && p.pc.Probe?
    ensures var (w', p') := ProbeStep(w, p, c); SoloState(env, d, w', p', Pre, Some(ReceiptReady))
  {
    var (w', p') := ProbeStep(w, p, c);
    ProbeForm(w, p, c);
    SoloNext(env, d, w, p, Pre, Some(ReceiptReady), w', p', Pre, Some(ReceiptReady));
  }

  /** What a protected write leaves, by how far it got. */
  function NotesAfter(plan: Plan, left: Left): Notes {
    if Creates(plan) then
      if left.NoFile? then Pre else if left.Part? then Torn(left.n) else if plan.MoveDraft? then Both else Post
    else if left.Full? then Post else Pre
  }

  lemma SamePlaces(env: Env, d: Disk, w: World, p: Proc)
    requires SoloState(env, d, w, p, Pre, Some(ReceiptReady))
    ensures ShaOf(At(w.disk, MainPlace(p.token.plan))) == Expected(p.token.plan)
    ensures forall content :: SameNotes(With(w.disk, MainPlace(p.token.plan), content), With(d, MainPlace(p.token.plan), content))
  {
    assert At(w.disk, MainPlace(p.token.plan)) == At(d, MainPlace(p.token.plan));
  }

  lemma WrittenAlone(d: Disk, w: World, p: Proc, left: Left)
    requires Replaces(p.token.plan) ==> p.token in w.disk.temps && w.disk.temps[p.token] == p.proposed
    ensures var content, notes := Written(w.disk, p, left), NotesAfter(p.token.plan, left);
      SameNotes(NotesAt(d, p, notes), if content.Some? then With(d, MainPlace(p.token.plan), content.value) else d)
  {
  }

  lemma ProtectDisk(w: World, p: Proc, c: Choice)
    requires p.pc.Protect? && ShaOf(At(w.disk, MainPlace(p.token.plan))) == Expected(p.token.plan)
    requires Expected(p.token.plan).Some? ==> At(w.disk, MainPlace(p.token.plan)).Some?
    requires Replaces(p.token.plan) ==> p.token in w.disk.temps && w.disk.temps[p.token] == p.proposed
    ensures var (w', p') := ProtectStep(w, p, c);
      var content := Written(w.disk, p, Extent(c));
      && w'.disk.records == w.disk.records && SameJob(p, p')
      && SameNotes(w'.disk, if content.Some? then With(w.disk, MainPlace(p.token.plan), content.value) else w.disk)
      && (Failed(p') || (c.Go? && p'.pc == (if p.token.plan.MoveDraft? then VerifyCopy else Verify)))
  {
  }

  lemma ProtectedAlone(env: Env, d: Disk, w: World, p: Proc, c: Choice, w': World, p': Proc)
    requires SoloState(env, d, w, p, Pre, Some(ReceiptReady)) && p.pc.Protect?
    requires var content := Written(w.disk, p, Extent(c));
      && w'.disk.records == w.disk.records && SameJob(p, p')
      && SameNotes(w'.disk, if content.Some? then With(w.disk, MainPlace(p.token.plan), content.value) else w.disk)
      && (Failed(p') || (c.Go? && p'.pc == (if p.token.plan.MoveDraft? then VerifyCopy else Verify)))
    ensures SoloState(env, d, w', p', NotesAfter(p.token.plan, Extent(c)), Some(ReceiptReady))
  {
    var notes' := NotesAfter(p.token.plan, Extent(c));
    SamePlaces(env, d, w, p);
    WrittenAlone(d, w, p, Extent(c));
    assert OnDisk(d, w', p, notes', Some(ReceiptReady));
    SoloNext(env, d, w, p, Pre, Some(ReceiptReady), w', p', notes', Some(ReceiptReady));
  }

  lemma ProtectAlone(env: Env, d: Disk, w: World, p: Proc, c: Choice)
    requires SoloState(env, d, w, p, Pre, Some(ReceiptReady)) && p.pc.Protect?
    ensures var (w', p') := ProtectStep(w, p, c);
      SoloState(env, d, w', p', NotesAfter(p.token.plan, Extent(c)), Some(ReceiptReady))
  {
    var (w', p') := ProtectStep(w, p, c);
    SamePlaces(env, d, w, p);
    ProtectDisk(w, p, c);
    ProtectedAlone(env, d, w, p, c, w', p');
  }

  lemma UnlinkedAlone(env: Env, d: Disk, w: World, p: Proc, w': World, p': Proc, gone: bool)
    requires SoloState(env, d, w, p, Both, Some(ReceiptReady)) && p.pc.Unlink? && SameJob(p, p')
    requires w'.disk == (if gone then With(w.disk, InInbox(p.token.plan.source), None) else w.disk)
    requires Failed(p') || (gone && p'.pc == Verify)
    ensures SoloState(env, d, w', p', if gone then Post else Both, Some(ReceiptReady))
  {
    SoloNext(env, d, w, p, Both, Some(ReceiptReady), w', p', if gone then Post else Both, Some(ReceiptReady));
  }

  lemma UnlinkAlone(env: Env, d: Disk, w: World, p: Proc, c: Choice)
    requires SoloState(env, d, w, p, Both, Some(ReceiptReady)) && p.pc.Unlink?
    ensures var (w', p') := UnlinkStep(w, p, c);
      SoloState(env, d, w', p', if Extent(c).Full? then Post else Both, Some(ReceiptReady))
  {
    var (w', p') := UnlinkStep(w, p, c);
    assert At(w.disk, InInbox(p.token.plan.source)) == At(d, InInbox(p.token.plan.source)) == Some(p.kept);
    UnlinkForm(w, p, c);
    UnlinkedAlone(env, d, w, p, w', p', Extent(c).Full?);
  }

  lemma VerifiedAlone(env: Env, d: Disk, w: World, p: Proc, p': Proc, notes: Notes)
    requires SoloState(env, d, w, p, notes, Some(ReceiptReady)) && (p.pc.VerifyCopy? || p.pc.Verify?) && SameJob(p, p')
    requires Failed(p') || p'.pc == (if p.pc.VerifyCopy? then Unlink else CommitManifest)
    ensures SoloState(env, d, w, p', notes, Some(ReceiptReady))
  {
    SoloNext(env, d, w, p, notes, Some(ReceiptReady), w, p', notes, Some(ReceiptReady));
  }

  lemma VerifyAlone(env: Env, d: Disk, w: World, p: Proc, c: Choice, notes: Notes)
    requires SoloState(env, d, w, p, notes, Some(ReceiptReady)) && (p.pc.VerifyCopy? || p.pc.Verify?)
    ensures var (w', p') := VerifyStep(w, p, c); SoloState(env, d, w', p', notes, Some(ReceiptReady))
  {
    VerifyForm(w, p, c);
    VerifiedAlone(env, d, w, p, VerifyStep(w, p, c).1, notes);
  }

  /** The next notes and stage of a thread, read off its program counter. */
  function NextNotes(p: Proc, c: Choice, notes: Notes): Notes {
    if p.pc.Protect? then NotesAfter(p.token.plan, Extent(c))
    else if p.pc.Unlink? && Extent(c).Full? then Post
    else notes
  }

  function NextStage(p: Proc, q: Proc, c: Choice, stage: Option<Stage>): Option<Stage> {
    if p.pc.MakeRecord? && q.pc.Backup? then Some(Stage.Opened)
    else if Recording(p.pc) || p.pc.CommitManifest? || p.pc.CommitReceipt? then Some(Reaches(p.pc, Extent(c)))
    else stage
  }

  lemma WriteAlone(env: Env, d: Disk, w: World, p: Proc, c: Choice, notes: Notes, stage: Option<Stage>)
    requires SoloState(env, d, w, p, notes, stage) && (Recording(p.pc) || p.pc.CommitManifest? || p.pc.CommitReceipt?)
    ensures var (w', p') := Step(env, w, p, c); SoloState(env, d, w', p', NextNotes(p, c, notes), NextStage(p, p', c, stage))
  {
    RecordAlone(env, d, w, p, c, notes, stage.value);
  }

  lemma ReadyAlone(env: Env, d: Disk, w: World, p: Proc, c: Choice, notes: Notes, stage: Option<Stage>)
    requires SoloState(env, d, w, p, notes, stage) && (p.pc.Consume? || p.pc.StageFile?)
    ensures var (w', p') := Step(env, w, p, c); SoloState(env, d, w', p', NextNotes(p, c, notes), NextStage(p, p', c, stage))
  {
    if p.pc.Consume? { ConsumeAlone(env, d, w, p, c); } else { StageAlone(env, d, w, p, c); }
  }

  lemma NotedAlone(env: Env, d: Disk, w: World, p: Proc, c: Choice, notes: Notes, stage: Option<Stage>)
    requires SoloState(env, d, w, p, notes, stage) && p.pc.Protect?
    ensures var (w', p') := Step(env, w, p, c); SoloState(env, d, w', p', NextNotes(p, c, notes), NextStage(p, p', c, stage))
  {
    ProtectAlone(env, d, w, p, c);
  }

  lemma ProbedAlone(env: Env, d: Disk, w: World, p: Proc, c: Choice, notes: Notes, stage: Option<Stage>)
    requires SoloState(env, d, w, p, notes, stage) && p.pc.Probe?
    ensures var (w', p') := Step(env, w, p, c); SoloState(env, d, w', p', NextNotes(p, c, notes), NextStage(p, p', c, stage))
  {
    ProbeAlone(env, d, w, p, c);
  }

  lemma AfterAlone(env: Env, d: Disk, w: World, p: Proc, c: Choice, notes: Notes, stage: Option<Stage>)
    requires SoloState(env, d, w, p, notes, stage) && (p.pc.VerifyCopy? || p.pc.Unlink? || p.pc.Verify?)
    ensures var (w', p') := Step(env, w, p, c); SoloState(env, d, w', p', NextNotes(p, c, notes), NextStage(p, p', c, stage))
  {
    if p.pc.Unlink? { UnlinkAlone(env, d, w, p, c); }
    else { VerifyAlone(env, d, w, p, c, notes); }
  }

  lemma BeforeAlone(env: Env, d: Disk, w: World, p: Proc, c: Choice, notes: Notes, stage: Option<Stage>)
    requires SoloState(env, d, w, p, notes, stage) && (p.pc.Admit? || p.pc.MakeRecord?)
    ensures var (w', p') := Step(env, w, p, c); SoloState(env, d, w', p', NextNotes(p, c, notes), NextStage(p, p', c, stage))
  {
    if p.pc.Admit? { AdmitAlone(env, d, w, p, c); }
    else { MakeAlone(env, d, w, p, c); }
  }

  lemma OverAlone(env: Env, w: World, p: Proc, c: Choice)
    requires p.Over()
    ensures Step(env, w, p, c) == (w, p)
  {
  }

  /** The thread stays at notes and a stage that belong together. */
  lemma StepAlone(env: Env, d: Disk, w: World, p: Proc, c: Choice, notes: Notes, stage: Option<Stage>)
    requires SoloState(env, d, w, p, notes, stage)
    ensures var (w', p') := Step(env, w, p, c); SoloState(env, d, w', p', NextNotes(p, c, notes), NextStage(p, p', c, stage))
  {
    if p.Over() { OverAlone(env, w, p, c); }
    else if p.pc.Admit? || p.pc.MakeRecord? { BeforeAlone(env, d, w, p, c, notes, stage); }
    else if p.pc.Consume? || p.pc.StageFile? { ReadyAlone(env, d, w, p, c, notes, stage); }
    else if p.pc.Probe? { ProbedAlone(env, d, w, p, c, notes, stage); }
    else if p.pc.Protect? { NotedAlone(env, d, w, p, c, notes, stage); }
    else if p.pc.VerifyCopy? || p.pc.Unlink? || p.pc.Verify? { AfterAlone(env, d, w, p, c, notes, stage); }
    else { WriteAlone(env, d, w, p, c, notes, stage); }
  }

  /** A call about to re-read the notes, with its plan's own private bytes. */
  ghost predicate Fresh(w: World, p: Proc) {
    p.pc.Admit? && SummaryOk(p.Entry()) && p.token !in w.disk.records
  }

  /** The call that carries out an approved plan, about to re-read the notes. */
  function CallFor(c: Cached, approval: Evidence): Proc {
    Proc(c.Token(), Admit, c.diff, c.proposed, approval.attempt, approval.message, "", false, false)
  }

  lemma {:induction false} AloneState(env: Env, w: World, p: Proc, cs: seq<Choice>) returns (notes: Notes, stage: Option<Stage>)
    requires Fresh(w, p)
    ensures var (w', p') := Alone(env, w, p, cs); SoloState(env, w.disk, w', p', notes, stage) && p'.token == p.token && p'.message == p.message
    decreases cs
  {
    if cs == [] {
      notes, stage := Pre, None;
    } else {
      notes, stage := AloneState(env, w, p, cs[..|cs| - 1]);
      var (w', p') := Alone(env, w, p, cs[..|cs| - 1]);
      StepAlone(env, w.disk, w', p', cs[|cs| - 1], notes, stage);
      TokenKept(env, w', p', cs[|cs| - 1]);
      notes, stage := NextNotes(p', cs[|cs| - 1], notes), NextStage(p', Alone(env, w, p, cs).1, cs[|cs| - 1], stage);
    }
  }

  // ---------- What the inspector says ----------

  /** The plan does not put back what is already there. */
  predicate Effective(plan: Plan) { Expected(plan) != Promised(plan) }

  /** The classification that tells the truth about these notes. */
  function Truth(p: Proc, notes: Notes, phase: Phase): Class {
    if phase == Committed then CommittedAsIs
    else match notes
      case Pre => PreparedNoEffect
      case Both => DuplicateUnresolved
      case Post => AppliedUnfinalized
      case Torn(n) =>
        if Cut(p.kept, n) != p.kept then DivergentUnresolved
        else if p.token.plan.MoveDraft? then DuplicateUnresolved
        else AppliedUnfinalized
  }

  predicate ManifestThere(stage: Option<Stage>) {
    stage.Some? && !stage.value.Opened? && !stage.value.BackupTorn? && !stage.value.BackedUp?
  }

  function PhaseAt(stage: Stage): Phase { if stage.ManifestDone? || stage.ReceiptDone? then Committed else Prepared }

  /** What was admitted can be read. */
  lemma AdmittedIsReadable(env: Env, d: Disk, p: Proc)
    requires Admitted(env, d, p)
    ensures NotesReadable(d, BodyOf(p.token.plan))
  {
  }

  lemma InspectRecordAt(d: Disk, p: Proc, stage: Stage)
    requires p.token in d.records && d.records[p.token] == RecordAt(p.token.plan, p.kept, p.Approval(), stage)
    requires Sha256(p.kept) == KeptSha(BodyOf(p.token.plan)) && NotesReadable(d, BodyOf(p.token.plan))
    ensures Inspect(d, p.token) ==
      if ManifestThere(Some(stage)) then
        Inspected(p.token.plan.Act(), PhaseAt(stage), Classify(d, PhaseAt(stage), BodyOf(p.token.plan)), KeptSha(BodyOf(p.token.plan)))
      else Unreadable(RecoveryManifestMissing)
  {
    ActOfBody(p.token.plan);
  }

  lemma InspectAlone(env: Env, d: Disk, w: World, p: Proc, notes: Notes, stage: Option<Stage>)
    requires SoloState(env, d, w, p, notes, stage) && stage.Some?
    ensures Inspect(w.disk, p.token) ==
      if ManifestThere(stage) then
        Inspected(p.token.plan.Act(), PhaseAt(stage.value), Classify(w.disk, PhaseAt(stage.value), BodyOf(p.token.plan)), KeptSha(BodyOf(p.token.plan)))
      else Unreadable(RecoveryManifestMissing)
  {
    KeptHash(env, d, p);
    AdmittedIsReadable(env, d, p);
    assert w.disk.unreadable == d.unreadable;
    InspectRecordAt(w.disk, p, stage.value);
  }

  lemma MoveIsClassified(env: Env, d: Disk, w: World, p: Proc, notes: Notes, phase: Phase)
    requires p.token.plan.MoveDraft? && Admitted(env, d, p) && Sha256(p.kept) == KeptSha(BodyOf(p.token.plan))
    requires SameNotes(w.disk, NotesAt(d, p, notes)) && (phase == Committed ==> notes == Post)
    ensures Classify(w.disk, phase, BodyOf(p.token.plan)) == Truth(p, notes, phase)
  {
  }

  lemma OneIsClassified(env: Env, d: Disk, w: World, p: Proc, notes: Notes, phase: Phase)
    requires !p.token.plan.MoveDraft? && Admitted(env, d, p) && Sha256(p.kept) == KeptSha(BodyOf(p.token.plan))
    requires SummaryOk(p.Entry()) && Effective(p.token.plan) && !notes.Both? && (notes.Torn? ==> Creates(p.token.plan))
    requires SameNotes(w.disk, NotesAt(d, p, notes)) && (phase == Committed ==> notes == Post)
    ensures Classify(w.disk, phase, BodyOf(p.token.plan)) == Truth(p, notes, phase)
  {
  }

  lemma NotesAreClassified(env: Env, d: Disk, w: World, p: Proc, notes: Notes, phase: Phase)
    requires Admitted(env, d, p) && SummaryOk(p.Entry()) && Effective(p.token.plan)
    requires Allowed(p.token.plan, notes, Some(ReceiptReady)) && SameNotes(w.disk, NotesAt(d, p, notes))
    requires phase == Committed ==> notes == Post
    ensures Classify(w.disk, phase, BodyOf(p.token.plan)) == Truth(p, notes, phase)
  {
    KeptHash(env, d, p);
    if p.token.plan.MoveDraft? { MoveIsClassified(env, d, w, p, notes, phase); }
    else { OneIsClassified(env, d, w, p, notes, phase); }
  }

  /** The notes hold a create of this plan, torn short of its bytes. */
  ghost predicate TornNotes(d: Disk, w: World, p: Proc) {
    Creates(p.token.plan) && exists n :: Cut(p.kept, n) != p.kept && SameNotes(w.disk, NotesAt(d, p, Torn(n)))
  }

  /** What each class means for notes that were at `d` when the execution began. */
  ghost predicate ClassMeans(d: Disk, w: World, p: Proc, phase: Phase, kind: Class) {
    if phase == Committed then kind == CommittedAsIs && SameNotes(w.disk, NotesAt(d, p, Post))
    else
      && (kind == PreparedNoEffect <==> SameNotes(w.disk, d))
      && (kind == AppliedUnfinalized <==> SameNotes(w.disk, NotesAt(d, p, Post)))
      && (kind == DuplicateUnresolved <==> p.token.plan.MoveDraft? && SameNotes(w.disk, NotesAt(d, p, Both)))
      && (kind == DivergentUnresolved <==> TornNotes(d, w, p))
      && kind in {PreparedNoEffect, AppliedUnfinalized, DuplicateUnresolved, DivergentUnresolved}
  }

  lemma WholeTearIsNoTear(d: Disk, p: Proc, n: nat)
    requires Creates(p.token.plan) && Cut(p.kept, n) == p.kept
    ensures NotesAt(d, p, Torn(n)) == NotesAt(d, p, if p.token.plan.MoveDraft? then Both else Post)
  {
  }

  lemma TruthMeans(env: Env, d: Disk, w: World, p: Proc, notes: Notes, phase: Phase)
    requires Admitted(env, d, p) && SummaryOk(p.Entry()) && Effective(p.token.plan)
    requires Allowed(p.token.plan, notes, Some(ReceiptReady)) && SameNotes(w.disk, NotesAt(d, p, notes))
    requires phase == Committed ==> notes == Post
    ensures ClassMeans(d, w, p, phase, Truth(p, notes, phase))
  {
    var plan := p.token.plan;
    if notes.Torn? && Cut(p.kept, notes.n) == p.kept {
      WholeTearIsNoTear(d, p, notes.n);
    }
    if phase == Prepared {
      forall other | Allowed(plan, other, Some(ReceiptReady)) && SameNotes(w.disk, NotesAt(d, p, other))
        ensures Truth(p, other, Prepared) == Truth(p, notes, Prepared)
      {
        NotesAreClassified(env, d, w, p, notes, Prepared);
        NotesAreClassified(env, d, w, p, other, Prepared);
      }
      assert Allowed(plan, Pre, Some(ReceiptReady)) && Allowed(plan, Post, Some(ReceiptReady));
      if TornNotes(d, w, p) {
        var n :| Cut(p.kept, n) != p.kept && SameNotes(w.disk, NotesAt(d, p, Torn(n)));
        assert Allowed(plan, Torn(n), Some(ReceiptReady));
      }
    }
  }

  /**
   At every point of every execution that nobody interferes with, however it was cut off, the record read from
   disk tells how the notes are. Nothing is readable before the manifest, and the notes are then untouched;
   afterwards the class says exactly whether they are untouched, done, doubled by a move, or torn.
   */
  lemma RecordTellsTheTruth(env: Env, w: World, p: Proc, cs: seq<Choice>)
    requires Fresh(w, p) && Effective(p.token.plan)
    ensures var (w', p') := Alone(env, w, p, cs);
      match Inspect(w'.disk, p.token)
      case Unreadable(_) => SameNotes(w'.disk, w.disk)
      case Inspected(action, phase, kind, backup) =>
        action == p.token.plan.Act() && ClassMeans(w.disk, w', p', phase, kind)
  {
    var notes, stage := AloneState(env, w, p, cs);
    var (w', p') := Alone(env, w, p, cs);
    if stage.Some? {
      InspectAlone(env, w.disk, w', p', notes, stage);
      if ManifestThere(stage) {
        NotesAreClassified(env, w.disk, w', p', notes, PhaseAt(stage.value));
        TruthMeans(env, w.disk, w', p', notes, PhaseAt(stage.value));
      }
    }
  }

  /** The text a human approved, as the receipt will be asked about it. */
  predicate Approved(env: Env, p: Proc) {
    env.size(p.message) <= MAX_APPROVAL_MESSAGE_CHARS && env.accepts(p.token.plan, p.message)
  }

  predicate ReceiptThere(stage: Option<Stage>) {
    stage in {Some(ReceiptReady), Some(ManifestDone), Some(ReceiptDone)}
  }

  /** What the receipt's inspection adds to the record's, at each stage. */
  lemma InspectReceiptAt(env: Env, d: Disk, p: Proc, stage: Stage)
    requires p.token in d.records && d.records[p.token] == RecordAt(p.token.plan, p.kept, p.Approval(), stage)
    requires Sha256(p.kept) == KeptSha(BodyOf(p.token.plan)) && Approved(env, p)
    requires var body := BodyOf(p.token.plan);
      ManifestThere(Some(stage)) ==>
        Inspect(d, p.token) == Inspected(p.token.plan.Act(), PhaseAt(stage), Classify(d, PhaseAt(stage), body), KeptSha(body))
    ensures !ReceiptThere(Some(stage)) ==> InspectReceipt(env, d, p.token).BadReceipt?
    ensures ReceiptThere(Some(stage)) ==>
      var kind, phase := Classify(d, PhaseAt(stage), BodyOf(p.token.plan)), if stage == ReceiptDone then Committed else Prepared;
      var owed := kind !in {CommittedAsIs, CommittedThenChanged, PreparedNoEffect};
      InspectReceipt(env, d, p.token) ==
        if stage == ManifestDone && kind == CommittedAsIs then GoodReceipt(p.token.plan.Act(), Prepared, AppliedUnfinalized, true)
        else GoodReceipt(p.token.plan.Act(), phase, kind, owed)
  {
    if ReceiptThere(Some(stage)) {
      var r := d.records[p.token].receipt.value.receipt;
      assert r.backupFile == BackupName(p.token.plan.Act());
    }
  }

  /**
   The receipt tells the same truth, at every point of every execution that nobody interferes with: until it can be
   read the notes are untouched; while it is not committed its class says how the notes are, and that something is
   owed unless they are untouched, also when the manifest is committed already; and once it is committed, all is done.
   */
  lemma ReceiptTellsWhatIsOwed(env: Env, w: World, p: Proc, cs: seq<Choice>)
    requires Fresh(w, p) && Effective(p.token.plan) && Approved(env, p)
    ensures var (w', p') := Alone(env, w, p, cs);
      match InspectReceipt(env, w'.disk, p.token)
      case BadReceipt(_) => SameNotes(w'.disk, w.disk)
      case GoodReceipt(action, phase, kind, owed) =>
        && action == p.token.plan.Act() && (phase == Committed <==> Settled(w'.disk.records[p.token]))
        && ClassMeans(w.disk, w', p', phase, kind)
        && (owed <==> phase == Prepared && !SameNotes(w'.disk, w.disk))
        && (kind == AppliedUnfinalized && owed <==> phase == Prepared && SameNotes(w'.disk, NotesAt(w.disk, p', Post)))
  {
    var notes, stage := AloneState(env, w, p, cs);
    var (w', p') := Alone(env, w, p, cs);
    if stage.Some? {
      InspectAlone(env, w.disk, w', p', notes, stage);
      KeptHash(env, w.disk, p');
      InspectReceiptAt(env, w'.disk, p', stage.value);
      if ReceiptThere(stage) {
        NotesAreClassified(env, w.disk, w', p', notes, PhaseAt(stage.value));
        TruthMeans(env, w.disk, w', p', notes, if stage == Some(ReceiptDone) then Committed else Prepared);
      }
    }
  }

  /** An edit that changes nothing is called untouched even when it was performed, and only such an edit is. */
  lemma UnchangedEditLooksUntouched(env: Env, d: Disk, w: World, p: Proc)
    requires SoloState(env, d, w, p, Post, Some(ReceiptReady)) && Replaces(p.token.plan)
    ensures Inspect(w.disk, p.token).Inspected?
    ensures Inspect(w.disk, p.token).classification == PreparedNoEffect <==> !Effective(p.token.plan)
  {
    InspectAlone(env, d, w, p, Post, Some(ReceiptReady));
  }

  /**
   A move never loses the draft: at every point its bytes are complete at the source or at the target, and a
   call that reports success leaves the source gone, the target whole and a copy in the record.
   */
  lemma MoveKeepsTheDraft(env: Env, w: World, p: Proc, cs: seq<Choice>)
    requires Fresh(w, p) && p.token.plan.MoveDraft? && At(w.disk, InInbox(p.token.plan.source)).Some?
    ensures var (w', p') := Alone(env, w, p, cs);
      var source, target, draft := InInbox(p.token.plan.source), InVault(p.token.plan.target), At(w.disk, InInbox(p.token.plan.source));
      && (At(w'.disk, source) == draft || (At(w'.disk, source) == None && At(w'.disk, target) == draft))
      && (p'.pc.Finished? && p'.pc.outcome.success ==>
        && At(w'.disk, source) == None && At(w'.disk, target) == draft && ShaOf(draft) == Some(p.token.plan.sourceSha)
        && p.token in w'.disk.records && w'.disk.records[p.token].artifacts == map["source.bin" := draft.value]
        && Settled(w'.disk.records[p.token]))
  {
    var notes, stage := AloneState(env, w, p, cs);
    var (w', p') := Alone(env, w, p, cs);
    DraftAt(env, w.disk, w', p', notes, stage);
  }

  lemma DraftAt(env: Env, d: Disk, w: World, p: Proc, notes: Notes, stage: Option<Stage>)
    requires SoloState(env, d, w, p, notes, stage) && p.token.plan.MoveDraft? && At(d, InInbox(p.token.plan.source)).Some?
    ensures var source, target, draft := InInbox(p.token.plan.source), InVault(p.token.plan.target), At(d, InInbox(p.token.plan.source));
      && (At(w.disk, source) == draft || (At(w.disk, source) == None && At(w.disk, target) == draft))
      && (p.pc.Finished? && p.pc.outcome.success ==>
        && At(w.disk, source) == None && At(w.disk, target) == draft && ShaOf(draft) == Some(p.token.plan.sourceSha)
        && p.token in w.disk.records && w.disk.records[p.token].artifacts == map["source.bin" := draft.value]
        && Settled(w.disk.records[p.token]))
  {
  }

  // ---------- The token is the call's name ----------

  lemma EarlyTokenKept(env: Env, w: World, p: Proc, c: Choice)
    requires p.pc.Admit? || p.pc.MakeRecord? || Recording(p.pc) || p.pc.Consume? || p.pc.StageFile?
    ensures Step(env, w, p, c).1.token == p.token && Step(env, w, p, c).1.message == p.message
  {
  }

  lemma LateTokenKept(env: Env, w: World, p: Proc, c: Choice)
    requires p.pc.Probe? || p.pc.Protect? || p.pc.VerifyCopy? || p.pc.Unlink?
    ensures Step(env, w, p, c).1.token == p.token && Step(env, w, p, c).1.message == p.message
  {
  }

  lemma LastTokenKept(env: Env, w: World, p: Proc, c: Choice)
    requires p.pc.Verify? || p.pc.CommitManifest? || p.pc.CommitReceipt? || p.Over()
    ensures Step(env, w, p, c).1.token == p.token && Step(env, w, p, c).1.message == p.message
  {
  }

  lemma TokenKept(env: Env, w: World, p: Proc, c: Choice)
    requires p.pc.Admit? || p.pc.MakeRecord? || Owns(p.pc) || p.Over()
    ensures Step(env, w, p, c).1.token == p.token && Step(env, w, p, c).1.message == p.message
  {
    if p.pc.Admit? || p.pc.MakeRecord? || Recording(p.pc) || p.pc.Consume? || p.pc.StageFile? { EarlyTokenKept(env, w, p, c); }
    else if p.pc.Probe? || p.pc.Protect? || p.pc.VerifyCopy? || p.pc.Unlink? { LateTokenKept(env, w, p, c); }
    else { LastTokenKept(env, w, p, c); }
  }

  // ---------- An execution nothing goes wrong in ----------

  function Rank(pc: Pc): nat {
    match pc
    case Admit => 14
    case MakeRecord => 13
    case Backup => 12
    case WriteManifest => 11
    case WriteReceipt => 10
    case Consume => 9
    case StageFile => 8
    case Probe => 8
    case Protect => 7
    case VerifyCopy => 6
    case Unlink => 5
    case Verify => 4
    case CommitManifest => 3
    case CommitReceipt => 2
    case _ => 0
  }

  /** Nothing stands in the way of the plan. */
  ghost predicate Clear(env: Env, d: Disk, w: World, p: Proc) {
    && NoteProblem(env, d, p.token.plan).None? && KeptBytes(d, p).Some?
    && (Rank(p.pc) >= 9 ==> p.token !in w.mem.consumed)
    && (p.Over() ==> p.pc.Finished? && p.pc.outcome.success)
  }

  lemma AdmitGoes(env: Env, d: Disk, w: World, p: Proc)
    requires SoloState(env, d, w, p, Pre, None) && Clear(env, d, w, p) && p.pc.Admit?
    ensures AdmitStep(env, w, p, Go).pc.MakeRecord?
  {
    SameNotesSameAnswers(env, d, w.disk, p);
  }

  lemma GoForm(w: World, p: Proc)
    requires (Recording(p.pc) || p.pc.CommitManifest? || p.pc.CommitReceipt?) && p.token in w.disk.records
    requires p.pc.CommitReceipt? ==> RecordWrite(p, w.disk.records[p.token], Full) != w.disk.records[p.token]
    ensures var (w', p') := RecordStep(w, p, Go);
      Rank(p'.pc) < Rank(p.pc) && w'.mem == w.mem && (p'.Over() ==> p'.pc.Finished? && p'.pc.outcome.success)
  {
  }

  lemma RecordGoes(env: Env, d: Disk, w: World, p: Proc, notes: Notes, stage: Option<Stage>)
    requires SoloState(env, d, w, p, notes, stage) && (Recording(p.pc) || p.pc.CommitManifest? || p.pc.CommitReceipt?)
    ensures var (w', p') := Step(env, w, p, Go);
      Rank(p'.pc) < Rank(p.pc) && w'.mem == w.mem && (p'.Over() ==> p'.pc.Finished? && p'.pc.outcome.success)
  {
    RecordDisk(env, d, w, p, Go, notes, stage.value);
    CommitChanges(p);
    GoForm(w, p);
  }

  lemma CommitChanges(p: Proc)
    ensures RecordAt(p.token.plan, p.kept, p.Approval(), ManifestDone) != RecordAt(p.token.plan, p.kept, p.Approval(), ReceiptDone)
  {
  }

  lemma ProtectGoes(env: Env, d: Disk, w: World, p: Proc)
    requires SoloState(env, d, w, p, Pre, Some(ReceiptReady)) && p.pc.Protect?
    ensures ProtectStep(w, p, Go).1.pc == if p.token.plan.MoveDraft? then VerifyCopy else Verify
  {
    SamePlaces(env, d, w, p);
  }

  lemma PromiseIsKept(env: Env, d: Disk, w: World, p: Proc, notes: Notes)
    requires SummaryOk(p.Entry()) && Admitted(env, d, p) && SameNotes(w.disk, NotesAt(d, p, notes))
    requires notes == Post || (notes == Both && p.token.plan.MoveDraft?)
    ensures ShaOf(At(w.disk, MainPlace(p.token.plan))) == Promised(p.token.plan)
    ensures notes == Post && p.token.plan.MoveDraft? ==> At(w.disk, InInbox(p.token.plan.source)).None?
  {
    KeptHash(env, d, p);
  }

  /** A check that finds what was promised goes on. */
  lemma CheckPasses(env: Env, w: World, p: Proc)
    requires p.pc.VerifyCopy? || p.pc.Verify?
    requires ShaOf(At(w.disk, MainPlace(p.token.plan))) == Promised(p.token.plan)
    requires p.pc.Verify? && p.token.plan.MoveDraft? ==> At(w.disk, InInbox(p.token.plan.source)).None?
    ensures var p' := Step(env, w, p, Go).1;
      p'.pc == (if p.pc.VerifyCopy? then Unlink else CommitManifest) && Rank(p'.pc) < Rank(p.pc) < 9 && !p'.Over()
  {
  }

  lemma UnlinkGoes(env: Env, d: Disk, w: World, p: Proc)
    requires SoloState(env, d, w, p, Both, Some(ReceiptReady)) && p.pc.Unlink?
    ensures UnlinkStep(w, p, Go).1.pc.Verify?
  {
    assert At(w.disk, InInbox(p.token.plan.source)) == At(d, InInbox(p.token.plan.source)) == Some(p.kept);
  }

  lemma ProbeGoes(env: Env, d: Disk, w: World, p: Proc)
    requires SoloState(env, d, w, p, Pre, Some(ReceiptReady)) && p.pc.Probe?
    ensures ProbeStep(w, p, Go).1.pc.Protect?
  {
    SamePlaces(env, d, w, p);
  }

  lemma AdmitStepGoes(env: Env, d: Disk, w: World, p: Proc)
    requires SoloState(env, d, w, p, Pre, None) && Clear(env, d, w, p) && p.pc.Admit?
    ensures var (w', p') := Step(env, w, p, Go); p'.pc.MakeRecord? && w'.mem == w.mem
  {
    AdmitGoes(env, d, w, p);
  }

  lemma MakeStepGoes(env: Env, d: Disk, w: World, p: Proc)
    requires SoloState(env, d, w, p, Pre, None) && p.pc.MakeRecord?
    ensures var (w', p') := Step(env, w, p, Go); p'.pc.Backup? && w'.mem == w.mem
  {
  }

  lemma ReadyStepGoes(env: Env, w: World, p: Proc)
    requires (p.pc.Consume? && p.token !in w.mem.consumed) || p.pc.StageFile?
    ensures var p' := Step(env, w, p, Go).1; Rank(p'.pc) < Rank(p.pc) && Rank(p'.pc) < 9 && !p'.Over()
  {
  }

  lemma SetupGoes(env: Env, d: Disk, w: World, p: Proc, notes: Notes, stage: Option<Stage>)
    requires SoloState(env, d, w, p, notes, stage) && Clear(env, d, w, p)
    requires p.pc.Admit? || p.pc.MakeRecord? || p.pc.Consume? || p.pc.StageFile?
    ensures var (w', p') := Step(env, w, p, Go);
      Rank(p'.pc) < Rank(p.pc) && !p'.Over() && (Rank(p'.pc) >= 9 ==> w'.mem == w.mem)
  {
    if p.pc.Admit? { AdmitStepGoes(env, d, w, p); }
    else if p.pc.MakeRecord? { MakeStepGoes(env, d, w, p); }
    else { ReadyStepGoes(env, w, p); }
  }

  lemma ProtectStepGoes(env: Env, d: Disk, w: World, p: Proc)
    requires SoloState(env, d, w, p, Pre, Some(ReceiptReady)) && p.pc.Protect?
    ensures var p' := Step(env, w, p, Go).1; Rank(p'.pc) < Rank(p.pc) < 9 && !p'.Over()
  {
    ProtectGoes(env, d, w, p);
    ProtectGoesOn(env, w, p, ProtectStep(w, p, Go));
  }

  lemma ProtectGoesOn(env: Env, w: World, p: Proc, next: (World, Proc))
    requires p.pc.Protect? && next == ProtectStep(w, p, Go) && (next.1.pc.VerifyCopy? || next.1.pc.Verify?)
    ensures Step(env, w, p, Go) == next && Rank(next.1.pc) < Rank(p.pc) < 9 && !next.1.Over()
  {
  }

  lemma ProbeStepGoes(env: Env, d: Disk, w: World, p: Proc)
    requires SoloState(env, d, w, p, Pre, Some(ReceiptReady)) && p.pc.Probe?
    ensures var p' := Step(env, w, p, Go).1; Rank(p'.pc) < Rank(p.pc) < 9 && !p'.Over()
  {
    ProbeGoes(env, d, w, p);
  }

  lemma FoundAsPromised(env: Env, d: Disk, w: World, p: Proc, notes: Notes)
    requires SoloState(env, d, w, p, notes, Some(ReceiptReady)) && (p.pc.VerifyCopy? || p.pc.Verify?)
    ensures ShaOf(At(w.disk, MainPlace(p.token.plan))) == Promised(p.token.plan)
    ensures p.pc.Verify? && p.token.plan.MoveDraft? ==> At(w.disk, InInbox(p.token.plan.source)).None?
  {
    PromiseIsKept(env, d, w, p, notes);
  }

  lemma CheckStepGoes(env: Env, d: Disk, w: World, p: Proc, notes: Notes)
    requires SoloState(env, d, w, p, notes, Some(ReceiptReady)) && (p.pc.VerifyCopy? || p.pc.Verify?)
    ensures var p' := Step(env, w, p, Go).1; Rank(p'.pc) < Rank(p.pc) < 9 && !p'.Over()
  {
    FoundAsPromised(env, d, w, p, notes);
    CheckPasses(env, w, p);
  }

  lemma RemoveStepGoes(env: Env, d: Disk, w: World, p: Proc)
    requires SoloState(env, d, w, p, Both, Some(ReceiptReady)) && p.pc.Unlink?
    ensures var p' := Step(env, w, p, Go).1; Rank(p'.pc) < Rank(p.pc) < 9 && !p'.Over()
  {
    UnlinkGoes(env, d, w, p);
  }

  lemma NoteStepGoes(env: Env, d: Disk, w: World, p: Proc, notes: Notes, stage: Option<Stage>)
    requires SoloState(env, d, w, p, notes, stage)
    requires p.pc.Probe? || p.pc.Protect? || p.pc.VerifyCopy? || p.pc.Unlink? || p.pc.Verify?
    ensures var p' := Step(env, w, p, Go).1; Rank(p'.pc) < Rank(p.pc) < 9 && !p'.Over()
  {
    if p.pc.Probe? { ProbeStepGoes(env, d, w, p); }
    else if p.pc.Protect? { ProtectStepGoes(env, d, w, p); }
    else if p.pc.Unlink? { RemoveStepGoes(env, d, w, p); }
    else { CheckStepGoes(env, d, w, p, notes); }
  }

  /** A step that goes well brings the thread nearer to its end. */
  lemma GoGoesOn(env: Env, d: Disk, w: World, p: Proc, notes: Notes, stage: Option<Stage>)
    requires SoloState(env, d, w, p, notes, stage) && Clear(env, d, w, p) && !p.Over()
    ensures var (w', p') := Step(env, w, p, Go);
      Rank(p'.pc) < Rank(p.pc) && (p'.Over() ==> p'.pc.Finished? && p'.pc.outcome.success) && (Rank(p'.pc) >= 9 ==> w'.mem == w.mem)
  {
    if Recording(p.pc) || p.pc.CommitManifest? || p.pc.CommitReceipt? { RecordGoes(env, d, w, p, notes, stage); }
    else if p.pc.Admit? || p.pc.MakeRecord? || p.pc.Consume? || p.pc.StageFile? { SetupGoes(env, d, w, p, notes, stage); }
    else { NoteStepGoes(env, d, w, p, notes, stage); }
  }

  function Steady(n: nat): seq<Choice> {
    seq(n, _ => Go)
  }

  /** After n steps of a steady run: over with success, or n nearer to the end. */
  ghost predicate SteadyAt(env: Env, d: Disk, p0: Proc, n: nat, w: World, p: Proc, notes: Notes, stage: Option<Stage>) {
    && SoloState(env, d, w, p, notes, stage)
    && p.token == p0.token && p.proposed == p0.proposed && p.diff == p0.diff
    && (p.Over() ==> p.pc.Finished? && p.pc.outcome.success) && (Rank(p.pc) >= 9 ==> p.token !in w.mem.consumed)
    && (p.Over() || Rank(p.pc) + n <= 14)
  }

  lemma {:induction false} SteadyRun(env: Env, w: World, p: Proc, n: nat) returns (notes: Notes, stage: Option<Stage>)
    requires Fresh(w, p) && Clear(env, w.disk, w, p)
    ensures var (w', p') := Alone(env, w, p, Steady(n)); SteadyAt(env, w.disk, p, n, w', p', notes, stage)
    decreases n
  {
    if n == 0 {
      notes, stage := Pre, None;
    } else {
      notes, stage := SteadyRun(env, w, p, n - 1);
      assert Steady(n)[..n - 1] == Steady(n - 1);
      var (w', p') := Alone(env, w, p, Steady(n - 1));
      notes, stage := SteadyNext(env, w.disk, p, n - 1, w', p', notes, stage);
    }
  }

  lemma SteadyNext(env: Env, d: Disk, p0: Proc, n: nat, w: World, p: Proc, notes: Notes, stage: Option<Stage>)
    returns (notes': Notes, stage': Option<Stage>)
    requires SteadyAt(env, d, p0, n, w, p, notes, stage) && NoteProblem(env, d, p.token.plan).None? && KeptBytes(d, p0).Some?
    ensures var (w', p') := Step(env, w, p, Go); SteadyAt(env, d, p0, n + 1, w', p', notes', stage')
  {
    if p.Over() {
      OverAlone(env, w, p, Go);
      notes', stage' := notes, stage;
    } else {
      SteadyStep(env, d, w, p, notes, stage);
      notes', stage' := NextNotes(p, Go, notes), NextStage(p, Step(env, w, p, Go).1, Go, stage);
    }
  }

  lemma SteadyStep(env: Env, d: Disk, w: World, p: Proc, notes: Notes, stage: Option<Stage>)
    requires SoloState(env, d, w, p, notes, stage) && Clear(env, d, w, p) && !p.Over()
    ensures var (w', p') := Step(env, w, p, Go);
      && SoloState(env, d, w', p', NextNotes(p, Go, notes), NextStage(p, p', Go, stage))
      && p'.token == p.token && p'.proposed == p.proposed && p'.diff == p.diff
      && (p'.Over() ==> p'.pc.Finished? && p'.pc.outcome.success)
      && Rank(p'.pc) < Rank(p.pc) && (Rank(p'.pc) >= 9 ==> p.token !in w'.mem.consumed)
  {
    StepAlone(env, d, w, p, Go, notes, stage);
    GoGoesOn(env, d, w, p, notes, stage);
    TokenKept(env, w, p, Go);
  }
}
