/**
 The production executor as a thread that takes one step at a time: approval, stale checks, recovery
 record, protected write, commit. Any step may raise, or be the last one the process ever takes.
 */
module Executor {
  import opened Wrappers
  import opened VaultModel
  import opened Recovery

  const APPROVAL_ATTEMPT_LIMIT: nat := 32

  // ---------- Notes ----------

  function At(d: Disk, place: Place): Option<Text> {
    var files := if place.InVault? then d.vault else d.inbox;
    if place.path in files then Some(files[place.path]) else None
  }

  function With(d: Disk, place: Place, content: Option<Text>): Disk {
    var files := if place.InVault? then d.vault else d.inbox;
    var changed := if content.Some? then files[place.path := content.value] else files - {place.path};
    if place.InVault? then d.(vault := changed) else d.(inbox := changed)
  }

  function ShaOf(content: Option<Text>): Option<Digest> {
    if content.Some? then Some(Sha256(content.value)) else None
  }

  /** Where the protected write of a plan happens. */
  function MainPlace(plan: Plan): Place {
    if plan.RestoreMoveSource? then InInbox(plan.source) else InVault(plan.target)
  }

  /** The content the approval named for that place; none where the plan creates a file. */
  function Expected(plan: Plan): Option<Digest> {
    match plan
    case EditNote(_, _, _, originalSha, _, _) => Some(originalSha)
    case MoveDraft(_, _, _, _, _, _, _) => None
    case DeleteNote(_, _, _, targetSha, _) => Some(targetSha)
    case RestoreEdit(_, _, _, _, _, currentSha, _, _, _) => Some(currentSha)
    case RestoreMoveSource(_, _, _, _, _, _, _, _) => None
  }

  /** The content the approval promised there. */
  function Promised(plan: Plan): Option<Digest> {
    match plan
    case EditNote(_, _, _, _, proposedSha, _) => Some(proposedSha)
    case MoveDraft(_, _, _, _, _, sourceSha, _) => Some(sourceSha)
    case DeleteNote(_, _, _, _, _) => None
    case RestoreEdit(_, _, _, _, _, _, restoreSha, _, _) => Some(restoreSha)
    case RestoreMoveSource(_, _, _, _, restoreSha, _, _, _) => Some(restoreSha)
  }

  predicate Replaces(plan: Plan) { plan.EditNote? || plan.RestoreEdit? }
  predicate Creates(plan: Plan) { plan.MoveDraft? || plan.RestoreMoveSource? }

  // ---------- Threads ----------

  datatype Outcome = Outcome(success: bool, error: Error, mutated: bool, recovery: bool)

  function Refused(error: Error): Outcome { Outcome(false, error, false, false) }

  datatype Pc =
    | Inventory | Lookup | Ask | Await | Revalidate | Reinventory | Admit
    | MakeRecord | Backup | WriteManifest | WriteReceipt | Consume
    | StageFile | Probe | Protect | VerifyCopy | Unlink | Verify | CommitManifest | CommitReceipt
    | Finished(outcome: Outcome) | Dead

  /** How much of a file is on disk when the step writing it is cut off. */
  datatype Left = NoFile | Part(n: nat) | Full

  datatype Choice = Go | Refuse(why: Error) | Raise(left: Left) | Die(left: Left)

  /**
   One call of the executor. `wrote` is not in the program: it records whether this call changed a note.
   */
  datatype Proc = Proc(token: Token, pc: Pc, diff: Text, proposed: Text, key: nat, message: Text, kept: Text,
                       started: bool, wrote: bool) {
    function Entry(): Cached { Cached(token.plan, diff, proposed) }
    function Approval(): Evidence { Evidence(key, message, Sha256(message)) }
    predicate Over() { pc.Finished? || pc.Dead? }
    function Stop(outcome: Outcome): Proc { this.(pc := Finished(outcome)) }
    function To(next: Pc): Proc { this.(pc := next) }
  }

  function NewProc(token: Token): Proc { Proc(token, Inventory, "", "", 0, "", "", false, false) }

  datatype Attempt = Attempt(description: Text, once: bool)

  /** What one process keeps in memory. */
  datatype Memory = Memory(previews: map<Token, Cached>, consumed: set<Token>, attempts: map<nat, Attempt>, spent: set<nat>)

  const BLANK_MEMORY := Memory(map[], {}, map[], {})

  datatype Event =
    | Decided(key: nat, text: Text)
    | Opened(token: Token)
    | Changed(key: nat, token: Token, place: Place, before: Option<Text>, after: Option<Text>)

  /** Disk, memory, the next unused key, and everything that happened so far. */
  datatype World = World(disk: Disk, mem: Memory, nextKey: nat, log: seq<Event>)

  // ---------- Before the record ----------

  function AskStep(env: Env, w: World, p: Proc, c: Choice): (r: (World, Proc)) {
    if c.Die? then (w, p.To(Dead))
    else if p.token !in w.mem.previews then (w, p.Stop(Refused(UnknownOrExpiredPlan)))
    else
      var entry := w.mem.previews[p.token];
      if c.Raise? || !SummaryOk(entry) then (w, p.Stop(Refused(ApprovalPreparationFailed)))
      else
        var message := env.render(entry);
        if env.size(message) > MAX_APPROVAL_MESSAGE_CHARS then (w, p.Stop(Refused(ApprovalMessageTooLarge)))
        else if c.Refuse? then (w, p.Stop(Refused(ApprovalMessageRedacted)))
        else if |w.mem.attempts| >= APPROVAL_ATTEMPT_LIMIT then (w, p.Stop(Refused(ApprovalAttemptLimit)))
        else
          var mem := w.mem.(attempts := w.mem.attempts[w.nextKey := Attempt(message, false)]);
          (w.(mem := mem, nextKey := w.nextKey + 1), p.(pc := Await, key := w.nextKey, message := message))
  }

  /** The gate answers; the attempt is forgotten whatever it says. */
  function AwaitStep(env: Env, w: World, p: Proc, c: Choice): (r: (World, Proc)) {
    var once := p.key in w.mem.attempts && w.mem.attempts[p.key].once;
    var mem := w.mem.(attempts := w.mem.attempts - {p.key});
    if c.Die? then (w, p.To(Dead))
    else if c.Raise? then (w.(mem := mem), p.Stop(Refused(ApprovalGateFailed)))
    else if c.Refuse? || !once then (w.(mem := mem), p.Stop(Refused(FreshOnceNotObserved)))
    else if p.key in mem.spent then (w.(mem := mem), p.Stop(Refused(ApprovalEvidenceAlreadyConsumed)))
    else
      var spent := mem.(spent := mem.spent + {p.key});
      if p.message != env.render(p.Entry()) then
        (w.(mem := spent), p.Stop(Refused(ApprovalEvidenceMessageMismatch)))
      else (w.(mem := spent), p.To(Revalidate))
  }

  function StaleError(plan: Plan): Error {
    match plan
    case EditNote(_, _, _, _, _, _) => StaleOriginalHash
    case MoveDraft(_, _, _, _, _, _, _) => TargetAlreadyExists
    case DeleteNote(_, _, _, _, _) => DeleteTargetHashChanged
    case RestoreEdit(_, _, _, _, _, _, _, _, _) => RestoreCurrentStateChanged
    case RestoreMoveSource(_, _, _, _, _, _, _, _) => RestoreSourceNoLongerAbsent
  }

  function MissingError(plan: Plan): Error {
    match plan
    case EditNote(_, _, _, _, _, _) => RevalidationMissing(EditAction)
    case MoveDraft(_, _, _, _, _, _, _) => RevalidationMissing(MoveAction)
    case DeleteNote(_, _, _, _, _) => RevalidationMissing(DeleteAction)
    case RestoreEdit(_, _, _, _, _, _, _, _, _) => RestoreRequiredPathMissing
    case RestoreMoveSource(_, _, _, _, _, _, _, _) => RestoreRequiredPathMissing
  }

  /** The name under which the origin of a restore kept the bytes to bring back. */
  function OriginBackup(plan: Plan): Option<string> {
    if plan.RestoreMoveSource? then Some("source.bin")
    else if plan.RestoreEdit? && plan.originAction == EditAction then Some("original.bin")
    else if plan.RestoreEdit? && plan.originAction == RestoreEditAction then Some("before_restore.bin")
    else None
  }

  /** What makes a restore's origin unusable now, if anything does. */
  function OriginProblem(d: Disk, plan: Plan): Option<Error>
    requires plan.RestoreEdit? || plan.RestoreMoveSource?
  {
    var seen := Inspect(d, plan.origin);
    if seen.Unreadable? || seen.phase != Committed then Some(RestoreRecoveryRecordChanged)
    else if OriginBackup(plan).None? then Some(RestoreOriginActionInvalid)
    else
      var artifacts, name := d.records[plan.origin].artifacts, OriginBackup(plan).value;
      if name !in artifacts then Some(RestoreRequiredPathMissing)
      else if Sha256(artifacts[name]) != plan.restoreSha || Sha256(artifacts[name]) != plan.backupSha then
        Some(RestoreBackupChanged)
      else None
  }

  /** What the plan finds wrong with the notes, if anything. */
  function NoteProblem(env: Env, d: Disk, plan: Plan): Option<Error> {
    var current := At(d, MainPlace(plan));
    if MainPlace(plan) in d.unreadable || (plan.MoveDraft? && InInbox(plan.source) in d.unreadable) then Some(NoteUnreadable)
    else if Expected(plan).Some? && current.None? then Some(MissingError(plan))
    else if ShaOf(current) != Expected(plan) then Some(StaleError(plan))
    else if !plan.MoveDraft? then None
    else
      var source := At(d, InInbox(plan.source));
      if source.None? then Some(MissingError(plan))
      else if Sha256(source.value) != plan.sourceSha then Some(StaleSourceHash)
      else if !env.isDraft(source.value) then Some(SourceIsNotOrionDraft)
      else None
  }

  function SummaryError(c: Cached): Error {
    if c.plan.targetCanonical == "" || Sha256(c.diff) != c.plan.diffSha then ApprovalPreviewIncomplete
    else match c.plan
      case EditNote(_, _, _, _, _, _) => ProposedContentMismatch
      case MoveDraft(_, _, _, _, _, _, _) => SourceContentMismatch
      case DeleteNote(_, _, _, _, _) => DeleteContentMismatch
      case RestoreEdit(_, _, _, _, _, _, _, _, _) => RestoreContentMismatch
      case RestoreMoveSource(_, _, _, _, _, _, _, _) => RestoreSourceContentMismatch
  }

  function InvalidPreviewError(c: Cached): Error {
    match c.plan
    case EditNote(_, _, _, _, _, _) => RevalidationInvalid(EditAction)
    case MoveDraft(_, _, _, _, _, _, _) => RevalidationInvalid(MoveAction)
    case DeleteNote(_, _, _, _, _) => RevalidationInvalid(DeleteAction)
    case _ => SummaryError(c)
  }

  /** `_revalidate_*_preview_at_roots`: the stale check after the human decision. */
  function StaleCheck(env: Env, w: World, p: Proc): Option<Error> {
    var plan := p.token.plan;
    if p.token !in w.mem.previews then Some(UnknownOrExpiredPlan)
    else if !SummaryOk(w.mem.previews[p.token]) then Some(InvalidPreviewError(w.mem.previews[p.token]))
    else if plan.RestoreEdit? || plan.RestoreMoveSource? then
      var problem := OriginProblem(w.disk, plan);
      if problem.Some? then problem else NoteProblem(env, w.disk, plan)
    else NoteProblem(env, w.disk, plan)
  }

  /** The bytes a plan keeps in its record: what it overwrites, deletes or moves, or what it will create. */
  function KeptBytes(d: Disk, p: Proc): Option<Text> {
    var plan := p.token.plan;
    if plan.RestoreMoveSource? then Some(p.proposed)
    else if plan.MoveDraft? then At(d, InInbox(plan.source))
    else At(d, MainPlace(plan))
  }

  /** The re-read right before the record is made. */
  function AdmitStep(env: Env, w: World, p: Proc, c: Choice): (r: Proc) {
    if c.Die? then p.To(Dead)
    else if c.Raise? then p.Stop(Refused(CandidateFailure))
    else if c.Refuse? then p.Stop(Refused(c.why))
    else
      var problem, kept := NoteProblem(env, w.disk, p.token.plan), KeptBytes(w.disk, p);
      if problem == Some(MissingError(p.token.plan)) || problem == Some(NoteUnreadable) then p.Stop(Refused(CandidateFailure))
      else if problem.Some? then p.Stop(Refused(problem.value))
      else if kept.None? then p.Stop(Refused(CandidateFailure))
      else p.(pc := MakeRecord, kept := kept.value)
  }

  /** Both inventories, and what follows them. */
  function InventoryStep(env: Env, w: World, p: Proc, c: Choice, next: Pc): (r: Proc) {
    if c.Die? || c.Raise? then p.To(Dead)
    else if c.Refuse? then p.Stop(Refused(c.why))
    else
      var blocked := Blocked(env, w.disk);
      if blocked.Some? then p.Stop(Refused(blocked.value)) else p.To(next)
  }

  function LookupStep(w: World, p: Proc, c: Choice): (r: Proc) {
    if c.Die? || c.Raise? then p.To(Dead)
    else if p.token !in w.mem.previews then p.Stop(Refused(UnknownOrExpiredPlan))
    else
      var entry := w.mem.previews[p.token];
      if !SummaryOk(entry) then p.Stop(Refused(SummaryError(entry)))
      else if p.token in w.mem.consumed then p.Stop(Refused(PlanAlreadyConsumed))
      else p.(pc := Ask, diff := entry.diff, proposed := entry.proposed)
  }

  function RevalidateStep(env: Env, w: World, p: Proc, c: Choice): (r: Proc) {
    if c.Die? || c.Raise? then p.To(Dead)
    else
      var stale := StaleCheck(env, w, p);
      if stale.Some? then p.Stop(Refused(stale.value))
      else if c.Refuse? then p.Stop(Refused(c.why))
      else p.To(Reinventory)
  }

  // ---------- The record ----------

  function Extent(c: Choice): Left {
    match c
    case Go => Full
    case Refuse(_) => NoFile
    case Raise(left) => left
    case Die(left) => left
  }

  /** Where a thread goes that has a record and does not simply go on. */
  function Broken(p: Proc, c: Choice, started: bool): Proc {
    var q := p.(started := started);
    if c.Die? then q.To(Dead) else q.Stop(Outcome(false, CandidateFailure, started, true))
  }

  function Put(d: Disk, token: Token, rec: Record): Disk {
    d.(records := d.records[token := rec])
  }

  /** `_candidate_recovery_dir`: an exclusive `mkdir`. */
  function MakeRecordStep(w: World, p: Proc, c: Choice): (r: (World, Proc)) {
    if c.Die? then (w, p.To(Dead))
    else if !c.Go? then (w, p.Stop(Refused(CandidateFailure)))
    else if p.token in w.disk.records then (w, p.Stop(Refused(ProductionRecoveryOrTargetExists)))
    else (w.(disk := Put(w.disk, p.token, EMPTY_RECORD), log := w.log + [Event.Opened(p.token)]), p.To(Backup))
  }

  /** The next state of a record whose owner is at `pc`, and whose current write gets as far as `left`. */
  function RecordWrite(p: Proc, rec: Record, left: Left): Record {
    var plan := p.token.plan;
    var name := BackupName(plan.Act());
    match p.pc
    case Backup =>
      if left.NoFile? then rec
      else rec.(artifacts := rec.artifacts[name := if left.Part? then Cut(p.kept, left.n) else p.kept])
    case WriteManifest =>
      if left.Full? then rec.(manifest := Some(Manifest(Prepared, p.token, BodyOf(plan)))) else rec
    case WriteReceipt =>
      if left.NoFile? then rec
      else rec.(receipt := Some(if left.Part? then TornReceipt
        else Whole(Receipt(p.token, plan, p.Approval(), name, ReceiptBackupSha(p), Prepared, OriginOf(plan)))))
    case CommitManifest =>
      if left.Full? then rec.(manifest := Some(Manifest(Committed, p.token, BodyOf(plan)))) else rec
    case CommitReceipt =>
      if left.Full? && rec.receipt.Some? && rec.receipt.value.Whole? && rec.receipt.value.receipt.phase == Prepared then
        rec.(receipt := Some(Whole(rec.receipt.value.receipt.(phase := Committed))))
      else rec
    case _ => rec
  }

  /** A receipt names the kept bytes by their hash, except that a recreated source is named by its plan. */
  function ReceiptBackupSha(p: Proc): Digest {
    if p.token.plan.RestoreMoveSource? then p.token.plan.restoreSha else Sha256(p.kept)
  }

  function AfterWrite(p: Proc): Pc {
    match p.pc
    case Backup => WriteManifest
    case WriteManifest => WriteReceipt
    case WriteReceipt => Consume
    case CommitManifest => CommitReceipt
    case _ => Finished(Outcome(true, NoError, true, false))
  }

  function RecordStep(w: World, p: Proc, c: Choice): (r: (World, Proc)) {
    if p.token !in w.disk.records then (w, Broken(p, c, p.started))
    else
      var rec := w.disk.records[p.token];
      var written := RecordWrite(p, rec, Extent(c));
      var w' := w.(disk := Put(w.disk, p.token, written));
      (w', if !c.Go? || (p.pc.CommitReceipt? && written == rec) then Broken(p, c, p.started) else p.To(AfterWrite(p)))
  }

  function ConsumeStep(w: World, p: Proc, c: Choice): (r: (World, Proc)) {
    if !c.Go? then (w, Broken(p, c, false))
    else if p.token in w.mem.consumed then (w, p.Stop(Refused(PlanAlreadyConsumed)))
    else
      var next := if Replaces(p.token.plan) then StageFile else if p.token.plan.MoveDraft? then Probe else Protect;
      (w.(mem := w.mem.(consumed := w.mem.consumed + {p.token})), p.To(next))
  }

  // ---------- The protected writes ----------

  function Unstaged(d: Disk, p: Proc): Disk { d.(temps := d.temps - {p.token}) }

  /** The replacement file next to the target; removed again unless the process dies. */
  function StageStep(w: World, p: Proc, c: Choice): (r: (World, Proc)) {
    if c.Go? then (w.(disk := w.disk.(temps := w.disk.temps[p.token := p.proposed])), p.To(Protect))
    else if c.Die? && c.left.Part? then
      (w.(disk := w.disk.(temps := w.disk.temps[p.token := Cut(p.proposed, c.left.n)])), p.To(Dead))
    else if c.Die? then (w, p.To(Dead))
    else (w.(disk := Unstaged(w.disk, p)), Broken(p, c, false))
  }

  function LateError(plan: Plan): Error {
    match plan
    case EditNote(_, _, _, _, _, _) => StaleOriginalHash
    case MoveDraft(_, _, _, _, _, _, _) => TargetCreateRace
    case DeleteNote(_, _, _, _, _) => DeleteTargetChangedBeforeDelete
    case RestoreEdit(_, _, _, _, _, _, _, _, _) => RestoreCurrentStateChanged
    case RestoreMoveSource(_, _, _, _, _, _, _, _) => RestoreSourceCreateRace
  }

  /** The content a protected write that got as far as `left` puts in place; none if it changed nothing. */
  function Written(d: Disk, p: Proc, left: Left): Option<Option<Text>> {
    if Creates(p.token.plan) then
      if left.NoFile? then None
      else Some(Some(if left.Part? then Cut(p.kept, left.n) else p.kept))
    else if !left.Full? then None
    else if p.token.plan.DeleteNote? then Some(None)
    else if p.token in d.temps then Some(Some(d.temps[p.token]))
    else None
  }

  function Change(w: World, p: Proc, place: Place, content: Option<Text>): World {
    w.(disk := With(w.disk, place, content), log := w.log + [Changed(p.key, p.token, place, At(w.disk, place), content)])
  }

  /** Final check and protected write. */
  function ProtectStep(w: World, p: Proc, c: Choice): (r: (World, Proc)) {
    var plan, place := p.token.plan, MainPlace(p.token.plan);
    var clean := if Replaces(plan) && !c.Die? then w.(disk := Unstaged(w.disk, p)) else w;
    if c.Refuse? && Replaces(plan) then (clean, p.Stop(Outcome(false, if plan.EditNote? then TargetFileIdChanged else RestoreTargetFileIdChanged, false, true)))
    else if Expected(plan).Some? && At(w.disk, place).None? then (clean, Broken(p, c, false))
    else if ShaOf(At(w.disk, place)) != Expected(plan) then
      (clean, if c.Die? then p.To(Dead) else p.Stop(Outcome(false, LateError(plan), false, true)))
    else
      var content := Written(w.disk, p, Extent(c));
      // Creating sets the flag before the call; the others set it after the last check.
      var q := p.(started := Creates(plan) || !Extent(c).NoFile?, wrote := content.Some?);
      var w' := if content.Some? then Change(clean, p, place, content.value) else clean;
      (w', if c.Go? && content.Some? then q.To(if plan.MoveDraft? then VerifyCopy else Verify) else Broken(q, c, q.started))
  }

  /** A move looks for its target once more before it creates it. */
  function ProbeStep(w: World, p: Proc, c: Choice): (r: (World, Proc)) {
    (w, if !c.Go? then Broken(p, c, false)
        else if At(w.disk, MainPlace(p.token.plan)).Some? then p.Stop(Outcome(false, TargetAlreadyExists, false, true))
        else p.To(Protect))
  }

  /** The second half of a move: the source goes only if it still holds the approved bytes. */
  function UnlinkStep(w: World, p: Proc, c: Choice): (r: (World, Proc)) {
    if !p.token.plan.MoveDraft? then (w, Broken(p, c, p.started))
    else
      var place := InInbox(p.token.plan.source);
      if At(w.disk, place).None? then (w, Broken(p, c, p.started))
      else if ShaOf(At(w.disk, place)) != Some(p.token.plan.sourceSha) then
        (w, if c.Die? then p.To(Dead) else p.Stop(Outcome(false, SourceChangedBeforeDelete, true, true)))
      else
        var w' := if Extent(c).Full? then Change(w, p, place, None) else w;
        (w', if c.Go? then p.To(Verify) else Broken(p, c, p.started))
  }

  function MismatchError(plan: Plan): Error {
    match plan
    case EditNote(_, _, _, _, _, _) => PostWriteHashMismatch
    case MoveDraft(_, _, _, _, _, _, _) => MovePostconditionFailed
    case DeleteNote(_, _, _, _, _) => DeletePostconditionFailed
    case RestoreEdit(_, _, _, _, _, _, _, _, _) => RestorePostWriteHashMismatch
    case RestoreMoveSource(_, _, _, _, _, _, _, _) => RestorePostCreateHashMismatch
  }

  /** The check after a write; a file that is gone by now cannot even be read. */
  function VerifyStep(w: World, p: Proc, c: Choice): (r: (World, Proc)) {
    var plan, current := p.token.plan, At(w.disk, MainPlace(p.token.plan));
    var unreadable := Promised(plan).Some? && current.None?;
    var asPromised := ShaOf(current) == Promised(plan);
    if !c.Go? then (w, Broken(p, c, p.started))
    else if p.pc.VerifyCopy? then
      (w, if unreadable then Broken(p, c, p.started)
          else if asPromised then p.To(Unlink)
          else p.Stop(Outcome(false, TargetHashMismatch, true, true)))
    else
      var left := plan.MoveDraft? && At(w.disk, InInbox(plan.source)).Some?;
      (w, if left then p.Stop(Outcome(false, MismatchError(plan), true, true))
          else if unreadable then Broken(p, c, p.started)
          else if asPromised then p.To(CommitManifest)
          else p.Stop(Outcome(false, MismatchError(plan), true, true)))
  }

  /** One step of one thread. */
  function Step(env: Env, w: World, p: Proc, c: Choice): (r: (World, Proc)) {
    match p.pc
    case Inventory => (w, InventoryStep(env, w, p, c, Lookup))
    case Lookup => (w, LookupStep(w, p, c))
    case Ask => AskStep(env, w, p, c)
    case Await => AwaitStep(env, w, p, c)
    case Revalidate => (w, RevalidateStep(env, w, p, c))
    case Reinventory => (w, InventoryStep(env, w, p, c, Admit))
    case Admit => (w, AdmitStep(env, w, p, c))
    case MakeRecord => MakeRecordStep(w, p, c)
    case Backup => RecordStep(w, p, c)
    case WriteManifest => RecordStep(w, p, c)
    case WriteReceipt => RecordStep(w, p, c)
    case Consume => ConsumeStep(w, p, c)
    case StageFile => StageStep(w, p, c)
    case Probe => ProbeStep(w, p, c)
    case Protect => ProtectStep(w, p, c)
    case VerifyCopy => VerifyStep(w, p, c)
    case Unlink => UnlinkStep(w, p, c)
    case Verify => VerifyStep(w, p, c)
    case CommitManifest => RecordStep(w, p, c)
    case CommitReceipt => RecordStep(w, p, c)
    case Finished(_) => (w, p)
    case Dead => (w, p)
  }
}
