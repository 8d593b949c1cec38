/**
 The vault-action plugin's plans, its private preview entries, and what it keeps on disk: notes,
 inbox drafts and one recovery record per executed plan.

 A digest is identified with what it hashes and a plan token with the plan it names, so SHA-256 is
 injective by construction. Text stands for its UTF-8 bytes.
 */
module VaultModel {
  import opened Wrappers

  type Path = string
  type Text = string

  datatype Digest = Sha256(text: Text)
  datatype Token = PlanToken(plan: Plan)

  datatype Action = EditAction | MoveAction | DeleteAction | RestoreEditAction | RestoreMoveAction

  /** The public, immutable part of a preview. */
  datatype Plan =
    | EditNote(nonce: string, target: Path, targetCanonical: string,
               originalSha: Digest, proposedSha: Digest, diffSha: Digest)
    | MoveDraft(nonce: string, source: Path, sourceCanonical: string, target: Path, targetCanonical: string,
                sourceSha: Digest, diffSha: Digest)
    | DeleteNote(nonce: string, target: Path, targetCanonical: string, targetSha: Digest, diffSha: Digest)
    | RestoreEdit(nonce: string, origin: Token, originAction: Action, target: Path, targetCanonical: string,
                  currentSha: Digest, restoreSha: Digest, backupSha: Digest, diffSha: Digest)
    | RestoreMoveSource(nonce: string, origin: Token, source: Path, targetCanonical: string,
                        restoreSha: Digest, backupSha: Digest, referenceCanonical: string, diffSha: Digest)
  {
    function Act(): Action {
      match this
      case EditNote(_, _, _, _, _, _) => EditAction
      case MoveDraft(_, _, _, _, _, _, _) => MoveAction
      case DeleteNote(_, _, _, _, _) => DeleteAction
      case RestoreEdit(_, _, _, _, _, _, _, _, _) => RestoreEditAction
      case RestoreMoveSource(_, _, _, _, _, _, _, _) => RestoreMoveAction
    }
  }

  /** A preview cache entry: the plan with the exact diff and bytes kept private. */
  datatype Cached = Cached(plan: Plan, diff: Text, proposed: Text) {
    function Token(): Token { PlanToken(plan) }
  }

  /** The checks `_approval_summary` makes before it renders anything. */
  predicate SummaryOk(c: Cached) {
    && c.plan.targetCanonical != ""
    && Sha256(c.diff) == c.plan.diffSha
    && match c.plan
       case EditNote(_, _, _, _, proposedSha, _) => Sha256(c.proposed) == proposedSha
       case MoveDraft(_, _, _, _, _, sourceSha, _) => Sha256(c.proposed) == sourceSha
       case DeleteNote(_, _, _, targetSha, _) => Sha256(c.proposed) == targetSha
       case RestoreEdit(_, _, _, _, _, _, restoreSha, backupSha, _) =>
         Sha256(c.proposed) == restoreSha && restoreSha == backupSha
       case RestoreMoveSource(_, _, _, _, restoreSha, backupSha, _, _) =>
         Sha256(c.proposed) == restoreSha && restoreSha == backupSha
  }

  /**
   What the executor and the inspector share about texts: the UTF-8 length, the rendering of an approval, the
   receipt's check of that text against a plan, and the test for the two front-matter lines of a draft.
   */
  datatype Env = Env(size: Text -> nat, render: Cached -> Text, accepts: (Plan, Text) -> bool, isDraft: Text -> bool)

  const MAX_APPROVAL_MESSAGE_CHARS := 16_000

  /** Whatever is rendered for a human is also what the receipt's check accepts. */
  ghost predicate Consistent(env: Env) {
    forall c: Cached :: SummaryOk(c) ==> env.accepts(c.plan, env.render(c))
  }

  /** The error codes of the executor; `Other` stands for the codes of checks that are not modelled. */
  datatype Error =
    | NoError | CandidateFailure | NoteUnreadable | RevalidationMissing(action: Action) | RevalidationInvalid(action: Action) | Other(code: string)
    | ProductionRecoveryInventoryTruncated | ProductionRecoveryAttentionRequired
    | UnknownOrExpiredPlan | ApprovalPreparationFailed | ApprovalMessageTooLarge | ApprovalMessageRedacted
    | ApprovalAttemptLimit | ApprovalGateFailed | FreshOnceNotObserved | ApprovalEvidenceAlreadyConsumed
    | ApprovalEvidenceMessageMismatch | ApprovalPreviewIncomplete | PlanAlreadyConsumed
    | ProposedContentMismatch | SourceContentMismatch | DeleteContentMismatch | RestoreContentMismatch
    | RestoreSourceContentMismatch
    | StaleOriginalHash | TargetAlreadyExists | DeleteTargetHashChanged | RestoreCurrentStateChanged
    | RestoreSourceNoLongerAbsent | RestoreRequiredPathMissing | RestoreRecoveryRecordChanged
    | RestoreOriginActionInvalid | RestoreBackupChanged | StaleSourceHash | SourceIsNotOrionDraft
    | ProductionRecoveryOrTargetExists | TargetCreateRace | DeleteTargetChangedBeforeDelete
    | RestoreSourceCreateRace | TargetFileIdChanged | SourceChangedBeforeDelete | PostWriteHashMismatch
    | MovePostconditionFailed | DeletePostconditionFailed | RestorePostWriteHashMismatch
    | RestorePostCreateHashMismatch | TargetHashMismatch | RestoreTargetFileIdChanged

  // ---------- Recovery records ----------

  datatype Phase = Prepared | Committed

  datatype ManifestBody =
    | EditBody(target: Path, before: Digest, after: Digest)
    | MoveBody(source: Path, target: Path, sha: Digest)
    | DeleteBody(target: Path, before: Digest)
    | RestoreEditBody(origin: Token, target: Path, before: Digest, after: Digest)
    | RestoreMoveBody(origin: Token, source: Path, after: Digest)

  datatype Manifest = Manifest(phase: Phase, token: Token, body: ManifestBody)

  /** The human decision as it is kept: who answered which attempt, with what text. */
  datatype Evidence = Evidence(attempt: nat, message: string, messageSha: Digest)

  datatype Receipt = Receipt(token: Token, plan: Plan, approval: Evidence, backupFile: string, backupSha: Digest,
                             phase: Phase, origin: Option<Token>)

  /** An exclusively created file may be torn by a crash; a torn receipt is not valid JSON. */
  datatype ReceiptFile = TornReceipt | Whole(receipt: Receipt)

  datatype Record = Record(artifacts: map<string, Text>, manifest: Option<Manifest>, receipt: Option<ReceiptFile>)

  const EMPTY_RECORD := Record(map[], None, None)

  datatype Place = InVault(path: Path) | InInbox(path: Path)

  /**
   Notes, drafts, temporary files and recovery records; the places that path policy refuses or that cannot be
   read; and the names under the recovery root that are no record directories.
   */
  datatype Disk = Disk(vault: map<Path, Text>, inbox: map<Path, Text>, temps: map<Token, Text>, records: map<Token, Record>,
                       unreadable: set<Place>, strays: set<string>)

  function BackupName(action: Action): string {
    match action
    case EditAction => "original.bin"
    case MoveAction => "source.bin"
    case DeleteAction => "deleted_target.bin"
    case RestoreEditAction => "before_restore.bin"
    case RestoreMoveAction => "created_source.bin"
  }

  function BodyOf(plan: Plan): ManifestBody {
    match plan
    case EditNote(_, target, _, originalSha, proposedSha, _) => EditBody(target, originalSha, proposedSha)
    case MoveDraft(_, source, _, target, _, sourceSha, _) => MoveBody(source, target, sourceSha)
    case DeleteNote(_, target, _, targetSha, _) => DeleteBody(target, targetSha)
    case RestoreEdit(_, origin, _, target, _, currentSha, restoreSha, _, _) =>
      RestoreEditBody(origin, target, currentSha, restoreSha)
    case RestoreMoveSource(_, origin, source, _, restoreSha, _, _, _) => RestoreMoveBody(origin, source, restoreSha)
  }

  function OriginOf(plan: Plan): Option<Token> {
    if plan.RestoreEdit? || plan.RestoreMoveSource? then Some(plan.origin) else None
  }

  function HashAt(files: map<Path, Text>, p: Path): Option<Digest> {
    if p in files then Some(Sha256(files[p])) else None
  }
}
