/**
 What can be said about an executed plan from disk alone: the classification of its record, the
 validation of its receipt, and the inventory that blocks further work.
 */
module Recovery {
  import opened Wrappers
  import opened VaultModel

  const PRODUCTION_RECOVERY_SCAN_LIMIT: nat := 128

  datatype Class =
    | CommittedAsIs | CommittedThenChanged | PreparedNoEffect | AppliedUnfinalized
    | DuplicateUnresolved | DivergentUnresolved

  /** Why a record or a receipt cannot be relied on. */
  datatype Flaw =
    | RecoveryRecordMissing | RecoveryManifestMissing | RecoveryManifestInvalid | RecoveryBackupMissing
    | RecoveryBackupHashMismatch | RecoveryNoteUnreadable
    | ReceiptMissing | ReceiptInvalidJson | ReceiptInvalid | ReceiptBackupMissing | ReceiptBackupHashMismatch
    | ReceiptRecoveryRecordInvalid | ReceiptRecoveryCorrelationMismatch

  datatype Inspection =
    | Unreadable(flaw: Flaw)
    | Inspected(action: Action, phase: Phase, classification: Class, backup: Digest)
  {
    predicate RecoveryRequired() {
      Inspected? && classification !in {CommittedAsIs, CommittedThenChanged, PreparedNoEffect}
    }
  }

  function ActionOf(body: ManifestBody): Action {
    match body
    case EditBody(_, _, _) => EditAction
    case MoveBody(_, _, _) => MoveAction
    case DeleteBody(_, _) => DeleteAction
    case RestoreEditBody(_, _, _, _) => RestoreEditAction
    case RestoreMoveBody(_, _, _) => RestoreMoveAction
  }

  /** The digest the kept file must have. */
  function KeptSha(body: ManifestBody): Digest {
    match body
    case EditBody(_, before, _) => before
    case MoveBody(_, _, sha) => sha
    case DeleteBody(_, before) => before
    case RestoreEditBody(_, _, before, _) => before
    case RestoreMoveBody(_, _, after) => after
  }

  /** Classification of one file that goes from `before` to `after`. */
  function ClassifyOne(phase: Phase, current: Option<Digest>, before: Option<Digest>, after: Option<Digest>): Class {
    if phase == Committed then (if current == after then CommittedAsIs else CommittedThenChanged)
    else if current == before then PreparedNoEffect
    else if current == after then AppliedUnfinalized
    else DivergentUnresolved
  }

  function ClassifyMove(phase: Phase, source: Option<Digest>, target: Option<Digest>, sha: Digest): Class {
    if phase == Committed then
      (if source == None && target == Some(sha) then CommittedAsIs else CommittedThenChanged)
    else if source == Some(sha) && target == None then PreparedNoEffect
    else if source == Some(sha) && target == Some(sha) then DuplicateUnresolved
    else if source == None && target == Some(sha) then AppliedUnfinalized
    else DivergentUnresolved
  }

  function Classify(d: Disk, phase: Phase, body: ManifestBody): Class {
    match body
    case EditBody(target, before, after) => ClassifyOne(phase, HashAt(d.vault, target), Some(before), Some(after))
    case MoveBody(source, target, sha) => ClassifyMove(phase, HashAt(d.inbox, source), HashAt(d.vault, target), sha)
    case DeleteBody(target, before) => ClassifyOne(phase, HashAt(d.vault, target), Some(before), None)
    case RestoreEditBody(_, target, before, after) =>
      ClassifyOne(phase, HashAt(d.vault, target), Some(before), Some(after))
    case RestoreMoveBody(_, source, after) => ClassifyOne(phase, HashAt(d.inbox, source), None, Some(after))
  }

  /** The notes whose hashes the classification needs. */
  function NotesOf(body: ManifestBody): set<Place> {
    match body
    case EditBody(target, _, _) => {InVault(target)}
    case MoveBody(source, target, _) => {InInbox(source), InVault(target)}
    case DeleteBody(target, _) => {InVault(target)}
    case RestoreEditBody(_, target, _, _) => {InVault(target)}
    case RestoreMoveBody(_, source, _) => {InInbox(source)}
  }

  predicate NotesReadable(d: Disk, body: ManifestBody) { NotesOf(body) !! d.unreadable }

  /** `_inspect_recovery_record_at_roots`; a committed record too needs its notes to be readable. */
  function Inspect(d: Disk, token: Token): Inspection {
    if token !in d.records then Unreadable(RecoveryRecordMissing)
    else
      var rec := d.records[token];
      if rec.manifest.None? then Unreadable(RecoveryManifestMissing)
      else
        var m := rec.manifest.value;
        var name := BackupName(ActionOf(m.body));
        if m.token != token then Unreadable(RecoveryManifestInvalid)
        else if name !in rec.artifacts then Unreadable(RecoveryBackupMissing)
        else if Sha256(rec.artifacts[name]) != KeptSha(m.body) then Unreadable(RecoveryBackupHashMismatch)
        else if !NotesReadable(d, m.body) then Unreadable(RecoveryNoteUnreadable)
        else Inspected(ActionOf(m.body), m.phase, Classify(d, m.phase, m.body), KeptSha(m.body))
  }

  datatype ReceiptView =
    | BadReceipt(flaw: Flaw)
    | GoodReceipt(action: Action, phase: Phase, classification: Class, recoveryRequired: bool)
  {
    predicate ReconciliationRequired() { GoodReceipt? && phase != Committed }
  }

  /** What a receipt says about itself, before its kept file and record are looked at. */
  predicate ReceiptWellFormed(env: Env, token: Token, r: Receipt) {
    && r.token == token
    && PlanToken(r.plan) == token
    && env.size(r.approval.message) <= MAX_APPROVAL_MESSAGE_CHARS
    && Sha256(r.approval.message) == r.approval.messageSha
    && env.accepts(r.plan, r.approval.message)
    && (OriginOf(r.plan).Some? ==> r.origin == OriginOf(r.plan))
  }

  /** `_inspect_receipt_at_roots`. */
  function InspectReceipt(env: Env, d: Disk, token: Token): ReceiptView {
    if token !in d.records || d.records[token].receipt.None? then BadReceipt(ReceiptMissing)
    else
      var rec := d.records[token];
      if rec.receipt.value.TornReceipt? then BadReceipt(ReceiptInvalidJson)
      else
        var r := rec.receipt.value.receipt;
        if !ReceiptWellFormed(env, token, r) then BadReceipt(ReceiptInvalid)
        else if !(exists action :: r.backupFile == BackupName(action)) || r.backupFile !in rec.artifacts then
          BadReceipt(ReceiptBackupMissing)
        else if Sha256(rec.artifacts[r.backupFile]) != r.backupSha then BadReceipt(ReceiptBackupHashMismatch)
        else
          var recovery := Inspect(d, token);
          if recovery.Unreadable? then BadReceipt(ReceiptRecoveryRecordInvalid)
          else if recovery.action != r.plan.Act() || recovery.backup != r.backupSha then
            BadReceipt(ReceiptRecoveryCorrelationMismatch)
          else if r.phase != Committed && recovery.classification == CommittedAsIs then
            GoodReceipt(recovery.action, r.phase, AppliedUnfinalized, true)
          else GoodReceipt(recovery.action, r.phase, recovery.classification, recovery.RecoveryRequired())
  }

  predicate NeedsAttention(env: Env, d: Disk, token: Token) {
    var recovery, receipt := Inspect(d, token), InspectReceipt(env, d, token);
    || recovery.Unreadable?
    || receipt.BadReceipt?
    || recovery.RecoveryRequired()
    || receipt.ReconciliationRequired()
    || recovery.classification in {AppliedUnfinalized, DivergentUnresolved, DuplicateUnresolved}
  }

  function Attending(env: Env, d: Disk): set<Token> {
    set t | t in d.records && NeedsAttention(env, d, t)
  }

  /** What the preflight and the second inventory refuse with, if anything. */
  function Blocked(env: Env, d: Disk): Option<Error> {
    if |d.records| + |d.strays| > PRODUCTION_RECOVERY_SCAN_LIMIT then Some(ProductionRecoveryInventoryTruncated)
    else if d.strays != {} || Attending(env, d) != {} then Some(ProductionRecoveryAttentionRequired)
    else None
  }

  /** One name under the recovery root: a record directory, or anything else. */
  datatype Entry = Stray(name: string) | OfRecord(token: Token)

  function RecordEntries(tokens: set<Token>): set<Entry> { set t | t in tokens :: OfRecord(t) }

  function StrayEntries(names: set<string>): set<Entry> { set name | name in names :: Stray(name) }

  function Entries(d: Disk): set<Entry> { RecordEntries(d.records.Keys) + StrayEntries(d.strays) }

  /** Everything that is no record needs attention, and the records that do. */
  predicate EntryAttends(env: Env, d: Disk, e: Entry) { e.Stray? || NeedsAttention(env, d, e.token) }

  /** The directory is listed once, in any order. */
  ghost predicate Lists(entries: seq<Entry>, d: Disk) {
    && (forall i, j :: 0 <= i < j < |entries| ==> entries[i] != entries[j])
    && (forall e :: e in entries <==> e in Entries(d))
  }

  datatype Tally = Tally(count: nat, attention: nat, truncated: bool)

  /** `_enumerate_production_recovery_records` over a directory listing in any order. */
  method Enumerate(env: Env, d: Disk, entries: seq<Entry>, limit: int) returns (inventory: Option<Tally>)
    requires Lists(entries, d)
    ensures inventory.None? <==> limit < 1
    ensures inventory.Some? ==>
      var bound: int := if limit < PRODUCTION_RECOVERY_SCAN_LIMIT then limit else PRODUCTION_RECOVERY_SCAN_LIMIT;
      var found := inventory.value;
      && (found.truncated <==> |d.records| + |d.strays| > bound)
      && found.count == (if found.truncated then bound else |d.records| + |d.strays|)
      && (!found.truncated ==> (found.attention > 0 <==> d.strays != {} || Attending(env, d) != {}))
  {
    if limit < 1 {
      return None;
    }
    var bound: nat := if limit < PRODUCTION_RECOVERY_SCAN_LIMIT then limit else PRODUCTION_RECOVERY_SCAN_LIMIT;
    var tally := Scan(entries, e => EntryAttends(env, d, e), bound);
    ListingCounts(d, entries);
    SomeAttending(env, d, entries);
    inventory := Some(tally);
  }

  /** The loop of the enumeration: the bound is looked at before each entry. */
  method Scan(entries: seq<Entry>, attends: Entry -> bool, bound: nat) returns (tally: Tally)
    ensures tally.count == (if |entries| <= bound then |entries| else bound)
    ensures tally.truncated <==> |entries| > bound
    ensures tally.attention > 0 <==> exists k :: 0 <= k < tally.count && attends(entries[k])
  {
    var count: nat, attention: nat := 0, 0;
    while count < |entries|
      invariant count <= |entries| && count <= bound
      invariant attention > 0 <==> exists k :: 0 <= k < count && attends(entries[k])
    {
      if count >= bound {
        return Tally(count, attention, true);
      }
      if attends(entries[count]) {
        attention := attention + 1;
      }
      count := count + 1;
    }
    tally := Tally(count, attention, false);
  }

  /** Some entry of the listing needs attention exactly when there is a stray or such a record. */
  lemma SomeAttending(env: Env, d: Disk, entries: seq<Entry>)
    requires Lists(entries, d)
    ensures (exists k :: 0 <= k < |entries| && EntryAttends(env, d, entries[k])) <==> d.strays != {} || Attending(env, d) != {}
  {
    if t :| t in Attending(env, d) { assert OfRecord(t) in entries && EntryAttends(env, d, OfRecord(t)); }
    if name :| name in d.strays { assert Stray(name) in entries && EntryAttends(env, d, Stray(name)); }
    if k :| 0 <= k < |entries| && EntryAttends(env, d, entries[k]) {
      assert entries[k] in Entries(d);
      assert entries[k].Stray? || entries[k].token in Attending(env, d);
    }
  }

  lemma ListingCounts(d: Disk, entries: seq<Entry>)
    requires Lists(entries, d)
    ensures |entries| == |d.records| + |d.strays|
  {
    DistinctCount(entries);
    assert (set e | e in entries) == Entries(d);
    EntriesCount(d);
  }

  lemma EntriesCount(d: Disk)
    ensures |Entries(d)| == |d.records| + |d.strays|
  {
    RecordsCount(d.records.Keys);
    StraysCount(d.strays);
    assert |d.records| == |d.records.Keys|;
    DisjointCount(RecordEntries(d.records.Keys), StrayEntries(d.strays));
  }

  lemma DisjointCount(a: set<Entry>, b: set<Entry>)
    requires a !! b
    ensures |a + b| == |a| + |b|
  {
  }

  lemma {:induction false} RecordsCount(tokens: set<Token>)
    ensures |RecordEntries(tokens)| == |tokens|
  {
    if tokens != {} {
      var t :| t in tokens;
      RecordsCount(tokens - {t});
      assert RecordEntries(tokens) == RecordEntries(tokens - {t}) + {OfRecord(t)};
    }
  }

  lemma {:induction false} StraysCount(names: set<string>)
    ensures |StrayEntries(names)| == |names|
  {
    if names != {} {
      var name :| name in names;
      StraysCount(names - {name});
      assert StrayEntries(names) == StrayEntries(names - {name}) + {Stray(name)};
    }
  }

  lemma {:induction false} DistinctCount(entries: seq<Entry>)
    requires forall i, j :: 0 <= i < j < |entries| ==> entries[i] != entries[j]
    ensures |set e | e in entries| == |entries|
  {
    if entries != [] {
      var rest := entries[1..];
      assert forall i :: 0 <= i < |rest| ==> rest[i] == entries[i + 1];
      DistinctCount(rest);
      assert (set e | e in entries) == {entries[0]} + (set e | e in rest);
      assert entries[0] !in rest;
    } else {
      assert (set e | e in entries) == {};
    }
  }

  /** The check both inventories make before any record is created. */
  method CheckInventory(env: Env, d: Disk, entries: seq<Entry>) returns (refusal: Option<Error>)
    requires Lists(entries, d)
    ensures refusal == Blocked(env, d)
  {
    var inventory := Enumerate(env, d, entries, PRODUCTION_RECOVERY_SCAN_LIMIT);
    if inventory.value.truncated {
      return Some(ProductionRecoveryInventoryTruncated);
    }
    if inventory.value.attention > 0 {
      return Some(ProductionRecoveryAttentionRequired);
    }
    refusal := None;
  }

  // ---------- What the executor leaves behind ----------

  /** How far one record has got. */
  datatype Stage =
    | Opened | BackupTorn(n: nat) | BackedUp | ManifestReady | ReceiptTorn | ReceiptReady | ManifestDone | ReceiptDone

  function Cut(text: Text, n: nat): Text {
    if n <= |text| then text[..n] else text
  }

  function ReceiptOf(plan: Plan, kept: Text, approval: Evidence, phase: Phase): Receipt {
    Receipt(PlanToken(plan), plan, approval, BackupName(plan.Act()), Sha256(kept), phase, OriginOf(plan))
  }

  /** The record of a plan whose kept bytes and approval are given, at one stage. */
  function RecordAt(plan: Plan, kept: Text, approval: Evidence, stage: Stage): Record {
    var name, body := BackupName(plan.Act()), BodyOf(plan);
    var backup := map[name := kept];
    var prepared := Some(Manifest(Prepared, PlanToken(plan), body));
    var committed := Some(Manifest(Committed, PlanToken(plan), body));
    match stage
    case Opened => EMPTY_RECORD
    case BackupTorn(n) => Record(map[name := Cut(kept, n)], None, None)
    case BackedUp => Record(backup, None, None)
    case ManifestReady => Record(backup, prepared, None)
    case ReceiptTorn => Record(backup, prepared, Some(TornReceipt))
    case ReceiptReady => Record(backup, prepared, Some(Whole(ReceiptOf(plan, kept, approval, Prepared))))
    case ManifestDone => Record(backup, committed, Some(Whole(ReceiptOf(plan, kept, approval, Prepared))))
    case ReceiptDone => Record(backup, committed, Some(Whole(ReceiptOf(plan, kept, approval, Committed))))
  }

  /**
   What holds of every record at every moment, whoever left it and whatever happened to the notes since:
   each file of a record exists only when the ones before it are complete.
   */
  predicate Sound(env: Env, token: Token, rec: Record) {
    var plan := token.plan;
    var name := BackupName(plan.Act());
    && (rec.receipt.Some? ==> rec.manifest.Some?)
    && (rec.manifest.Some? ==>
      && rec.manifest.value.token == token
      && rec.manifest.value.body == BodyOf(plan)
      && name in rec.artifacts && Sha256(rec.artifacts[name]) == KeptSha(BodyOf(plan))
      && (rec.manifest.value.phase == Committed ==> rec.receipt.Some? && rec.receipt.value.Whole?))
    && (rec.receipt.Some? && rec.receipt.value.Whole? ==>
      var r := rec.receipt.value.receipt;
      && ReceiptWellFormed(env, token, r)
      && r.plan == plan && r.origin == OriginOf(plan)
      && r.backupFile == name && r.backupSha == KeptSha(BodyOf(plan))
      && (r.phase == Committed ==> rec.manifest.value.phase == Committed))
  }

  /** Finished business: the receipt is committed. */
  predicate Settled(rec: Record) {
    rec.receipt.Some? && rec.receipt.value.Whole? && rec.receipt.value.receipt.phase == Committed
  }

  lemma ActOfBody(plan: Plan)
    ensures ActionOf(BodyOf(plan)) == plan.Act()
  {
  }

  /**
   A sound record needs attention exactly when its receipt is not committed or a note it names cannot be read;
   what the notes contain has no say.
   */
  lemma AttentionExactly(env: Env, d: Disk, token: Token)
    requires token in d.records && Sound(env, token, d.records[token])
    ensures NeedsAttention(env, d, token) <==> !Settled(d.records[token]) || !NotesReadable(d, BodyOf(token.plan))
  {
    var rec := d.records[token];
    ActOfBody(token.plan);
    if rec.receipt.Some? && rec.receipt.value.Whole? {
      assert rec.receipt.value.receipt.backupFile == BackupName(token.plan.Act());
    }
  }

  // ---------- What a class says about the notes ----------

  predicate Holds(files: map<Path, Text>, path: Path, sha: Digest) { path in files && Sha256(files[path]) == sha }

  /** The notes are as the plan found them. */
  predicate PreImage(d: Disk, plan: Plan) {
    match plan
    case EditNote(_, target, _, originalSha, _, _) => Holds(d.vault, target, originalSha)
    case MoveDraft(_, source, _, target, _, sourceSha, _) => Holds(d.inbox, source, sourceSha) && target !in d.vault
    case DeleteNote(_, target, _, targetSha, _) => Holds(d.vault, target, targetSha)
    case RestoreEdit(_, _, _, target, _, currentSha, _, _, _) => Holds(d.vault, target, currentSha)
    case RestoreMoveSource(_, _, source, _, _, _, _, _) => source !in d.inbox
  }

  /** The notes are as the plan promises them. */
  predicate PostImage(d: Disk, plan: Plan) {
    match plan
    case EditNote(_, target, _, _, proposedSha, _) => Holds(d.vault, target, proposedSha)
    case MoveDraft(_, source, _, target, _, sourceSha, _) => source !in d.inbox && Holds(d.vault, target, sourceSha)
    case DeleteNote(_, target, _, _, _) => target !in d.vault
    case RestoreEdit(_, _, _, target, _, _, restoreSha, _, _) => Holds(d.vault, target, restoreSha)
    case RestoreMoveSource(_, _, source, _, restoreSha, _, _, _) => Holds(d.inbox, source, restoreSha)
  }

  /** A move's draft is whole at both its places. */
  predicate BothCopies(d: Disk, plan: Plan) {
    plan.MoveDraft? && Holds(d.inbox, plan.source, plan.sourceSha) && Holds(d.vault, plan.target, plan.sourceSha)
  }

  /** What a class means for the notes as they are now, whoever wrote them. */
  predicate ClassFits(d: Disk, plan: Plan, phase: Phase, kind: Class) {
    match kind
    case CommittedAsIs => phase == Committed && PostImage(d, plan)
    case CommittedThenChanged => phase == Committed && !PostImage(d, plan)
    case PreparedNoEffect => phase == Prepared && PreImage(d, plan)
    case AppliedUnfinalized => phase == Prepared && PostImage(d, plan) && !PreImage(d, plan)
    case DuplicateUnresolved => phase == Prepared && BothCopies(d, plan)
    case DivergentUnresolved => phase == Prepared && !PreImage(d, plan) && !PostImage(d, plan) && !BothCopies(d, plan)
  }

  /** Whatever the notes hold, exactly one class fits them. */
  lemma OneClassFits(d: Disk, plan: Plan, phase: Phase, a: Class, b: Class)
    requires ClassFits(d, plan, phase, a) && ClassFits(d, plan, phase, b)
    ensures a == b
  {
  }

  /**
   A sound record is inspected exactly when it has a manifest and its notes can be read, and is then given the class
   that fits them; something is owed exactly when it is not committed and the notes are not as the plan found them.
   */
  lemma InspectSaysExactly(env: Env, d: Disk, token: Token)
    requires token in d.records && Sound(env, token, d.records[token])
    ensures var rec, seen := d.records[token], Inspect(d, token);
      && (seen.Inspected? <==> rec.manifest.Some? && NotesReadable(d, BodyOf(token.plan)))
      && (seen.Inspected? ==>
        && seen.action == token.plan.Act() && seen.phase == rec.manifest.value.phase
        && (forall kind :: seen.classification == kind <==> ClassFits(d, token.plan, seen.phase, kind))
        && (seen.RecoveryRequired() <==> seen.phase == Prepared && !PreImage(d, token.plan)))
  {
    ActOfBody(token.plan);
    var seen := Inspect(d, token);
    if seen.Inspected? {
      InspectedFits(d, token.plan, seen.phase);
      forall kind | ClassFits(d, token.plan, seen.phase, kind) ensures kind == seen.classification {
        OneClassFits(d, token.plan, seen.phase, kind, seen.classification);
      }
    }
  }

  lemma InspectedFits(d: Disk, plan: Plan, phase: Phase)
    ensures ClassFits(d, plan, phase, Classify(d, phase, BodyOf(plan)))
  {
  }

  /** The kept file a manifest speaks of, and the hash it must have. */
  function KeptFile(body: ManifestBody): (string, Digest) {
    match body
    case EditBody(_, before, _) => ("original.bin", before)
    case MoveBody(_, _, sha) => ("source.bin", sha)
    case DeleteBody(_, before) => ("deleted_target.bin", before)
    case RestoreEditBody(_, _, before, _) => ("before_restore.bin", before)
    case RestoreMoveBody(_, _, after) => ("created_source.bin", after)
  }

  /**
   On any disk, tampered with or not, a record can be inspected exactly when its manifest is this record's, the file
   it kept is there with the hash the manifest names, and the notes can be read.
   */
  lemma InspectedExactly(d: Disk, token: Token)
    ensures Inspect(d, token).Inspected? <==>
      && token in d.records && d.records[token].manifest.Some?
      && var m, files := d.records[token].manifest.value, d.records[token].artifacts;
      && m.token == token && NotesReadable(d, m.body)
      && KeptFile(m.body).0 in files && Sha256(files[KeptFile(m.body).0]) == KeptFile(m.body).1
  {
  }

  /** A complete receipt reports the same class; except that a committed manifest under it counts as unfinished. */
  lemma ReceiptSaysExactly(env: Env, d: Disk, token: Token)
    requires token in d.records && Sound(env, token, d.records[token])
    ensures var rec, view := d.records[token], InspectReceipt(env, d, token);
      && (view.GoodReceipt? <==> rec.receipt.Some? && rec.receipt.value.Whole? && NotesReadable(d, BodyOf(token.plan)))
      && (view.GoodReceipt? ==>
        var written, kept := rec.manifest.value.phase, rec.receipt.value.receipt.phase;
        && view.action == token.plan.Act() && view.phase == kept
        && (kept == Prepared && written == Committed && PostImage(d, token.plan) ==>
          view.classification == AppliedUnfinalized && view.recoveryRequired)
        && (kept == Committed || written == Prepared || !PostImage(d, token.plan) ==>
          && ClassFits(d, token.plan, written, view.classification)
          && (view.recoveryRequired <==> written == Prepared && !PreImage(d, token.plan))))
  {
    InspectSaysExactly(env, d, token);
    ReceiptIsInspected(env, d, token);
  }

  /** What a receipt must say of itself, whoever wrote it. */
  predicate Binds(env: Env, token: Token, r: Receipt) {
    && r.token == token && r.plan == token.plan
    && env.size(r.approval.message) <= 16_000 && r.approval.messageSha == Sha256(r.approval.message)
    && env.accepts(r.plan, r.approval.message)
    && (r.plan.RestoreEdit? || r.plan.RestoreMoveSource? ==> r.origin == Some(r.plan.origin))
  }

  /**
   On any disk, tampered with or not, a receipt is good exactly when it is whole, names this record, its plan and an
   approval of exactly that plan, and agrees with the kept file and with a record that can itself be inspected.
   */
  lemma ReceiptExactly(env: Env, d: Disk, token: Token)
    ensures InspectReceipt(env, d, token).GoodReceipt? <==>
      && token in d.records && d.records[token].receipt.Some? && d.records[token].receipt.value.Whole?
      && var r, files := d.records[token].receipt.value.receipt, d.records[token].artifacts;
      && Binds(env, token, r)
      && r.backupFile in {"original.bin", "source.bin", "deleted_target.bin", "before_restore.bin", "created_source.bin"}
      && r.backupFile in files && Sha256(files[r.backupFile]) == r.backupSha
      && Inspect(d, token).Inspected? && Inspect(d, token).action == r.plan.Act() && Inspect(d, token).backup == r.backupSha
  {
    if token in d.records && d.records[token].receipt.Some? && d.records[token].receipt.value.Whole? {
      KeptNames(d.records[token].receipt.value.receipt.backupFile);
    }
  }

  lemma KeptNames(name: string)
    ensures (exists action :: name == BackupName(action)) <==>
      name in {"original.bin", "source.bin", "deleted_target.bin", "before_restore.bin", "created_source.bin"}
  {
    assert BackupName(EditAction) == "original.bin" && BackupName(MoveAction) == "source.bin";
    assert BackupName(DeleteAction) == "deleted_target.bin" && BackupName(RestoreEditAction) == "before_restore.bin";
    assert BackupName(RestoreMoveAction) == "created_source.bin";
  }

  /** Of a sound record with a complete receipt nothing but its notes can stop the receipt's inspection. */
  lemma ReceiptIsInspected(env: Env, d: Disk, token: Token)
    requires token in d.records && Sound(env, token, d.records[token])
    ensures var rec, view, seen := d.records[token], InspectReceipt(env, d, token), Inspect(d, token);
      if rec.receipt.Some? && rec.receipt.value.Whole? && seen.Inspected? then
        view == (if rec.receipt.value.receipt.phase != Committed && seen.classification == CommittedAsIs
          then GoodReceipt(seen.action, rec.receipt.value.receipt.phase, AppliedUnfinalized, true)
          else GoodReceipt(seen.action, rec.receipt.value.receipt.phase, seen.classification, seen.RecoveryRequired()))
      else view.BadReceipt?
  {
    var rec := d.records[token];
    ActOfBody(token.plan);
    if rec.receipt.Some? && rec.receipt.value.Whole? {
      assert rec.receipt.value.receipt.backupFile == BackupName(token.plan.Act());
    }
  }
}
