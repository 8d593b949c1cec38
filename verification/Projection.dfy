/**
 How the result of a call is shown in the browser, and that what is shown is true of the executor.
 */
module Projection {
  import opened Wrappers
  import opened VaultModel
  import opened Recovery
  import opened Executor
  import opened System
  import opened Guarantees

  /** A value of a decoded result; numbers, lists and objects only by the text they turn into. */
  datatype Json = Null | Bool(b: bool) | Str(s: string) | Rest(text: string)

  /** The fields of a result that decide its state. */
  datatype Field =
    | Success | MutationPerformed | RecoveryRequired | ErrorCode | ActionName | RecoveryId | OriginRecoveryId
    | TargetRelativePath | SourceDraft

  type Fields = map<Field, Json>

  datatype State = Failed | Unknown | Succeeded | StalePlan | RefusedPlan

  function Get(result: Fields, field: Field): Json { if field in result then result[field] else Null }

  // ---------- Text ----------

  function RemoveNul(s: string): string {
    if s == "" then "" else if s[0] == '\0' then RemoveNul(s[1..]) else [s[0]] + RemoveNul(s[1..])
  }

  function StripLeft(isSpace: char -> bool, s: string): string {
    if s != "" && isSpace(s[0]) then StripLeft(isSpace, s[1..]) else s
  }

  function StripRight(isSpace: char -> bool, s: string): string {
    if s != "" && isSpace(s[|s| - 1]) then StripRight(isSpace, s[..|s| - 1]) else s
  }

  function Strip(isSpace: char -> bool, s: string): string { StripRight(isSpace, StripLeft(isSpace, s)) }

  function Bounded(isSpace: char -> bool, s: string, limit: nat): string {
    var cleaned := Strip(isSpace, RemoveNul(s));
    if |cleaned| <= limit then cleaned else cleaned[..limit]
  }

  /** `_present_text_exact` with its limit of 1024. */
  predicate PresentExact(isSpace: char -> bool, value: Json) {
    value.Str? && value.s != "" && Bounded(isSpace, value.s, 1024) == value.s
  }

  /** A path that survives: not empty, not too long, trimmed, without NUL. */
  predicate Presentable(isSpace: char -> bool, s: string) {
    && 0 < |s| <= 1024
    && !isSpace(s[0]) && !isSpace(s[|s| - 1])
    && forall i :: 0 <= i < |s| ==> s[i] != '\0'
  }

  lemma {:induction false} RemoveNulShortens(s: string)
    ensures |RemoveNul(s)| <= |s|
    ensures RemoveNul(s) == s <==> forall i :: 0 <= i < |s| ==> s[i] != '\0'
    ensures RemoveNul(s) != s ==> |RemoveNul(s)| < |s|
  {
    if s != "" {
      RemoveNulShortens(s[1..]);
      assert forall i :: 1 <= i < |s| ==> s[i] == s[1..][i - 1];
    }
  }

  lemma {:induction false} StripLeftShortens(isSpace: char -> bool, s: string)
    ensures |StripLeft(isSpace, s)| <= |s|
    ensures StripLeft(isSpace, s) == s <==> s == "" || !isSpace(s[0])
    ensures StripLeft(isSpace, s) != s ==> |StripLeft(isSpace, s)| < |s|
  {
    if s != "" && isSpace(s[0]) { StripLeftShortens(isSpace, s[1..]); }
  }

  lemma {:induction false} StripRightShortens(isSpace: char -> bool, s: string)
    ensures |StripRight(isSpace, s)| <= |s|
    ensures StripRight(isSpace, s) == s <==> s == "" || !isSpace(s[|s| - 1])
    ensures StripRight(isSpace, s) != s ==> |StripRight(isSpace, s)| < |s|
  {
    if s != "" && isSpace(s[|s| - 1]) { StripRightShortens(isSpace, s[..|s| - 1]); }
  }

  /** The check is met by exactly the presentable texts. */
  lemma PresentExactly(isSpace: char -> bool, s: string)
    ensures PresentExact(isSpace, Str(s)) <==> Presentable(isSpace, s)
  {
    var clean := RemoveNul(s);
    RemoveNulShortens(s);
    StripLeftShortens(isSpace, clean);
    StripRightShortens(isSpace, StripLeft(isSpace, clean));
  }

  predicate CodeChar(c: char) {
    'A' <= c <= 'Z' || 'a' <= c <= 'z' || '0' <= c <= '9' || c == '.' || c == '_' || c == ':' || c == '-'
  }

  predicate ValidCode(s: string, limit: nat) { 0 < |s| <= limit && forall i :: 0 <= i < |s| ==> CodeChar(s[i]) }

  predicate HexChar(c: char) { '0' <= c <= '9' || 'a' <= c <= 'f' || 'A' <= c <= 'F' }

  predicate ValidHash(value: Json) { value.Str? && |value.s| == 64 && forall i :: 0 <= i < 64 ==> HexChar(value.s[i]) }

  /** `str(value or "")`. */
  function AsText(value: Json): string {
    match value
    case Null => ""
    case Bool(b) => if b then "True" else ""
    case Str(s) => s
    case Rest(text) => text
  }

  function SafeCode(isSpace: char -> bool, value: Json): string {
    var text := Strip(isSpace, AsText(value));
    if ValidCode(text, 160) then text else ""
  }

  // ---------- The state of a result ----------

  const STALE_ERRORS: set<string> := {
    "stale_original_hash", "stale_source_hash", "target_identity_changed", "target_file_id_changed",
    "source_identity_changed", "source_file_id_changed", "target_already_exists", "delete_target_identity_changed",
    "delete_target_file_id_changed", "delete_target_hash_changed", "delete_target_changed_before_delete",
    "restore_recovery_record_changed", "restore_backup_changed", "restore_target_identity_changed",
    "restore_target_file_id_changed", "restore_current_state_changed", "restore_source_identity_changed",
    "restore_source_parent_changed", "restore_source_no_longer_absent"}

  const REFUSAL_ERRORS: set<string> := {
    "invalid_production_mutation_mode", "production_mutation_not_enabled", "unknown_or_expired_plan",
    "plan_already_consumed", "approval_evidence_required", "approval_evidence_already_consumed",
    "approval_attempt_limit", "approval_message_redacted", "approval_message_too_large",
    "approval_preparation_failed", "fresh_once_not_observed", "approval_gate_failed"}

  function ActionCode(action: Action): string {
    match action
    case EditAction => "edit_note"
    case MoveAction => "move_draft"
    case DeleteAction => "delete_note"
    case RestoreEditAction => "restore_edit"
    case RestoreMoveAction => "restore_move_source"
  }

  /** `_success_evidence_complete`. */
  predicate EvidenceComplete(isSpace: char -> bool, result: Fields) {
    var action := Get(result, ActionName);
    var target, source := Get(result, TargetRelativePath), Get(result, SourceDraft);
    && Get(result, ErrorCode) in {Null, Str("")}
    && action.Str? && ValidHash(Get(result, RecoveryId))
    && if action.s == ActionCode(EditAction) || action.s == ActionCode(DeleteAction) then PresentExact(isSpace, target)
       else if action.s == ActionCode(MoveAction) then PresentExact(isSpace, source) && PresentExact(isSpace, target)
       else if action.s == ActionCode(RestoreEditAction) then
         ValidHash(Get(result, OriginRecoveryId)) && PresentExact(isSpace, target)
       else if action.s == ActionCode(RestoreMoveAction) then
         ValidHash(Get(result, OriginRecoveryId)) && PresentExact(isSpace, source)
       else false
  }

  /** The state `project_tool_message` gives the result of an apply call. */
  function Project(isSpace: char -> bool, result: Fields): State {
    var success, mutation := Get(result, Success) == Bool(true), Get(result, MutationPerformed) == Bool(true);
    var recovery := Get(result, RecoveryRequired);
    var untouched := Get(result, MutationPerformed) == Bool(false) && recovery == Bool(false);
    var error := SafeCode(isSpace, Get(result, ErrorCode));
    if recovery == Bool(true) then Failed
    else if success && mutation && recovery != Bool(false) then Unknown
    else if success && mutation && error != "" then Unknown
    else if success && mutation && EvidenceComplete(isSpace, result) then Succeeded
    else if success && mutation then Unknown
    else if error in STALE_ERRORS && untouched then StalePlan
    else if error in REFUSAL_ERRORS && untouched then RefusedPlan
    else if Get(result, Success) == Bool(false) || error != "" then Failed
    else Unknown
  }

  // ---------- What the executor returns ----------

  /** How tokens and error codes are written. */
  datatype Names = Names(id: Token -> string, code: Error -> string)

  ghost predicate Hexadecimal(names: Names) { forall t: Token :: ValidHash(Str(names.id(t))) }

  /** The fields of `_candidate_result` for one outcome of one plan. */
  function ResultOf(names: Names, plan: Plan, outcome: Outcome): Fields {
    var flags: Fields := map[
      Success := Bool(outcome.success), MutationPerformed := Bool(outcome.mutated), RecoveryRequired := Bool(outcome.recovery)];
    if !outcome.success then flags[ErrorCode := Str(names.code(outcome.error))]
    else
      var done := flags[ActionName := Str(ActionCode(plan.Act()))][RecoveryId := Str(names.id(PlanToken(plan)))];
      match plan
      case EditNote(_, target, _, _, _, _) => done[TargetRelativePath := Str(target)]
      case DeleteNote(_, target, _, _, _) => done[TargetRelativePath := Str(target)]
      case MoveDraft(_, source, _, target, _, _, _) => done[SourceDraft := Str(source)][TargetRelativePath := Str(target)]
      case RestoreEdit(_, origin, _, target, _, _, _, _, _) =>
        done[OriginRecoveryId := Str(names.id(origin))][TargetRelativePath := Str(target)]
      case RestoreMoveSource(_, origin, source, _, _, _, _, _) =>
        done[OriginRecoveryId := Str(names.id(origin))][SourceDraft := Str(source)]
  }

  /** Every path the result of this plan names can be shown. */
  predicate PathsPresentable(isSpace: char -> bool, plan: Plan) {
    && (plan.MoveDraft? || plan.RestoreMoveSource? ==> Presentable(isSpace, plan.source))
    && (!plan.RestoreMoveSource? ==> Presentable(isSpace, plan.target))
  }

  lemma ActionCodesDiffer()
    ensures forall a, b :: a != b ==> ActionCode(a) != ActionCode(b)
  {
    assert |ActionCode(EditAction)| == 9 && |ActionCode(MoveAction)| == 10 && |ActionCode(DeleteAction)| == 11;
    assert |ActionCode(RestoreEditAction)| == 12 && |ActionCode(RestoreMoveAction)| == 19;
  }

  lemma EmptyIsNoCode(isSpace: char -> bool)
    ensures SafeCode(isSpace, Null) == ""
  {
  }

  /** A result that claims success is shown as success exactly when its paths can be shown. */
  lemma SuccessShows(isSpace: char -> bool, names: Names, plan: Plan, outcome: Outcome)
    requires Hexadecimal(names) && outcome.success && outcome.mutated && !outcome.recovery
    ensures Project(isSpace, ResultOf(names, plan, outcome)) == Succeeded <==> PathsPresentable(isSpace, plan)
  {
    var result := ResultOf(names, plan, outcome);
    assert Get(result, ErrorCode) == Null;
    EmptyIsNoCode(isSpace);
    EvidenceExactly(isSpace, names, plan, outcome);
  }

  lemma EvidenceExactly(isSpace: char -> bool, names: Names, plan: Plan, outcome: Outcome)
    requires Hexadecimal(names) && outcome.success
    ensures EvidenceComplete(isSpace, ResultOf(names, plan, outcome)) <==> PathsPresentable(isSpace, plan)
  {
    var result := ResultOf(names, plan, outcome);
    ActionCodesDiffer();
    assert Get(result, ErrorCode) == Null && Get(result, ActionName) == Str(ActionCode(plan.Act()));
    assert ValidHash(Get(result, RecoveryId));
    if plan.MoveDraft? || plan.RestoreMoveSource? { PresentExactly(isSpace, plan.source); }
    if !plan.RestoreMoveSource? { PresentExactly(isSpace, plan.target); }
    match plan
    case EditNote(_, _, _, _, _, _) =>
    case MoveDraft(_, _, _, _, _, _, _) =>
    case DeleteNote(_, _, _, _, _) =>
    case RestoreEdit(_, _, _, _, _, _, _, _, _) =>
    case RestoreMoveSource(_, _, _, _, _, _, _, _) =>
  }

  lemma StateTells(isSpace: char -> bool, names: Names, plan: Plan, outcome: Outcome)
    ensures var state := Project(isSpace, ResultOf(names, plan, outcome));
      && (state == Succeeded ==> outcome.success)
      && (state == StalePlan || state == RefusedPlan ==> !outcome.mutated)
  {
  }

  /**
   End to end: a call shown as succeeded made its change and left a committed receipt; one shown as stale or
   refused changed no note; and every successful call whose paths can be shown is shown as succeeded.
   */
  lemma ReportsAreTruthful(env: Env, isSpace: char -> bool, names: Names,
      vault: map<Path, Text>, inbox: map<Path, Text>, hs: seq<Happening>, pid: nat)
    requires Consistent(env) && Hexadecimal(names)
    requires pid in Reached(env, vault, inbox, hs).procs && Reached(env, vault, inbox, hs).procs[pid].pc.Finished?
    ensures var w, p := Reached(env, vault, inbox, hs).w, Reached(env, vault, inbox, hs).procs[pid];
      var state := Project(isSpace, ResultOf(names, p.token.plan, p.pc.outcome));
      && (state == Succeeded ==>
        && p.token in w.disk.records && Settled(w.disk.records[p.token])
        && exists e :: e in w.log && e.Changed? && e.key == p.key && e.token == p.token)
      && (state == StalePlan || state == RefusedPlan ==> forall e :: e in w.log && e.Changed? ==> e.key != p.key)
      && (p.pc.outcome.success && PathsPresentable(isSpace, p.token.plan) ==> state == Succeeded)
  {
    var p := Reached(env, vault, inbox, hs).procs[pid];
    ResultsAreTruthful(env, vault, inbox, hs, pid);
    StateTells(isSpace, names, p.token.plan, p.pc.outcome);
    if p.pc.outcome.success {
      SuccessShows(isSpace, names, p.token.plan, p.pc.outcome);
    }
  }

  // ---------- Which results are shown how ----------

  /** A change without recovery. */
  predicate ClaimsSuccess(result: Fields) {
    Get(result, Success) == Bool(true) && Get(result, MutationPerformed) == Bool(true) && Get(result, RecoveryRequired) == Bool(false)
  }

  /** It says in so many words that nothing was changed and nothing is owed. */
  predicate DeniesChange(result: Fields) {
    Get(result, MutationPerformed) == Bool(false) && Get(result, RecoveryRequired) == Bool(false)
  }

  /**
   Of any result at all, well formed or not: it is shown as succeeded only when it claims success without an error and
   its evidence is complete; as stale or refused only when it denies any change and gives such an error; and always as
   failed when recovery is required.
   */
  lemma StatesExactly(isSpace: char -> bool, result: Fields)
    ensures var state, error := Project(isSpace, result), SafeCode(isSpace, Get(result, ErrorCode));
      && (state == Succeeded <==> ClaimsSuccess(result) && error == "" && EvidenceComplete(isSpace, result))
      && (state == StalePlan <==> DeniesChange(result) && error in STALE_ERRORS)
      && (state == RefusedPlan <==> DeniesChange(result) && error in REFUSAL_ERRORS && error !in STALE_ERRORS)
      && (Get(result, RecoveryRequired) == Bool(true) ==> state == Failed)
      && (state == Failed ==>
        Get(result, RecoveryRequired) == Bool(true) || Get(result, Success) == Bool(false) || error != "")
  {
  }

  /** A field names a path that can be shown. */
  predicate Shows(isSpace: char -> bool, value: Json) { value.Str? && Presentable(isSpace, value.s) }

  /** Sixty-four hexadecimal digits. */
  predicate Hex64(value: Json) {
    value.Str? && |value.s| == 64 && forall i :: 0 <= i < 64 ==> value.s[i] in "0123456789abcdefABCDEF"
  }

  /** Evidence is complete exactly when the record's hash is there, and the paths and the origin its action needs. */
  lemma EvidenceNeeds(isSpace: char -> bool, result: Fields)
    ensures var action, target, source := Get(result, ActionName), Get(result, TargetRelativePath), Get(result, SourceDraft);
      EvidenceComplete(isSpace, result) <==>
        && (Get(result, ErrorCode) == Null || Get(result, ErrorCode) == Str("")) && Hex64(Get(result, RecoveryId))
        && (|| ((action == Str("edit_note") || action == Str("delete_note")) && Shows(isSpace, target))
            || (action == Str("move_draft") && Shows(isSpace, source) && Shows(isSpace, target))
            || (action == Str("restore_edit") && Hex64(Get(result, OriginRecoveryId)) && Shows(isSpace, target))
            || (action == Str("restore_move_source") && Hex64(Get(result, OriginRecoveryId)) && Shows(isSpace, source)))
  {
    var target, source := Get(result, TargetRelativePath), Get(result, SourceDraft);
    ActionCodesDiffer();
    if target.Str? { PresentExactly(isSpace, target.s); }
    if source.Str? { PresentExactly(isSpace, source.s); }
    HexExactly(Get(result, RecoveryId));
    HexExactly(Get(result, OriginRecoveryId));
  }

  lemma HexExactly(value: Json)
    ensures ValidHash(value) <==> Hex64(value)
  {
    assert forall c: char :: HexChar(c) <==> c in "0123456789abcdefABCDEF";
  }

  // ---------- Which refusals are shown as stale ----------

  /** The refusals of a re-read that found other notes than the plan names. */
  const STALE_PROBLEMS: set<Error> := {
    StaleOriginalHash, TargetAlreadyExists, StaleSourceHash, DeleteTargetHashChanged, RestoreCurrentStateChanged,
    RestoreSourceNoLongerAbsent}

  /** Error codes are codes, and those of these refusals are among the stale ones; the others named here are not. */
  ghost predicate Spelled(isSpace: char -> bool, names: Names) {
    && (forall c: char :: CodeChar(c) ==> !isSpace(c))
    && (forall e: Error :: ValidCode(names.code(e), 160))
    && (forall e: Error :: e in STALE_PROBLEMS ==> names.code(e) in STALE_ERRORS)
    && names.code(CandidateFailure) !in STALE_ERRORS && names.code(SourceIsNotOrionDraft) !in STALE_ERRORS
    && names.code(NoteUnreadable) !in STALE_ERRORS && names.code(RestoreRequiredPathMissing) !in STALE_ERRORS
    && (forall action: Action :: names.code(RevalidationMissing(action)) !in STALE_ERRORS)
  }

  lemma CodeSurvives(isSpace: char -> bool, code: string)
    requires ValidCode(code, 160) && forall c: char :: CodeChar(c) ==> !isSpace(c)
    ensures SafeCode(isSpace, Str(code)) == code
  {
    StripLeftShortens(isSpace, code);
    StripRightShortens(isSpace, code);
  }

  /** A failed call is shown as stale, or as refused, exactly when it changed nothing, owes nothing and says so. */
  lemma RefusalShows(isSpace: char -> bool, names: Names, plan: Plan, outcome: Outcome)
    requires Spelled(isSpace, names) && !outcome.success
    ensures var state, code := Project(isSpace, ResultOf(names, plan, outcome)), names.code(outcome.error);
      && (state == StalePlan <==> !outcome.mutated && !outcome.recovery && code in STALE_ERRORS)
      && (state == RefusedPlan <==> !outcome.mutated && !outcome.recovery && code in REFUSAL_ERRORS && code !in STALE_ERRORS)
      && state in {StalePlan, RefusedPlan, Failed}
  {
    CodeSurvives(isSpace, names.code(outcome.error));
  }

  /** The notes can be read, are there, and are not what the plan names. */
  predicate OtherNotes(d: Disk, plan: Plan) {
    && NotesReadable(d, BodyOf(plan))
    && match plan
       case EditNote(_, target, _, originalSha, _, _) => target in d.vault && Sha256(d.vault[target]) != originalSha
       case MoveDraft(_, source, _, target, _, sourceSha, _) =>
         target in d.vault || (source in d.inbox && Sha256(d.inbox[source]) != sourceSha)
       case DeleteNote(_, target, _, targetSha, _) => target in d.vault && Sha256(d.vault[target]) != targetSha
       case RestoreEdit(_, _, _, target, _, currentSha, _, _, _) => target in d.vault && Sha256(d.vault[target]) != currentSha
       case RestoreMoveSource(_, _, source, _, _, _, _, _) => source in d.inbox
  }

  /** What a re-read finds wrong is one of the stale problems exactly when the notes are others. */
  lemma ProblemIsStale(env: Env, d: Disk, plan: Plan)
    ensures NoteProblem(env, d, plan).Some? && NoteProblem(env, d, plan).value in STALE_PROBLEMS <==> OtherNotes(d, plan)
    ensures NoteProblem(env, d, plan).Some? ==>
      NoteProblem(env, d, plan).value in STALE_PROBLEMS + {NoteUnreadable, MissingError(plan), SourceIsNotOrionDraft}
  {
  }

  /** What a re-read of the notes may refuse with. */
  predicate ReadProblem(plan: Plan, e: Error) {
    e in STALE_PROBLEMS + {CandidateFailure, NoteUnreadable, MissingError(plan), SourceIsNotOrionDraft}
  }

  lemma ProblemShows(isSpace: char -> bool, names: Names, plan: Plan, e: Error)
    requires Spelled(isSpace, names) && ReadProblem(plan, e)
    ensures Project(isSpace, ResultOf(names, plan, Refused(e))) == StalePlan <==> e in STALE_PROBLEMS
  {
    RefusalShows(isSpace, names, plan, Refused(e));
  }

  /** A re-read lets the call on, or refuses with what it found. */
  lemma ReadRefuses(env: Env, w: World, p: Proc)
    requires p.pc.Admit? || RevalidatesNotes(w, p)
    ensures var p', problem := Step(env, w, p, Go).1, NoteProblem(env, w.disk, p.token.plan);
      if p'.pc.Finished? then
        exists e :: ReadProblem(p.token.plan, e) && p'.pc.outcome == Refused(e)
          && (e in STALE_PROBLEMS <==> problem.Some? && problem.value in STALE_PROBLEMS)
      else problem.None?
  {
    var problem := NoteProblem(env, w.disk, p.token.plan);
    ProblemIsStale(env, w.disk, p.token.plan);
    if p.pc.Revalidate? { RevalidateRefuses(env, w, p); } else { AdmitRefuses(env, w, p); }
  }

  /** A preview that is still known and whose origin stands. */
  predicate RevalidatesNotes(w: World, p: Proc) {
    && p.pc.Revalidate? && p.token in w.mem.previews && SummaryOk(w.mem.previews[p.token])
    && (p.token.plan.RestoreEdit? || p.token.plan.RestoreMoveSource? ==> OriginProblem(w.disk, p.token.plan).None?)
  }

  lemma RevalidateRefuses(env: Env, w: World, p: Proc)
    requires RevalidatesNotes(w, p)
    ensures var p', problem := Step(env, w, p, Go).1, NoteProblem(env, w.disk, p.token.plan);
      p' == if problem.Some? then p.Stop(Refused(problem.value)) else p.To(Reinventory)
  {
  }

  lemma AdmitRefuses(env: Env, w: World, p: Proc)
    requires p.pc.Admit?
    ensures var p', problem := Step(env, w, p, Go).1, NoteProblem(env, w.disk, p.token.plan);
      if problem.None? then p'.pc.MakeRecord? || p' == p.Stop(Refused(CandidateFailure))
      else p' == p.Stop(Refused(if problem.value in {MissingError(p.token.plan), NoteUnreadable} then CandidateFailure else problem.value))
  {
  }

  /**
   The re-reads before the record, at the check after the human decision and once more: the call is shown as stale
   exactly when the notes are there, can be read, and are not what its plan names.
   */
  lemma OtherNotesShowStale(env: Env, isSpace: char -> bool, names: Names, w: World, p: Proc)
    requires Spelled(isSpace, names) && (p.pc.Admit? || RevalidatesNotes(w, p))
    ensures var p' := Step(env, w, p, Go).1;
      p'.pc.Finished? && Project(isSpace, ResultOf(names, p.token.plan, p'.pc.outcome)) == StalePlan <==> OtherNotes(w.disk, p.token.plan)
  {
    var p' := Step(env, w, p, Go).1;
    ProblemIsStale(env, w.disk, p.token.plan);
    ReadRefuses(env, w, p);
    if p'.pc.Finished? {
      var e :| ReadProblem(p.token.plan, e) && p'.pc.outcome == Refused(e)
        && (e in STALE_PROBLEMS <==> NoteProblem(env, w.disk, p.token.plan).Some? && NoteProblem(env, w.disk, p.token.plan).value in STALE_PROBLEMS);
      ProblemShows(isSpace, names, p.token.plan, e);
    }
  }

  // ---------- Which paths a success shows ----------

  /** A success names its record, and the paths of its own plan: where the note is, and where it came from. */
  lemma SuccessNames(names: Names, plan: Plan, outcome: Outcome)
    requires outcome.success
    ensures var result := ResultOf(names, plan, outcome);
      && Get(result, ActionName) == Str(ActionCode(plan.Act())) && Get(result, RecoveryId) == Str(names.id(PlanToken(plan)))
      && Get(result, TargetRelativePath) == (if plan.RestoreMoveSource? then Null else Str(plan.target))
      && Get(result, SourceDraft) == (if plan.MoveDraft? || plan.RestoreMoveSource? then Str(plan.source) else Null)
      && Get(result, OriginRecoveryId) == (if plan.RestoreEdit? || plan.RestoreMoveSource? then Str(names.id(plan.origin)) else Null)
      && Get(result, Success) == Bool(true) && Get(result, MutationPerformed) == Bool(outcome.mutated)
  {
  }

  // ---------- Which tool a result belongs to ----------

  datatype Call = Call(id: Json, name: Json)
  datatype Message = Message(run: Option<Json>, session: Option<Json>, calls: seq<Call>)

  /** `_exact_id` and `_exact_code`: the text itself if it is well formed, else nothing. */
  function Exact(value: Json, limit: nat): string {
    if value.Str? && ValidCode(value.s, limit) then value.s else ""
  }

  predicate Belongs(value: Option<Json>, expected: string) {
    expected == "" || value.None? || Exact(value.value, 200) == expected
  }

  predicate Counts(m: Message, run: string, session: string) { Belongs(m.run, run) && Belongs(m.session, session) }

  /** A well-formed call names a tool. */
  predicate Naming(c: Call) { Exact(c.id, 200) != "" && Exact(c.name, 160) != "" }

  function PairsOf(calls: seq<Call>): seq<(string, string)> {
    if calls == [] then []
    else PairsOf(calls[..|calls| - 1]) + PairOf(calls[|calls| - 1])
  }

  function PairOf(c: Call): seq<(string, string)> {
    if Naming(c) then [(Exact(c.id, 200), Exact(c.name, 160))] else []
  }

  /** Every (id, name) a well-formed call gives in the messages that count, in order. */
  function Pairs(messages: seq<Message>, run: string, session: string): seq<(string, string)> {
    if messages == [] then []
    else
      var last := messages[|messages| - 1];
      Pairs(messages[..|messages| - 1], run, session) + (if Counts(last, run, session) then PairsOf(last.calls) else [])
  }

  /** A well-formed code of at most this length, given as text. */
  predicate IsCode(value: Json, code: string, limit: nat) { value == Str(code) && ValidCode(code, limit) }

  /** A message of no other run, or of none in particular; and of no other session. */
  predicate OfRun(value: Option<Json>, expected: string) { expected == "" || value.None? || IsCode(value.value, expected, 200) }

  /** The call gives this id this name. */
  predicate Gives(c: Call, id: string, name: string) { IsCode(c.id, id, 200) && IsCode(c.name, name, 160) }

  lemma {:induction false} CallsGive(calls: seq<Call>, id: string, name: string)
    ensures (id, name) in PairsOf(calls) <==> exists k :: 0 <= k < |calls| && Gives(calls[k], id, name)
  {
    if calls != [] {
      var earlier, last := calls[..|calls| - 1], calls[|calls| - 1];
      CallsGive(earlier, id, name);
      assert (id, name) in PairOf(last) <==> Gives(last, id, name);
      if k :| 0 <= k < |earlier| && Gives(earlier[k], id, name) { assert Gives(calls[k], id, name); }
    }
  }

  /** The pairs that decide are those of the well-formed calls in messages of this run and session. */
  lemma {:induction false} PairsExactly(messages: seq<Message>, run: string, session: string, id: string, name: string)
    ensures (id, name) in Pairs(messages, run, session) <==>
      exists m, k :: 0 <= m < |messages| && 0 <= k < |messages[m].calls|
        && OfRun(messages[m].run, run) && OfRun(messages[m].session, session) && Gives(messages[m].calls[k], id, name)
  {
    if messages != [] {
      var earlier, last := messages[..|messages| - 1], messages[|messages| - 1];
      PairsExactly(earlier, run, session, id, name);
      CallsGive(last.calls, id, name);
      assert Counts(last, run, session) <==> OfRun(last.run, run) && OfRun(last.session, session);
      assert forall m :: 0 <= m < |earlier| ==> messages[m] == earlier[m];
      if Counts(last, run, session) && (id, name) in PairsOf(last.calls) {
        var k :| 0 <= k < |last.calls| && Gives(last.calls[k], id, name);
        assert Gives(messages[|messages| - 1].calls[k], id, name);
      }
    }
  }

  /** The id is given this name and no other. */
  predicate Agreed(pairs: seq<(string, string)>, id: string, name: string) {
    (id, name) in pairs && forall p :: p in pairs && p.0 == id ==> p.1 == name
  }

  ghost predicate Disputed(pairs: seq<(string, string)>, id: string) {
    exists p, q :: p in pairs && q in pairs && p.0 == id && q.0 == id && p.1 != q.1
  }

  ghost predicate Settles(pairs: seq<(string, string)>, names: map<string, string>, conflicts: set<string>) {
    && (forall id :: id in conflicts <==> Disputed(pairs, id))
    && (forall id :: id in names ==> Agreed(pairs, id, names[id]))
    && (forall p :: p in pairs ==> p.0 in names || p.0 in conflicts)
  }

  lemma NoOpinionOnEmpty()
    ensures Settles([], map[], {})
  {
  }

  lemma AddPair(pairs: seq<(string, string)>, names: map<string, string>, conflicts: set<string>, id: string, name: string)
    requires Settles(pairs, names, conflicts)
    ensures id in conflicts ==> Settles(pairs + [(id, name)], names, conflicts)
    ensures id !in conflicts && id !in names ==> Settles(pairs + [(id, name)], names[id := name], conflicts)
    ensures id in names && names[id] == name ==> Settles(pairs + [(id, name)], names, conflicts)
    ensures id in names && names[id] != name ==> Settles(pairs + [(id, name)], names - {id}, conflicts + {id})
  {
    var more := pairs + [(id, name)];
    assert forall p :: p in more <==> p in pairs || p == (id, name);
    forall other ensures Disputed(more, other) <==> Disputed(pairs, other) || (other == id && exists p :: p in pairs && p.0 == id && p.1 != name) {
      if other == id && exists p :: p in pairs && p.0 == id && p.1 != name {
        var p :| p in pairs && p.0 == id && p.1 != name;
        assert p in more && (id, name) in more;
      }
      if Disputed(pairs, other) {
        var p, q :| p in pairs && q in pairs && p.0 == other && q.0 == other && p.1 != q.1;
        assert p in more && q in more;
      }
    }
    if id in names {
      assert (id, names[id]) in pairs;
    }
  }

  /** The inner loop of `_tool_call_name_map`: the calls of one message. */
  method AddCalls(calls: seq<Call>, before: map<string, string>, disputed: set<string>, ghost pairs: seq<(string, string)>)
    returns (names: map<string, string>, conflicts: set<string>)
    requires Settles(pairs, before, disputed)
    ensures Settles(pairs + PairsOf(calls), names, conflicts)
  {
    names, conflicts := before, disputed;
    assert pairs + [] == pairs;
    for k := 0 to |calls|
      invariant Settles(pairs + PairsOf(calls[..k]), names, conflicts)
    {
      assert calls[..k + 1][..k] == calls[..k];
      var id, name := Exact(calls[k].id, 200), Exact(calls[k].name, 160);
      ghost var seen := pairs + PairsOf(calls[..k]);
      if id == "" || name == "" {
        assert PairsOf(calls[..k + 1]) == PairsOf(calls[..k]);
        continue;
      }
      assert pairs + PairsOf(calls[..k + 1]) == seen + [(id, name)];
      AddPair(seen, names, conflicts, id, name);
      if id in conflicts {
        continue;
      }
      if id !in names {
        names := names[id := name];
      } else if names[id] != name {
        names := names - {id};
        conflicts := conflicts + {id};
      }
    }
    assert calls[..|calls|] == calls;
  }

  /** `_tool_call_name_map`: an id means a tool exactly when every well-formed call with that id names it. */
  method ToolCallNameMap(messages: seq<Message>, run: string, session: string) returns (names: map<string, string>)
    ensures forall id, name ::
      (id in names && names[id] == name) <==> Agreed(Pairs(messages, run, session), id, name)
  {
    names := map[];
    var conflicts: set<string> := {};
    NoOpinionOnEmpty();
    for m := 0 to |messages|
      invariant Settles(Pairs(messages[..m], run, session), names, conflicts)
    {
      assert messages[..m + 1][..m] == messages[..m];
      if Counts(messages[m], run, session) {
        names, conflicts := AddCalls(messages[m].calls, names, conflicts, Pairs(messages[..m], run, session));
      } else {
        assert Pairs(messages[..m + 1], run, session) == Pairs(messages[..m], run, session);
      }
    }
    assert messages[..|messages|] == messages;
    AgreedIsListed(Pairs(messages, run, session), names, conflicts);
  }

  lemma AgreedIsListed(pairs: seq<(string, string)>, names: map<string, string>, conflicts: set<string>)
    requires Settles(pairs, names, conflicts)
    ensures forall id, name :: (id in names && names[id] == name) <==> Agreed(pairs, id, name)
  {
    forall id, name | Agreed(pairs, id, name) ensures id in names && names[id] == name {
      assert (id, name) in pairs;
      assert !Disputed(pairs, id);
    }
  }
}
