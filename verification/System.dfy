/**
 The whole plugin over time: any number of calls, human answers, previews, expiries, restarts and outside
 edits of the notes, in any order. What every reachable state keeps, and what that says about approvals.
 */
module System {
  import opened Wrappers
  import opened VaultModel
  import opened Recovery
  import opened Executor

  datatype Sys = Sys(w: World, procs: map<nat, Proc>, nextPid: nat)

  datatype Happening =
    | Remember(entry: Cached)
    | Expire(token: Token)
    | Spawn(token: Token)
    | Turn(pid: nat, choice: Choice)
    | Respond(key: nat, description: Text, decision: string, surface: string, coalesced: bool, inTime: bool)
    | Restart
    | Outside(vault: map<Path, Text>, inbox: map<Path, Text>, unreadable: set<Place>, strays: set<string>)

  /** `post_approval_response`: only a fresh human ONCE for exactly the pending text counts. */
  function Responded(w: World, h: Happening): World
    requires h.Respond?
  {
    if h.decision != "once" || h.surface !in {"cli", "gateway"} || h.coalesced then w
    else if h.key in w.mem.attempts && w.mem.attempts[h.key].description == h.description && h.inTime then
      w.(mem := w.mem.(attempts := w.mem.attempts[h.key := Attempt(h.description, true)]),
         log := w.log + [Decided(h.key, h.description)])
    else w
  }

  function Happen(env: Env, s: Sys, h: Happening): Sys {
    match h
    case Remember(entry) => s.(w := s.w.(mem := s.w.mem.(previews := s.w.mem.previews[entry.Token() := entry])))
    case Expire(token) => s.(w := s.w.(mem := s.w.mem.(previews := s.w.mem.previews - {token})))
    case Spawn(token) => s.(procs := s.procs[s.nextPid := NewProc(token)], nextPid := s.nextPid + 1)
    case Turn(pid, choice) =>
      if pid in s.procs then
        var (w, p) := Step(env, s.w, s.procs[pid], choice);
        s.(w := w, procs := s.procs[pid := p])
      else s
    case Respond(_, _, _, _, _, _) => s.(w := Responded(s.w, h))
    case Restart => s.(w := s.w.(mem := BLANK_MEMORY), procs := map[])
    case Outside(vault, inbox, unreadable, strays) =>
      s.(w := s.w.(disk := s.w.disk.(vault := vault, inbox := inbox, unreadable := unreadable, strays := strays)))
  }

  function Run(env: Env, s: Sys, hs: seq<Happening>): Sys
    decreases hs
  {
    if hs == [] then s else Happen(env, Run(env, s, hs[..|hs| - 1]), hs[|hs| - 1])
  }

  /** Any notes, no records, nothing in memory. */
  function Start(vault: map<Path, Text>, inbox: map<Path, Text>): Sys {
    Sys(World(Disk(vault, inbox, map[], map[], {}, {}), BLANK_MEMORY, 1, []), map[], 0)
  }

  // ---------- What one thread may rely on ----------

  predicate Early(pc: Pc) { pc.Inventory? || pc.Lookup? || pc.Ask? }

  predicate Unopened(pc: Pc) { pc.Revalidate? || pc.Reinventory? || pc.Admit? || pc.MakeRecord? }

  predicate Recording(pc: Pc) { pc.Backup? || pc.WriteManifest? || pc.WriteReceipt? }

  predicate Armed(pc: Pc) { pc.Consume? || pc.StageFile? || pc.Probe? || pc.Protect? }

  predicate Writing(pc: Pc) { pc.VerifyCopy? || pc.Unlink? || pc.Verify? || pc.CommitManifest? || pc.CommitReceipt? }

  /** From the record directory on, the thread owns its record. */
  predicate Owns(pc: Pc) { Recording(pc) || Armed(pc) || Writing(pc) }

  predicate Approved(pc: Pc) { Unopened(pc) || Owns(pc) }

  function StageOf(pc: Pc): Stage
    requires Owns(pc)
  {
    match pc
    case Backup => Stage.Opened
    case WriteManifest => BackedUp
    case WriteReceipt => ManifestReady
    case CommitReceipt => ManifestDone
    case _ => ReceiptReady
  }

  /** Some entry of this plan, with the right private bytes, renders as this text. */
  ghost predicate IsSummary(env: Env, plan: Plan, text: Text) {
    exists c: Cached :: c.plan == plan && SummaryOk(c) && text == env.render(c)
  }

  predicate Touches(e: Event, token: Token) { e.Changed? && e.token == token }

  predicate Carries(e: Event, key: nat) { e.Changed? && e.key == key }

  ghost predicate Untouched(log: seq<Event>, token: Token) {
    forall e :: e in log ==> !Touches(e, token)
  }

  ghost predicate Unused(log: seq<Event>, key: nat) {
    forall e :: e in log ==> !Carries(e, key)
  }

  /** The attempt a thread waits on, and what it has been told. */
  ghost predicate Waiting(env: Env, w: World, p: Proc) {
    && p.key > 0 && env.size(p.message) <= MAX_APPROVAL_MESSAGE_CHARS
    && (p.key in w.mem.attempts ==>
      && w.mem.attempts[p.key].description == p.message
      && (w.mem.attempts[p.key].once ==> Decided(p.key, p.message) in w.log))
  }

  /** The decision a thread carries. */
  ghost predicate Authorised(env: Env, w: World, p: Proc) {
    && p.key > 0 && env.size(p.message) <= MAX_APPROVAL_MESSAGE_CHARS
    && p.message == env.render(p.Entry())
    && Decided(p.key, p.message) in w.log
  }

  /** The record a thread owns is exactly as far as the thread is. */
  ghost predicate Holding(w: World, p: Proc)
    requires Owns(p.pc)
  {
    && p.token in w.disk.records
    && w.disk.records[p.token] == RecordAt(p.token.plan, p.kept, p.Approval(), StageOf(p.pc))
    && Sha256(p.kept) == KeptSha(BodyOf(p.token.plan))
    && (p.pc.Protect? && Replaces(p.token.plan) ==> p.token in w.disk.temps && w.disk.temps[p.token] == p.proposed)
  }

  /** Changes under a thread's key are its own. */
  ghost predicate OwnKey(w: World, p: Proc) {
    forall e :: e in w.log && Carries(e, p.key) ==> e.token == p.token
  }

  /** Its own protected write is the only change made under its token. */
  ghost predicate OnlyMine(w: World, p: Proc) {
    forall e :: e in w.log ==>
      && (Touches(e, p.token) ==> e.key == p.key)
      && (Touches(e, p.token) && (p.pc.VerifyCopy? || p.pc.Unlink?) ==> e.place == MainPlace(p.token.plan))
  }

  ghost predicate Ended(w: World, p: Proc, outcome: Outcome) {
    && (p.wrote ==> outcome.mutated)
    && (outcome.success ==>
      && p.wrote && outcome.mutated && !outcome.recovery
      && p.token in w.disk.records && Settled(w.disk.records[p.token]))
  }

  /** What a thread has been allowed so far. */
  ghost predicate ApprovalPart(env: Env, w: World, p: Proc) {
    && p.key < w.nextKey
    && (Early(p.pc) ==> p.key == 0)
    && (p.pc.Ask? || p.pc.Await? || Approved(p.pc) ==> SummaryOk(p.Entry()))
    && (p.pc.Await? ==> Waiting(env, w, p))
    && (Approved(p.pc) ==> Authorised(env, w, p))
  }

  /** What the log says of a thread. */
  ghost predicate LogPart(w: World, p: Proc) {
    && (p.wrote <==> exists e :: e in w.log && Carries(e, p.key) && e.token == p.token)
    && OwnKey(w, p)
    && (p.wrote ==> p.Over() || (Writing(p.pc) && p.started))
    && (p.pc.Await? || Unopened(p.pc) || Recording(p.pc) || Armed(p.pc) ==> Unused(w.log, p.key))
    && (Recording(p.pc) || Armed(p.pc) ==> Untouched(w.log, p.token))
    && (Writing(p.pc) ==> OnlyMine(w, p) && p.wrote)
  }

  /** What is on disk for a thread. */
  ghost predicate RecordPart(w: World, p: Proc) {
    && (p.pc.MakeRecord? ==> Sha256(p.kept) == KeptSha(BodyOf(p.token.plan)))
    && (Owns(p.pc) ==> Holding(w, p))
    && (p.pc.Probe? || p.pc.VerifyCopy? || p.pc.Unlink? ==> p.token.plan.MoveDraft?)
    && (p.pc.Finished? ==> Ended(w, p, p.pc.outcome))
  }

  ghost predicate ProcOk(env: Env, w: World, p: Proc) {
    ApprovalPart(env, w, p) && LogPart(w, p) && RecordPart(w, p)
  }

  /** One logged change is what its plan and its decision allow. */
  ghost predicate Faithful(plan: Plan, e: Event)
    requires e.Changed?
  {
    if e.place == MainPlace(plan) then
      && ShaOf(e.before) == Expected(plan)
      && (ShaOf(e.after) == Promised(plan) || (Creates(plan) && TornCreate(plan, e.after)))
    else
      && plan.MoveDraft? && e.place == InInbox(plan.source)
      && ShaOf(e.before) == Some(plan.sourceSha) && e.after == None
  }

  /** The beginning of the promised bytes. */
  ghost predicate TornCreate(plan: Plan, after: Option<Text>) {
    after.Some? && exists whole: Text, n: nat :: Promised(plan) == Some(Sha256(whole)) && after.value == Cut(whole, n)
  }

  /** The record of a change is complete, and its receipt names the decision. */
  ghost predicate Documented(w: World, token: Token, key: nat) {
    && token in w.disk.records
    && var rec := w.disk.records[token];
    && rec.manifest.Some? && rec.receipt.Some? && rec.receipt.value.Whole?
    && rec.receipt.value.receipt.approval.attempt == key
  }

  function DecidedText(w: World, token: Token, key: nat): Text
    requires Documented(w, token, key)
  {
    w.disk.records[token].receipt.value.receipt.approval.message
  }

  ghost predicate EntryOk(env: Env, w: World, i: nat)
    requires i < |w.log|
  {
    w.log[i].Changed? ==>
      var e := w.log[i];
      && 0 < e.key < w.nextKey
      && Faithful(e.token.plan, e)
      && Documented(w, e.token, e.key)
      && IsSummary(env, e.token.plan, DecidedText(w, e.token, e.key))
      && Decided(e.key, DecidedText(w, e.token, e.key)) in w.log[..i]
  }

  /** Two changes under one token or one key are the two halves of one move. */
  ghost predicate PairOk(e: Event, f: Event) {
    e.Changed? && f.Changed? ==>
      && (e.key == f.key <==> e.token == f.token)
      && (e.token == f.token ==> e.place == MainPlace(e.token.plan) && f.place != e.place)
  }

  ghost predicate LogOk(env: Env, w: World) {
    && (forall i :: 0 <= i < |w.log| ==> EntryOk(env, w, i))
    && (forall i, j :: 0 <= i < j < |w.log| ==> PairOk(w.log[i], w.log[j]))
    && (forall t :: t in w.disk.records <==> Event.Opened(t) in w.log)
  }

  ghost predicate AllSound(env: Env, w: World) {
    forall t :: t in w.disk.records ==> Sound(env, t, w.disk.records[t])
  }

  ghost predicate AttemptsOk(w: World) {
    && w.nextKey > 0
    && (forall k :: k in w.mem.attempts ==> 0 < k < w.nextKey)
    && (forall t :: t in w.mem.previews ==> w.mem.previews[t].Token() == t)
  }

  ghost predicate Apart(p: Proc, q: Proc) {
    && (p.key == q.key ==> p.key == 0)
    && (Owns(p.pc) && Owns(q.pc) ==> p.token != q.token)
  }

  ghost predicate Inv(env: Env, s: Sys) {
    && AttemptsOk(s.w) && LogOk(env, s.w) && AllSound(env, s.w)
    && (forall pid :: pid in s.procs ==> pid < s.nextPid && ProcOk(env, s.w, s.procs[pid]))
    && (forall a, b :: a in s.procs && b in s.procs && a != b ==> Apart(s.procs[a], s.procs[b]))
  }

  // ---------- What one step can do ----------

  ghost predicate SameElsewhere(w: World, w': World, token: Token) {
    && (forall t :: t != token && t in w.disk.records ==> t in w'.disk.records && w'.disk.records[t] == w.disk.records[t])
    && (forall t :: t != token && t in w'.disk.records ==> t in w.disk.records)
    && (forall t :: t != token && t in w.disk.temps ==> t in w'.disk.temps && w'.disk.temps[t] == w.disk.temps[t])
    && (forall t :: t != token && t in w'.disk.temps ==> t in w.disk.temps)
  }

  /** A step touches only its own record and temporary file, and only as their owner. */
  ghost predicate LocalDisk(w: World, p: Proc, w': World, p': Proc) {
    && SameElsewhere(w, w', p.token)
    && (p.token in w.disk.records ==> p.token in w'.disk.records)
    && (!Owns(p.pc) && !Owns(p'.pc) ==> w'.disk == w.disk)
    && (!Owns(p.pc) && Owns(p'.pc) ==> p.token !in w.disk.records && p.token in w'.disk.records && w'.disk.temps == w.disk.temps)
  }

  /** It asks under a new key, and otherwise only forgets its own attempt. */
  ghost predicate LocalMemory(w: World, p: Proc, w': World, p': Proc) {
    && w'.nextKey >= w.nextKey
    && (p'.key == p.key || (p.key == 0 && p'.key == w.nextKey < w'.nextKey))
    && (forall k :: k in w'.mem.attempts ==>
      || (k in w.mem.attempts && w'.mem.attempts[k] == w.mem.attempts[k])
      || (k == w.nextKey < w'.nextKey && !w'.mem.attempts[k].once))
    && w'.mem.previews == w.mem.previews
  }

  ghost predicate OwnChange(e: Event, p: Proc) {
    e.Changed? && e.key == p.key && e.token == p.token
  }

  /** It logs under its own name, and the notes change only as logged. */
  ghost predicate LocalLog(w: World, p: Proc, w': World, p': Proc) {
    || (w'.log == w.log && SameNotes(w'.disk, w.disk) && p'.wrote == p.wrote
        && (p.token in w.disk.records <==> p.token in w'.disk.records))
    || (w'.log == w.log + [Event.Opened(p.token)] && SameNotes(w'.disk, w.disk)
        && p'.wrote == p.wrote && !Owns(p.pc) && p.token in w'.disk.records)
    || (Owns(p.pc) && p'.wrote && (p.token in w.disk.records <==> p.token in w'.disk.records)
        && exists e :: w'.log == w.log + [e] && OwnChange(e, p) && SameNotes(w'.disk, With(w.disk, e.place, e.after)))
  }

  ghost predicate SameNotes(d: Disk, e: Disk) { d.vault == e.vault && d.inbox == e.inbox && d.unreadable == e.unreadable }

  /** Owners stay owners to the end, and become owners only by making their record. */
  ghost predicate LocalControl(w: World, p: Proc, w': World, p': Proc) {
    && (Owns(p.pc) || p.pc.MakeRecord? ==> Owns(p'.pc) || p'.Over())
    && (!Owns(p.pc) ==>
      (Owns(p'.pc) <==> w'.log == w.log + [Event.Opened(p.token)]) && (Owns(p'.pc) ==> p.pc.MakeRecord?))
  }

  ghost predicate Local(w: World, p: Proc, w': World, p': Proc) {
    && p'.token == p.token
    && LocalDisk(w, p, w', p') && LocalMemory(w, p, w', p') && LocalLog(w, p, w', p') && LocalControl(w, p, w', p')
  }

  /** Steps that leave disk and log alone. */
  lemma OffDiskIsLocal(w: World, p: Proc, w': World, p': Proc)
    requires w'.disk == w.disk && w'.log == w.log && p'.token == p.token && p'.wrote == p.wrote
    requires LocalMemory(w, p, w', p') && (if Owns(p.pc) then Owns(p'.pc) || p'.Over() else !Owns(p'.pc) && !p.pc.MakeRecord?)
    ensures Local(w, p, w', p')
  {
  }

  lemma AskIsLocal(env: Env, w: World, p: Proc, c: Choice)
    requires p.pc.Ask? && p.key == 0
    ensures var (w', p') := AskStep(env, w, p, c);
      w'.disk == w.disk && w'.log == w.log && p'.token == p.token && p'.wrote == p.wrote && !Owns(p'.pc) && LocalMemory(w, p, w', p')
  {
  }

  lemma AwaitIsLocal(env: Env, w: World, p: Proc, c: Choice)
    requires p.pc.Await?
    ensures var (w', p') := AwaitStep(env, w, p, c);
      w'.disk == w.disk && w'.log == w.log && p'.token == p.token && p'.wrote == p.wrote && !Owns(p'.pc) && LocalMemory(w, p, w', p')
  {
  }

  /** What a step before the record leaves alone. */
  ghost predicate SameThread(p: Proc, q: Proc) {
    q.token == p.token && q.key == p.key && q.wrote == p.wrote && !Owns(q.pc)
  }

  lemma InventoryKeeps(env: Env, w: World, p: Proc, c: Choice, next: Pc)
    requires !Owns(p.pc) && !Owns(next)
    ensures SameThread(p, InventoryStep(env, w, p, c, next))
  {
  }

  lemma LookupKeeps(w: World, p: Proc, c: Choice)
    requires !Owns(p.pc)
    ensures SameThread(p, LookupStep(w, p, c))
  {
  }

  lemma RevalidateKeeps(env: Env, w: World, p: Proc, c: Choice)
    requires !Owns(p.pc)
    ensures SameThread(p, RevalidateStep(env, w, p, c))
  {
  }

  lemma AdmitKeeps(env: Env, w: World, p: Proc, c: Choice)
    requires !Owns(p.pc)
    ensures SameThread(p, AdmitStep(env, w, p, c))
  {
  }

  lemma MakeIsLocal(w: World, p: Proc, c: Choice)
    requires p.pc.MakeRecord?
    ensures var (w', p') := MakeRecordStep(w, p, c); Local(w, p, w', p')
  {
  }

  lemma RecordIsLocal(w: World, p: Proc, c: Choice)
    requires Recording(p.pc) || p.pc.CommitManifest? || p.pc.CommitReceipt?
    ensures var (w', p') := RecordStep(w, p, c); Local(w, p, w', p')
  {
  }

  lemma ConsumeIsLocal(w: World, p: Proc, c: Choice)
    requires p.pc.Consume?
    ensures var (w', p') := ConsumeStep(w, p, c); Local(w, p, w', p')
  {
  }

  lemma StageIsLocal(w: World, p: Proc, c: Choice)
    requires p.pc.StageFile?
    ensures var (w', p') := StageStep(w, p, c); Local(w, p, w', p')
  {
  }

  lemma VerifyIsLocal(w: World, p: Proc, c: Choice)
    requires p.pc.VerifyCopy? || p.pc.Verify?
    ensures var (w', p') := VerifyStep(w, p, c); Local(w, p, w', p')
  {
  }

  lemma ChangeIsLogged(w: World, p: Proc, place: Place, content: Option<Text>)
    ensures var w', e := Change(w, p, place, content), Changed(p.key, p.token, place, At(w.disk, place), content);
      && w'.log == w.log + [e] && OwnChange(e, p) && SameNotes(w'.disk, With(w.disk, place, content))
      && w'.disk.records == w.disk.records && w'.disk.temps == w.disk.temps && w'.mem == w.mem && w'.nextKey == w.nextKey
  {
  }

  lemma ProtectControl(w: World, p: Proc, c: Choice)
    requires p.pc.Protect?
    ensures var (w', p') := ProtectStep(w, p, c); (Owns(p'.pc) || p'.Over()) && p'.token == p.token && p'.key == p.key
  {
  }

  lemma ProtectIsLocal(w: World, p: Proc, c: Choice)
    requires p.pc.Protect? && !p.wrote
    ensures var (w', p') := ProtectStep(w, p, c); Local(w, p, w', p')
  {
    var place, content := MainPlace(p.token.plan), Written(w.disk, p, Extent(c));
    var clean := if Replaces(p.token.plan) && !c.Die? then w.(disk := Unstaged(w.disk, p)) else w;
    var (w', p') := ProtectStep(w, p, c);
    ProtectControl(w, p, c);
    if w'.log != w.log {
      ChangeIsLogged(clean, p, place, content.value);
      ChangedLocal(w, clean, p, w', p', place, content.value);
    } else {
      assert w' == clean && !p'.wrote;
    }
  }

  lemma ChangedLocal(w: World, clean: World, p: Proc, w': World, p': Proc, place: Place, content: Option<Text>)
    requires Owns(p.pc) && (Owns(p'.pc) || p'.Over()) && p'.token == p.token && p'.key == p.key && p'.wrote
    requires clean == w || clean == w.(disk := Unstaged(w.disk, p))
    requires w' == Change(clean, p, place, content)
    ensures Local(w, p, w', p')
  {
    ChangeIsLogged(clean, p, place, content);
  }

  lemma UnlinkIsLocal(w: World, p: Proc, c: Choice)
    requires p.pc.Unlink? && p.wrote
    ensures var (w', p') := UnlinkStep(w, p, c); Local(w, p, w', p')
  {
    if p.token.plan.MoveDraft? {
      ChangeIsLogged(w, p, InInbox(p.token.plan.source), None);
    }
  }

  lemma EarlyStepIsLocal(env: Env, w: World, p: Proc, c: Choice)
    requires !Owns(p.pc) && (p.pc.Ask? ==> p.key == 0)
    ensures var (w', p') := Step(env, w, p, c); Local(w, p, w', p')
  {
    var (w', p') := Step(env, w, p, c);
    match p.pc
    case Inventory => InventoryKeeps(env, w, p, c, Lookup); OffDiskIsLocal(w, p, w', p');
    case Lookup => LookupKeeps(w, p, c); OffDiskIsLocal(w, p, w', p');
    case Ask => AskIsLocal(env, w, p, c); OffDiskIsLocal(w, p, w', p');
    case Await => AwaitIsLocal(env, w, p, c); OffDiskIsLocal(w, p, w', p');
    case Revalidate => RevalidateKeeps(env, w, p, c); OffDiskIsLocal(w, p, w', p');
    case Reinventory => InventoryKeeps(env, w, p, c, Admit); OffDiskIsLocal(w, p, w', p');
    case Admit => AdmitKeeps(env, w, p, c); OffDiskIsLocal(w, p, w', p');
    case MakeRecord => MakeIsLocal(w, p, c);
    case Finished(_) => OffDiskIsLocal(w, p, w', p');
    case Dead => OffDiskIsLocal(w, p, w', p');
  }

  lemma StepIsLocal(env: Env, w: World, p: Proc, c: Choice)
    requires p.pc.Ask? ==> p.key == 0
    requires p.pc.Protect? ==> !p.wrote
    requires p.pc.Unlink? ==> p.wrote
    ensures var (w', p') := Step(env, w, p, c); Local(w, p, w', p')
  {
    match p.pc
    case Backup => RecordIsLocal(w, p, c);
    case WriteManifest => RecordIsLocal(w, p, c);
    case WriteReceipt => RecordIsLocal(w, p, c);
    case CommitManifest => RecordIsLocal(w, p, c);
    case CommitReceipt => RecordIsLocal(w, p, c);
    case Consume => ConsumeIsLocal(w, p, c);
    case StageFile => StageIsLocal(w, p, c);
    case Probe => OffDiskIsLocal(w, p, w, ProbeStep(w, p, c).1);
    case Protect => ProtectIsLocal(w, p, c);
    case VerifyCopy => VerifyIsLocal(w, p, c);
    case Unlink => UnlinkIsLocal(w, p, c);
    case Verify => VerifyIsLocal(w, p, c);
    case _ => EarlyStepIsLocal(env, w, p, c);
  }
}
