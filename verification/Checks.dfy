/**
 What a call had seen on disk before it went on: that every record, every removal and every success rests on a check
 that was made, at a moment of the run that can be named, with outside writers between any two steps.
 */
module Checks {
  import opened Wrappers
  import opened VaultModel
  import opened Recovery
  import opened Executor
  import opened System
  import opened StepForms
  import opened Preservation
  import opened Guarantees

  // ---------- Moments of a run ----------

  /**
   What can be true at a moment: the preview is still known; nothing is unfinished; the notes are as planned; a move's
   copy is whole; all is done.
   */
  datatype Sight = Known | Unblocked | FreshNotes | WholeCopy | AllDone

  ghost predicate Asked(env: Env, w: World, key: nat, plan: Plan) {
    exists text :: Decided(key, text) in w.log && IsSummary(env, plan, text)
  }

  ghost predicate Made(w: World, key: nat, token: Token, place: Place) {
    exists e :: e in w.log && e.Changed? && e.key == key && e.token == token && e.place == place
  }

  ghost predicate Sees(env: Env, w: World, key: nat, token: Token, sight: Sight) {
    var plan := token.plan;
    match sight
    case Known => Asked(env, w, key, plan) && token in w.mem.previews && SummaryOk(w.mem.previews[token])
    case Unblocked => Asked(env, w, key, plan) && Blocked(env, w.disk).None?
    case FreshNotes =>
      && Asked(env, w, key, plan) && PreImage(w.disk, plan) && NotesReadable(w.disk, BodyOf(plan))
      && (plan.MoveDraft? ==> env.isDraft(w.disk.inbox[plan.source]))
    case WholeCopy =>
      plan.MoveDraft? && Made(w, key, token, InVault(plan.target)) && Holds(w.disk.vault, plan.target, plan.sourceSha)
    case AllDone => PostImage(w.disk, plan) && Made(w, key, token, MainPlace(plan))
  }

  function LogAt(env: Env, vault: map<Path, Text>, inbox: map<Path, Text>, hs: seq<Happening>, k: nat): nat
    requires k <= |hs|
  {
    |Reached(env, vault, inbox, hs[..k]).w.log|
  }

  ghost predicate SeesAt(env: Env, vault: map<Path, Text>, inbox: map<Path, Text>, hs: seq<Happening>, k: nat, key: nat, token: Token, sight: Sight) {
    k <= |hs| && Sees(env, Reached(env, vault, inbox, hs[..k]).w, key, token, sight)
  }

  /** It was so at a moment when the log had at most n entries. */
  ghost predicate Saw(env: Env, vault: map<Path, Text>, inbox: map<Path, Text>, hs: seq<Happening>, n: nat, key: nat, token: Token, sight: Sight) {
    exists k: nat :: SeesAt(env, vault, inbox, hs, k, key, token, sight) && LogAt(env, vault, inbox, hs, k) <= n
  }

  /** All was done at a moment after which this call changed nothing more. */
  ghost predicate SawDone(env: Env, vault: map<Path, Text>, inbox: map<Path, Text>, hs: seq<Happening>, key: nat, token: Token) {
    var log := Reached(env, vault, inbox, hs).w.log;
    exists k: nat :: SeesAt(env, vault, inbox, hs, k, key, token, AllDone)
      && forall j :: LogAt(env, vault, inbox, hs, k) <= j < |log| ==> !Carries(log[j], key)
  }

  // ---------- What one step tells ----------

  /** Past the last check. */
  predicate Committing(pc: Pc) { pc.CommitManifest? || pc.CommitReceipt? || (pc.Finished? && pc.outcome.success) }

  ghost predicate NewEntry(p: Proc, e: Event) {
    && (e.Opened? ==> e.token == p.token && p.pc.MakeRecord?)
    && (e.Changed? ==> e.token == p.token && e.key == p.key && Owns(p.pc) && !Committing(p.pc) && (e.place != MainPlace(p.token.plan) ==> p.pc.Unlink?))
  }

  ghost predicate LogTells(w: World, p: Proc, w': World) {
    w'.log == w.log || exists e :: w'.log == w.log + [e] && !e.Decided? && NewEntry(p, e)
  }

  /** Past its protected write a call has made it. */
  ghost predicate HasWritten(w: World, p: Proc) { Writing(p.pc) ==> Made(w, p.key, p.token, MainPlace(p.token.plan)) }

  /** Where the step led, and what was so when it was made. */
  ghost predicate Tells(env: Env, w: World, p: Proc, w': World, p': Proc) {
    && p'.token == p.token && LogTells(w, p, w') && HasWritten(w', p')
    && (p'.pc.Reinventory? || p'.pc.Admit? || p'.pc.MakeRecord? || p'.pc.Unlink? || Committing(p'.pc) ==> p'.key == p.key && p.key > 0)
    && (Owns(p'.pc) ==> p'.key == p.key && (Owns(p.pc) || p.pc.MakeRecord?))
    && (p'.pc.Reinventory? ==> Sees(env, w, p.key, p.token, Known))
    && (p'.pc.Admit? ==> p.pc.Reinventory? && Sees(env, w, p.key, p.token, Unblocked))
    && (p'.pc.MakeRecord? ==> p.pc.Admit? && Sees(env, w, p.key, p.token, FreshNotes))
    && (p'.pc.Unlink? ==> Sees(env, w, p.key, p.token, WholeCopy))
    && (Committing(p'.pc) ==> w'.log == w.log && (Committing(p.pc) || Sees(env, w, p.key, p.token, AllDone)))
  }

  lemma IsAsked(env: Env, w: World, p: Proc)
    requires ProcOk(env, w, p) && System.Approved(p.pc)
    ensures Asked(env, w, p.key, p.token.plan) && p.key > 0
  {
    assert p.Entry().plan == p.token.plan;
    assert IsSummary(env, p.token.plan, p.message);
  }

  lemma InventoryTells(env: Env, w: World, p: Proc, c: Choice)
    requires ProcOk(env, w, p) && p.pc.Reinventory?
    ensures var (w', p') := Step(env, w, p, c); Tells(env, w, p, w', p')
  {
    IsAsked(env, w, p);
  }

  lemma FreshIsSeen(env: Env, d: Disk, plan: Plan)
    requires NoteProblem(env, d, plan).None?
    ensures PreImage(d, plan) && NotesReadable(d, BodyOf(plan)) && (plan.MoveDraft? ==> env.isDraft(d.inbox[plan.source]))
  {
  }

  lemma AdmitTells(env: Env, w: World, p: Proc, c: Choice)
    requires ProcOk(env, w, p) && p.pc.Admit?
    ensures var (w', p') := Step(env, w, p, c); Tells(env, w, p, w', p')
  {
    IsAsked(env, w, p);
    AdmitForm(env, w, p, c);
    if AdmitStep(env, w, p, c).pc.MakeRecord? { FreshIsSeen(env, w.disk, p.token.plan); }
  }

  lemma MakeTells(env: Env, w: World, p: Proc, c: Choice)
    requires p.pc.MakeRecord?
    ensures var (w', p') := Step(env, w, p, c); Tells(env, w, p, w', p')
  {
    var (w', p') := Step(env, w, p, c);
    assert w'.log != w.log ==> w'.log == w.log + [Event.Opened(p.token)] && NewEntry(p, Event.Opened(p.token));
  }

  /** Steps that neither log nor lead anywhere that needs a check. */
  lemma PlainTells(env: Env, w: World, p: Proc, w': World, p': Proc)
    requires p'.token == p.token && w'.log == w.log
    requires !p'.pc.Reinventory? && !p'.pc.Admit? && !p'.pc.MakeRecord? && !Writing(p'.pc) && !Committing(p'.pc)
    requires Owns(p'.pc) ==> p'.key == p.key && Owns(p.pc)
    ensures Tells(env, w, p, w', p')
  {
  }

  lemma EarlyTells(env: Env, w: World, p: Proc, c: Choice)
    requires p.pc.Inventory? || p.pc.Lookup? || p.pc.Dead?
    ensures var (w', p') := Step(env, w, p, c); Tells(env, w, p, w', p')
  {
    var (w', p') := Step(env, w, p, c);
    if p.pc.Inventory? { InventoryLeads(env, w, p, c); }
    else if p.pc.Lookup? { LookupLeads(w, p, c); }
    PlainTells(env, w, p, w', p');
  }

  lemma RevalidateTells(env: Env, w: World, p: Proc, c: Choice)
    requires ProcOk(env, w, p) && p.pc.Revalidate?
    ensures var (w', p') := Step(env, w, p, c); Tells(env, w, p, w', p')
  {
    IsAsked(env, w, p);
    RevalidateLeads(env, w, p, c);
    RevalidatedTells(env, w, p, RevalidateStep(env, w, p, c));
  }

  lemma RevalidatedTells(env: Env, w: World, p: Proc, q: Proc)
    requires p.pc.Revalidate? && Asked(env, w, p.key, p.token.plan) && p.key > 0 && q.token == p.token && q.key == p.key
    requires Failed(q) || (q.pc.Reinventory? && p.token in w.mem.previews && SummaryOk(w.mem.previews[p.token]))
    ensures Tells(env, w, p, w, q)
  {
  }

  lemma InventoryLeads(env: Env, w: World, p: Proc, c: Choice)
    ensures var q := InventoryStep(env, w, p, c, Lookup); q.token == p.token && (Failed(q) || q.pc.Lookup?)
  {
  }

  lemma LookupLeads(w: World, p: Proc, c: Choice)
    ensures var q := LookupStep(w, p, c); q.token == p.token && (Failed(q) || q.pc.Ask?)
  {
  }

  lemma RevalidateLeads(env: Env, w: World, p: Proc, c: Choice)
    ensures var q := RevalidateStep(env, w, p, c);
      && q.token == p.token && q.key == p.key
      && (Failed(q) || (q.pc.Reinventory? && p.token in w.mem.previews && SummaryOk(w.mem.previews[p.token])))
  {
  }

  lemma GateTells(env: Env, w: World, p: Proc, c: Choice)
    requires p.pc.Ask? || p.pc.Await?
    ensures var (w', p') := Step(env, w, p, c); Tells(env, w, p, w', p')
  {
    var (w', p') := Step(env, w, p, c);
    if p.pc.Ask? { AskStaysAsking(env, w, p, c); } else { AwaitStaysAsking(env, w, p, c); }
    GateKeepsToken(env, w, p, c);
    PlainTells(env, w, p, w', p');
  }

  lemma GateKeepsToken(env: Env, w: World, p: Proc, c: Choice)
    requires p.pc.Ask? || p.pc.Await?
    ensures var p' := Step(env, w, p, c).1; p'.token == p.token && (p'.pc.Finished? ==> !p'.pc.outcome.success)
  {
  }

  lemma RecordTells(env: Env, w: World, p: Proc, c: Choice)
    requires ProcOk(env, w, p) && HasWritten(w, p) && (Recording(p.pc) || p.pc.CommitManifest? || p.pc.CommitReceipt?)
    ensures var (w', p') := Step(env, w, p, c); Tells(env, w, p, w', p')
  {
    var (w', p') := Step(env, w, p, c);
    assert p.key > 0 && p.token in w.disk.records;
    RecordForm(w, p, c);
    RecordPut(w, p, c);
    RecordLogsNothing(w, p, c);
    assert (w', p') == RecordStep(w, p, c);
    WrittenTells(env, w, p, w', p');
  }

  lemma WrittenTells(env: Env, w: World, p: Proc, w': World, p': Proc)
    requires HasWritten(w, p) && (Recording(p.pc) || p.pc.CommitManifest? || p.pc.CommitReceipt?)
    requires SameJob(p, p') && w'.log == w.log && p.key > 0 && (Failed(p') || p'.pc == AfterWrite(p))
    ensures Tells(env, w, p, w', p')
  {
  }

  lemma RecordLogsNothing(w: World, p: Proc, c: Choice)
    ensures RecordStep(w, p, c).0.log == w.log
  {
  }

  lemma ArmedTells(env: Env, w: World, p: Proc, c: Choice)
    requires p.pc.Consume? || p.pc.StageFile? || p.pc.Probe?
    ensures var (w', p') := Step(env, w, p, c); Tells(env, w, p, w', p')
  {
    var (w', p') := Step(env, w, p, c);
    if p.pc.Consume? { ConsumeForm(w, p, c); }
    else if p.pc.StageFile? { StageForm(w, p, c); }
    else { ProbeForm(w, p, c); }
    ArmedLogsNothing(env, w, p, c);
    PlainTells(env, w, p, w', p');
  }

  lemma ArmedLogsNothing(env: Env, w: World, p: Proc, c: Choice)
    requires p.pc.Consume? || p.pc.StageFile? || p.pc.Probe?
    ensures Step(env, w, p, c).0.log == w.log
  {
  }

  lemma ProtectTells(env: Env, w: World, p: Proc, c: Choice)
    requires p.pc.Protect?
    ensures var (w', p') := Step(env, w, p, c); Tells(env, w, p, w', p')
  {
    var (w', p') := Step(env, w, p, c);
    ProtectLogs(w, p, c);
    ProtectLeads(w, p, c);
    ProtectMakes(w, p, c);
    assert Step(env, w, p, c) == ProtectStep(w, p, c);
  }

  lemma ProtectLogs(w: World, p: Proc, c: Choice)
    requires p.pc.Protect?
    ensures LogTells(w, p, ProtectStep(w, p, c).0)
  {
    var (w', p') := ProtectStep(w, p, c);
    var place, content := MainPlace(p.token.plan), Written(w.disk, p, Extent(c));
    var clean := if Replaces(p.token.plan) && !c.Die? then w.(disk := Unstaged(w.disk, p)) else w;
    if w'.log != w.log {
      ChangeIsLogged(clean, p, place, content.value);
      assert NewEntry(p, Changed(p.key, p.token, place, At(clean.disk, place), content.value));
    }
  }

  lemma ProtectLeads(w: World, p: Proc, c: Choice)
    requires p.pc.Protect?
    ensures var p' := ProtectStep(w, p, c).1; p'.token == p.token && (Failed(p') || p'.pc.VerifyCopy? || p'.pc.Verify?)
  {
  }

  lemma ProtectMakes(w: World, p: Proc, c: Choice)
    requires p.pc.Protect?
    ensures var (w', p') := ProtectStep(w, p, c); HasWritten(w', p') && p'.key == p.key
  {
    var (w', p') := ProtectStep(w, p, c);
    var place, content := MainPlace(p.token.plan), Written(w.disk, p, Extent(c));
    var clean := if Replaces(p.token.plan) && !c.Die? then w.(disk := Unstaged(w.disk, p)) else w;
    if Writing(p'.pc) {
      var e := Changed(p.key, p.token, place, At(clean.disk, place), content.value);
      assert w' == Change(clean, p, place, content.value);
      assert w'.log[|w.log|] == e;
    }
  }

  lemma UnlinkTells(env: Env, w: World, p: Proc, c: Choice)
    requires p.pc.Unlink? && HasWritten(w, p)
    ensures var (w', p') := Step(env, w, p, c); Tells(env, w, p, w', p')
  {
    var (w', p') := Step(env, w, p, c);
    UnlinkLeads(w, p, c);
    UnlinkLogs(w, p, c);
    assert forall e :: e in w.log ==> e in w'.log;
  }

  lemma UnlinkLeads(w: World, p: Proc, c: Choice)
    requires p.pc.Unlink?
    ensures var p' := UnlinkStep(w, p, c).1; p'.token == p.token && p'.key == p.key && (Failed(p') || p'.pc.Verify?)
  {
  }

  lemma UnlinkLogs(w: World, p: Proc, c: Choice)
    requires p.pc.Unlink?
    ensures LogTells(w, p, UnlinkStep(w, p, c).0)
  {
    var place := if p.token.plan.MoveDraft? then InInbox(p.token.plan.source) else MainPlace(p.token.plan);
    if UnlinkStep(w, p, c).0.log != w.log {
      ChangeIsLogged(w, p, place, None);
      assert NewEntry(p, Changed(p.key, p.token, place, At(w.disk, place), None));
    }
  }

  /** A check after a write lets the call on only when it found what the plan promises. */
  lemma VerifyTells(env: Env, w: World, p: Proc, c: Choice)
    requires ProcOk(env, w, p) && HasWritten(w, p) && (p.pc.VerifyCopy? || p.pc.Verify?)
    ensures var (w', p') := Step(env, w, p, c); Tells(env, w, p, w', p')
  {
    IsAsked(env, w, p);
    VerifyForm(w, p, c);
    CopiesAreMoves(env, w, p);
    VerifySees(w, p, c);
  }

  lemma CopiesAreMoves(env: Env, w: World, p: Proc)
    requires ProcOk(env, w, p)
    ensures p.pc.VerifyCopy? ==> p.token.plan.MoveDraft?
  {
  }

  lemma VerifySees(w: World, p: Proc, c: Choice)
    requires p.pc.VerifyCopy? ==> p.token.plan.MoveDraft?
    requires p.pc.VerifyCopy? || p.pc.Verify?
    ensures var p' := VerifyStep(w, p, c).1;
      && (p'.pc.Unlink? ==> Holds(w.disk.vault, p.token.plan.target, p.token.plan.sourceSha))
      && (p'.pc.CommitManifest? ==> PostImage(w.disk, p.token.plan))
  {
  }

  /** Every step tells. */
  lemma StepTells(env: Env, w: World, p: Proc, c: Choice)
    requires ProcOk(env, w, p) && HasWritten(w, p)
    ensures var (w', p') := Step(env, w, p, c);
      Tells(env, w, p, w', p') || (p.Over() && (w', p') == (w, p))
  {
    if p.Over() { OverStays(env, w, p, c); }
    else if p.pc.Admit? { AdmitTells(env, w, p, c); }
    else if p.pc.Reinventory? { InventoryTells(env, w, p, c); }
    else if p.pc.MakeRecord? { MakeTells(env, w, p, c); }
    else if p.pc.Revalidate? { RevalidateTells(env, w, p, c); }
    else if p.pc.Ask? || p.pc.Await? { GateTells(env, w, p, c); }
    else if p.pc.Protect? { ProtectTells(env, w, p, c); }
    else if p.pc.Unlink? { UnlinkTells(env, w, p, c); }
    else if p.pc.VerifyCopy? || p.pc.Verify? { VerifyTells(env, w, p, c); }
    else if p.pc.Consume? || p.pc.StageFile? || p.pc.Probe? { ArmedTells(env, w, p, c); }
    else if !Owns(p.pc) { EarlyTells(env, w, p, c); }
    else { RecordTells(env, w, p, c); }
  }

  // ---------- Over a run ----------

  /** What a thread's place says about the past. */
  ghost predicate Followed(env: Env, vault: map<Path, Text>, inbox: map<Path, Text>, hs: seq<Happening>, p: Proc) {
    var w := Reached(env, vault, inbox, hs).w;
    var n := |w.log|;
    && HasWritten(w, p)
    && (p.pc.Reinventory? || p.pc.Admit? ==> Saw(env, vault, inbox, hs, n, p.key, p.token, Known))
    && (p.pc.Admit? ==> Saw(env, vault, inbox, hs, n, p.key, p.token, Unblocked))
    && (p.pc.MakeRecord? || Owns(p.pc) ==> SawAll(env, vault, inbox, hs, n, p.key, p.token))
    && (p.pc.Unlink? ==> Saw(env, vault, inbox, hs, n, p.key, p.token, WholeCopy))
    && (Committing(p.pc) ==> p.key > 0 && SawDone(env, vault, inbox, hs, p.key, p.token))
  }

  ghost predicate SawAll(env: Env, vault: map<Path, Text>, inbox: map<Path, Text>, hs: seq<Happening>, n: nat, key: nat, token: Token) {
    && Saw(env, vault, inbox, hs, n, key, token, Known)
    && Saw(env, vault, inbox, hs, n, key, token, Unblocked) && Saw(env, vault, inbox, hs, n, key, token, FreshNotes)
  }

  /** What an entry of the log says about the past. */
  ghost predicate Backed(env: Env, vault: map<Path, Text>, inbox: map<Path, Text>, hs: seq<Happening>, i: nat, e: Event) {
    && (e.Opened? ==> exists key :: SawAll(env, vault, inbox, hs, i, key, e.token))
    && (e.Changed? ==> SawAll(env, vault, inbox, hs, i, e.key, e.token))
    && (e.Changed? && e.place != MainPlace(e.token.plan) ==> Saw(env, vault, inbox, hs, i, e.key, e.token, WholeCopy))
  }

  ghost predicate Trail(env: Env, vault: map<Path, Text>, inbox: map<Path, Text>, hs: seq<Happening>) {
    var s := Reached(env, vault, inbox, hs);
    && (forall pid :: pid in s.procs ==> Followed(env, vault, inbox, hs, s.procs[pid]))
    && (forall i: nat :: i < |s.w.log| ==> Backed(env, vault, inbox, hs, i, s.w.log[i]))
  }

  /** What was so at a moment of a run was so in every continuation. */
  lemma SawLater(env: Env, vault: map<Path, Text>, inbox: map<Path, Text>, hs: seq<Happening>, h: Happening, n: nat, m: nat, key: nat, token: Token, sight: Sight)
    requires Saw(env, vault, inbox, hs, n, key, token, sight) && n <= m
    ensures Saw(env, vault, inbox, hs + [h], m, key, token, sight)
  {
    var k: nat :| SeesAt(env, vault, inbox, hs, k, key, token, sight) && LogAt(env, vault, inbox, hs, k) <= n;
    assert (hs + [h])[..k] == hs[..k];
    assert SeesAt(env, vault, inbox, hs + [h], k, key, token, sight) && LogAt(env, vault, inbox, hs + [h], k) <= m;
  }

  lemma SawAllLater(env: Env, vault: map<Path, Text>, inbox: map<Path, Text>, hs: seq<Happening>, h: Happening, n: nat, m: nat, key: nat, token: Token)
    requires SawAll(env, vault, inbox, hs, n, key, token) && n <= m
    ensures SawAll(env, vault, inbox, hs + [h], m, key, token)
  {
    SawLater(env, vault, inbox, hs, h, n, m, key, token, Known);
    SawLater(env, vault, inbox, hs, h, n, m, key, token, Unblocked);
    SawLater(env, vault, inbox, hs, h, n, m, key, token, FreshNotes);
  }

  /** What is so now was so at the last moment. */
  lemma SeenNow(env: Env, vault: map<Path, Text>, inbox: map<Path, Text>, hs: seq<Happening>, h: Happening, key: nat, token: Token, sight: Sight)
    requires Sees(env, Reached(env, vault, inbox, hs).w, key, token, sight)
    ensures forall m :: m >= |Reached(env, vault, inbox, hs).w.log| ==> Saw(env, vault, inbox, hs + [h], m, key, token, sight)
    ensures Reached(env, vault, inbox, hs + [h]).w.log == Reached(env, vault, inbox, hs).w.log && sight == AllDone ==>
      SawDone(env, vault, inbox, hs + [h], key, token)
  {
    var k := |hs|;
    assert (hs + [h])[..k] == hs;
    assert SeesAt(env, vault, inbox, hs + [h], k, key, token, sight);
    assert LogAt(env, vault, inbox, hs + [h], k) == |Reached(env, vault, inbox, hs).w.log|;
  }

  /** Nothing this call did not do itself undoes that it was done. */
  lemma DoneLater(env: Env, vault: map<Path, Text>, inbox: map<Path, Text>, hs: seq<Happening>, h: Happening, key: nat, token: Token)
    requires SawDone(env, vault, inbox, hs, key, token)
    requires var log, log' := Reached(env, vault, inbox, hs).w.log, Reached(env, vault, inbox, hs + [h]).w.log;
      log' == log || exists e :: log' == log + [e] && !Carries(e, key)
    ensures SawDone(env, vault, inbox, hs + [h], key, token)
  {
    var log, log' := Reached(env, vault, inbox, hs).w.log, Reached(env, vault, inbox, hs + [h]).w.log;
    var k: nat :| SeesAt(env, vault, inbox, hs, k, key, token, AllDone)
      && forall j :: LogAt(env, vault, inbox, hs, k) <= j < |log| ==> !Carries(log[j], key);
    assert (hs + [h])[..k] == hs[..k];
    assert SeesAt(env, vault, inbox, hs + [h], k, key, token, AllDone);
    forall j | LogAt(env, vault, inbox, hs + [h], k) <= j < |log'| ensures !Carries(log'[j], key) {
      if j < |log| { assert log'[j] == log[j]; }
    }
  }

  /** A thread that did not move keeps its past, unless something is logged under its key. */
  lemma OtherFollowed(env: Env, vault: map<Path, Text>, inbox: map<Path, Text>, hs: seq<Happening>, h: Happening, q: Proc)
    requires Followed(env, vault, inbox, hs, q)
    requires var log, log' := Reached(env, vault, inbox, hs).w.log, Reached(env, vault, inbox, hs + [h]).w.log;
      log' == log || exists e :: log' == log + [e] && (Committing(q.pc) ==> !Carries(e, q.key))
    ensures Followed(env, vault, inbox, hs + [h], q)
  {
    var n, m := |Reached(env, vault, inbox, hs).w.log|, |Reached(env, vault, inbox, hs + [h]).w.log|;
    if q.pc.Reinventory? || q.pc.Admit? { SawLater(env, vault, inbox, hs, h, n, m, q.key, q.token, Known); }
    if q.pc.Admit? { SawLater(env, vault, inbox, hs, h, n, m, q.key, q.token, Unblocked); }
    if q.pc.MakeRecord? || Owns(q.pc) { SawAllLater(env, vault, inbox, hs, h, n, m, q.key, q.token); }
    if q.pc.Unlink? { SawLater(env, vault, inbox, hs, h, n, m, q.key, q.token, WholeCopy); }
    if Committing(q.pc) { DoneLater(env, vault, inbox, hs, h, q.key, q.token); }
  }

  /** A thread that moved has the past its new place asks for. */
  lemma MoverFollowed(env: Env, vault: map<Path, Text>, inbox: map<Path, Text>, hs: seq<Happening>, h: Happening, p: Proc, p': Proc)
    requires Followed(env, vault, inbox, hs, p)
    requires Tells(env, Reached(env, vault, inbox, hs).w, p, Reached(env, vault, inbox, hs + [h]).w, p')
    ensures Followed(env, vault, inbox, hs + [h], p')
  {
    var w, w' := Reached(env, vault, inbox, hs).w, Reached(env, vault, inbox, hs + [h]).w;
    var n, m := |w.log|, |w'.log|;
    if p'.pc.Reinventory? { SeenNow(env, vault, inbox, hs, h, p.key, p.token, Known); }
    if p'.pc.Admit? {
      SawLater(env, vault, inbox, hs, h, n, m, p.key, p.token, Known);
      SeenNow(env, vault, inbox, hs, h, p.key, p.token, Unblocked);
    }
    if p'.pc.MakeRecord? {
      SawLater(env, vault, inbox, hs, h, n, m, p.key, p.token, Known);
      SawLater(env, vault, inbox, hs, h, n, m, p.key, p.token, Unblocked);
      SeenNow(env, vault, inbox, hs, h, p.key, p.token, FreshNotes);
    }
    if Owns(p'.pc) { SawAllLater(env, vault, inbox, hs, h, n, m, p.key, p.token); }
    if p'.pc.Unlink? { SeenNow(env, vault, inbox, hs, h, p.key, p.token, WholeCopy); }
    if Committing(p'.pc) {
      if Committing(p.pc) { DoneLater(env, vault, inbox, hs, h, p.key, p.token); }
      else { SeenNow(env, vault, inbox, hs, h, p.key, p.token, AllDone); }
    }
  }

  lemma BackedLater(env: Env, vault: map<Path, Text>, inbox: map<Path, Text>, hs: seq<Happening>, h: Happening, i: nat, e: Event)
    requires Backed(env, vault, inbox, hs, i, e)
    ensures Backed(env, vault, inbox, hs + [h], i, e)
  {
    if e.Opened? {
      var key :| SawAll(env, vault, inbox, hs, i, key, e.token);
      SawAllLater(env, vault, inbox, hs, h, i, i, key, e.token);
    }
    if e.Changed? { SawAllLater(env, vault, inbox, hs, h, i, i, e.key, e.token); }
    if e.Changed? && e.place != MainPlace(e.token.plan) {
      SawLater(env, vault, inbox, hs, h, i, i, e.key, e.token, WholeCopy);
    }
  }

  /** A new entry rests on what its thread had seen. */
  lemma EntryBacked(env: Env, vault: map<Path, Text>, inbox: map<Path, Text>, hs: seq<Happening>, h: Happening, p: Proc, e: Event)
    requires Followed(env, vault, inbox, hs, p) && NewEntry(p, e)
    ensures Backed(env, vault, inbox, hs + [h], |Reached(env, vault, inbox, hs).w.log|, e)
  {
    var n := |Reached(env, vault, inbox, hs).w.log|;
    if e.Opened? {
      SawAllLater(env, vault, inbox, hs, h, n, n, p.key, p.token);
    }
    if e.Changed? { SawAllLater(env, vault, inbox, hs, h, n, n, p.key, p.token); }
    if e.Changed? && e.place != MainPlace(e.token.plan) {
      SawLater(env, vault, inbox, hs, h, n, n, p.key, p.token, WholeCopy);
    }
  }

  lemma RunLast(env: Env, vault: map<Path, Text>, inbox: map<Path, Text>, hs: seq<Happening>, h: Happening)
    ensures Reached(env, vault, inbox, hs + [h]) == Happen(env, Reached(env, vault, inbox, hs), h)
  {
    assert (hs + [h])[..|hs|] == hs;
  }

  /** All entries are backed if the old ones were and the new one is. */
  lemma LogBacked(env: Env, vault: map<Path, Text>, inbox: map<Path, Text>, hs: seq<Happening>, h: Happening)
    requires Trail(env, vault, inbox, hs)
    requires var log, log' := Reached(env, vault, inbox, hs).w.log, Reached(env, vault, inbox, hs + [h]).w.log;
      log' == log || exists e :: log' == log + [e] && Backed(env, vault, inbox, hs + [h], |log|, e)
    ensures forall i: nat :: i < |Reached(env, vault, inbox, hs + [h]).w.log| ==>
      Backed(env, vault, inbox, hs + [h], i, Reached(env, vault, inbox, hs + [h]).w.log[i])
  {
    var log, log' := Reached(env, vault, inbox, hs).w.log, Reached(env, vault, inbox, hs + [h]).w.log;
    var backed := (i: nat, e: Event) => Backed(env, vault, inbox, hs + [h], i, e);
    forall i: nat | i < |log| ensures backed(i, log[i]) {
      BackedLater(env, vault, inbox, hs, h, i, log[i]);
    }
    EntriesHold(backed, log, log');
  }

  /** What holds of all entries and of the new one holds of all. */
  lemma EntriesHold(holds: (nat, Event) -> bool, log: seq<Event>, log': seq<Event>)
    requires forall i: nat :: i < |log| ==> holds(i, log[i])
    requires log' == log || exists e :: log' == log + [e] && holds(|log|, e)
    ensures forall i: nat :: i < |log'| ==> holds(i, log'[i])
  {
  }

  lemma TurnTrail(env: Env, vault: map<Path, Text>, inbox: map<Path, Text>, hs: seq<Happening>, h: Happening)
    requires Inv(env, Reached(env, vault, inbox, hs)) && Trail(env, vault, inbox, hs)
    requires h.Turn? && h.pid in Reached(env, vault, inbox, hs).procs && !Reached(env, vault, inbox, hs).procs[h.pid].Over()
    ensures Trail(env, vault, inbox, hs + [h])
  {
    var s, s' := Reached(env, vault, inbox, hs), Reached(env, vault, inbox, hs + [h]);
    var p := s.procs[h.pid];
    TurnTells(env, vault, inbox, hs, h);
    MoverFollowed(env, vault, inbox, hs, h, p, s'.procs[h.pid]);
    OthersFollowed(env, vault, inbox, hs, h, h.pid);
    TurnBacked(env, vault, inbox, hs, h, p);
    forall pid | pid in s'.procs ensures Followed(env, vault, inbox, hs + [h], s'.procs[pid]) {
      assert pid != h.pid ==> s'.procs[pid] == s.procs[pid];
    }
  }

  lemma TurnReached(env: Env, vault: map<Path, Text>, inbox: map<Path, Text>, hs: seq<Happening>, pid: nat, c: Choice)
    requires pid in Reached(env, vault, inbox, hs).procs
    ensures var s, later := Reached(env, vault, inbox, hs), Reached(env, vault, inbox, hs + [Turn(pid, c)]);
      && pid in later.procs && (later.w, later.procs[pid]) == Step(env, s.w, s.procs[pid], c)
      && later.procs.Keys == s.procs.Keys && forall q :: q in s.procs && q != pid ==> later.procs[q] == s.procs[q]
  {
    RunLast(env, vault, inbox, hs, Turn(pid, c));
  }

  lemma TurnTells(env: Env, vault: map<Path, Text>, inbox: map<Path, Text>, hs: seq<Happening>, h: Happening)
    requires Inv(env, Reached(env, vault, inbox, hs)) && Trail(env, vault, inbox, hs)
    requires h.Turn? && h.pid in Reached(env, vault, inbox, hs).procs && !Reached(env, vault, inbox, hs).procs[h.pid].Over()
    ensures var s, s' := Reached(env, vault, inbox, hs), Reached(env, vault, inbox, hs + [h]);
      && h.pid in s'.procs && Followed(env, vault, inbox, hs, s.procs[h.pid])
      && Tells(env, s.w, s.procs[h.pid], s'.w, s'.procs[h.pid])
      && s'.procs.Keys == s.procs.Keys && forall pid :: pid in s.procs && pid != h.pid ==> s'.procs[pid] == s.procs[pid]
  {
    var s := Reached(env, vault, inbox, hs);
    MoverReady(env, vault, inbox, hs, h.pid);
    StepTells(env, s.w, s.procs[h.pid], h.choice);
    TurnReached(env, vault, inbox, hs, h.pid, h.choice);
    assert h == Turn(h.pid, h.choice);
  }

  lemma MoverReady(env: Env, vault: map<Path, Text>, inbox: map<Path, Text>, hs: seq<Happening>, pid: nat)
    requires Inv(env, Reached(env, vault, inbox, hs)) && Trail(env, vault, inbox, hs) && pid in Reached(env, vault, inbox, hs).procs
    ensures var s := Reached(env, vault, inbox, hs);
      ProcOk(env, s.w, s.procs[pid]) && Followed(env, vault, inbox, hs, s.procs[pid]) && HasWritten(s.w, s.procs[pid])
  {
  }

  lemma OthersFollowed(env: Env, vault: map<Path, Text>, inbox: map<Path, Text>, hs: seq<Happening>, h: Happening, mover: nat)
    requires Inv(env, Reached(env, vault, inbox, hs)) && Trail(env, vault, inbox, hs) && mover in Reached(env, vault, inbox, hs).procs
    requires LogTells(Reached(env, vault, inbox, hs).w, Reached(env, vault, inbox, hs).procs[mover], Reached(env, vault, inbox, hs + [h]).w)
    ensures var s := Reached(env, vault, inbox, hs);
      forall pid :: pid in s.procs && pid != mover ==> Followed(env, vault, inbox, hs + [h], s.procs[pid])
  {
    var s := Reached(env, vault, inbox, hs);
    forall pid | pid in s.procs && pid != mover ensures Followed(env, vault, inbox, hs + [h], s.procs[pid]) {
      OtherUncarried(env, s, mover, pid, Reached(env, vault, inbox, hs + [h]).w);
      OtherFollowed(env, vault, inbox, hs, h, s.procs[pid]);
    }
  }

  lemma TurnBacked(env: Env, vault: map<Path, Text>, inbox: map<Path, Text>, hs: seq<Happening>, h: Happening, p: Proc)
    requires Trail(env, vault, inbox, hs) && Followed(env, vault, inbox, hs, p)
    requires LogTells(Reached(env, vault, inbox, hs).w, p, Reached(env, vault, inbox, hs + [h]).w)
    ensures forall i: nat :: i < |Reached(env, vault, inbox, hs + [h]).w.log| ==>
      Backed(env, vault, inbox, hs + [h], i, Reached(env, vault, inbox, hs + [h]).w.log[i])
  {
    var w, w' := Reached(env, vault, inbox, hs).w, Reached(env, vault, inbox, hs + [h]).w;
    if w'.log != w.log {
      var e :| w'.log == w.log + [e] && !e.Decided? && NewEntry(p, e);
      EntryBacked(env, vault, inbox, hs, h, p, e);
    }
    LogBacked(env, vault, inbox, hs, h);
  }

  /** Another thread logs nothing under a committing thread's key. */
  lemma OtherUncarried(env: Env, s: Sys, pid: nat, other: nat, w': World)
    requires Inv(env, s) && pid in s.procs && other in s.procs && other != pid
    requires LogTells(s.w, s.procs[pid], w') && (Committing(s.procs[other].pc) ==> s.procs[other].key > 0)
    ensures w'.log == s.w.log || exists e :: w'.log == s.w.log + [e] && (Committing(s.procs[other].pc) ==> !Carries(e, s.procs[other].key))
  {
    var p, q := s.procs[pid], s.procs[other];
    assert Apart(p, q);
    if w'.log != s.w.log {
      var e :| w'.log == s.w.log + [e] && !e.Decided? && NewEntry(p, e);
      assert Committing(q.pc) ==> !Carries(e, q.key);
    }
  }

  /** What happens outside the calls leaves their past alone. */
  lemma OutsideTrail(env: Env, vault: map<Path, Text>, inbox: map<Path, Text>, hs: seq<Happening>, h: Happening)
    requires Trail(env, vault, inbox, hs)
    requires !h.Turn? || h.pid !in Reached(env, vault, inbox, hs).procs || Reached(env, vault, inbox, hs).procs[h.pid].Over()
    ensures Trail(env, vault, inbox, hs + [h])
  {
    var s := Reached(env, vault, inbox, hs);
    var s' := Reached(env, vault, inbox, hs + [h]);
    RunLast(env, vault, inbox, hs, h);
    QuietHappening(env, s, h);
    forall pid | pid in s'.procs ensures Followed(env, vault, inbox, hs + [h], s'.procs[pid]) {
      if pid in s.procs && s'.procs[pid] == s.procs[pid] { OtherFollowed(env, vault, inbox, hs, h, s.procs[pid]); }
      else { NewcomerFollowed(env, vault, inbox, hs + [h], s'.procs[pid]); }
    }
    if s'.w.log != s.w.log {
      DecisionBacked(env, vault, inbox, hs + [h], |s.w.log|, s'.w.log[|s.w.log|]);
    }
    LogBacked(env, vault, inbox, hs, h);
  }

  lemma NewcomerFollowed(env: Env, vault: map<Path, Text>, inbox: map<Path, Text>, hs: seq<Happening>, p: Proc)
    requires p.pc.Inventory?
    ensures Followed(env, vault, inbox, hs, p)
  {
  }

  lemma DecisionBacked(env: Env, vault: map<Path, Text>, inbox: map<Path, Text>, hs: seq<Happening>, i: nat, e: Event)
    requires e.Decided?
    ensures Backed(env, vault, inbox, hs, i, e)
  {
  }

  lemma QuietHappening(env: Env, s: Sys, h: Happening)
    requires !h.Turn? || h.pid !in s.procs || s.procs[h.pid].Over()
    ensures var s' := Happen(env, s, h);
      && (s'.w.log == s.w.log || exists e :: s'.w.log == s.w.log + [e] && e.Decided?)
      && forall pid :: pid in s'.procs ==> (pid in s.procs && s'.procs[pid] == s.procs[pid]) || s'.procs[pid].pc.Inventory?
  {
    if h.Turn? && h.pid in s.procs { OverStays(env, s.w, s.procs[h.pid], h.choice); }
    if h.Respond? && Happen(env, s, h).w.log != s.w.log {
      assert Happen(env, s, h).w.log == s.w.log + [Decided(h.key, h.description)];
    }
  }

  lemma {:induction false} RunTrail(env: Env, vault: map<Path, Text>, inbox: map<Path, Text>, hs: seq<Happening>)
    requires Consistent(env)
    ensures Trail(env, vault, inbox, hs)
    decreases hs
  {
    if hs != [] {
      var earlier, h := hs[..|hs| - 1], hs[|hs| - 1];
      RunTrail(env, vault, inbox, earlier);
      NextTrail(env, vault, inbox, earlier, h);
      assert hs == earlier + [h];
    } else {
      StartTrail(env, vault, inbox);
    }
  }

  lemma StartTrail(env: Env, vault: map<Path, Text>, inbox: map<Path, Text>)
    ensures Trail(env, vault, inbox, [])
  {
  }

  lemma NextTrail(env: Env, vault: map<Path, Text>, inbox: map<Path, Text>, hs: seq<Happening>, h: Happening)
    requires Consistent(env) && Trail(env, vault, inbox, hs)
    ensures Trail(env, vault, inbox, hs + [h])
  {
    ReachedInv(env, vault, inbox, hs);
    var s := Reached(env, vault, inbox, hs);
    if h.Turn? && h.pid in s.procs && !s.procs[h.pid].Over() { TurnTrail(env, vault, inbox, hs, h); }
    else { OutsideTrail(env, vault, inbox, hs, h); }
  }

  // ---------- What every run shows ----------

  /**
   With outside writers between any two steps, nothing is recorded and no note changed unless, after the human's
   decision, there was a moment when the preview was still known, one when nothing was unfinished, and one when the
   notes were readable and exactly as planned.
   */
  lemma ChangesFollowAFreshLook(env: Env, vault: map<Path, Text>, inbox: map<Path, Text>, hs: seq<Happening>, i: nat)
    requires Consistent(env) && i < |Reached(env, vault, inbox, hs).w.log|
    ensures var e := Reached(env, vault, inbox, hs).w.log[i];
      && (e.Changed? ==> SawAll(env, vault, inbox, hs, i, e.key, e.token))
      && (e.Opened? ==> exists key :: SawAll(env, vault, inbox, hs, i, key, e.token))
  {
    RunTrail(env, vault, inbox, hs);
    assert Backed(env, vault, inbox, hs, i, Reached(env, vault, inbox, hs).w.log[i]);
  }

  /**
   A move's source goes only after a moment at which that call's own copy, already made, held exactly the bytes of
   the source.
   */
  lemma RemovalsFollowAWholeCopy(env: Env, vault: map<Path, Text>, inbox: map<Path, Text>, hs: seq<Happening>, i: nat)
    requires Consistent(env) && i < |Reached(env, vault, inbox, hs).w.log|
    requires var e := Reached(env, vault, inbox, hs).w.log[i]; e.Changed? && e.place.InInbox? && e.after.None?
    ensures var e := Reached(env, vault, inbox, hs).w.log[i];
      && e.token.plan.MoveDraft? && e.place == InInbox(e.token.plan.source)
      && exists k: nat :: k <= |hs| && |Reached(env, vault, inbox, hs[..k]).w.log| <= i && CopyHeld(Reached(env, vault, inbox, hs[..k]).w, e)
  {
    RunTrail(env, vault, inbox, hs);
    ReachedInv(env, vault, inbox, hs);
    var w := Reached(env, vault, inbox, hs).w;
    var e := w.log[i];
    RemovesSource(env, w, i);
    RemovalBacked(env, vault, inbox, hs, i, e);
    var k: nat :| SeesAt(env, vault, inbox, hs, k, e.key, e.token, WholeCopy) && LogAt(env, vault, inbox, hs, k) <= i;
    SeenCopy(env, Reached(env, vault, inbox, hs[..k]).w, e);
  }

  lemma RemovalBacked(env: Env, vault: map<Path, Text>, inbox: map<Path, Text>, hs: seq<Happening>, i: nat, e: Event)
    requires Trail(env, vault, inbox, hs) && i < |Reached(env, vault, inbox, hs).w.log| && e == Reached(env, vault, inbox, hs).w.log[i]
    requires e.Changed? && e.token.plan.MoveDraft? && e.place.InInbox?
    ensures Saw(env, vault, inbox, hs, i, e.key, e.token, WholeCopy)
  {
    assert Backed(env, vault, inbox, hs, i, e);
  }

  lemma SeenCopy(env: Env, w: World, e: Event)
    requires e.Changed? && e.token.plan.MoveDraft? && e.before.Some? && Sha256(e.before.value) == e.token.plan.sourceSha
    requires Sees(env, w, e.key, e.token, WholeCopy)
    ensures CopyHeld(w, e)
  {
  }

  /** The call that makes this change had made its copy, and the target held what the change removes. */
  ghost predicate CopyHeld(w: World, e: Event)
    requires e.Changed? && e.token.plan.MoveDraft?
  {
    var target := e.token.plan.target;
    Made(w, e.key, e.token, InVault(target)) && target in w.disk.vault && e.before == Some(w.disk.vault[target])
  }

  lemma RemovesSource(env: Env, w: World, i: nat)
    requires i < |w.log| && EntryOk(env, w, i) && w.log[i].Changed? && w.log[i].place.InInbox? && w.log[i].after.None?
    ensures var e := w.log[i];
      && e.token.plan.MoveDraft? && e.place == InInbox(e.token.plan.source)
      && e.before.Some? && Sha256(e.before.value) == e.token.plan.sourceSha
  {
  }

  /**
   A call reports success only if there was a moment after its last change at which the notes were as promised: the
   written note holds the promised content, or is gone, and the source of a move is gone.
   */
  lemma SuccessesWereSeen(env: Env, vault: map<Path, Text>, inbox: map<Path, Text>, hs: seq<Happening>, pid: nat)
    requires Consistent(env) && pid in Reached(env, vault, inbox, hs).procs
    requires var p := Reached(env, vault, inbox, hs).procs[pid]; p.pc.Finished? && p.pc.outcome.success
    ensures var p, log := Reached(env, vault, inbox, hs).procs[pid], Reached(env, vault, inbox, hs).w.log;
      exists k: nat :: k <= |hs|
        && var w := Reached(env, vault, inbox, hs[..k]).w;
        && PostImage(w.disk, p.token.plan) && Made(w, p.key, p.token, MainPlace(p.token.plan))
        && forall j :: |w.log| <= j < |log| ==> !Carries(log[j], p.key)
  {
    RunTrail(env, vault, inbox, hs);
    var p, log := Reached(env, vault, inbox, hs).procs[pid], Reached(env, vault, inbox, hs).w.log;
    assert Followed(env, vault, inbox, hs, p);
    var k: nat :| SeesAt(env, vault, inbox, hs, k, p.key, p.token, AllDone)
      && forall j :: LogAt(env, vault, inbox, hs, k) <= j < |log| ==> !Carries(log[j], p.key);
  }

  // ---------- And otherwise ----------

  /** The notes are not what the call is about to check for. */
  predicate Amiss(d: Disk, p: Proc) {
    || (p.pc.VerifyCopy? && p.token.plan.MoveDraft? && !Holds(d.vault, p.token.plan.target, p.token.plan.sourceSha))
    || (p.pc.Verify? && !PostImage(d, p.token.plan))
  }

  /** The failure a check after a write reports, unless the note cannot even be read. */
  function Mismatch(plan: Plan, copy: bool): Error {
    match plan.Act()
    case EditAction => PostWriteHashMismatch
    case MoveAction => if copy then TargetHashMismatch else MovePostconditionFailed
    case DeleteAction => DeletePostconditionFailed
    case RestoreEditAction => RestorePostWriteHashMismatch
    case RestoreMoveAction => RestorePostCreateHashMismatch
  }

  /** It says that it changed something and that recovery is required. */
  predicate OwnsUp(p: Proc) {
    p.pc.Dead? || (p.pc.Finished? && !p.pc.outcome.success && p.pc.outcome.mutated && p.pc.outcome.recovery)
  }

  predicate Reports(p: Proc, error: Error) { p.pc.Finished? && p.pc.outcome.error in {CandidateFailure, error} }

  lemma AmissStep(w: World, p: Proc, c: Choice)
    requires Amiss(w.disk, p) && p.started
    ensures var (w', p') := VerifyStep(w, p, c);
      && w' == w && p'.token == p.token && p'.key == p.key && OwnsUp(p')
      && (c.Go? ==> Reports(p', Mismatch(p.token.plan, p.pc.VerifyCopy?)))
      && (c.Go? && At(w.disk, MainPlace(p.token.plan)).Some? ==> p'.pc.outcome.error == Mismatch(p.token.plan, p.pc.VerifyCopy?))
  {
  }

  /** A call that is over for good: nobody continues it, and nobody else has its key or its record. */
  ghost predicate Buried(s: Sys, pid: nat, p: Proc, rec: Record) {
    && p.Over() && 0 < p.key < s.w.nextKey && pid < s.nextPid
    && (pid in s.procs ==> s.procs[pid] == p)
    && (forall q :: q in s.procs && q != pid ==> s.procs[q].key != p.key && (Owns(s.procs[q].pc) ==> s.procs[q].token != p.token))
    && p.token in s.w.disk.records && s.w.disk.records[p.token] == rec
  }

  lemma BuriedTurn(env: Env, s: Sys, pid: nat, p: Proc, rec: Record, q: nat, c: Choice)
    requires Inv(env, s) && Buried(s, pid, p, rec) && q in s.procs && q != pid
    ensures var (w', q') := Step(env, s.w, s.procs[q], c);
      && Buried(s.(w := w', procs := s.procs[q := q']), pid, p, rec)
      && forall j :: |s.w.log| <= j < |w'.log| ==> !Carries(w'.log[j], p.key)
  {
    QuietlyLocal(env, s, q, c);
    var (w', q') := Step(env, s.w, s.procs[q], c);
    BuriedLocal(s.w, s.procs[q], w', q', p.key, p.token);
  }

  lemma QuietlyLocal(env: Env, s: Sys, q: nat, c: Choice)
    requires Inv(env, s) && q in s.procs
    ensures var (w', q') := Step(env, s.w, s.procs[q], c); Local(s.w, s.procs[q], w', q')
  {
    assert ProcOk(env, s.w, s.procs[q]);
    StepIsLocal(env, s.w, s.procs[q], c);
  }

  lemma BuriedLocal(w: World, q: Proc, w': World, q': Proc, key: nat, token: Token)
    requires Local(w, q, w', q') && q.key != key && 0 < key < w.nextKey && token in w.disk.records
    requires Owns(q.pc) ==> q.token != token
    ensures q'.key != key && key < w'.nextKey && (Owns(q'.pc) ==> q'.token != token)
    ensures token in w'.disk.records && w'.disk.records[token] == w.disk.records[token]
    ensures forall j :: |w.log| <= j < |w'.log| ==> !Carries(w'.log[j], key)
  {
  }

  lemma BuriedHappening(env: Env, s: Sys, pid: nat, p: Proc, rec: Record, h: Happening)
    requires Inv(env, s) && Buried(s, pid, p, rec)
    ensures var s' := Happen(env, s, h);
      && Buried(s', pid, p, rec) && s.w.log <= s'.w.log
      && forall j :: |s.w.log| <= j < |s'.w.log| ==> !Carries(s'.w.log[j], p.key)
  {
    HappenExtendsLog(env, s, h);
    if h.Turn? && h.pid in s.procs && h.pid != pid {
      BuriedTurn(env, s, pid, p, rec, h.pid, h.choice);
    } else if h.Turn? && h.pid in s.procs {
      OverStays(env, s.w, p, h.choice);
    } else {
      BuriedQuiet(env, s, pid, p, rec, h);
    }
  }

  lemma BuriedQuiet(env: Env, s: Sys, pid: nat, p: Proc, rec: Record, h: Happening)
    requires Buried(s, pid, p, rec) && (!h.Turn? || h.pid !in s.procs)
    ensures Buried(Happen(env, s, h), pid, p, rec)
    ensures forall j :: |s.w.log| <= j < |Happen(env, s, h).w.log| ==> !Carries(Happen(env, s, h).w.log[j], p.key)
  {
    QuietHappening(env, s, h);
  }

  lemma {:induction false} BuriedStays(env: Env, s: Sys, pid: nat, p: Proc, rec: Record, more: seq<Happening>)
    requires Consistent(env) && Inv(env, s) && Buried(s, pid, p, rec)
    ensures var s' := Run(env, s, more);
      && Buried(s', pid, p, rec) && s.w.log <= s'.w.log
      && forall j :: |s.w.log| <= j < |s'.w.log| ==> !Carries(s'.w.log[j], p.key)
    decreases more
  {
    if more != [] {
      var before := Run(env, s, more[..|more| - 1]);
      BuriedStays(env, s, pid, p, rec, more[..|more| - 1]);
      RunKeepsInv(env, s, more[..|more| - 1]);
      BuriedHappening(env, before, pid, p, rec, more[|more| - 1]);
    }
  }

  /**
   A call that does not find the copy whole, or in the end does not find the notes as promised, ends as a failure
   that says it changed something and needs recovery. Whatever happens later, it changes nothing more, and its
   record stays unfinished.
   */
  lemma OtherwiseItStops(env: Env, vault: map<Path, Text>, inbox: map<Path, Text>, hs: seq<Happening>, pid: nat, c: Choice, more: seq<Happening>)
    requires Consistent(env) && pid in Reached(env, vault, inbox, hs).procs
    requires Amiss(Reached(env, vault, inbox, hs).w.disk, Reached(env, vault, inbox, hs).procs[pid])
    ensures var s, later := Reached(env, vault, inbox, hs), Reached(env, vault, inbox, hs + [Turn(pid, c)] + more);
      var p := s.procs[pid];
      && (pid in later.procs ==> OwnsUp(later.procs[pid]))
      && (pid in later.procs && c.Go? ==> Reports(later.procs[pid], Mismatch(p.token.plan, p.pc.VerifyCopy?)))
      && (forall j :: |s.w.log| <= j < |later.w.log| ==> !Carries(later.w.log[j], p.key))
      && p.token in later.w.disk.records && !Settled(later.w.disk.records[p.token])
  {
    var s := Reached(env, vault, inbox, hs);
    var p := s.procs[pid];
    var after := Reached(env, vault, inbox, hs + [Turn(pid, c)]);
    ReachedInv(env, vault, inbox, hs);
    AmissHolds(env, s.w, p);
    var rec := s.w.disk.records[p.token];
    ReachedInv(env, vault, inbox, hs + [Turn(pid, c)]);
    RunLast(env, vault, inbox, hs, Turn(pid, c));
    RunConcat(env, Start(vault, inbox), hs + [Turn(pid, c)], more);
    AmissBuries(env, s, pid, c);
    BuriedStays(env, after, pid, after.procs[pid], rec, more);
    UnsettledUntilReceipt(p);
  }

  lemma AmissBuries(env: Env, s: Sys, pid: nat, c: Choice)
    requires Inv(env, s) && pid in s.procs && Amiss(s.w.disk, s.procs[pid])
    ensures var p, s' := s.procs[pid], Happen(env, s, Turn(pid, c));
      && p.token in s.w.disk.records && s.w.disk.records[p.token] == RecordAt(p.token.plan, p.kept, p.Approval(), StageOf(p.pc))
      && pid in s'.procs && Buried(s', pid, s'.procs[pid], s.w.disk.records[p.token]) && OwnsUp(s'.procs[pid])
      && s'.procs[pid].key == p.key && s'.procs[pid].token == p.token && s'.w == s.w
      && (c.Go? ==> Reports(s'.procs[pid], Mismatch(p.token.plan, p.pc.VerifyCopy?)))
  {
    var p := s.procs[pid];
    AmissHolds(env, s.w, p);
    AmissHappens(env, s, pid, c);
    OwnersAreAlone(env, s, pid);
    assert pid < s.nextPid;
    AmissTurn(s, pid, p, VerifyStep(s.w, p, c).1, s.w.disk.records[p.token]);
  }

  lemma AmissHappens(env: Env, s: Sys, pid: nat, c: Choice)
    requires pid in s.procs && Amiss(s.w.disk, s.procs[pid]) && s.procs[pid].started
    ensures var p, p' := s.procs[pid], VerifyStep(s.w, s.procs[pid], c).1;
      && Happen(env, s, Turn(pid, c)) == s.(procs := s.procs[pid := p'])
      && p'.token == p.token && p'.key == p.key && OwnsUp(p') && p'.Over()
      && (c.Go? ==> Reports(p', Mismatch(p.token.plan, p.pc.VerifyCopy?)))
  {
    AmissStep(s.w, s.procs[pid], c);
    VerifyIsTheStep(env, s.w, s.procs[pid], c);
  }

  lemma VerifyIsTheStep(env: Env, w: World, p: Proc, c: Choice)
    requires p.pc.VerifyCopy? || p.pc.Verify?
    ensures Step(env, w, p, c) == VerifyStep(w, p, c)
  {
  }

  lemma AmissTurn(s: Sys, pid: nat, p: Proc, p': Proc, rec: Record)
    requires p'.Over() && p'.key == p.key && p'.token == p.token && 0 < p.key < s.w.nextKey && pid < s.nextPid
    requires p.token in s.w.disk.records && s.w.disk.records[p.token] == rec
    requires forall q :: q in s.procs && q != pid ==> s.procs[q].key != p.key && (Owns(s.procs[q].pc) ==> s.procs[q].token != p.token)
    ensures Buried(s.(procs := s.procs[pid := p']), pid, p', rec)
  {
  }

  lemma AmissHolds(env: Env, w: World, p: Proc)
    requires ProcOk(env, w, p) && Amiss(w.disk, p)
    ensures p.started && 0 < p.key < w.nextKey && p.token in w.disk.records
    ensures w.disk.records[p.token] == RecordAt(p.token.plan, p.kept, p.Approval(), StageOf(p.pc))
  {
  }

  lemma OwnersAreAlone(env: Env, s: Sys, pid: nat)
    requires Inv(env, s) && pid in s.procs && Owns(s.procs[pid].pc) && s.procs[pid].key > 0
    ensures forall q :: q in s.procs && q != pid ==>
      s.procs[q].key != s.procs[pid].key && (Owns(s.procs[q].pc) ==> s.procs[q].token != s.procs[pid].token)
  {
    forall q | q in s.procs && q != pid
      ensures s.procs[q].key != s.procs[pid].key && (Owns(s.procs[q].pc) ==> s.procs[q].token != s.procs[pid].token)
    {
      assert Apart(s.procs[pid], s.procs[q]);
    }
  }

  // ---------- Spent plans ----------

  /** Past the point where the plan is used up. */
  predicate Spending(pc: Pc) { pc.StageFile? || pc.Probe? || pc.Protect? || Writing(pc) || (pc.Finished? && pc.outcome.success) }

  ghost predicate AllSpent(s: Sys) {
    forall pid :: pid in s.procs && Spending(s.procs[pid].pc) ==> s.procs[pid].token in s.w.mem.consumed
  }

  /** A step never gives a plan back, and leads past that point only by using it up. */
  ghost predicate Spends(w: World, p: Proc, w': World, p': Proc) {
    && w.mem.consumed <= w'.mem.consumed && p'.token == p.token
    && (Spending(p'.pc) ==> Spending(p.pc) || p.token in w'.mem.consumed)
  }

  lemma EarlySpends(env: Env, w: World, p: Proc, c: Choice)
    requires !Owns(p.pc) && !p.pc.Ask? && !p.pc.Await? && !p.Over()
    ensures var (w', p') := Step(env, w, p, c); Spends(w, p, w', p')
  {
    if p.pc.Inventory? || p.pc.Reinventory? { InventorySpends(env, w, p, c); }
    else if p.pc.MakeRecord? { MakeSpends(w, p, c); }
    else { ReadSpends(env, w, p, c); }
  }

  lemma ReadSpends(env: Env, w: World, p: Proc, c: Choice)
    requires p.pc.Lookup? || p.pc.Revalidate? || p.pc.Admit?
    ensures var (w', p') := Step(env, w, p, c); Spends(w, p, w', p')
  {
    var (w', p') := Step(env, w, p, c);
    ReadEnds(env, w, p, c);
    assert w' == w;
  }

  lemma ReadEnds(env: Env, w: World, p: Proc, c: Choice)
    requires p.pc.Lookup? || p.pc.Revalidate? || p.pc.Admit?
    ensures var (w', p') := Step(env, w, p, c); w' == w && p'.token == p.token && !Spending(p'.pc)
  {
    if p.pc.Lookup? { LookupLeads(w, p, c); }
    else if p.pc.Revalidate? { RevalidateLeads(env, w, p, c); }
    else { AdmitForm(env, w, p, c); }
  }

  lemma MakeSpends(w: World, p: Proc, c: Choice)
    requires p.pc.MakeRecord?
    ensures var (w', p') := MakeRecordStep(w, p, c); Spends(w, p, w', p')
  {
  }

  lemma InventorySpends(env: Env, w: World, p: Proc, c: Choice)
    requires p.pc.Inventory? || p.pc.Reinventory?
    ensures var (w', p') := Step(env, w, p, c); Spends(w, p, w', p')
  {
  }

  lemma GateSpends(env: Env, w: World, p: Proc, c: Choice)
    requires p.pc.Ask? || p.pc.Await?
    ensures var (w', p') := Step(env, w, p, c); Spends(w, p, w', p')
  {
    GateKeepsToken(env, w, p, c);
    if p.pc.Ask? { AskStaysAsking(env, w, p, c); } else { AwaitStaysAsking(env, w, p, c); }
    GateKeepsConsumed(env, w, p, c);
  }

  lemma GateKeepsConsumed(env: Env, w: World, p: Proc, c: Choice)
    requires p.pc.Ask? || p.pc.Await?
    ensures Step(env, w, p, c).0.mem.consumed == w.mem.consumed
  {
  }

  lemma RecordIsTheStep(env: Env, w: World, p: Proc, c: Choice)
    requires Recording(p.pc) || p.pc.CommitManifest? || p.pc.CommitReceipt?
    ensures Step(env, w, p, c) == RecordStep(w, p, c)
  {
  }

  lemma RecordSpends(w: World, p: Proc, c: Choice)
    requires Recording(p.pc) || p.pc.CommitManifest? || p.pc.CommitReceipt?
    ensures var (w', p') := RecordStep(w, p, c); Spends(w, p, w', p')
  {
    RecordForm(w, p, c);
    RecordKeepsMemory(w, p, c);
  }

  lemma ConsumeSpends(w: World, p: Proc, c: Choice)
    requires p.pc.Consume?
    ensures var (w', p') := ConsumeStep(w, p, c); Spends(w, p, w', p')
  {
  }

  lemma RecordKeepsMemory(w: World, p: Proc, c: Choice)
    ensures RecordStep(w, p, c).0.mem == w.mem && RecordStep(w, p, c).1.token == p.token
  {
  }

  lemma WriterSpends(env: Env, w: World, p: Proc, c: Choice)
    requires Spending(p.pc) && !p.pc.CommitManifest? && !p.pc.CommitReceipt?
    ensures var (w', p') := Step(env, w, p, c); Spends(w, p, w', p')
  {
    if p.pc.Protect? { ProtectRequests(w, p, c); ProtectLeads(w, p, c); }
    else if p.Over() { OverStays(env, w, p, c); }
    else { OtherWriterSpends(env, w, p, c); }
  }

  lemma OtherWriterSpends(env: Env, w: World, p: Proc, c: Choice)
    requires p.pc.StageFile? || p.pc.Probe? || p.pc.VerifyCopy? || p.pc.Unlink? || p.pc.Verify?
    ensures var (w', p') := Step(env, w, p, c); w'.mem == w.mem && p'.token == p.token
  {
  }

  lemma StepSpends(env: Env, w: World, p: Proc, c: Choice)
    ensures var (w', p') := Step(env, w, p, c); Spends(w, p, w', p')
  {
    if p.pc.Ask? || p.pc.Await? { GateSpends(env, w, p, c); }
    else if Recording(p.pc) || p.pc.CommitManifest? || p.pc.CommitReceipt? {
      RecordIsTheStep(env, w, p, c);
      RecordSpends(w, p, c);
    }
    else if p.pc.Consume? { ConsumeSpends(w, p, c); }
    else if Spending(p.pc) { WriterSpends(env, w, p, c); }
    else if p.Over() { OverStays(env, w, p, c); }
    else { EarlySpends(env, w, p, c); }
  }

  lemma {:induction false} RunSpends(env: Env, vault: map<Path, Text>, inbox: map<Path, Text>, hs: seq<Happening>)
    ensures AllSpent(Reached(env, vault, inbox, hs))
    decreases hs
  {
    if hs != [] {
      var earlier, h := hs[..|hs| - 1], hs[|hs| - 1];
      RunSpends(env, vault, inbox, earlier);
      ReachedLast(env, vault, inbox, hs);
      var s := Reached(env, vault, inbox, earlier);
      if h.Turn? && h.pid in s.procs { StepSpends(env, s.w, s.procs[h.pid], h.choice); }
    }
  }

  /**
   Until the process restarts, a plan that was carried out, or is being carried out, is not put to a human again: another
   call for it is refused at its lookup.
   */
  lemma SpentPlansAreNotAskedAgain(env: Env, vault: map<Path, Text>, inbox: map<Path, Text>, hs: seq<Happening>, pid: nat, other: nat, c: Choice)
    requires var s := Reached(env, vault, inbox, hs);
      && pid in s.procs && Spending(s.procs[pid].pc)
      && other in s.procs && s.procs[other].pc.Lookup? && s.procs[other].token == s.procs[pid].token
    ensures var s := Reached(env, vault, inbox, hs);
      var (w', q') := Step(env, s.w, s.procs[other], c);
      && w' == s.w && Failed(q')
      && (c.Go? && q'.token in s.w.mem.previews && SummaryOk(s.w.mem.previews[q'.token]) ==> q'.pc.outcome == Refused(PlanAlreadyConsumed))
  {
    RunSpends(env, vault, inbox, hs);
  }
}
