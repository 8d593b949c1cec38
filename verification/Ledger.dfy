/**
 What calls leave behind in every run: temporary files, used plans, and what a failure says of them.
 */
module Ledger {
  import opened Wrappers
  import opened VaultModel
  import opened Recovery
  import opened Executor
  import opened System
  import opened StepForms
  import opened Preservation
  import opened Guarantees
  import opened Checks

  // ---------- What a failure says about recovery ----------

  /** A failure that is reported now asks for recovery exactly when its call owns a record. */
  predicate OwesExactly(pc: Pc, p': Proc) {
    p'.pc.Finished? && !p'.pc.outcome.success ==> (p'.pc.outcome.recovery <==> Owns(pc))
  }

  lemma EarlyOwes(env: Env, w: World, p: Proc, c: Choice)
    requires !Owns(p.pc) && !p.Over()
    ensures OwesExactly(p.pc, Step(env, w, p, c).1)
  {
    match p.pc
    case Inventory => EarlyOwesInventory(env, w, p, c, Lookup);
    case Reinventory => EarlyOwesInventory(env, w, p, c, Admit);
    case Lookup => EarlyOwesLookup(w, p, c);
    case Ask => EarlyOwesAsk(env, w, p, c);
    case Await => EarlyOwesAwait(env, w, p, c);
    case Revalidate => EarlyOwesRevalidate(env, w, p, c);
    case Admit => EarlyOwesAdmit(env, w, p, c);
    case MakeRecord => EarlyOwesMake(w, p, c);
  }

  lemma EarlyOwesInventory(env: Env, w: World, p: Proc, c: Choice, next: Pc)
    requires !Owns(p.pc) && (next.Lookup? || next.Admit?)
    ensures OwesExactly(p.pc, InventoryStep(env, w, p, c, next))
  {
  }

  lemma EarlyOwesLookup(w: World, p: Proc, c: Choice)
    requires !Owns(p.pc)
    ensures OwesExactly(p.pc, LookupStep(w, p, c))
  {
  }

  lemma EarlyOwesAsk(env: Env, w: World, p: Proc, c: Choice)
    requires !Owns(p.pc)
    ensures OwesExactly(p.pc, AskStep(env, w, p, c).1)
  {
  }

  lemma EarlyOwesAwait(env: Env, w: World, p: Proc, c: Choice)
    requires !Owns(p.pc)
    ensures OwesExactly(p.pc, AwaitStep(env, w, p, c).1)
  {
  }

  lemma EarlyOwesRevalidate(env: Env, w: World, p: Proc, c: Choice)
    requires !Owns(p.pc)
    ensures OwesExactly(p.pc, RevalidateStep(env, w, p, c))
  {
  }

  lemma EarlyOwesAdmit(env: Env, w: World, p: Proc, c: Choice)
    requires !Owns(p.pc)
    ensures OwesExactly(p.pc, AdmitStep(env, w, p, c))
  {
  }

  lemma EarlyOwesMake(w: World, p: Proc, c: Choice)
    requires !Owns(p.pc)
    ensures OwesExactly(p.pc, MakeRecordStep(w, p, c).1)
  {
  }

  lemma OwnerOwes(env: Env, w: World, p: Proc, c: Choice)
    requires Owns(p.pc) && (p.pc.Consume? ==> p.token !in w.mem.consumed)
    ensures OwesExactly(p.pc, Step(env, w, p, c).1)
  {
    match p.pc
    case Protect => ProtectOwes(w, p, c);
    case Unlink => UnlinkOwes(w, p, c);
    case VerifyCopy => VerifyOwes(w, p, c);
    case Verify => VerifyOwes(w, p, c);
    case Consume => ArmOwes(env, w, p, c);
    case StageFile => ArmOwes(env, w, p, c);
    case Probe => ArmOwes(env, w, p, c);
    case _ => RecordIsTheStep(env, w, p, c); RecordOwes(w, p, c);
  }

  lemma ProtectOwes(w: World, p: Proc, c: Choice)
    requires p.pc.Protect?
    ensures OwesExactly(p.pc, ProtectStep(w, p, c).1)
  {
  }

  lemma UnlinkOwes(w: World, p: Proc, c: Choice)
    requires p.pc.Unlink?
    ensures OwesExactly(p.pc, UnlinkStep(w, p, c).1)
  {
  }

  lemma VerifyOwes(w: World, p: Proc, c: Choice)
    requires p.pc.VerifyCopy? || p.pc.Verify?
    ensures OwesExactly(p.pc, VerifyStep(w, p, c).1)
  {
  }

  lemma ArmOwes(env: Env, w: World, p: Proc, c: Choice)
    requires (p.pc.Consume? && p.token !in w.mem.consumed) || p.pc.StageFile? || p.pc.Probe?
    ensures OwesExactly(p.pc, Step(env, w, p, c).1)
  {
  }

  lemma RecordOwes(w: World, p: Proc, c: Choice)
    requires Recording(p.pc) || p.pc.CommitManifest? || p.pc.CommitReceipt?
    ensures OwesExactly(p.pc, RecordStep(w, p, c).1)
  {
  }

  lemma OwesStep(env: Env, w: World, p: Proc, c: Choice)
    requires ProcOk(env, w, p) && !p.Over() && (p.pc.Consume? ==> p.token !in w.mem.consumed)
    ensures var (w', p') := Step(env, w, p, c);
      OwesExactly(p.pc, p') && (p'.pc.Finished? && p'.pc.outcome.recovery ==> p.token in w'.disk.records)
  {
    if Owns(p.pc) {
      OwnerOwes(env, w, p, c);
      assert p.token in w.disk.records;
      StepIsLocal(env, w, p, c);
    } else {
      EarlyOwes(env, w, p, c);
      NoSuccessYet(env, w, p, c);
    }
  }

  lemma NoSuccessYet(env: Env, w: World, p: Proc, c: Choice)
    requires ProcOk(env, w, p) && !Owns(p.pc) && !p.Over()
    ensures var p' := Step(env, w, p, c).1; p'.pc.Finished? ==> !p'.pc.outcome.success
  {
    EarlyEndIsHonest(env, w, p, c);
  }

  // ---------- The books ----------

  /** It has a record and has not used its plan yet. */
  predicate Unspent(pc: Pc) { Recording(pc) || pc.Consume? }

  /** It is over, and has or had a record. */
  predicate Owed(pc: Pc) { pc.Finished? && (pc.outcome.success || pc.outcome.recovery) }

  /** It has a record, and no replacement file lies ready. */
  predicate Tidy(p: Proc) { Owed(p.pc) || (Owns(p.pc) && !(p.pc.Protect? && Replaces(p.token.plan))) }

  ghost predicate Entered(s: Sys, p: Proc) {
    && Kind(p)
    && (Unspent(p.pc) ==> p.token !in s.w.mem.consumed)
    && (Tidy(p) ==> p.token !in s.w.disk.temps)
    && (Owed(p.pc) ==>
      p.token in s.w.disk.records && forall q :: q in s.procs && Owns(s.procs[q].pc) ==> s.procs[q].token != p.token)
  }

  ghost predicate Balanced(s: Sys) {
    && s.w.mem.consumed <= s.w.disk.records.Keys && s.w.disk.temps.Keys <= s.w.disk.records.Keys
    && forall pid :: pid in s.procs ==> Entered(s, s.procs[pid])
  }

  /** What a step does to the books. */
  ghost predicate Books(w: World, p: Proc, w': World, p': Proc) {
    && (w'.mem.consumed == w.mem.consumed || (p.pc.Consume? && w'.mem.consumed == w.mem.consumed + {p.token}))
    && (!Owns(p.pc) ==> w'.disk.temps == w.disk.temps)
    && (Owns(p.pc) && (Tidy(p) ==> p.token !in w.disk.temps) && Tidy(p') ==> p.token !in w'.disk.temps)
    && (Unspent(p'.pc) ==> Recording(p.pc) || p.pc.MakeRecord?)
    && (Owed(p'.pc) ==> Owns(p.pc))
  }

  lemma RecordBooks(w: World, p: Proc, c: Choice)
    requires Recording(p.pc) || p.pc.CommitManifest? || p.pc.CommitReceipt?
    ensures var (w', p') := RecordStep(w, p, c); Books(w, p, w', p')
  {
    RecordForm(w, p, c);
    RecordKeepsMemory(w, p, c);
    RecordKeepsTemps(w, p, c);
  }

  lemma RecordKeepsTemps(w: World, p: Proc, c: Choice)
    ensures RecordStep(w, p, c).0.disk.temps == w.disk.temps
  {
  }

  lemma ConsumeBooks(w: World, p: Proc, c: Choice)
    requires p.pc.Consume?
    ensures var (w', p') := ConsumeStep(w, p, c); Books(w, p, w', p')
  {
    ConsumeForm(w, p, c);
  }

  lemma StageBooks(w: World, p: Proc, c: Choice)
    requires p.pc.StageFile? && Replaces(p.token.plan)
    ensures var (w', p') := StageStep(w, p, c); Books(w, p, w', p')
  {
  }

  lemma ProtectBooks(w: World, p: Proc, c: Choice)
    requires p.pc.Protect?
    ensures var (w', p') := ProtectStep(w, p, c); Books(w, p, w', p')
  {
    ProtectRequests(w, p, c);
    ProtectLeads(w, p, c);
    ProtectClears(w, p, c);
  }

  lemma ProtectClears(w: World, p: Proc, c: Choice)
    requires p.pc.Protect?
    ensures var (w', p') := ProtectStep(w, p, c);
      && (p'.pc.Dead? || !Replaces(p.token.plan) || p.token !in w'.disk.temps)
      && (!Replaces(p.token.plan) ==> w'.disk.temps == w.disk.temps)
  {
  }

  lemma WriterBooks(env: Env, w: World, p: Proc, c: Choice)
    requires p.pc.Probe? || p.pc.VerifyCopy? || p.pc.Unlink? || p.pc.Verify?
    requires !Replaces(p.token.plan) || !p.pc.Probe?
    ensures var (w', p') := Step(env, w, p, c); Books(w, p, w', p')
  {
    var (w', p') := Step(env, w, p, c);
    WriterKeepsBooks(env, w, p, c);
    WriterLeads(env, w, p, c);
    StillBalanced(w, p, w', p');
  }

  lemma WriterLeads(env: Env, w: World, p: Proc, c: Choice)
    requires p.pc.Probe? || p.pc.VerifyCopy? || p.pc.Unlink? || p.pc.Verify?
    ensures var p' := Step(env, w, p, c).1; p'.token == p.token && !Unspent(p'.pc)
  {
    if p.pc.Probe? { ProbeForm(w, p, c); }
    else if p.pc.Unlink? { UnlinkLeads(w, p, c); }
    else {
      VerifyIsTheStep(env, w, p, c);
      VerifyForm(w, p, c);
    }
  }

  /** Steps that touch neither plans nor replacement files. */
  lemma StillBalanced(w: World, p: Proc, w': World, p': Proc)
    requires w'.mem == w.mem && w'.disk.temps == w.disk.temps && p'.token == p.token && !Unspent(p'.pc)
    requires p.pc.Probe? || p.pc.VerifyCopy? || p.pc.Unlink? || p.pc.Verify?
    requires !Replaces(p.token.plan) || !p.pc.Probe?
    ensures Books(w, p, w', p')
  {
  }

  lemma WriterKeepsBooks(env: Env, w: World, p: Proc, c: Choice)
    requires p.pc.Probe? || p.pc.VerifyCopy? || p.pc.Unlink? || p.pc.Verify?
    ensures var w' := Step(env, w, p, c).0; w'.mem == w.mem && w'.disk.temps == w.disk.temps
  {
  }

  lemma GateBooks(env: Env, w: World, p: Proc, c: Choice)
    requires p.pc.Ask? || p.pc.Await?
    ensures var (w', p') := Step(env, w, p, c); Books(w, p, w', p')
  {
    GateKeepsConsumed(env, w, p, c);
    if p.pc.Ask? { AskStaysAsking(env, w, p, c); } else { AwaitStaysAsking(env, w, p, c); }
    EarlyOwes(env, w, p, c);
    GateKeepsToken(env, w, p, c);
  }

  lemma ReadBooks(env: Env, w: World, p: Proc, c: Choice)
    requires p.pc.Inventory? || p.pc.Reinventory? || p.pc.Lookup? || p.pc.Revalidate? || p.pc.Admit?
    ensures var (w', p') := Step(env, w, p, c); Books(w, p, w', p')
  {
    EarlyOwes(env, w, p, c);
    ReadLeads(env, w, p, c);
  }

  lemma ReadLeads(env: Env, w: World, p: Proc, c: Choice)
    requires p.pc.Inventory? || p.pc.Reinventory? || p.pc.Lookup? || p.pc.Revalidate? || p.pc.Admit?
    ensures var (w', p') := Step(env, w, p, c); w' == w && (Failed(p') || (!p'.Over() && !Owns(p'.pc)))
  {
    if p.pc.Lookup? { LookupLeads(w, p, c); }
    else if p.pc.Revalidate? { RevalidateLeads(env, w, p, c); }
    else if p.pc.Admit? { AdmitForm(env, w, p, c); }
  }

  lemma MakeBooks(w: World, p: Proc, c: Choice)
    requires p.pc.MakeRecord?
    ensures var (w', p') := MakeRecordStep(w, p, c); Books(w, p, w', p')
  {
  }

  /** A call replaces notes, or moves or recreates a draft, but not both; and it starts with the protected write. */
  ghost predicate Kind(p: Proc) {
    && (p.pc.StageFile? ==> Replaces(p.token.plan)) && (p.pc.Probe? ==> !Replaces(p.token.plan))
    && (!Writing(p.pc) && !p.Over() ==> !p.started)
  }

  lemma StepBooks(env: Env, w: World, p: Proc, c: Choice)
    requires Kind(p) && !p.Over()
    ensures var (w', p') := Step(env, w, p, c); Books(w, p, w', p')
  {
    if p.pc.Ask? || p.pc.Await? { GateBooks(env, w, p, c); }
    else if p.pc.MakeRecord? { MakeBooks(w, p, c); }
    else if !Owns(p.pc) { ReadBooks(env, w, p, c); }
    else if p.pc.Consume? { ConsumeBooks(w, p, c); }
    else if p.pc.StageFile? { StageBooks(w, p, c); }
    else if p.pc.Protect? { ProtectBooks(w, p, c); }
    else if p.pc.Probe? || p.pc.VerifyCopy? || p.pc.Unlink? || p.pc.Verify? { WriterBooks(env, w, p, c); }
    else {
      RecordIsTheStep(env, w, p, c);
      RecordBooks(w, p, c);
    }
  }

  lemma KindKept(env: Env, w: World, p: Proc, c: Choice)
    requires Kind(p) && !p.Over()
    ensures Kind(Step(env, w, p, c).1)
  {
    StartsLate(env, w, p, c);
    if p.pc.Consume? { ConsumeForm(w, p, c); }
    else { NotStaged(env, w, p, c); }
  }

  lemma StartsLate(env: Env, w: World, p: Proc, c: Choice)
    requires Kind(p) && !p.Over()
    ensures var p' := Step(env, w, p, c).1; !Writing(p'.pc) && !p'.Over() ==> !p'.started
  {
    if p.pc.Protect? { ProtectLeads(w, p, c); }
    else if Writing(p.pc) { WriterStays(env, w, p, c); }
    else if Owns(p.pc) { OwnerStarts(env, w, p, c); }
    else { EarlyStarts(env, w, p, c); }
  }

  lemma WriterStays(env: Env, w: World, p: Proc, c: Choice)
    requires Writing(p.pc)
    ensures var p' := Step(env, w, p, c).1; Writing(p'.pc) || p'.Over()
  {
    if p.pc.CommitManifest? || p.pc.CommitReceipt? { RecordIsTheStep(env, w, p, c); RecordForm(w, p, c); }
    else if p.pc.Unlink? { UnlinkLeads(w, p, c); }
    else { VerifyForm(w, p, c); }
  }

  lemma OwnerStarts(env: Env, w: World, p: Proc, c: Choice)
    requires Owns(p.pc) && !Writing(p.pc) && !p.pc.Protect? && !p.started
    ensures var p' := Step(env, w, p, c).1; p'.Over() || !p'.started
  {
    if Recording(p.pc) { RecordIsTheStep(env, w, p, c); RecordForm(w, p, c); }
    else if p.pc.Consume? { ConsumeForm(w, p, c); }
    else if p.pc.StageFile? { StageForm(w, p, c); }
    else { ProbeForm(w, p, c); }
  }

  lemma EarlyStarts(env: Env, w: World, p: Proc, c: Choice)
    requires !Owns(p.pc) && !p.Over() && !p.started
    ensures var p' := Step(env, w, p, c).1; p'.Over() || !p'.started
  {
    match p.pc
    case Inventory => InventoryStarts(env, w, p, c);
    case Reinventory => InventoryStarts(env, w, p, c);
    case Lookup =>
    case Ask =>
    case Await =>
    case Revalidate =>
    case Admit =>
    case MakeRecord =>
  }

  lemma InventoryStarts(env: Env, w: World, p: Proc, c: Choice)
    requires (p.pc.Inventory? || p.pc.Reinventory?) && !p.started
    ensures var p' := Step(env, w, p, c).1; p'.Over() || !p'.started
  {
  }

  lemma NotStaged(env: Env, w: World, p: Proc, c: Choice)
    requires !p.pc.Consume?
    ensures var p' := Step(env, w, p, c).1; !p'.pc.StageFile? && !p'.pc.Probe?
  {
    if p.pc.Ask? { AskStaysAsking(env, w, p, c); }
    else if p.pc.Await? { AwaitStaysAsking(env, w, p, c); }
    else if p.pc.Protect? { ProtectLeads(w, p, c); }
    else if Recording(p.pc) || p.pc.CommitManifest? || p.pc.CommitReceipt? { RecordIsTheStep(env, w, p, c); RecordForm(w, p, c); }
    else if p.pc.StageFile? { StageForm(w, p, c); }
    else if p.pc.Probe? { ProbeForm(w, p, c); }
    else if p.pc.Unlink? { UnlinkLeads(w, p, c); }
    else if p.pc.VerifyCopy? || p.pc.Verify? { VerifyForm(w, p, c); }
    else if p.Over() { OverStays(env, w, p, c); }
    else if p.pc.MakeRecord? { }
    else { ReadLeads(env, w, p, c); }
  }

  // ---------- Over a run ----------

  /** What the invariant says of a mover: its record is there, and no other owner has its token. */
  ghost predicate Sole(s: Sys, pid: nat) {
    pid in s.procs && (Owns(s.procs[pid].pc) ==>
      s.procs[pid].token in s.w.disk.records
      && forall q :: q in s.procs && q != pid && Owns(s.procs[q].pc) ==> s.procs[q].token != s.procs[pid].token)
  }

  lemma MoverIsSole(env: Env, s: Sys, pid: nat)
    requires Inv(env, s) && pid in s.procs
    ensures Sole(s, pid)
  {
    assert ProcOk(env, s.w, s.procs[pid]);
    forall q | q in s.procs && q != pid && Owns(s.procs[q].pc) && Owns(s.procs[pid].pc)
      ensures s.procs[q].token != s.procs[pid].token
    {
      assert Apart(s.procs[pid], s.procs[q]);
    }
  }

  /** The disk after a step, as far as the books go. */
  ghost predicate Moved(w: World, p: Proc, w': World, p': Proc) {
    LocalDisk(w, p, w', p') && p'.token == p.token && Books(w, p, w', p')
  }

  /** The mover's entry after its step. */
  lemma MoverEntered(s: Sys, pid: nat, w': World, p': Proc)
    requires Sole(s, pid) && Balanced(s) && Moved(s.w, s.procs[pid], w', p') && Kind(p')
    ensures Entered(s.(w := w', procs := s.procs[pid := p']), p')
  {
    assert Entered(s, s.procs[pid]);
  }

  /** The others' entries after a step. */
  lemma OtherEntered(s: Sys, pid: nat, other: nat, w': World, p': Proc)
    requires Sole(s, pid) && Balanced(s) && other in s.procs && other != pid && Moved(s.w, s.procs[pid], w', p')
    ensures Entered(s.(w := w', procs := s.procs[pid := p']), s.procs[other])
  {
    assert Entered(s, s.procs[other]);
  }

  lemma KeysBalanced(s: Sys, pid: nat, w': World, p': Proc)
    requires Sole(s, pid) && Balanced(s) && Moved(s.w, s.procs[pid], w', p')
    ensures w'.mem.consumed <= w'.disk.records.Keys && w'.disk.temps.Keys <= w'.disk.records.Keys
  {
    forall t | t in w'.disk.temps ensures t in w'.disk.records {
      if t != s.procs[pid].token { assert t in s.w.disk.temps; }
    }
  }

  lemma TurnBalanced(env: Env, s: Sys, pid: nat, c: Choice)
    requires Inv(env, s) && Balanced(s) && pid in s.procs && !s.procs[pid].Over()
    ensures Balanced(Happen(env, s, Turn(pid, c)))
  {
    var p := s.procs[pid];
    var (w', p') := Step(env, s.w, p, c);
    QuietlyLocal(env, s, pid, c);
    MoverIsSole(env, s, pid);
    assert Entered(s, p);
    StepBooks(env, s.w, p, c);
    KindKept(env, s.w, p, c);
    MoveBalanced(s, pid, w', p');
  }

  lemma MoveBalanced(s: Sys, pid: nat, w': World, p': Proc)
    requires Sole(s, pid) && Balanced(s) && Moved(s.w, s.procs[pid], w', p') && Kind(p')
    ensures Balanced(s.(w := w', procs := s.procs[pid := p']))
  {
    var s' := s.(w := w', procs := s.procs[pid := p']);
    KeysBalanced(s, pid, w', p');
    MoverEntered(s, pid, w', p');
    forall other | other in s'.procs ensures Entered(s', s'.procs[other]) {
      if other != pid { OtherEntered(s, pid, other, w', p'); }
    }
  }

  lemma QuietBalanced(env: Env, s: Sys, h: Happening)
    requires Balanced(s) && (!h.Turn? || h.pid !in s.procs || s.procs[h.pid].Over())
    ensures Balanced(Happen(env, s, h))
  {
    var s' := Happen(env, s, h);
    if h.Turn? && h.pid in s.procs {
      OverStays(env, s.w, s.procs[h.pid], h.choice);
      assert s'.procs == s.procs;
    } else {
      forall pid | pid in s'.procs ensures Entered(s', s'.procs[pid]) {
        if pid in s.procs && s'.procs[pid] == s.procs[pid] { assert Entered(s, s.procs[pid]); }
      }
    }
  }

  lemma {:induction false} RunLedger(env: Env, vault: map<Path, Text>, inbox: map<Path, Text>, hs: seq<Happening>)
    requires Consistent(env)
    ensures Balanced(Reached(env, vault, inbox, hs))
    decreases hs
  {
    if hs != [] {
      var earlier, h := hs[..|hs| - 1], hs[|hs| - 1];
      RunLedger(env, vault, inbox, earlier);
      ReachedInv(env, vault, inbox, earlier);
      ReachedLast(env, vault, inbox, hs);
      var s := Reached(env, vault, inbox, earlier);
      if h.Turn? && h.pid in s.procs && !s.procs[h.pid].Over() { TurnBalanced(env, s, h.pid, h.choice); }
      else { QuietBalanced(env, s, h); }
    }
  }

  // ---------- What every run shows ----------

  /**
   A call that ended with a record, successful or not, has left no replacement file; and there never is one without a
   record of its plan.
   */
  lemma FinishedCallsAreTidy(env: Env, vault: map<Path, Text>, inbox: map<Path, Text>, hs: seq<Happening>, pid: nat)
    requires Consistent(env) && pid in Reached(env, vault, inbox, hs).procs
    requires var p := Reached(env, vault, inbox, hs).procs[pid]; p.pc.Finished? && (p.pc.outcome.success || p.pc.outcome.recovery)
    ensures var s := Reached(env, vault, inbox, hs);
      s.procs[pid].token !in s.w.disk.temps && s.w.disk.temps.Keys <= s.w.disk.records.Keys
  {
    RunLedger(env, vault, inbox, hs);
    assert Entered(Reached(env, vault, inbox, hs), Reached(env, vault, inbox, hs).procs[pid]);
  }

  /** A call that has prepared its record never finds its plan already used, though the program asks once more. */
  lemma PreparedPlansAreUnused(env: Env, vault: map<Path, Text>, inbox: map<Path, Text>, hs: seq<Happening>, pid: nat)
    requires Consistent(env) && pid in Reached(env, vault, inbox, hs).procs && Reached(env, vault, inbox, hs).procs[pid].pc.Consume?
    ensures var s := Reached(env, vault, inbox, hs); s.procs[pid].token !in s.w.mem.consumed
  {
    RunLedger(env, vault, inbox, hs);
    assert Entered(Reached(env, vault, inbox, hs), Reached(env, vault, inbox, hs).procs[pid]);
  }

  /** In every run a call that fails asks for recovery exactly when it owns a record, and the record is there. */
  lemma FailuresOweExactly(env: Env, vault: map<Path, Text>, inbox: map<Path, Text>, hs: seq<Happening>, pid: nat, c: Choice)
    requires Consistent(env)
    requires var s := Reached(env, vault, inbox, hs); pid in s.procs && !s.procs[pid].Over()
    ensures var s, later := Reached(env, vault, inbox, hs), Reached(env, vault, inbox, hs + [Turn(pid, c)]);
      var p, p' := s.procs[pid], later.procs[pid];
      && OwesExactly(p.pc, p')
      && (p'.pc.Finished? && p'.pc.outcome.recovery ==> p.token in later.w.disk.records)
  {
    var s := Reached(env, vault, inbox, hs);
    var p := s.procs[pid];
    ReachedInv(env, vault, inbox, hs);
    assert ProcOk(env, s.w, p);
    if p.pc.Consume? { PreparedPlansAreUnused(env, vault, inbox, hs, pid); }
    OwesStep(env, s.w, p, c);
    TurnReached(env, vault, inbox, hs, pid, c);
  }


  // ---------- What the late checks say ----------

  /** The error of a final check that finds other content than the plan names, by action. */
  function Changed(action: Action): Error {
    match action
    case EditAction => StaleOriginalHash
    case MoveAction => TargetCreateRace
    case DeleteAction => DeleteTargetChangedBeforeDelete
    case RestoreEditAction => RestoreCurrentStateChanged
    case RestoreMoveAction => RestoreSourceCreateRace
  }

  /**
   The final checks refuse before they write, and say what they found: the probe of a move, the check before the
   protected write, the check before a source is removed.
   */
  lemma LateChecksSayWhy(env: Env, w: World, p: Proc)
    ensures var (w', p') := Step(env, w, p, Go);
      var place, plan := MainPlace(p.token.plan), p.token.plan;
      && (p.pc.Probe? && At(w.disk, place).Some? ==> w' == w && p'.pc == Finished(Outcome(false, TargetAlreadyExists, false, true)))
      && (p.pc.Protect? && At(w.disk, place).Some? && ShaOf(At(w.disk, place)) != Expected(plan) ==>
            w'.log == w.log && SameNotes(w'.disk, w.disk) && p'.pc == Finished(Outcome(false, Changed(plan.Act()), false, true)))
      && (p.pc.Protect? && Expected(plan).Some? && At(w.disk, place).None? ==>
            w'.log == w.log && SameNotes(w'.disk, w.disk) && p'.pc == Finished(Outcome(false, CandidateFailure, false, true)))
      && (p.pc.Unlink? && plan.MoveDraft? && At(w.disk, InInbox(plan.source)).Some?
          && ShaOf(At(w.disk, InInbox(plan.source))) != Some(plan.sourceSha) ==>
            w' == w && p'.pc == Finished(Outcome(false, SourceChangedBeforeDelete, true, true)))
  {
    if p.pc.Protect? && ShaOf(At(w.disk, MainPlace(p.token.plan))) != Expected(p.token.plan) { ProtectSaysWhy(w, p); }
  }

  /** The error of a re-read before the record, by action: the note is missing, or is another. */
  function Missing(action: Action): Error {
    if action == RestoreEditAction || action == RestoreMoveAction then RestoreRequiredPathMissing else RevalidationMissing(action)
  }

  function Stale(action: Action): Error {
    match action
    case EditAction => StaleOriginalHash
    case MoveAction => TargetAlreadyExists
    case DeleteAction => DeleteTargetHashChanged
    case RestoreEditAction => RestoreCurrentStateChanged
    case RestoreMoveAction => RestoreSourceNoLongerAbsent
  }

  /** What a re-read of the notes finds, first to last: unreadable, missing, other content; of a move also its draft. */
  lemma RereadsSayWhy(env: Env, d: Disk, plan: Plan)
    ensures var problem, current := NoteProblem(env, d, plan), At(d, MainPlace(plan));
      && (!NotesReadable(d, BodyOf(plan)) ==> problem == Some(NoteUnreadable))
      && (NotesReadable(d, BodyOf(plan)) ==>
        && (Expected(plan).Some? && current.None? ==> problem == Some(Missing(plan.Act())))
        && (current.Some? && ShaOf(current) != Expected(plan) ==> problem == Some(Stale(plan.Act())))
        && (plan.MoveDraft? && current.None? ==>
              if plan.source !in d.inbox then problem == Some(RevalidationMissing(MoveAction))
              else if Sha256(d.inbox[plan.source]) != plan.sourceSha then problem == Some(StaleSourceHash)
              else if !env.isDraft(d.inbox[plan.source]) then problem == Some(SourceIsNotOrionDraft)
              else problem.None?)
        && (!plan.MoveDraft? && ShaOf(current) == Expected(plan) ==> problem.None?))
  {
  }

  lemma ProtectSaysWhy(w: World, p: Proc)
    requires p.pc.Protect? && ShaOf(At(w.disk, MainPlace(p.token.plan))) != Expected(p.token.plan)
    ensures var (w', p') := ProtectStep(w, p, Go);
      && w'.log == w.log && SameNotes(w'.disk, w.disk)
      && p'.pc == Finished(Outcome(false,
           if Expected(p.token.plan).Some? && At(w.disk, MainPlace(p.token.plan)).None? then CandidateFailure else Changed(p.token.plan.Act()), false, true))
  {
  }

  /**
   In every run a failure claims a change only from the protected write on, and of a replacement or deletion not if
   nothing was begun.
   */
  lemma ChangesAreClaimedLate(env: Env, vault: map<Path, Text>, inbox: map<Path, Text>, hs: seq<Happening>, pid: nat, c: Choice)
    requires Consistent(env)
    requires var s := Reached(env, vault, inbox, hs); pid in s.procs && !s.procs[pid].Over()
    ensures var p, later := Reached(env, vault, inbox, hs).procs[pid], Reached(env, vault, inbox, hs + [Turn(pid, c)]);
      var p' := later.procs[pid];
      p'.pc.Finished? && p'.pc.outcome.mutated ==>
        Writing(p.pc) || (p.pc.Protect? && (Creates(p.token.plan) || !Extent(c).NoFile?))
  {
    var s := Reached(env, vault, inbox, hs);
    RunLedger(env, vault, inbox, hs);
    assert Entered(s, s.procs[pid]);
    StepClaims(env, s.w, s.procs[pid], c);
    TurnReached(env, vault, inbox, hs, pid, c);
  }

  lemma StepClaims(env: Env, w: World, p: Proc, c: Choice)
    requires !p.Over() && (!Writing(p.pc) ==> !p.started)
    ensures var p' := Step(env, w, p, c).1;
      p'.pc.Finished? && p'.pc.outcome.mutated ==>
        Writing(p.pc) || (p.pc.Protect? && (Creates(p.token.plan) || !Extent(c).NoFile?))
  {
    if !Owns(p.pc) { EarlyClaims(env, w, p, c); }
    else if p.pc.Protect? { ProtectClaims(w, p, c); }
    else if Recording(p.pc) { RecordIsTheStep(env, w, p, c); RecordClaims(w, p, c); }
    else if !Writing(p.pc) { ArmClaims(env, w, p, c); }
  }

  lemma EarlyClaims(env: Env, w: World, p: Proc, c: Choice)
    requires !Owns(p.pc) && !p.Over()
    ensures var p' := Step(env, w, p, c).1; p'.pc.Finished? ==> !p'.pc.outcome.mutated
  {
    match p.pc
    case Inventory => InventoryClaims(env, w, p, c);
    case Reinventory => InventoryClaims(env, w, p, c);
    case Lookup =>
    case Ask =>
    case Await =>
    case Revalidate =>
    case Admit =>
    case MakeRecord =>
  }

  lemma InventoryClaims(env: Env, w: World, p: Proc, c: Choice)
    requires p.pc.Inventory? || p.pc.Reinventory?
    ensures var p' := Step(env, w, p, c).1; p'.pc.Finished? ==> !p'.pc.outcome.mutated
  {
  }

  lemma ProtectClaims(w: World, p: Proc, c: Choice)
    requires p.pc.Protect?
    ensures var p' := ProtectStep(w, p, c).1;
      p'.pc.Finished? && p'.pc.outcome.mutated ==> Creates(p.token.plan) || !Extent(c).NoFile?
  {
  }

  lemma RecordClaims(w: World, p: Proc, c: Choice)
    requires Recording(p.pc) && !p.started
    ensures var p' := RecordStep(w, p, c).1; p'.pc.Finished? ==> !p'.pc.outcome.mutated
  {
  }

  lemma ArmClaims(env: Env, w: World, p: Proc, c: Choice)
    requires p.pc.Consume? || p.pc.StageFile? || p.pc.Probe?
    ensures var p' := Step(env, w, p, c).1; p'.pc.Finished? ==> !p'.pc.outcome.mutated
  {
  }
}
