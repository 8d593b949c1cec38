/**
 One call from its preview to its committed receipt, and what an outside writer can make of it afterwards.
 */
module Episode {
  import opened Wrappers
  import opened VaultModel
  import opened Recovery
  import opened Executor
  import opened System
  import opened Solo
  import opened Guarantees

  /** A preview, a call, the human's ONCE, and the steps up to the second inventory. */
  function Lead(c: Cached, message: Text): seq<Happening> {
    [Remember(c), Spawn(c.Token()), Turn(0, Go), Turn(0, Go), Turn(0, Go),
     Respond(1, message, "once", "cli", false, true), Turn(0, Go), Turn(0, Go), Turn(0, Go)]
  }

  function Turns(n: nat): seq<Happening> { seq(n, _ => Turn(0, Go)) }

  /** A call nothing goes wrong in. */
  function Steadily(env: Env, c: Cached): seq<Happening> { Lead(c, env.render(c)) + Turns(14) }

  /** The preview is good, its text is not too long, and the notes are as it says; it restores nothing. */
  predicate Plain(env: Env, d: Disk, c: Cached) {
    && SummaryOk(c) && env.size(env.render(c)) <= MAX_APPROVAL_MESSAGE_CHARS
    && !c.plan.RestoreEdit? && !c.plan.RestoreMoveSource? && NoteProblem(env, d, c.plan).None?
  }

  // ---------- Up to the second inventory ----------

  lemma OneMore(env: Env, s: Sys, hs: seq<Happening>, h: Happening)
    ensures Run(env, s, hs + [h]) == Happen(env, Run(env, s, hs), h)
  {
    assert (hs + [h])[..|hs|] == hs;
  }

  lemma ThreeMore(env: Env, s: Sys, a: Happening, b: Happening, c: Happening)
    ensures Run(env, s, [a, b, c]) == Happen(env, Happen(env, Happen(env, s, a), b), c)
  {
    OneMore(env, s, [], a);
    OneMore(env, s, [a], b);
    OneMore(env, s, [a, b], c);
    assert [] + [a] == [a] && [a] + [b] == [a, b] && [a, b] + [c] == [a, b, c];
  }

  /** The system with this one call in it. */
  function With1(d: Disk, c: Cached, attempts: map<nat, Attempt>, spent: set<nat>, nextKey: nat, log: seq<Event>, p: Proc): Sys {
    Sys(World(d, Memory(map[c.Token() := c], {}, attempts, spent), nextKey, log), map[0 := p], 1)
  }

  function Called(c: Cached, pc: Pc): Proc { Proc(c.Token(), pc, c.diff, c.proposed, 0, "", "", false, false) }

  function Told(c: Cached, pc: Pc, message: Text): Proc { Called(c, pc).(key := 1, message := message) }

  /** Nothing is recorded yet. */
  predicate Blank(d: Disk) { d.records == map[] && d.strays == {} }

  lemma NothingBlocks(env: Env, d: Disk)
    requires Blank(d)
    ensures Blocked(env, d).None?
  {
    assert Attending(env, d) == {};
  }

  lemma Begins(env: Env, vault: map<Path, Text>, inbox: map<Path, Text>, c: Cached)
    ensures var s := Start(vault, inbox);
      Run(env, s, [Remember(c), Spawn(c.Token()), Turn(0, Go)])
        == With1(s.w.disk, c, map[], {}, 1, [], NewProc(c.Token()).To(Lookup))
  {
    NothingBlocks(env, Start(vault, inbox).w.disk);
    ThreeMore(env, Start(vault, inbox), Remember(c), Spawn(c.Token()), Turn(0, Go));
  }

  lemma Asks(env: Env, d: Disk, c: Cached)
    requires SummaryOk(c) && env.size(env.render(c)) <= MAX_APPROVAL_MESSAGE_CHARS
    ensures var s, m := With1(d, c, map[], {}, 1, [], NewProc(c.Token()).To(Lookup)), env.render(c);
      Run(env, s, [Turn(0, Go), Turn(0, Go), Respond(1, m, "once", "cli", false, true)])
        == With1(d, c, map[1 := Attempt(m, true)], {}, 2, [Decided(1, m)], Told(c, Await, m))
  {
    var s, m := With1(d, c, map[], {}, 1, [], NewProc(c.Token()).To(Lookup)), env.render(c);
    ThreeMore(env, s, Turn(0, Go), Turn(0, Go), Respond(1, m, "once", "cli", false, true));
    assert Happen(env, s, Turn(0, Go)) == With1(d, c, map[], {}, 1, [], Called(c, Ask));
    Asked(env, d, c);
    Answered(env, d, c);
  }

  lemma Asked(env: Env, d: Disk, c: Cached)
    requires SummaryOk(c) && env.size(env.render(c)) <= MAX_APPROVAL_MESSAGE_CHARS
    ensures var m := env.render(c);
      Happen(env, With1(d, c, map[], {}, 1, [], Called(c, Ask)), Turn(0, Go))
        == With1(d, c, map[1 := Attempt(m, false)], {}, 2, [], Told(c, Await, m))
  {
  }

  lemma Answered(env: Env, d: Disk, c: Cached)
    ensures var m := env.render(c);
      Happen(env, With1(d, c, map[1 := Attempt(m, false)], {}, 2, [], Told(c, Await, m)), Respond(1, m, "once", "cli", false, true))
        == With1(d, c, map[1 := Attempt(m, true)], {}, 2, [Decided(1, m)], Told(c, Await, m))
  {
  }

  lemma Awaited(env: Env, d: Disk, c: Cached)
    ensures var m := env.render(c);
      Happen(env, With1(d, c, map[1 := Attempt(m, true)], {}, 2, [Decided(1, m)], Told(c, Await, m)), Turn(0, Go))
        == With1(d, c, map[], {1}, 2, [Decided(1, m)], Told(c, Revalidate, m))
  {
    assert map[1 := Attempt(env.render(c), true)] - {1} == map[];
  }

  lemma Revalidated(env: Env, d: Disk, c: Cached, log: seq<Event>, m: Text)
    requires Plain(env, d, c)
    ensures Happen(env, With1(d, c, map[], {1}, 2, log, Told(c, Revalidate, m)), Turn(0, Go))
      == With1(d, c, map[], {1}, 2, log, Told(c, Reinventory, m))
  {
  }

  lemma Reinventoried(env: Env, d: Disk, c: Cached, log: seq<Event>, m: Text)
    requires Blank(d)
    ensures Happen(env, With1(d, c, map[], {1}, 2, log, Told(c, Reinventory, m)), Turn(0, Go))
      == With1(d, c, map[], {1}, 2, log, Told(c, Admit, m))
  {
    NothingBlocks(env, d);
  }

  lemma Continues(env: Env, d: Disk, c: Cached)
    requires Blank(d) && Plain(env, d, c)
    ensures var m := env.render(c);
      Run(env, With1(d, c, map[1 := Attempt(m, true)], {}, 2, [Decided(1, m)], Told(c, Await, m)), [Turn(0, Go), Turn(0, Go), Turn(0, Go)])
        == With1(d, c, map[], {1}, 2, [Decided(1, m)], Told(c, Admit, m))
  {
    var m := env.render(c);
    var s := With1(d, c, map[1 := Attempt(m, true)], {}, 2, [Decided(1, m)], Told(c, Await, m));
    ThreeMore(env, s, Turn(0, Go), Turn(0, Go), Turn(0, Go));
    Awaited(env, d, c);
    Revalidated(env, d, c, [Decided(1, m)], m);
    Reinventoried(env, d, c, [Decided(1, m)], m);
  }

  lemma LeadAdmits(env: Env, vault: map<Path, Text>, inbox: map<Path, Text>, c: Cached)
    requires Plain(env, Start(vault, inbox).w.disk, c)
    ensures var m := env.render(c);
      Reached(env, vault, inbox, Lead(c, m)) == With1(Start(vault, inbox).w.disk, c, map[], {1}, 2, [Decided(1, m)], Told(c, Admit, m))
  {
    var m, s := env.render(c), Start(vault, inbox);
    var first, second := [Remember(c), Spawn(c.Token()), Turn(0, Go)], [Turn(0, Go), Turn(0, Go), Respond(1, m, "once", "cli", false, true)];
    var third := [Turn(0, Go), Turn(0, Go), Turn(0, Go)];
    assert Lead(c, m) == first + second + third;
    RunConcat(env, s, first + second, third);
    RunConcat(env, s, first, second);
    Begins(env, vault, inbox, c);
    Asks(env, s.w.disk, c);
    Continues(env, s.w.disk, c);
  }

  // ---------- To the end ----------

  /** With one call in the system its turns are its steps. */
  lemma {:induction false} TurnsAreSteps(env: Env, s: Sys, n: nat)
    requires 0 in s.procs
    ensures var (w, p) := Alone(env, s.w, s.procs[0], Steady(n)); Run(env, s, Turns(n)) == s.(w := w, procs := s.procs[0 := p])
  {
    if n == 0 {
      assert s.procs[0 := s.procs[0]] == s.procs;
    } else {
      TurnsAreSteps(env, s, n - 1);
      assert Turns(n)[..n - 1] == Turns(n - 1) && Steady(n)[..n - 1] == Steady(n - 1);
    }
  }

  /**
   Whatever plain plan is previewed, approved and carried out in steady fashion: it is done as promised, its record
   is settled, and nothing stands in the way of the next call.
   */
  lemma SteadyCallSettles(env: Env, vault: map<Path, Text>, inbox: map<Path, Text>, c: Cached)
    requires Consistent(env) && Plain(env, Start(vault, inbox).w.disk, c)
    ensures var s := Reached(env, vault, inbox, Steadily(env, c));
      && 0 in s.procs && Performed(Start(vault, inbox).w.disk, c, s.w, s.procs[0])
      && s.w.disk.strays == {} && !NeedsAttention(env, s.w.disk, c.Token()) && Blocked(env, s.w.disk).None?
  {
    SteadyCallPerforms(env, vault, inbox, c);
    StraysStay(env, Start(vault, inbox), Steadily(env, c));
    ReachedInv(env, vault, inbox, Steadily(env, c));
    OneSettledRecord(env, Reached(env, vault, inbox, Steadily(env, c)).w, c.Token());
  }

  /** The call reports success, the notes are as its plan promises, and its record, the only one, is settled. */
  ghost predicate Performed(d: Disk, c: Cached, w: World, p: Proc) {
    && p.pc.Finished? && p.pc.outcome.success && p.token == c.Token() && p.proposed == c.proposed
    && SameNotes(w.disk, NotesAt(d, p, Post))
    && w.disk.records.Keys == {c.Token()} && Settled(w.disk.records[c.Token()]) && w.disk.unreadable == d.unreadable
  }

  lemma SteadyCallPerforms(env: Env, vault: map<Path, Text>, inbox: map<Path, Text>, c: Cached)
    requires Plain(env, Start(vault, inbox).w.disk, c)
    ensures var s := Reached(env, vault, inbox, Steadily(env, c));
      0 in s.procs && Performed(Start(vault, inbox).w.disk, c, s.w, s.procs[0])
  {
    var d, m := Start(vault, inbox).w.disk, env.render(c);
    var s := With1(d, c, map[], {1}, 2, [Decided(1, m)], Told(c, Admit, m));
    LeadAdmits(env, vault, inbox, c);
    RunConcat(env, Start(vault, inbox), Lead(c, m), Turns(14));
    TurnsAreSteps(env, s, 14);
    AdmittedPerforms(env, d, c, s.w, s.procs[0]);
  }

  lemma AdmittedPerforms(env: Env, d: Disk, c: Cached, w0: World, p0: Proc)
    requires Plain(env, d, c) && Blank(d) && w0.disk == d && w0.mem.consumed == {}
    requires p0.pc.Admit? && p0.Entry() == c
    ensures var (w, p) := Alone(env, w0, p0, Steady(14)); Performed(d, c, w, p)
  {
    var notes, stage := SteadyRun(env, w0, p0, 14);
    var (w, p) := Alone(env, w0, p0, Steady(14));
    SettledAtTheEnd(env, d, p0, w, p, notes, stage);
  }

  lemma SettledAtTheEnd(env: Env, d: Disk, p0: Proc, w: World, p: Proc, notes: Notes, stage: Option<Stage>)
    requires SteadyAt(env, d, p0, 14, w, p, notes, stage) && d.records == map[]
    ensures p.pc.Finished? && p.pc.outcome.success && notes == Post && SameNotes(w.disk, NotesAt(d, p, Post))
    ensures w.disk.records.Keys == {p0.token} && Settled(w.disk.records[p0.token]) && w.disk.unreadable == d.unreadable
  {
    OverAtTheEnd(env, d, p0, w, p, notes, stage);
  }

  lemma OverAtTheEnd(env: Env, d: Disk, p0: Proc, w: World, p: Proc, notes: Notes, stage: Option<Stage>)
    requires SteadyAt(env, d, p0, 14, w, p, notes, stage)
    ensures p.pc.Finished? && p.pc.outcome.success && notes == Post && stage == Some(ReceiptDone)
  {
    assert Rank(p.pc) == 0 || p.Over();
  }

  lemma OneSettledRecord(env: Env, w: World, t: Token)
    requires w.disk.records.Keys == {t} && AllSound(env, w) && Settled(w.disk.records[t])
    requires w.disk.strays == {} && w.disk.unreadable == {}
    ensures !NeedsAttention(env, w.disk, t) && Blocked(env, w.disk).None?
  {
    AttentionExactly(env, w.disk, t);
    assert Attending(env, w.disk) == {};
    assert |w.disk.records| == |w.disk.records.Keys| == 1;
  }

  /** Only outside writers leave other things under the recovery root. */
  lemma {:induction false} StraysStay(env: Env, s: Sys, hs: seq<Happening>)
    requires forall h :: h in hs ==> !h.Outside?
    ensures Run(env, s, hs).w.disk.strays == s.w.disk.strays
    decreases hs
  {
    if hs != [] {
      var h, before := hs[|hs| - 1], Run(env, s, hs[..|hs| - 1]);
      assert h in hs && forall g :: g in hs[..|hs| - 1] ==> g in hs;
      StraysStay(env, s, hs[..|hs| - 1]);
      if h.Turn? && h.pid in before.procs { StepKeepsStrays(env, before.w, before.procs[h.pid], h.choice); }
    }
  }

  lemma StepKeepsStrays(env: Env, w: World, p: Proc, c: Choice)
    ensures Step(env, w, p, c).0.disk.strays == w.disk.strays
  {
    if Owns(p.pc) && p.pc.Protect? { ProtectKeepsStrays(w, p, c); }
    else if Recording(p.pc) || p.pc.CommitManifest? || p.pc.CommitReceipt? { RecordKeepsStrays(w, p, c); }
    else if Owns(p.pc) { LateKeepsStrays(env, w, p, c); }
    else { EarlyKeepsStrays(env, w, p, c); }
  }

  lemma ProtectKeepsStrays(w: World, p: Proc, c: Choice)
    ensures ProtectStep(w, p, c).0.disk.strays == w.disk.strays
  {
  }

  lemma RecordKeepsStrays(w: World, p: Proc, c: Choice)
    ensures RecordStep(w, p, c).0.disk.strays == w.disk.strays
  {
  }

  lemma LateKeepsStrays(env: Env, w: World, p: Proc, c: Choice)
    requires p.pc.Consume? || p.pc.StageFile? || p.pc.Probe? || p.pc.VerifyCopy? || p.pc.Unlink? || p.pc.Verify?
    ensures Step(env, w, p, c).0.disk.strays == w.disk.strays
  {
  }

  lemma EarlyKeepsStrays(env: Env, w: World, p: Proc, c: Choice)
    requires !Owns(p.pc)
    ensures Step(env, w, p, c).0.disk.strays == w.disk.strays
  {
  }

  // ---------- What an outside writer can do to it ----------

  /** In every run: whatever else an outside writer does, one unreadable note of a settled record stops all calls. */
  lemma OutsideReopens(env: Env, vault: map<Path, Text>, inbox: map<Path, Text>, hs: seq<Happening>, t: Token, h: Happening)
    requires Consistent(env) && h.Outside?
    requires t in Reached(env, vault, inbox, hs).w.disk.records && Settled(Reached(env, vault, inbox, hs).w.disk.records[t])
    ensures var d := Reached(env, vault, inbox, hs + [h]).w.disk;
      && (NeedsAttention(env, d, t) <==> exists place :: place in NotesOf(BodyOf(t.plan)) && place in h.unreadable)
      && (NeedsAttention(env, d, t) ==> Blocked(env, d).Some?)
  {
    OneMore(env, Start(vault, inbox), hs, h);
    AttentionFollowsTheReceipt(env, vault, inbox, hs, [h], t);
    var d := Reached(env, vault, inbox, hs + [h]).w.disk;
    assert NeedsAttention(env, d, t) ==> t in Attending(env, d);
  }

  function EditedA(nonce: string, original: Text, edited: Text, diff: Text): Cached {
    Cached(EditNote(nonce, "a.md", "/vault/a.md", Sha256(original), Sha256(edited), Sha256(diff)), diff, edited)
  }

  lemma EditSettles(env: Env, c: Cached, vault: map<Path, Text>)
    requires Consistent(env) && Plain(env, Start(vault, map[]).w.disk, c) && c.plan.EditNote?
    ensures var d := Reached(env, vault, map[], Steadily(env, c)).w.disk;
      && d.vault == vault[c.plan.target := c.proposed] && d.strays == {}
      && d.records.Keys == {c.Token()} && Settled(d.records[c.Token()]) && Blocked(env, d).None?
  {
    SteadyCallSettles(env, vault, map[], c);
  }

  /** What is left of any plain edit, and what one link in the place of its note makes of it. */
  lemma LinkReopens(env: Env, vault: map<Path, Text>, c: Cached, h: Happening)
    requires Consistent(env) && Plain(env, Start(vault, map[]).w.disk, c) && c.plan.EditNote?
    requires var d := Reached(env, vault, map[], Steadily(env, c)).w.disk;
      h == Outside(d.vault, d.inbox, {InVault(c.plan.target)}, {})
    ensures var hs := Steadily(env, c);
      var d, linked := Reached(env, vault, map[], hs).w.disk, Reached(env, vault, map[], hs + [h]).w.disk;
      && linked == d.(unreadable := {InVault(c.plan.target)})
      && NeedsAttention(env, linked, c.Token()) && Blocked(env, linked) == Some(ProductionRecoveryAttentionRequired)
  {
    var hs := Steadily(env, c);
    EditSettles(env, c, vault);
    OneMore(env, Start(vault, map[]), hs, h);
    OutsideReopens(env, vault, map[], hs, c.Token(), h);
    assert InVault(c.plan.target) in NotesOf(BodyOf(c.plan)) && InVault(c.plan.target) in h.unreadable;
    OneAttending(env, Reached(env, vault, map[], hs + [h]).w.disk, c.Token());
  }

  /**
   So an outside writer who puts a link in the place of a committed edit's note brings the whole executor to a
   halt: here the note is `a.md`, it was edited as approved, its content is untouched, and the record is finished.
   */
  lemma LinkReopensSettledEdit(env: Env, nonce: string, original: Text, edited: Text, diff: Text)
    requires Consistent(env)
    requires env.size(env.render(EditedA(nonce, original, edited, diff))) <= MAX_APPROVAL_MESSAGE_CHARS
    ensures var c := EditedA(nonce, original, edited, diff);
      var hs := Steadily(env, c);
      var d := Reached(env, map["a.md" := original], map[], hs).w.disk;
      var linked := Reached(env, map["a.md" := original], map[], hs + [Outside(d.vault, d.inbox, {InVault("a.md")}, {})]).w.disk;
      && c.Token() in d.records && Settled(d.records[c.Token()]) && d.vault == map["a.md" := edited] && Blocked(env, d).None?
      && linked == d.(unreadable := {InVault("a.md")})
      && NeedsAttention(env, linked, c.Token()) && Blocked(env, linked) == Some(ProductionRecoveryAttentionRequired)
  {
    var c, vault := EditedA(nonce, original, edited, diff), map["a.md" := original];
    var d := Reached(env, vault, map[], Steadily(env, c)).w.disk;
    assert vault["a.md" := edited] == map["a.md" := edited];
    EditSettles(env, c, vault);
    LinkReopens(env, vault, c, Outside(d.vault, d.inbox, {InVault("a.md")}, {}));
  }

  lemma OneAttending(env: Env, d: Disk, t: Token)
    requires d.records.Keys == {t} && d.strays == {} && NeedsAttention(env, d, t)
    ensures Blocked(env, d) == Some(ProductionRecoveryAttentionRequired)
  {
    assert t in Attending(env, d);
    assert |d.records| == |d.records.Keys| == 1;
  }
}
