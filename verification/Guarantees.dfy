/**
 What holds of every run of the plugin, however calls, answers, outside edits, crashes and restarts interleave.
 */
module Guarantees {
  import opened Wrappers
  import opened VaultModel
  import opened Recovery
  import opened Executor
  import opened System
  import opened Preservation

  function Reached(env: Env, vault: map<Path, Text>, inbox: map<Path, Text>, hs: seq<Happening>): Sys {
    Run(env, Start(vault, inbox), hs)
  }

  lemma ReachedInv(env: Env, vault: map<Path, Text>, inbox: map<Path, Text>, hs: seq<Happening>)
    requires Consistent(env)
    ensures Inv(env, Reached(env, vault, inbox, hs))
  {
    StartInv(env, vault, inbox);
    RunKeepsInv(env, Start(vault, inbox), hs);
  }

  /** Before a note changes, a human has said ONCE to the exact text of that plan, under a key of its own. */
  lemma ChangesAreDecided(env: Env, vault: map<Path, Text>, inbox: map<Path, Text>, hs: seq<Happening>, i: nat)
    requires Consistent(env)
    requires i < |Reached(env, vault, inbox, hs).w.log| && Reached(env, vault, inbox, hs).w.log[i].Changed?
    ensures var log := Reached(env, vault, inbox, hs).w.log;
      exists text :: Decided(log[i].key, text) in log[..i] && IsSummary(env, log[i].token.plan, text)
  {
    ReachedInv(env, vault, inbox, hs);
    var s := Reached(env, vault, inbox, hs);
    assert EntryOk(env, s.w, i);
    var text := DecidedText(s.w, s.w.log[i].token, s.w.log[i].key);
    assert Decided(s.w.log[i].key, text) in s.w.log[..i] && IsSummary(env, s.w.log[i].token.plan, text);
  }

  /**
   No plan token is ever executed twice and no decision ever used twice, restarts included: two changes under
   one token or one key are the creation and the removal that make up one move.
   */
  lemma DecisionsAreSpentOnce(env: Env, vault: map<Path, Text>, inbox: map<Path, Text>, hs: seq<Happening>, i: nat, j: nat)
    requires Consistent(env) && i < j < |Reached(env, vault, inbox, hs).w.log|
    requires Reached(env, vault, inbox, hs).w.log[i].Changed? && Reached(env, vault, inbox, hs).w.log[j].Changed?
    ensures var e, f := Reached(env, vault, inbox, hs).w.log[i], Reached(env, vault, inbox, hs).w.log[j];
      || (e.key != f.key && e.token != f.token)
      || (e.key == f.key && e.token == f.token && e.token.plan.MoveDraft?
          && e.place == InVault(e.token.plan.target) && f.place == InInbox(e.token.plan.source))
  {
    ReachedInv(env, vault, inbox, hs);
    var s := Reached(env, vault, inbox, hs);
    assert PairOk(s.w.log[i], s.w.log[j]) && EntryOk(env, s.w, i) && EntryOk(env, s.w, j);
  }

  /**
   With outside writers acting between any two steps, what is overwritten or deleted is what the plan names by
   hash, nothing existing is overwritten by a create, and what is put in place is what the plan promises.
   */
  lemma OnlyNamedBytesGo(env: Env, vault: map<Path, Text>, inbox: map<Path, Text>, hs: seq<Happening>, i: nat)
    requires Consistent(env)
    requires i < |Reached(env, vault, inbox, hs).w.log| && Reached(env, vault, inbox, hs).w.log[i].Changed?
    ensures var e := Reached(env, vault, inbox, hs).w.log[i];
      && Faithful(e.token.plan, e)
      && (e.before.None? || ShaOf(e.before) == Expected(e.token.plan)
          || (e.token.plan.MoveDraft? && ShaOf(e.before) == Some(e.token.plan.sourceSha)))
      && (Creates(e.token.plan) && e.after.Some? ==> e.before == None)
  {
    ReachedInv(env, vault, inbox, hs);
    assert EntryOk(env, Reached(env, vault, inbox, hs).w, i);
  }

  /** From the moment a note changes, kept bytes, manifest and receipt of that plan and decision are on disk. */
  lemma ChangesAreRecorded(env: Env, vault: map<Path, Text>, inbox: map<Path, Text>, hs: seq<Happening>, i: nat)
    requires Consistent(env)
    requires i < |Reached(env, vault, inbox, hs).w.log| && Reached(env, vault, inbox, hs).w.log[i].Changed?
    ensures var s := Reached(env, vault, inbox, hs);
      var e := s.w.log[i];
      && e.token in s.w.disk.records
      && var rec, name := s.w.disk.records[e.token], BackupName(e.token.plan.Act());
      && name in rec.artifacts && Sha256(rec.artifacts[name]) == KeptSha(BodyOf(e.token.plan))
      && (e.before.Some? ==> rec.artifacts[name] == e.before.value)
      && (e.after.Some? && Creates(e.token.plan) ==> exists n :: e.after.value == Cut(rec.artifacts[name], n))
      && rec.manifest.Some? && rec.manifest.value.body == BodyOf(e.token.plan)
      && rec.receipt.Some? && rec.receipt.value.Whole?
      && rec.receipt.value.receipt.plan == e.token.plan && rec.receipt.value.receipt.approval.attempt == e.key
      && Decided(e.key, rec.receipt.value.receipt.approval.message) in s.w.log[..i]
  {
    ReachedInv(env, vault, inbox, hs);
    var s := Reached(env, vault, inbox, hs);
    assert EntryOk(env, s.w, i) && Sound(env, s.w.log[i].token, s.w.disk.records[s.w.log[i].token]);
    KeptIsWhatWas(s.w.log[i], s.w.disk.records[s.w.log[i].token].artifacts[BackupName(s.w.log[i].token.plan.Act())]);
  }

  /** The bytes kept for a change are those it overwrites or removes, or, of a create, those it puts in place. */
  lemma KeptIsWhatWas(e: Event, kept: Text)
    requires e.Changed? && Faithful(e.token.plan, e) && Sha256(kept) == KeptSha(BodyOf(e.token.plan))
    ensures e.before.Some? ==> kept == e.before.value
    ensures e.after.Some? && Creates(e.token.plan) ==> exists n :: e.after.value == Cut(kept, n)
  {
    if e.after.Some? && Creates(e.token.plan) {
      if ShaOf(e.after) == Promised(e.token.plan) {
        assert e.after.value == Cut(kept, |kept|);
      } else {
        var whole: Text, n: nat :| Promised(e.token.plan) == Some(Sha256(whole)) && e.after.value == Cut(whole, n);
        assert whole == kept;
      }
    }
  }

  /** Unless an outsider writes, notes change only as the log says. */
  lemma NotesChangeAsLogged(env: Env, vault: map<Path, Text>, inbox: map<Path, Text>, hs: seq<Happening>, h: Happening)
    requires Consistent(env) && !h.Outside?
    ensures var s := Reached(env, vault, inbox, hs);
      var s' := Happen(env, s, h);
      || (SameNotes(s'.w.disk, s.w.disk) && forall i :: |s.w.log| <= i < |s'.w.log| ==> !s'.w.log[i].Changed?)
      || exists e: Event :: e.Changed? && s'.w.log == s.w.log + [e] && SameNotes(s'.w.disk, With(s.w.disk, e.place, e.after))
  {
    ReachedInv(env, vault, inbox, hs);
    var s := Reached(env, vault, inbox, hs);
    if h.Turn? && h.pid in s.procs {
      assert ProcOk(env, s.w, s.procs[h.pid]);
      StepIsLocal(env, s.w, s.procs[h.pid], h.choice);
    }
  }

  /**
   A call that ends without claiming a mutation changed no note, and one that claims success made its change
   and left a committed receipt.
   */
  lemma ResultsAreTruthful(env: Env, vault: map<Path, Text>, inbox: map<Path, Text>, hs: seq<Happening>, pid: nat)
    requires Consistent(env) && pid in Reached(env, vault, inbox, hs).procs
    requires Reached(env, vault, inbox, hs).procs[pid].pc.Finished?
    ensures var s := Reached(env, vault, inbox, hs);
      var p, outcome := s.procs[pid], s.procs[pid].pc.outcome;
      && (!outcome.mutated ==> forall e :: e in s.w.log && e.Changed? ==> e.key != p.key)
      && (outcome.success ==>
        && outcome.mutated && !outcome.recovery
        && p.token in s.w.disk.records && Settled(s.w.disk.records[p.token])
        && exists e :: e in s.w.log && e.Changed? && e.key == p.key && e.token == p.token)
  {
    ReachedInv(env, vault, inbox, hs);
    var s := Reached(env, vault, inbox, hs);
    var p := s.procs[pid];
    assert ProcOk(env, s.w, p);
    assert forall e :: e in s.w.log && e.Changed? && e.key == p.key ==> Carries(e, p.key);
    if p.wrote {
      var e :| e in s.w.log && Carries(e, p.key) && e.token == p.token;
      assert e.Changed? && e.key == p.key;
    }
  }

  /** A plan has one approval text: its token pins the private diff and bytes by their hashes. */
  lemma OneTextPerPlan(env: Env, c: Cached, e: Cached)
    requires SummaryOk(c) && SummaryOk(e) && c.Token() == e.Token()
    ensures c == e && env.render(c) == env.render(e)
  {
  }

  // ---------- Where decisions and restored bytes come from ----------

  /** A human answered ONCE to this text under this key, in time, through a surface that counts. */
  predicate IsOnce(h: Happening, key: nat, text: Text) {
    && h.Respond? && h.key == key && h.description == text && h.decision == "once"
    && (h.surface == "cli" || h.surface == "gateway") && !h.coalesced && h.inTime
  }

  lemma DecidedByAnswer(env: Env, s: Sys, h: Happening, key: nat, text: Text)
    requires Inv(env, s) && Decided(key, text) in Happen(env, s, h).w.log
    ensures Decided(key, text) in s.w.log || IsOnce(h, key, text)
  {
    if h.Turn? && h.pid in s.procs {
      var p := s.procs[h.pid];
      assert ProcOk(env, s.w, p);
      StepIsLocal(env, s.w, p, h.choice);
      var (w', p') := Step(env, s.w, p, h.choice);
      LogMembers(s.w, p, w', p');
    }
  }

  /** Every decision in the log is such an answer; nothing else makes one. */
  lemma {:induction false} DecisionsAreHuman(env: Env, vault: map<Path, Text>, inbox: map<Path, Text>, hs: seq<Happening>, key: nat, text: Text)
    requires Consistent(env) && Decided(key, text) in Reached(env, vault, inbox, hs).w.log
    ensures exists k :: 0 <= k < |hs| && IsOnce(hs[k], key, text)
    decreases hs
  {
    if hs != [] {
      var earlier, last := hs[..|hs| - 1], hs[|hs| - 1];
      ReachedInv(env, vault, inbox, earlier);
      DecidedByAnswer(env, Reached(env, vault, inbox, earlier), last, key, text);
      if Decided(key, text) in Reached(env, vault, inbox, earlier).w.log {
        DecisionsAreHuman(env, vault, inbox, earlier, key, text);
        var k :| 0 <= k < |earlier| && IsOnce(earlier[k], key, text);
        assert hs[k] == earlier[k];
      } else {
        assert IsOnce(hs[|hs| - 1], key, text);
      }
    }
  }

  /** A call waits for the human under this key, with this text. */
  ghost predicate Awaits(s: Sys, key: nat, text: Text) {
    key in s.w.mem.attempts && exists pid :: pid in s.procs && s.procs[pid].pc.Await? && s.procs[pid].key == key && s.procs[pid].message == text
  }

  /**
   And every such answer to a waiting call is heard: it is logged as a decision, and the call goes on. Any other
   answer changes nothing.
   */
  lemma OnceIsHeard(env: Env, vault: map<Path, Text>, inbox: map<Path, Text>, hs: seq<Happening>, h: Happening, key: nat, text: Text)
    requires Consistent(env) && h.Respond? && h.key == key && Awaits(Reached(env, vault, inbox, hs), key, text)
    ensures var s := Reached(env, vault, inbox, hs);
      && (IsOnce(h, key, text) ==>
        && Happen(env, s, h).w.log == s.w.log + [Decided(key, text)]
        && key in Happen(env, s, h).w.mem.attempts && Happen(env, s, h).w.mem.attempts[key].once)
      && (!IsOnce(h, key, text) ==> Happen(env, s, h) == s)
  {
    ReachedInv(env, vault, inbox, hs);
    var s := Reached(env, vault, inbox, hs);
    var pid :| pid in s.procs && s.procs[pid].pc.Await? && s.procs[pid].key == key && s.procs[pid].message == text;
    assert Waiting(env, s.w, s.procs[pid]);
  }

  /** A call that has its ONCE goes on to the check of its preview; one that has not is refused. */
  lemma AnsweredCallGoesOn(env: Env, w: World, p: Proc)
    requires p.pc.Await? && p.message == env.render(p.Entry()) && p.key !in w.mem.spent
    ensures var p' := Step(env, w, p, Go).1;
      && (p.key in w.mem.attempts && w.mem.attempts[p.key].once ==> p'.pc.Revalidate?)
      && (!(p.key in w.mem.attempts && w.mem.attempts[p.key].once) ==> p' == p.Stop(Refused(FreshOnceNotObserved)))
    ensures p.key !in Step(env, w, p, Go).0.mem.attempts
  {
  }

  /** No more than 32 requests for a decision are ever open at once. */
  lemma {:induction false} RequestsAreBounded(env: Env, vault: map<Path, Text>, inbox: map<Path, Text>, hs: seq<Happening>)
    ensures |Reached(env, vault, inbox, hs).w.mem.attempts| <= 32
    decreases hs
  {
    if hs != [] {
      var earlier, h := hs[..|hs| - 1], hs[|hs| - 1];
      RequestsAreBounded(env, vault, inbox, earlier);
      ReachedLast(env, vault, inbox, hs);
      var s := Reached(env, vault, inbox, earlier);
      if h.Turn? && h.pid in s.procs { StepRequests(env, s.w, s.procs[h.pid], h.choice); }
      if h.Respond? { SameRequests(s.w, h); }
    }
  }

  lemma SameRequests(w: World, h: Happening)
    requires h.Respond?
    ensures |Responded(w, h).mem.attempts| == |w.mem.attempts|
  {
    assert Responded(w, h).mem.attempts.Keys == w.mem.attempts.Keys;
    assert |w.mem.attempts| == |w.mem.attempts.Keys| && |Responded(w, h).mem.attempts| == |Responded(w, h).mem.attempts.Keys|;
  }

  lemma StepRequests(env: Env, w: World, p: Proc, c: Choice)
    requires |w.mem.attempts| <= 32
    ensures |Step(env, w, p, c).0.mem.attempts| <= 32
  {
    if p.pc.Ask? { AskRequests(env, w, p, c); }
    else if p.pc.Await? { AwaitRequests(env, w, p, c); }
    else { OtherRequests(env, w, p, c); }
  }

  lemma AskRequests(env: Env, w: World, p: Proc, c: Choice)
    requires |w.mem.attempts| <= 32
    ensures |AskStep(env, w, p, c).0.mem.attempts| <= 32
  {
    var before, after := w.mem.attempts, AskStep(env, w, p, c).0.mem.attempts;
    assert after.Keys <= before.Keys + {w.nextKey};
    if after != before {
      MoreKeys(after.Keys, before.Keys, w.nextKey);
      assert |after| == |after.Keys| && |before| == |before.Keys|;
    }
  }

  lemma MoreKeys(after: set<nat>, before: set<nat>, key: nat)
    requires after <= before + {key}
    ensures |after| <= |before| + 1
  {
    Subset(after, before + {key});
  }

  lemma {:induction false} Subset<A>(a: set<A>, b: set<A>)
    requires a <= b
    ensures |a| <= |b|
  {
    if a != {} {
      var x :| x in a;
      Subset(a - {x}, b - {x});
    }
  }

  lemma AwaitRequests(env: Env, w: World, p: Proc, c: Choice)
    requires |w.mem.attempts| <= 32
    ensures |AwaitStep(env, w, p, c).0.mem.attempts| <= 32
  {
    var before, after := w.mem.attempts, AwaitStep(env, w, p, c).0.mem.attempts;
    assert after.Keys <= before.Keys;
    Subset(after.Keys, before.Keys);
    assert |after| == |after.Keys| && |before| == |before.Keys|;
  }

  lemma OtherRequests(env: Env, w: World, p: Proc, c: Choice)
    requires !p.pc.Ask? && !p.pc.Await?
    ensures Step(env, w, p, c).0.mem.attempts == w.mem.attempts
  {
    if p.pc.Protect? { ProtectRequests(w, p, c); }
    else if Owns(p.pc) { OwnerRequests(env, w, p, c); }
  }

  lemma ProtectRequests(w: World, p: Proc, c: Choice)
    ensures ProtectStep(w, p, c).0.mem == w.mem
  {
  }

  lemma OwnerRequests(env: Env, w: World, p: Proc, c: Choice)
    requires Owns(p.pc) && !p.pc.Protect?
    ensures Step(env, w, p, c).0.mem.attempts == w.mem.attempts
  {
    match p.pc
    case Consume =>
    case StageFile =>
    case Probe =>
    case VerifyCopy =>
    case Unlink =>
    case Verify =>
    case Backup =>
    case WriteManifest =>
    case WriteReceipt =>
    case CommitManifest =>
    case CommitReceipt =>
  }

  // ---------- One answer for each executed plan ----------

  lemma HappenExtendsLog(env: Env, s: Sys, h: Happening)
    requires Inv(env, s)
    ensures s.w.log <= Happen(env, s, h).w.log && |Happen(env, s, h).w.log| <= |s.w.log| + 1
  {
    if h.Turn? && h.pid in s.procs {
      assert ProcOk(env, s.w, s.procs[h.pid]);
      StepIsLocal(env, s.w, s.procs[h.pid], h.choice);
    }
  }

  lemma ReachedLast(env: Env, vault: map<Path, Text>, inbox: map<Path, Text>, hs: seq<Happening>)
    requires hs != []
    ensures Reached(env, vault, inbox, hs) == Happen(env, Reached(env, vault, inbox, hs[..|hs| - 1]), hs[|hs| - 1])
  {
  }

  /** The answer that made a logged decision. */
  lemma {:induction false} AnswerBehind(env: Env, vault: map<Path, Text>, inbox: map<Path, Text>, hs: seq<Happening>, i: nat) returns (k: nat)
    requires Consistent(env)
    requires i < |Reached(env, vault, inbox, hs).w.log| && Reached(env, vault, inbox, hs).w.log[i].Decided?
    ensures var e := Reached(env, vault, inbox, hs).w.log[i];
      k < |hs| && IsOnce(hs[k], e.key, e.text) && |Reached(env, vault, inbox, hs[..k]).w.log| == i
    decreases hs
  {
    var earlier := hs[..|hs| - 1];
    ReachedLast(env, vault, inbox, hs);
    ReachedInv(env, vault, inbox, earlier);
    var before := Reached(env, vault, inbox, earlier);
    LogOfLast(env, before, hs[|hs| - 1], i);
    if i < |before.w.log| {
      k := AnswerBehind(env, vault, inbox, earlier, i);
      assert earlier[..k] == hs[..k];
    } else {
      k := |hs| - 1;
    }
  }

  /** An entry of the log is an old one, or the one the last happening made. */
  lemma LogOfLast(env: Env, s: Sys, h: Happening, i: nat)
    requires Inv(env, s) && i < |Happen(env, s, h).w.log|
    ensures var log := Happen(env, s, h).w.log;
      if i < |s.w.log| then log[i] == s.w.log[i] else i == |s.w.log| && (log[i].Decided? ==> IsOnce(h, log[i].key, log[i].text))
  {
    HappenExtendsLog(env, s, h);
    LastDecision(env, s, h);
  }

  lemma LastDecision(env: Env, s: Sys, h: Happening)
    requires Inv(env, s)
    ensures var log := Happen(env, s, h).w.log;
      |log| == |s.w.log| + 1 && log[|s.w.log|].Decided? ==> IsOnce(h, log[|s.w.log|].key, log[|s.w.log|].text)
  {
    if h.Turn? && h.pid in s.procs {
      var p := s.procs[h.pid];
      assert ProcOk(env, s.w, p);
      StepIsLocal(env, s.w, p, h.choice);
    }
  }

  /** A human answered ONCE to this plan's text, before the plan changed anything. */
  ghost predicate AnswersFor(env: Env, vault: map<Path, Text>, inbox: map<Path, Text>, hs: seq<Happening>, t: Token, k: nat) {
    var log := Reached(env, vault, inbox, hs).w.log;
    && k < |hs|
    && forall i :: 0 <= i < |log| && Touches(log[i], t) ==>
      && hs[k].Respond? && IsOnce(hs[k], log[i].key, hs[k].description) && IsSummary(env, t.plan, hs[k].description)
      && |Reached(env, vault, inbox, hs[..k]).w.log| < i
  }

  ghost predicate Executed(log: seq<Event>, t: Token) { exists e :: e in log && Touches(e, t) }

  lemma {:induction false} FirstTouch(log: seq<Event>, t: Token) returns (i: nat)
    requires Executed(log, t)
    ensures i < |log| && Touches(log[i], t) && forall j :: 0 <= j < i ==> !Touches(log[j], t)
  {
    i := 0;
    while !Touches(log[i], t)
      invariant i < |log| && forall j :: 0 <= j < i ==> !Touches(log[j], t)
      decreases |log| - i
    {
      i := i + 1;
    }
  }

  lemma ExecutedIsAnswered(env: Env, vault: map<Path, Text>, inbox: map<Path, Text>, hs: seq<Happening>, t: Token) returns (k: nat)
    requires Consistent(env) && Executed(Reached(env, vault, inbox, hs).w.log, t)
    ensures AnswersFor(env, vault, inbox, hs, t, k)
  {
    ReachedInv(env, vault, inbox, hs);
    var w := Reached(env, vault, inbox, hs).w;
    var first := FirstTouch(w.log, t);
    assert EntryOk(env, w, first);
    var decision := Decided(w.log[first].key, DecidedText(w, t, w.log[first].key));
    var j :| 0 <= j < first && w.log[..first][j] == decision;
    k := AnswerBehind(env, vault, inbox, hs, j);
    forall i | 0 <= i < |w.log| && Touches(w.log[i], t) ensures w.log[i].key == w.log[first].key && j < i {
      if i != first { assert PairOk(w.log[first], w.log[i]); }
    }
  }

  ghost function AnswerOf(env: Env, vault: map<Path, Text>, inbox: map<Path, Text>, hs: seq<Happening>, t: Token): (k: nat)
    requires Consistent(env) && Executed(Reached(env, vault, inbox, hs).w.log, t)
    ensures AnswersFor(env, vault, inbox, hs, t, k)
  {
    assert exists k: nat :: AnswersFor(env, vault, inbox, hs, t, k) by {
      var k := ExecutedIsAnswered(env, vault, inbox, hs, t);
    }
    var k: nat :| AnswersFor(env, vault, inbox, hs, t, k);
    k
  }

  lemma ExecutedTokens(log: seq<Event>) returns (executed: set<Token>)
    ensures forall t :: t in executed <==> Executed(log, t)
  {
    executed := set e | e in log && e.Changed? :: e.token;
    forall t | Executed(log, t) ensures t in executed {
      var e :| e in log && Touches(e, t);
    }
    forall t | t in executed ensures Executed(log, t) {
      var e :| e in log && e.Changed? && e.token == t;
      assert Touches(e, t);
    }
  }

  /** An answer is given under one key, and no two plans share a key. */
  lemma OneAnswerOnePlan(env: Env, vault: map<Path, Text>, inbox: map<Path, Text>, hs: seq<Happening>, t: Token, u: Token, k: nat)
    requires LogOk(env, Reached(env, vault, inbox, hs).w)
    requires Executed(Reached(env, vault, inbox, hs).w.log, t) && Executed(Reached(env, vault, inbox, hs).w.log, u)
    requires AnswersFor(env, vault, inbox, hs, t, k) && AnswersFor(env, vault, inbox, hs, u, k)
    ensures t == u
  {
    var log := Reached(env, vault, inbox, hs).w.log;
    var i := FirstTouch(log, t);
    var j := FirstTouch(log, u);
    SameKeySameToken(env, Reached(env, vault, inbox, hs).w, i, j);
  }

  /** Two changes under one key are of one plan. */
  lemma SameKeySameToken(env: Env, w: World, i: nat, j: nat)
    requires LogOk(env, w) && i < |w.log| && j < |w.log| && w.log[i].Changed? && w.log[j].Changed? && w.log[i].key == w.log[j].key
    ensures w.log[i].token == w.log[j].token
  {
    assert i < j ==> PairOk(w.log[i], w.log[j]);
    assert j < i ==> PairOk(w.log[j], w.log[i]);
  }

  /**
   Executed plans inject into human answers: each plan that changed a note, both halves of a move taken as one,
   has a ONCE of its own, given to exactly its text before its first change.
   */
  lemma ChangesInjectIntoAnswers(env: Env, vault: map<Path, Text>, inbox: map<Path, Text>, hs: seq<Happening>)
    returns (answer: map<Token, nat>)
    requires Consistent(env)
    ensures forall t :: t in answer <==> Executed(Reached(env, vault, inbox, hs).w.log, t)
    ensures forall t :: t in answer ==> AnswersFor(env, vault, inbox, hs, t, answer[t])
    ensures forall t, u :: t in answer && u in answer && t != u ==> answer[t] != answer[u]
  {
    ReachedInv(env, vault, inbox, hs);
    var executed := ExecutedTokens(Reached(env, vault, inbox, hs).w.log);
    answer := map t | t in executed :: AnswerOf(env, vault, inbox, hs, t);
    forall t, u | t in answer && u in answer && answer[t] == answer[u] ensures t == u {
      OneAnswerOnePlan(env, vault, inbox, hs, t, u, answer[t]);
    }
  }

  /** A restore's origin is a committed record that still holds the bytes to bring back. */
  ghost predicate OriginStands(w: World, plan: Plan) {
    plan.RestoreEdit? || plan.RestoreMoveSource? ==>
      && plan.origin in w.disk.records
      && var rec := w.disk.records[plan.origin];
      && rec.manifest.Some? && rec.manifest.value.phase == Committed
      && OriginBackup(plan).Some? && OriginBackup(plan).value in rec.artifacts
      && Sha256(rec.artifacts[OriginBackup(plan).value]) == plan.restoreSha
  }

  /**
   The origin of a restore passes the stale check exactly when its record can be inspected and is committed, is of a
   kind that can be restored, and still keeps the bytes both hashes of the plan name.
   */
  lemma OriginStandsExactly(d: Disk, plan: Plan)
    requires plan.RestoreEdit? || plan.RestoreMoveSource?
    ensures OriginProblem(d, plan).None? <==>
      && Inspect(d, plan.origin).Inspected? && Inspect(d, plan.origin).phase == Committed
      && (plan.RestoreEdit? ==> plan.originAction == EditAction || plan.originAction == RestoreEditAction)
      && var name := if plan.RestoreMoveSource? then "source.bin" else if plan.originAction == EditAction then "original.bin" else "before_restore.bin";
      && name in d.records[plan.origin].artifacts
      && Sha256(d.records[plan.origin].artifacts[name]) == plan.restoreSha && plan.restoreSha == plan.backupSha
  {
  }

  predicate PastRevalidation(pc: Pc) { pc.Reinventory? || pc.Admit? || pc.MakeRecord? || Owns(pc) }

  ghost predicate OriginsStand(s: Sys) {
    && (forall pid :: pid in s.procs && PastRevalidation(s.procs[pid].pc) ==> OriginStands(s.w, s.procs[pid].token.plan))
    && (forall e :: e in s.w.log && e.Changed? ==> OriginStands(s.w, e.token.plan))
  }

  lemma OwnRecordStands(env: Env, w: World, p: Proc, c: Choice)
    requires ProcOk(env, w, p) && Owns(p.pc)
    ensures var w' := Step(env, w, p, c).0;
      w.disk.records[p.token].manifest.Some? && w.disk.records[p.token].manifest.value.phase == Committed ==>
        && p.token in w'.disk.records && w'.disk.records[p.token].manifest == w.disk.records[p.token].manifest
        && w'.disk.records[p.token].artifacts == w.disk.records[p.token].artifacts
  {
    if p.pc.CommitReceipt? {
      RecordAdvances(p, Extent(c));
    }
  }

  /** A committed record keeps its manifest and its bytes whatever any call does. */
  lemma StepKeepsOrigins(env: Env, w: World, p: Proc, c: Choice, plan: Plan)
    requires ProcOk(env, w, p) && OriginStands(w, plan)
    ensures OriginStands(Step(env, w, p, c).0, plan)
  {
    StepIsLocal(env, w, p, c);
    if Owns(p.pc) { OwnRecordStands(env, w, p, c); }
  }

  /** Only the check after the human decision lets a call past revalidation. */
  lemma RevalidatedOriginStands(env: Env, w: World, p: Proc, c: Choice)
    requires !PastRevalidation(p.pc)
    ensures PastRevalidation(Step(env, w, p, c).1.pc) ==> OriginStands(w, p.token.plan) && Step(env, w, p, c).0 == w
  {
    if p.pc.Revalidate? {
      if RevalidateStep(env, w, p, c).pc.Reinventory? { RevalidatePasses(env, w, p, c); }
    } else {
      NotPastOtherwise(env, w, p, c);
    }
  }

  lemma RevalidatePasses(env: Env, w: World, p: Proc, c: Choice)
    requires p.pc.Revalidate? && RevalidateStep(env, w, p, c).pc.Reinventory?
    ensures OriginStands(w, p.token.plan)
  {
  }

  lemma AskNotPast(env: Env, w: World, p: Proc, c: Choice)
    requires p.pc.Ask?
    ensures !PastRevalidation(AskStep(env, w, p, c).1.pc)
  {
  }

  lemma AwaitNotPast(env: Env, w: World, p: Proc, c: Choice)
    requires p.pc.Await?
    ensures !PastRevalidation(AwaitStep(env, w, p, c).1.pc)
  {
  }

  lemma InventoryNotPast(env: Env, w: World, p: Proc, c: Choice)
    ensures var q := InventoryStep(env, w, p, c, Lookup); q.Over() || q.pc.Lookup?
  {
  }

  lemma LookupNotPast(w: World, p: Proc, c: Choice)
    ensures var q := LookupStep(w, p, c); q.Over() || q.pc.Ask?
  {
  }

  lemma NotPastOtherwise(env: Env, w: World, p: Proc, c: Choice)
    requires !PastRevalidation(p.pc) && !p.pc.Revalidate?
    ensures !PastRevalidation(Step(env, w, p, c).1.pc)
  {
    if p.pc.Ask? { AskNotPast(env, w, p, c); }
    else if p.pc.Await? { AwaitNotPast(env, w, p, c); }
    else if p.pc.Inventory? { InventoryNotPast(env, w, p, c); }
    else if p.pc.Lookup? { LookupNotPast(w, p, c); }
    else { OverStays(env, w, p, c); }
  }

  /** What one thread's step means for the origins of all. */
  lemma OriginsOfAll(s: Sys, pid: nat, w': World, p': Proc)
    requires OriginsStand(s) && pid in s.procs && p'.token == s.procs[pid].token
    requires forall plan :: OriginStands(s.w, plan) ==> OriginStands(w', plan)
    requires forall e :: e in w'.log && e.Changed? ==> e in s.w.log || (Owns(s.procs[pid].pc) && e.token == p'.token)
    requires PastRevalidation(p'.pc) ==> OriginStands(s.w, p'.token.plan)
    ensures OriginsStand(s.(w := w', procs := s.procs[pid := p']))
  {
  }

  lemma TurnKeepsOrigins(env: Env, s: Sys, pid: nat, c: Choice)
    requires Inv(env, s) && OriginsStand(s) && pid in s.procs
    ensures var (w', p') := Step(env, s.w, s.procs[pid], c); OriginsStand(s.(w := w', procs := s.procs[pid := p']))
  {
    var p := s.procs[pid];
    var (w', p') := Step(env, s.w, p, c);
    StepIsLocal(env, s.w, p, c);
    LogMembers(s.w, p, w', p');
    forall plan | OriginStands(s.w, plan) ensures OriginStands(w', plan) {
      StepKeepsOrigins(env, s.w, p, c, plan);
    }
    if PastRevalidation(p'.pc) && !PastRevalidation(p.pc) {
      RevalidatedOriginStands(env, s.w, p, c);
    }
    OriginsOfAll(s, pid, w', p');
  }

  lemma HappenKeepsOrigins(env: Env, s: Sys, h: Happening)
    requires Inv(env, s) && OriginsStand(s)
    ensures OriginsStand(Happen(env, s, h))
  {
    if h.Turn? && h.pid in s.procs {
      TurnKeepsOrigins(env, s, h.pid, h.choice);
    }
  }

  lemma {:induction false} RunKeepsOrigins(env: Env, s: Sys, hs: seq<Happening>)
    requires Consistent(env) && Inv(env, s) && OriginsStand(s)
    ensures OriginsStand(Run(env, s, hs))
    decreases hs
  {
    if hs != [] {
      RunKeepsOrigins(env, s, hs[..|hs| - 1]);
      RunKeepsInv(env, s, hs[..|hs| - 1]);
      HappenKeepsOrigins(env, Run(env, s, hs[..|hs| - 1]), hs[|hs| - 1]);
    }
  }

  /** In every run, what a restore brings back is what a committed record kept, and that record is still there. */
  lemma RestoresComeFromRecords(env: Env, vault: map<Path, Text>, inbox: map<Path, Text>, hs: seq<Happening>, i: nat)
    requires Consistent(env)
    requires i < |Reached(env, vault, inbox, hs).w.log| && Reached(env, vault, inbox, hs).w.log[i].Changed?
    ensures var w := Reached(env, vault, inbox, hs).w; OriginStands(w, w.log[i].token.plan)
  {
    StartInv(env, vault, inbox);
    RunKeepsOrigins(env, Start(vault, inbox), hs);
    assert Reached(env, vault, inbox, hs).w.log[i] in Reached(env, vault, inbox, hs).w.log;
  }

  // ---------- Settled and unsettled records ----------

  lemma StepKeepsSettled(env: Env, w: World, p: Proc, c: Choice, t: Token)
    requires ProcOk(env, w, p) && t in w.disk.records && Settled(w.disk.records[t])
    ensures var w' := Step(env, w, p, c).0; t in w'.disk.records && w'.disk.records[t] == w.disk.records[t]
  {
    StepIsLocal(env, w, p, c);
    if Owns(p.pc) {
      UnsettledUntilReceipt(p);
    }
  }

  lemma UnsettledUntilReceipt(p: Proc)
    requires Owns(p.pc)
    ensures !Settled(RecordAt(p.token.plan, p.kept, p.Approval(), StageOf(p.pc)))
  {
  }

  lemma HappenKeepsSettled(env: Env, s: Sys, h: Happening, t: Token)
    requires Inv(env, s) && t in s.w.disk.records && Settled(s.w.disk.records[t])
    ensures var d := Happen(env, s, h).w.disk; t in d.records && d.records[t] == s.w.disk.records[t]
  {
    if h.Turn? && h.pid in s.procs {
      StepKeepsSettled(env, s.w, s.procs[h.pid], h.choice, t);
    }
  }

  /** A committed receipt is never touched again. */
  lemma {:induction false} SettledStays(env: Env, s: Sys, hs: seq<Happening>, t: Token)
    requires Consistent(env) && Inv(env, s) && t in s.w.disk.records && Settled(s.w.disk.records[t])
    ensures var d := Run(env, s, hs).w.disk; t in d.records && d.records[t] == s.w.disk.records[t]
    decreases hs
  {
    if hs != [] {
      SettledStays(env, s, hs[..|hs| - 1], t);
      RunKeepsInv(env, s, hs[..|hs| - 1]);
      HappenKeepsSettled(env, Run(env, s, hs[..|hs| - 1]), hs[|hs| - 1], t);
    }
  }

  /**
   Finished business asks for attention only while a note it names cannot be read, whatever the notes contain;
   unfinished business always does.
   */
  lemma AttentionFollowsTheReceipt(env: Env, vault: map<Path, Text>, inbox: map<Path, Text>, hs: seq<Happening>, more: seq<Happening>, t: Token)
    requires Consistent(env)
    requires t in Reached(env, vault, inbox, hs).w.disk.records && t in Reached(env, vault, inbox, hs + more).w.disk.records
    ensures var later := Reached(env, vault, inbox, hs + more).w.disk;
      && (NeedsAttention(env, later, t) <==> !Settled(later.records[t]) || !NotesReadable(later, BodyOf(t.plan)))
      && (Settled(Reached(env, vault, inbox, hs).w.disk.records[t]) ==>
        (NeedsAttention(env, later, t) <==> !NotesReadable(later, BodyOf(t.plan))))
  {
    var s := Reached(env, vault, inbox, hs);
    ReachedInv(env, vault, inbox, hs);
    ReachedInv(env, vault, inbox, hs + more);
    RunConcat(env, Start(vault, inbox), hs, more);
    AttentionExactly(env, Reached(env, vault, inbox, hs + more).w.disk, t);
    if Settled(s.w.disk.records[t]) {
      SettledStays(env, s, more, t);
    }
  }

  /**
   In every run, whatever outside writers did to the notes: a record with a manifest and readable notes is given the
   class that fits the notes as they are now, and no other.
   */
  lemma ClassesFollowTheNotes(env: Env, vault: map<Path, Text>, inbox: map<Path, Text>, hs: seq<Happening>, t: Token)
    requires Consistent(env) && t in Reached(env, vault, inbox, hs).w.disk.records
    ensures var d := Reached(env, vault, inbox, hs).w.disk;
      var seen := Inspect(d, t);
      && (seen.Inspected? <==> d.records[t].manifest.Some? && NotesReadable(d, BodyOf(t.plan)))
      && (seen.Inspected? ==>
        && seen.action == t.plan.Act() && seen.phase == d.records[t].manifest.value.phase
        && (forall kind :: seen.classification == kind <==> ClassFits(d, t.plan, seen.phase, kind))
        && (seen.RecoveryRequired() <==> seen.phase == Prepared && !PreImage(d, t.plan)))
  {
    ReachedInv(env, vault, inbox, hs);
    InspectSaysExactly(env, Reached(env, vault, inbox, hs).w.disk, t);
  }

  /**
   Finished business is called committed at any later time if and only if the notes are as the plan promised, and
   otherwise committed_then_changed; nothing is owed either way.
   */
  lemma SettledThenChanged(env: Env, vault: map<Path, Text>, inbox: map<Path, Text>, hs: seq<Happening>, more: seq<Happening>, t: Token)
    requires Consistent(env) && t in Reached(env, vault, inbox, hs).w.disk.records
    requires Settled(Reached(env, vault, inbox, hs).w.disk.records[t])
    requires NotesReadable(Reached(env, vault, inbox, hs + more).w.disk, BodyOf(t.plan))
    ensures var later := Reached(env, vault, inbox, hs + more).w.disk;
      var seen, view := Inspect(later, t), InspectReceipt(env, later, t);
      && seen.Inspected? && !seen.RecoveryRequired() && view.GoodReceipt? && !view.recoveryRequired
      && seen.classification == (if PostImage(later, t.plan) then CommittedAsIs else CommittedThenChanged)
      && view.classification == seen.classification
  {
    ReachedInv(env, vault, inbox, hs);
    ReachedInv(env, vault, inbox, hs + more);
    RunConcat(env, Start(vault, inbox), hs, more);
    SettledStays(env, Reached(env, vault, inbox, hs), more, t);
    var later := Reached(env, vault, inbox, hs + more).w.disk;
    InspectSaysExactly(env, later, t);
    ReceiptSaysExactly(env, later, t);
    assert ClassFits(later, t.plan, Committed, Inspect(later, t).classification);
  }

  lemma {:induction false} RunConcat(env: Env, s: Sys, hs: seq<Happening>, more: seq<Happening>)
    ensures Run(env, s, hs + more) == Run(env, Run(env, s, hs), more)
    decreases more
  {
    if more == [] {
      assert hs + more == hs;
    } else {
      assert (hs + more)[..|hs + more| - 1] == hs + more[..|more| - 1];
      RunConcat(env, s, hs, more[..|more| - 1]);
    }
  }

  /** Before or at its second inventory. */
  predicate Asking(pc: Pc) { pc.Inventory? || pc.Lookup? || pc.Ask? || pc.Await? || pc.Revalidate? || pc.Reinventory? }

  /** Every thread is over, or has its second inventory still to pass. */
  ghost predicate NonePast(s: Sys) {
    forall pid :: pid in s.procs ==> s.procs[pid].Over() || Asking(s.procs[pid].pc)
  }

  lemma UnsettledBlocks(env: Env, w: World, t: Token)
    requires AllSound(env, w) && t in w.disk.records && !Settled(w.disk.records[t])
    ensures Blocked(env, w.disk).Some?
  {
    AttentionExactly(env, w.disk, t);
    assert t in Attending(env, w.disk);
  }

  lemma AskStaysAsking(env: Env, w: World, p: Proc, c: Choice)
    requires p.pc.Ask?
    ensures var (w', p') := AskStep(env, w, p, c); w'.disk == w.disk && w'.log == w.log && (p'.Over() || p'.pc.Await?)
  {
  }

  lemma AwaitStaysAsking(env: Env, w: World, p: Proc, c: Choice)
    requires p.pc.Await?
    ensures var (w', p') := AwaitStep(env, w, p, c); w'.disk == w.disk && w'.log == w.log && (p'.Over() || p'.pc.Revalidate?)
  {
  }

  /** While anything is unfinished, no call gets past its second inventory, whatever the human said. */
  lemma BlockedStep(env: Env, w: World, p: Proc, c: Choice)
    requires p.Over() || Asking(p.pc)
    requires Blocked(env, w.disk).Some?
    ensures var (w', p') := Step(env, w, p, c); w'.disk == w.disk && w'.log == w.log && (p'.Over() || Asking(p'.pc))
  {
    if p.pc.Ask? { AskStaysAsking(env, w, p, c); }
    else if p.pc.Await? { AwaitStaysAsking(env, w, p, c); }
    else if p.Over() { OverStays(env, w, p, c); }
  }

  lemma BlockedHappening(env: Env, s: Sys, h: Happening)
    requires NonePast(s) && Blocked(env, s.w.disk).Some?
    ensures var s' := Happen(env, s, h);
      && NonePast(s') && s'.w.disk.records == s.w.disk.records
      && (s'.w.log == s.w.log || exists e: Event :: e.Decided? && s'.w.log == s.w.log + [e])
  {
    if h.Turn? && h.pid in s.procs {
      BlockedStep(env, s.w, s.procs[h.pid], h.choice);
    }
    if h.Respond? && Happen(env, s, h).w.log != s.w.log {
      assert Happen(env, s, h).w.log == s.w.log + [Decided(h.key, h.description)];
    }
  }

  /**
   An unfinished record stops everything that has not passed its second inventory, calls already waiting for the
   human included: no later record is made and no later note changed, for ever.
   */
  lemma {:induction false} UnfinishedStopsEverything(env: Env, s: Sys, hs: seq<Happening>, t: Token)
    requires Consistent(env) && Inv(env, s) && NonePast(s)
    requires t in s.w.disk.records && !Settled(s.w.disk.records[t])
    ensures var s' := Run(env, s, hs);
      && NonePast(s') && s'.w.disk.records == s.w.disk.records
      && forall e :: e in s'.w.log && !e.Decided? ==> e in s.w.log
    decreases hs
  {
    if hs != [] {
      var before := Run(env, s, hs[..|hs| - 1]);
      UnfinishedStopsEverything(env, s, hs[..|hs| - 1], t);
      RunKeepsInv(env, s, hs[..|hs| - 1]);
      UnsettledBlocks(env, before.w, t);
      BlockedHappening(env, before, hs[|hs| - 1]);
    }
  }

  // ---------- One call at a time ----------

  /** A call starts only when every earlier one is over. */
  ghost predicate OneAtATime(env: Env, s: Sys, hs: seq<Happening>)
    decreases hs
  {
    hs == [] ||
    var before, h := Run(env, s, hs[..|hs| - 1]), hs[|hs| - 1];
    OneAtATime(env, s, hs[..|hs| - 1]) && (h.Spawn? ==> forall pid :: pid in before.procs ==> before.procs[pid].Over())
  }

  /** The record made last. */
  function Newest(log: seq<Event>): Option<Token>
    decreases log
  {
    if log == [] then None
    else if log[|log| - 1].Opened? then Some(log[|log| - 1].token)
    else Newest(log[..|log| - 1])
  }

  /** Past an inventory, with no record yet. */
  predicate Cleared(pc: Pc) { pc.Lookup? || pc.Ask? || pc.Await? || Unopened(pc) }

  ghost predicate AllSettled(d: Disk) {
    forall t :: t in d.records ==> Settled(d.records[t])
  }

  ghost predicate OnlyNewestOpen(w: World) {
    && |w.disk.records| <= PRODUCTION_RECOVERY_SCAN_LIMIT + 1
    && forall t :: t in w.disk.records && !Settled(w.disk.records[t]) ==> Newest(w.log) == Some(t)
  }

  ghost predicate SerialThread(w: World, p: Proc) {
    && (Cleared(p.pc) ==> AllSettled(w.disk) && |w.disk.records| <= PRODUCTION_RECOVERY_SCAN_LIMIT)
    && (Owns(p.pc) ==> Newest(w.log) == Some(p.token))
  }

  ghost predicate Serial(s: Sys) {
    && OnlyNewestOpen(s.w)
    && (forall pid :: pid in s.procs ==> SerialThread(s.w, s.procs[pid]))
    && (forall a, b :: a in s.procs && b in s.procs && !s.procs[a].Over() && !s.procs[b].Over() ==> a == b)
  }

  lemma UnblockedMeansSettled(env: Env, w: World)
    requires AllSound(env, w) && Blocked(env, w.disk).None?
    ensures AllSettled(w.disk) && |w.disk.records| <= PRODUCTION_RECOVERY_SCAN_LIMIT
  {
    forall t | t in w.disk.records ensures Settled(w.disk.records[t]) {
      if !Settled(w.disk.records[t]) { UnsettledBlocks(env, w, t); }
    }
  }

  /** A thread gets past an inventory only when nothing is unfinished. */
  lemma PastInventory(env: Env, w: World, p: Proc, c: Choice)
    requires p.pc.Inventory?
    ensures var (w', p') := Step(env, w, p, c); w' == w && (p'.Over() || Blocked(env, w.disk).None?)
  {
  }

  lemma ClearedLocal(w: World, p: Proc, w': World, p': Proc)
    requires Local(w, p, w', p') && Cleared(p'.pc) && !p.pc.Inventory? && !p.Over()
    ensures w'.disk == w.disk && Cleared(p.pc)
  {
  }

  lemma ClearedBy(env: Env, w: World, p: Proc, c: Choice)
    requires ProcOk(env, w, p)
    ensures var (w', p') := Step(env, w, p, c);
      Cleared(p'.pc) ==> w'.disk == w.disk && (Cleared(p.pc) || Blocked(env, w.disk).None?)
  {
    var (w', p') := Step(env, w, p, c);
    if p.pc.Inventory? {
      PastInventory(env, w, p, c);
    } else if p.Over() {
      OverStays(env, w, p, c);
    } else {
      StepIsLocal(env, w, p, c);
      if Cleared(p'.pc) { ClearedLocal(w, p, w', p'); }
    }
  }

  lemma NewestAppended(log: seq<Event>, e: Event)
    ensures Newest(log + [e]) == if e.Opened? then Some(e.token) else Newest(log)
  {
    assert (log + [e])[..|log|] == log;
  }

  /** The records after a step, counted, and the newest of them. */
  lemma RecordsAfter(w: World, p: Proc, w': World, p': Proc)
    requires Local(w, p, w', p') && (Owns(p.pc) ==> p.token in w.disk.records)
    ensures if !Owns(p.pc) && Owns(p'.pc) then
        |w'.disk.records| == |w.disk.records| + 1 && Newest(w'.log) == Some(p.token)
      else |w'.disk.records| == |w.disk.records| && Newest(w'.log) == Newest(w.log)
  {
    if w'.log != w.log {
      NewestAppended(w.log, w'.log[|w.log|]);
    }
    var keys := if !Owns(p.pc) && Owns(p'.pc) then w.disk.records.Keys + {p.token} else w.disk.records.Keys;
    assert w'.disk.records.Keys == keys;
    assert |w'.disk.records| == |w'.disk.records.Keys|;
  }

  /** A step can only open a record when all others are settled, or finish its own, the newest. */
  lemma LocalSerial(w: World, p: Proc, w': World, p': Proc)
    requires Local(w, p, w', p') && OnlyNewestOpen(w) && SerialThread(w, p) && (Owns(p.pc) ==> p.token in w.disk.records)
    requires Cleared(p'.pc) ==> w'.disk == w.disk && AllSettled(w.disk) && |w.disk.records| <= PRODUCTION_RECOVERY_SCAN_LIMIT
    ensures OnlyNewestOpen(w') && SerialThread(w', p')
  {
    RecordsAfter(w, p, w', p');
  }

  lemma StepSerial(env: Env, w: World, p: Proc, c: Choice)
    requires ProcOk(env, w, p) && AllSound(env, w) && OnlyNewestOpen(w) && SerialThread(w, p)
    ensures var (w', p') := Step(env, w, p, c); OnlyNewestOpen(w') && SerialThread(w', p')
  {
    var (w', p') := Step(env, w, p, c);
    StepIsLocal(env, w, p, c);
    ClearedBy(env, w, p, c);
    if Blocked(env, w.disk).None? { UnblockedMeansSettled(env, w); }
    LocalSerial(w, p, w', p');
  }

  /** The other threads are over and have no say. */
  lemma OthersAreOver(s: Sys, pid: nat, w': World, p': Proc)
    requires Serial(s) && pid in s.procs && !s.procs[pid].Over() && OnlyNewestOpen(w') && SerialThread(w', p')
    ensures Serial(s.(w := w', procs := s.procs[pid := p']))
  {
  }

  lemma OverStays(env: Env, w: World, p: Proc, c: Choice)
    requires p.Over()
    ensures Step(env, w, p, c) == (w, p)
  {
  }

  lemma TurnKeepsSerial(env: Env, s: Sys, pid: nat, c: Choice)
    requires Serial(s) && AllSound(env, s.w) && pid in s.procs && ProcOk(env, s.w, s.procs[pid])
    ensures var (w', p') := Step(env, s.w, s.procs[pid], c); Serial(s.(w := w', procs := s.procs[pid := p']))
  {
    var p := s.procs[pid];
    var (w', p') := Step(env, s.w, p, c);
    if p.Over() {
      OverStays(env, s.w, p, c);
      assert s.procs[pid := p] == s.procs;
    } else {
      StepSerial(env, s.w, p, c);
      OthersAreOver(s, pid, w', p');
    }
  }

  lemma QuietKeepsSerial(s: Sys, w': World)
    requires Serial(s) && w'.disk.records == s.w.disk.records
    requires w'.log == s.w.log || exists e: Event :: e.Decided? && w'.log == s.w.log + [e]
    ensures Serial(s.(w := w'))
  {
    if w'.log != s.w.log {
      NewestAppended(s.w.log, w'.log[|s.w.log|]);
    }
  }

  lemma RespondLogs(w: World, h: Happening)
    requires h.Respond?
    ensures var w' := Responded(w, h);
      w'.disk == w.disk && (w'.log == w.log || exists e: Event :: e.Decided? && w'.log == w.log + [e])
  {
    if Responded(w, h).log != w.log {
      assert Responded(w, h).log == w.log + [Decided(h.key, h.description)];
    }
  }

  lemma OtherHappeningsKeepSerial(env: Env, s: Sys, h: Happening)
    requires Serial(s) && !h.Turn?
    requires h.Spawn? ==> forall pid :: pid in s.procs ==> s.procs[pid].Over()
    ensures Serial(Happen(env, s, h))
  {
    match h
    case Respond(_, _, _, _, _, _) => RespondLogs(s.w, h); QuietKeepsSerial(s, Responded(s.w, h));
    case Spawn(_) =>
    case Restart =>
    case _ => QuietKeepsSerial(s, Happen(env, s, h).w);
  }

  lemma HappenKeepsSerial(env: Env, s: Sys, h: Happening)
    requires Inv(env, s) && Serial(s)
    requires h.Spawn? ==> forall pid :: pid in s.procs ==> s.procs[pid].Over()
    ensures Serial(Happen(env, s, h))
  {
    if h.Turn? && h.pid in s.procs {
      TurnKeepsSerial(env, s, h.pid, h.choice);
    } else if !h.Turn? {
      OtherHappeningsKeepSerial(env, s, h);
    }
  }

  lemma {:induction false} RunKeepsSerial(env: Env, s: Sys, hs: seq<Happening>)
    requires Consistent(env) && Inv(env, s) && Serial(s) && OneAtATime(env, s, hs)
    ensures Serial(Run(env, s, hs))
    decreases hs
  {
    if hs != [] {
      RunKeepsSerial(env, s, hs[..|hs| - 1]);
      RunKeepsInv(env, s, hs[..|hs| - 1]);
      HappenKeepsSerial(env, Run(env, s, hs[..|hs| - 1]), hs[|hs| - 1]);
    }
  }

  /**
   When calls do not overlap, crashes and outside edits anywhere: at most one record lacks a committed receipt,
   it is the newest, and no more than 129 records are ever made.
   */
  lemma OneUnfinishedAtMost(env: Env, vault: map<Path, Text>, inbox: map<Path, Text>, hs: seq<Happening>)
    requires Consistent(env) && OneAtATime(env, Start(vault, inbox), hs)
    ensures var w := Reached(env, vault, inbox, hs).w;
      && (forall t :: t in w.disk.records && !Settled(w.disk.records[t]) ==> Newest(w.log) == Some(t))
      && |w.disk.records| <= 129
  {
    StartInv(env, vault, inbox);
    RunKeepsSerial(env, Start(vault, inbox), hs);
  }
}
