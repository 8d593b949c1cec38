/**
 Bringing back what an executed plan overwrote or moved away, from the bytes its record kept.
 */
module Restore {
  import opened Wrappers
  import opened VaultModel
  import opened Recovery
  import opened Executor
  import opened Solo

  /**
   What the preview asks of its surroundings: canonical paths and diffs; the rules for note names; whether bytes are
   UTF-8; whether an inbox folder is there to take a draft; whether a note's file identity can be had.
   */
  datatype Tools = Tools(
    canonical: Path -> string, diff: (Text, Text, Path) -> Text, isMarkdown: Path -> bool, isText: Text -> bool,
    parentReady: Path -> bool, identified: Path -> bool)

  datatype RestoreError =
    | InspectionFailed | RestoreRequiresCommittedRecord | NotMarkdown | TargetMissing | TargetNotText | BackupMissing
    | BackupNotText | IdentityUnavailable | SourceExists | SourceParentMissing | BackupNotOrionDraft
    | UnsupportedRecoveryAction

  /** `_preview_restore_candidate_at_roots`. */
  function PreviewRestore(env: Env, tools: Tools, d: Disk, id: Token, nonce: string): (r: Result<Cached, RestoreError>)
    ensures r.Ok? ==> SummaryOk(r.value) || r.value.plan.targetCanonical == ""
  {
    var seen := Inspect(d, id);
    if seen.Unreadable? then Err(InspectionFailed)
    else if seen.phase != Committed then Err(RestoreRequiresCommittedRecord)
    else
      var artifacts, body := d.records[id].artifacts, d.records[id].manifest.value.body;
      if seen.action == EditAction || seen.action == RestoreEditAction then
        var name := if seen.action == EditAction then "original.bin" else "before_restore.bin";
        if body.target !in d.vault then Err(TargetMissing)
        else if !tools.isMarkdown(body.target) then Err(NotMarkdown)
        else if !tools.isText(d.vault[body.target]) then Err(TargetNotText)
        else if name !in artifacts then Err(BackupMissing)
        else if !tools.isText(artifacts[name]) then Err(BackupNotText)
        else if !tools.identified(body.target) then Err(IdentityUnavailable)
        else
          var current, backup := d.vault[body.target], artifacts[name];
          var diff := tools.diff(current, backup, body.target);
          Ok(Cached(
            RestoreEdit(nonce, id, seen.action, body.target, tools.canonical(body.target), Sha256(current),
                        Sha256(backup), Sha256(backup), Sha256(diff)),
            diff, backup))
      else if seen.action == MoveAction then
        if !tools.isMarkdown(body.source) then Err(NotMarkdown)
        else if body.source in d.inbox then Err(SourceExists)
        else if !tools.parentReady(body.source) then Err(SourceParentMissing)
        else if "source.bin" !in artifacts then Err(BackupMissing)
        else if !tools.isText(artifacts["source.bin"]) then Err(BackupNotText)
        else if !env.isDraft(artifacts["source.bin"]) then Err(BackupNotOrionDraft)
        else
          var backup := artifacts["source.bin"];
          var diff := tools.diff("", backup, body.source);
          Ok(Cached(
            RestoreMoveSource(nonce, id, body.source, tools.canonical(body.source), Sha256(backup), Sha256(backup),
                              tools.canonical(body.target), Sha256(diff)),
            diff, backup))
      else Err(UnsupportedRecoveryAction)
  }

  predicate Unseen(w: World, token: Token) { token !in w.disk.records && token !in w.mem.consumed }

  /** What a record of an edit or of a restored edit kept. */
  function KeptOf(d: Disk, id: Token): Option<Text> {
    if id !in d.records || d.records[id].manifest.None? then None
    else
      var name, artifacts := BackupName(ActionOf(d.records[id].manifest.value.body)), d.records[id].artifacts;
      if name in artifacts then Some(artifacts[name]) else None
  }

  /** A committed record of an edit, or of an earlier restore, of this note. */
  predicate RestorableEdit(d: Disk, id: Token, target: Path) {
    var seen := Inspect(d, id);
    && seen.Inspected? && seen.phase == Committed && (seen.action == EditAction || seen.action == RestoreEditAction)
    && d.records[id].manifest.value.body.target == target && target in d.vault
  }

  /** A restore preview names what is there now, and passes the check made after the human decision. */
  lemma PreviewIsNotStale(env: Env, tools: Tools, w: World, id: Token, nonce: string, p: Proc)
    requires PreviewRestore(env, tools, w.disk, id, nonce).Ok?
    requires var c := PreviewRestore(env, tools, w.disk, id, nonce).value;
      SummaryOk(c) && p.token == c.Token() && p.token in w.mem.previews && w.mem.previews[p.token] == c
    ensures StaleCheck(env, w, p).None?
  {
    var c := PreviewRestore(env, tools, w.disk, id, nonce).value;
    PreviewSuitsNotes(env, tools, w.disk, id, nonce);
  }

  lemma PreviewSuitsNotes(env: Env, tools: Tools, d: Disk, id: Token, nonce: string)
    requires PreviewRestore(env, tools, d, id, nonce).Ok?
    ensures var c := PreviewRestore(env, tools, d, id, nonce).value;
      && (c.plan.RestoreEdit? || c.plan.RestoreMoveSource?) && c.plan.origin == id
      && OriginProblem(d, c.plan).None? && NoteProblem(env, d, c.plan).None?
  {
  }

  /** An approved restore that nothing interferes with succeeds and does what its plan says. */
  lemma RestoreRuns(env: Env, tools: Tools, w: World, id: Token, nonce: string, approval: Evidence) returns (kept: Text)
    requires PreviewRestore(env, tools, w.disk, id, nonce).Ok?
    requires var c := PreviewRestore(env, tools, w.disk, id, nonce).value; SummaryOk(c) && Unseen(w, c.Token())
    ensures var c := PreviewRestore(env, tools, w.disk, id, nonce).value;
      var (w', p') := Alone(env, w, CallFor(c, approval), Steady(14));
      && p'.pc.Finished? && p'.pc.outcome.success
      && SoloState(env, w.disk, w', p', Post, Some(ReceiptDone))
      && p'.token == c.Token() && p'.proposed == c.proposed && p'.kept == kept && KeptBytes(w.disk, p') == Some(kept)
  {
    var c := PreviewRestore(env, tools, w.disk, id, nonce).value;
    var p := CallFor(c, approval);
    PreviewSuitsNotes(env, tools, w.disk, id, nonce);
    assert KeptBytes(w.disk, p).Some?;
    assert Fresh(w, p) && Clear(env, w.disk, w, p);
    var notes, stage := SteadyRun(env, w, p, 14);
    kept := Alone(env, w, p, Steady(14)).1.kept;
    AtTheEnd(env, w.disk, Alone(env, w, p, Steady(14)).0, Alone(env, w, p, Steady(14)).1, notes, stage);
  }

  lemma AtTheEnd(env: Env, d: Disk, w: World, p: Proc, notes: Notes, stage: Option<Stage>)
    requires SoloState(env, d, w, p, notes, stage) && (p.Over() ==> p.pc.Finished? && p.pc.outcome.success)
    requires p.Over() || Rank(p.pc) == 0
    ensures p.pc.Finished? && p.pc.outcome.success && notes == Post && stage == Some(ReceiptDone)
    ensures KeptBytes(d, p) == Some(p.kept)
  {
  }

  /**
   Restoring a committed edit or restore puts back exactly the bytes that record kept, changes no other note and
   no other record, and leaves a committed record that kept what was there before.
   */
  lemma RestoreBringsBack(env: Env, tools: Tools, w: World, id: Token, target: Path, nonce: string, c: Cached, approval: Evidence)
    requires RestorableEdit(w.disk, id, target) && tools.canonical(target) != ""
    requires PreviewRestore(env, tools, w.disk, id, nonce) == Ok(c) && Unseen(w, c.Token())
    ensures KeptOf(w.disk, id).Some?
    ensures var (w', p') := Alone(env, w, CallFor(c, approval), Steady(14));
      && p'.pc.Finished? && p'.pc.outcome.success
      && w'.disk.vault == w.disk.vault[target := KeptOf(w.disk, id).value] && w'.disk.inbox == w.disk.inbox
      && w'.disk.records.Keys == w.disk.records.Keys + {c.Token()}
      && (forall t :: t in w.disk.records ==> w'.disk.records[t] == w.disk.records[t])
      && RestorableEdit(w'.disk, c.Token(), target) && KeptOf(w'.disk, c.Token()) == Some(w.disk.vault[target])
      && Settled(w'.disk.records[c.Token()])
  {
    PreviewNamesKept(env, tools, w.disk, id, target, nonce, c);
    var kept := RestoreRuns(env, tools, w, id, nonce, approval);
    var (w', p') := Alone(env, w, CallFor(c, approval), Steady(14));
    RestoredState(env, w.disk, w', p', target);
  }

  lemma PreviewNamesKept(env: Env, tools: Tools, d: Disk, id: Token, target: Path, nonce: string, c: Cached)
    requires RestorableEdit(d, id, target) && tools.canonical(target) != "" && PreviewRestore(env, tools, d, id, nonce) == Ok(c)
    ensures KeptOf(d, id).Some?
    ensures SummaryOk(c) && c.plan.RestoreEdit? && c.plan.target == target && c.proposed == KeptOf(d, id).value
  {
  }

  lemma RestoredState(env: Env, d: Disk, w: World, p: Proc, target: Path)
    requires SoloState(env, d, w, p, Post, Some(ReceiptDone)) && KeptBytes(d, p) == Some(p.kept)
    requires p.token.plan.RestoreEdit? && p.token.plan.target == target && target in d.vault
    ensures w.disk.vault == d.vault[target := p.proposed] && w.disk.inbox == d.inbox
    ensures w.disk.records.Keys == d.records.Keys + {p.token}
    ensures forall t :: t in d.records ==> w.disk.records[t] == d.records[t]
    ensures RestorableEdit(w.disk, p.token, target) && KeptOf(w.disk, p.token) == Some(d.vault[target])
    ensures Settled(w.disk.records[p.token])
  {
    InspectAlone(env, d, w, p, Post, Some(ReceiptDone));
  }

  // ---------- Restoring restores ----------

  /** One restore of the last record, if its preview is new to this process and this recovery root. */
  function RestoreOnce(env: Env, tools: Tools, w: World, id: Token, nonce: string, approval: Evidence): Option<(World, Token)> {
    match PreviewRestore(env, tools, w.disk, id, nonce)
    case Err(_) => None
    case Ok(c) =>
      if !Unseen(w, c.Token()) then None
      else Some((Alone(env, w, CallFor(c, approval), Steady(14)).0, c.Token()))
  }

  /** One link of the chain: what was kept and what was there change places. */
  ghost predicate Swapped(w: World, id: Token, w': World, id': Token, target: Path) {
    && KeptOf(w.disk, id).Some? && target in w.disk.vault
    && w'.disk.vault == w.disk.vault[target := KeptOf(w.disk, id).value] && w'.disk.inbox == w.disk.inbox
    && KeptOf(w'.disk, id') == Some(w.disk.vault[target])
    && (forall t :: t in w.disk.records ==> t in w'.disk.records && w'.disk.records[t] == w.disk.records[t])
  }

  lemma RestoreOnceSwaps(env: Env, tools: Tools, w: World, id: Token, target: Path, nonce: string, approval: Evidence)
    requires RestorableEdit(w.disk, id, target) && tools.canonical(target) != ""
    ensures match RestoreOnce(env, tools, w, id, nonce, approval)
      case None => true
      case Some(next) => Swapped(w, id, next.0, next.1, target) && RestorableEdit(next.0.disk, next.1, target)
  {
    if RestoreOnce(env, tools, w, id, nonce, approval).Some? {
      var c := PreviewRestore(env, tools, w.disk, id, nonce).value;
      RestoreBringsBack(env, tools, w, id, target, nonce, c, approval);
    }
  }

  /** After an odd number of links the two contents have changed places, after an even number they are back. */
  ghost predicate Alternated(w: World, id: Token, w': World, id': Token, target: Path, odd: bool) {
    && KeptOf(w.disk, id).Some? && target in w.disk.vault
    && var now, kept := w.disk.vault[target], KeptOf(w.disk, id).value;
    && w'.disk.vault == w.disk.vault[target := if odd then kept else now] && w'.disk.inbox == w.disk.inbox
    && KeptOf(w'.disk, id') == Some(if odd then now else kept)
    && (forall t :: t in w.disk.records ==> t in w'.disk.records && w'.disk.records[t] == w.disk.records[t])
  }

  lemma SwapNext(w: World, id: Token, before: World, last: Token, w': World, id': Token, target: Path, odd: bool)
    requires Alternated(w, id, before, last, target, odd) && Swapped(before, last, w', id', target)
    ensures Alternated(w, id, w', id', target, !odd)
  {
  }

  /** Every state of a chain comes from the one before by restoring the record that one left. */
  ghost predicate Chained(env: Env, tools: Tools, chain: seq<(World, Token)>, rounds: seq<(string, Evidence)>) {
    && |chain| == |rounds| + 1
    && forall k :: 0 <= k < |rounds| ==>
      RestoreOnce(env, tools, chain[k].0, chain[k].1, rounds[k].0, rounds[k].1) == Some(chain[k + 1])
  }

  lemma {:induction false} LinksSwap(env: Env, tools: Tools, target: Path, chain: seq<(World, Token)>, rounds: seq<(string, Evidence)>, k: nat)
    requires Chained(env, tools, chain, rounds) && k < |rounds| && tools.canonical(target) != ""
    requires RestorableEdit(chain[0].0.disk, chain[0].1, target)
    ensures Swapped(chain[k].0, chain[k].1, chain[k + 1].0, chain[k + 1].1, target)
    ensures RestorableEdit(chain[k + 1].0.disk, chain[k + 1].1, target)
  {
    if k > 0 {
      LinksSwap(env, tools, target, chain, rounds, k - 1);
    }
    RestoreOnceSwaps(env, tools, chain[k].0, chain[k].1, target, rounds[k].0, rounds[k].1);
  }

  lemma NoRestore(w: World, id: Token, target: Path)
    requires RestorableEdit(w.disk, id, target)
    ensures Alternated(w, id, w, id, target, false)
  {
  }

  predicate Odd(n: nat) { n % 2 == 1 }

  lemma OddFlips(n: nat)
    requires n > 0
    ensures Odd(n) == !Odd(n - 1)
  {
  }

  /** Whatever swaps at every link alternates over the whole chain. */
  lemma {:induction false} SwapsAlternate(target: Path, chain: seq<(World, Token)>, n: nat)
    requires n < |chain| && Alternated(chain[0].0, chain[0].1, chain[0].0, chain[0].1, target, false)
    requires forall k :: 0 <= k < n ==> Swapped(chain[k].0, chain[k].1, chain[k + 1].0, chain[k + 1].1, target)
    ensures Alternated(chain[0].0, chain[0].1, chain[n].0, chain[n].1, target, Odd(n))
  {
    if n > 0 {
      SwapsAlternate(target, chain, n - 1);
      SwapNext(chain[0].0, chain[0].1, chain[n - 1].0, chain[n - 1].1, chain[n].0, chain[n].1, target, Odd(n - 1));
      OddFlips(n);
    }
  }

  /** A chain of n restores swaps the note between its two contents, whatever the diffs and approvals are. */
  lemma RestoresAlternate(env: Env, tools: Tools, target: Path, chain: seq<(World, Token)>, rounds: seq<(string, Evidence)>, n: nat)
    requires Chained(env, tools, chain, rounds) && n <= |rounds| && tools.canonical(target) != ""
    requires RestorableEdit(chain[0].0.disk, chain[0].1, target)
    ensures Alternated(chain[0].0, chain[0].1, chain[n].0, chain[n].1, target, Odd(n))
  {
    NoRestore(chain[0].0, chain[0].1, target);
    forall k | 0 <= k < n ensures Swapped(chain[k].0, chain[k].1, chain[k + 1].0, chain[k + 1].1, target) {
      LinksSwap(env, tools, target, chain, rounds, k);
    }
    SwapsAlternate(target, chain, n);
  }

  // ---------- Restoring a move, and what cannot be restored ----------

  /** Restoring a move recreates the draft exactly and leaves the vault as it is. */
  lemma RestoreMoveRecreates(env: Env, tools: Tools, w: World, id: Token, nonce: string, c: Cached, approval: Evidence)
    requires PreviewRestore(env, tools, w.disk, id, nonce) == Ok(c)
    requires c.plan.RestoreMoveSource? && SummaryOk(c) && Unseen(w, c.Token())
    ensures var (w', p') := Alone(env, w, CallFor(c, approval), Steady(14));
      && p'.pc.Finished? && p'.pc.outcome.success
      && c.plan.source !in w.disk.inbox && KeptOf(w.disk, id) == Some(c.proposed)
      && w'.disk.inbox == w.disk.inbox[c.plan.source := c.proposed] && w'.disk.vault == w.disk.vault
      && (forall t :: t in w.disk.records ==> t in w'.disk.records && w'.disk.records[t] == w.disk.records[t])
  {
    MovePreviewNamesKept(env, tools, w.disk, id, nonce, c);
    var kept := RestoreRuns(env, tools, w, id, nonce, approval);
    var (w', p') := Alone(env, w, CallFor(c, approval), Steady(14));
    RecreatedState(env, w.disk, w', p');
  }

  lemma MovePreviewNamesKept(env: Env, tools: Tools, d: Disk, id: Token, nonce: string, c: Cached)
    requires PreviewRestore(env, tools, d, id, nonce) == Ok(c) && c.plan.RestoreMoveSource?
    ensures c.plan.source !in d.inbox && KeptOf(d, id) == Some(c.proposed)
  {
  }

  lemma RecreatedState(env: Env, d: Disk, w: World, p: Proc)
    requires SoloState(env, d, w, p, Post, Some(ReceiptDone)) && KeptBytes(d, p) == Some(p.kept) && p.token.plan.RestoreMoveSource?
    ensures w.disk.inbox == d.inbox[p.token.plan.source := p.proposed] && w.disk.vault == d.vault
    ensures forall t :: t in d.records ==> w.disk.records[t] == d.records[t]
  {
  }

  /** Which records a restore can be previewed for, and when. */
  lemma RestorableExactly(env: Env, tools: Tools, d: Disk, id: Token, nonce: string)
    requires id in d.records && Sound(env, id, d.records[id]) && d.records[id].manifest.Some?
    ensures var m, artifacts := d.records[id].manifest.value, d.records[id].artifacts;
      PreviewRestore(env, tools, d, id, nonce).Ok? <==>
        && m.phase == Committed && NotesReadable(d, m.body)
        && if m.body.EditBody? || m.body.RestoreEditBody? then
             && m.body.target in d.vault && tools.isMarkdown(m.body.target) && tools.identified(m.body.target)
             && tools.isText(d.vault[m.body.target]) && tools.isText(artifacts[BackupName(id.plan.Act())])
           else
             && m.body.MoveBody? && tools.isMarkdown(m.body.source)
             && m.body.source !in d.inbox && tools.parentReady(m.body.source)
             && tools.isText(artifacts["source.bin"]) && env.isDraft(artifacts["source.bin"])
  {
    ActOfBody(id.plan);
  }

  // ---------- What is shown ----------

  /** A diff says how to come from the first text to the second. */
  ghost predicate Patches(tools: Tools, patch: (Text, Text) -> Text) {
    forall a: Text, b: Text, path: Path :: patch(a, tools.diff(a, b, path)) == b
  }

  function TextOf(content: Option<Text>): Text { if content.Some? then content.value else "" }

  /** The diff a human is shown turns what is there now into what the restore puts in place. */
  lemma DiffShowsTheRestore(env: Env, tools: Tools, patch: (Text, Text) -> Text, d: Disk, id: Token, nonce: string)
    requires PreviewRestore(env, tools, d, id, nonce).Ok? && Patches(tools, patch)
    ensures var c := PreviewRestore(env, tools, d, id, nonce).value;
      && patch(TextOf(At(d, MainPlace(c.plan))), c.diff) == c.proposed
      && Promised(c.plan) == Some(Sha256(c.proposed)) && c.plan.diffSha == Sha256(c.diff)
  {
  }

  /** The text names the paths that are meant: of the note or draft to be written, and of the note a draft was moved to. */
  lemma PreviewNamesPaths(env: Env, tools: Tools, d: Disk, id: Token, nonce: string)
    requires PreviewRestore(env, tools, d, id, nonce).Ok? && Sound(env, id, d.records[id])
    ensures var plan := PreviewRestore(env, tools, d, id, nonce).value.plan;
      && plan.nonce == nonce && plan.origin == id
      && (plan.RestoreEdit? ==>
        plan.originAction == id.plan.Act() && plan.targetCanonical == tools.canonical(plan.target) && !id.plan.RestoreMoveSource? && plan.target == id.plan.target)
      && (plan.RestoreMoveSource? ==>
        && id.plan.MoveDraft? && plan.source == id.plan.source
        && plan.targetCanonical == tools.canonical(id.plan.source) && plan.referenceCanonical == tools.canonical(id.plan.target))
  {
    ActOfBody(id.plan);
  }
}
