/**
 The page's run control: which run it may stop or decide for, across streamed events, status replies, session
 changes and user actions that interleave at every await.
 */
module RunControl {
  import opened Wrappers

  predicate IdChar(c: char) {
    'A' <= c <= 'Z' || 'a' <= c <= 'z' || '0' <= c <= '9' || c == '.' || c == '_' || c == ':' || c == '-'
  }

  predicate ExactId(s: string) { 1 <= |s| <= 160 && forall i :: 0 <= i < |s| ==> IdChar(s[i]) }

  // ---------- The locator ----------

  datatype Locator = Locator(session: string, run: string)

  /** Decoded session storage: nothing, something that is no locator object, or an object's three fields. */
  datatype Stored = Absent | Junk | Fields(version: int, session: string, run: string)

  function EncodeLocator(session: string, run: string): Option<Stored> {
    if ExactId(session) && ExactId(run) then Some(Fields(1, session, run)) else None
  }

  /** `parseRunLocator`; an empty expectation accepts any session. */
  function ParseLocator(raw: Stored, expected: string): Option<Locator> {
    if !raw.Fields? || raw.version != 1 || !ExactId(raw.session) || !ExactId(raw.run) then None
    else if expected != "" && raw.session != expected then None
    else Some(Locator(raw.session, raw.run))
  }

  /** What was remembered for a session is found again for that session and for no other. */
  lemma LocatorRoundTrip(session: string, run: string, expected: string)
    requires EncodeLocator(session, run).Some?
    ensures ParseLocator(EncodeLocator(session, run).value, expected)
      == if expected == "" || expected == session then Some(Locator(session, run)) else None
  {
  }

  /** What is found again is a version 1 locator with well-formed ids, of the expected session if one is expected. */
  lemma LocatorParsesExactly(raw: Stored, expected: string, locator: Locator)
    ensures ParseLocator(raw, expected) == Some(locator) <==>
      && raw == Fields(1, locator.session, locator.run) && ExactId(locator.session) && ExactId(locator.run)
      && (expected == "" || expected == locator.session)
  {
  }

  // ---------- The status of a run ----------

  /** A decoded status reply; fields that are not strings are empty. */
  datatype StatusReply = StatusReply(trusted: bool, run: string, session: string, status: string)

  datatype Observed = Active | Terminal | Unavailable

  const ACTIVE_STATUSES: set<string> := {"queued", "running", "in_progress", "waiting_for_approval", "stopping"}
  const TERMINAL_STATUSES: set<string> := {"completed", "failed", "cancelled", "stopped"}

  /** `classifyReconnectRunStatus`, for a status already trimmed and in lower case. */
  function Classify(reply: StatusReply, session: string, run: string): Observed {
    if !reply.trusted || !ExactId(reply.run) || reply.run != run || !ExactId(reply.session) || reply.session != session then
      Unavailable
    else if reply.status in ACTIVE_STATUSES then Active
    else if reply.status in TERMINAL_STATUSES then Terminal
    else Unavailable
  }

  // ---------- The state ----------

  /** An approval on show: which request it is, and the run it names. */
  datatype Approval = Approval(id: nat, run: string)

  /** What was learnt from the server, and what was sent to it. */
  datatype Note = SawStarted(run: string) | SawActive(run: string) | SentStop(run: string) | SentDecision(run: string, choice: string)

  datatype Control = Control(
    session: string, active: string, interlock: string, streaming: bool, approval: Option<Approval>,
    stored: Stored, reconnectRequest: nat, nextApproval: nat, log: seq<Note>)

  datatype StreamEvent =
    | RunStarted(run: string)
    | ApprovalRequest(run: string, requested: bool)
    | RunEnded(run: string)
    | StreamError(run: string)
    | OtherEvent

  /** One thing that happens; a reply carries what its request had captured before it waited. */
  datatype Input =
    | Submit(blank: bool)
    | Streamed(event: StreamEvent)
    | StreamOver
    | StopClicked
    | DecideClicked(choice: string)
    | DecideReplied(captured: Option<Approval>, ok: bool)
    | ReconcileStarted
    | ReconcileReplied(request: nat, locator: Locator, reply: StatusReply)
    | ReconcileFailed(request: nat, locator: Locator, expired: bool)
    | ReconcileSettled(request: nat, locator: Locator)
    | SessionCreated(id: string)
    | SessionSelected(id: string)
    | SessionsListed(requested: string, listed: bool)

  function Read(s: Control): Option<Locator> { ParseLocator(s.stored, s.session) }

  /** `armReconnectInterlockFromLocator`. */
  function Arm(s: Control): Control {
    if s.session == "" || s.active != "" || Read(s).None? then s else s.(interlock := Read(s).value.run)
  }

  function ForgetLocator(s: Control): Control { s.(stored := Absent, interlock := "") }

  /** `clearRunLocator` for one run. */
  function ForgetRun(s: Control, run: string): Control {
    if run == "" then ForgetLocator(s)
    else
      var current := ParseLocator(s.stored, "");
      if current.Some? && current.value.run == run then
        s.(stored := Absent, interlock := if s.interlock == run then "" else s.interlock)
      else s
  }

  function Hide(s: Control): Control { s.(approval := None) }

  /** `handleStreamEvent`. */
  function Handle(s: Control, e: StreamEvent): Control {
    match e
    case RunStarted(run) =>
      if run == "" || (s.active != "" && run != s.active) then s
      else
        var encoded := EncodeLocator(s.session, run);
        s.(active := run, stored := if encoded.Some? then encoded.value else s.stored, log := s.log + [SawStarted(run)])
    case ApprovalRequest(run, requested) =>
      if run == "" || s.active == "" || run != s.active then s
      else if !requested then Hide(s)
      else s.(approval := Some(Approval(s.nextApproval, run)), nextApproval := s.nextApproval + 1)
    case RunEnded(run) =>
      if run == "" || s.active == "" || run != s.active then s
      else Hide(ForgetRun(s.(active := ""), run))
    case StreamError(run) =>
      if run != "" && run == s.active then Hide(s.(active := "")) else s
    case OtherEvent => s
  }

  /** Whether a reply to a reconnect request is still wanted. */
  predicate Current(s: Control, request: nat, locator: Locator) {
    && request == s.reconnectRequest && s.session == locator.session
    && !s.streaming && s.approval.None? && Read(s) == Some(locator)
  }

  predicate Busy(s: Control) { s.streaming || s.active != "" || s.interlock != "" }

  function React(s: Control, i: Input): Control {
    match i
    case Submit(blank) =>
      if Busy(s) || blank || s.session == "" then s
      else Hide(s.(streaming := true, reconnectRequest := s.reconnectRequest + 1, active := ""))
    case Streamed(event) => if s.streaming then Handle(s, event) else s
    case StreamOver =>
      if !s.streaming then s
      else
        var over := s.(streaming := false, active := "");
        Arm(if s.active != "" || s.approval.Some? then Hide(over) else over)
    case StopClicked => if s.active == "" then s else s.(log := s.log + [SentStop(s.active)])
    case DecideClicked(choice) =>
      if s.approval.None? || s.approval.value.run == "" || s.active != s.approval.value.run then Hide(s)
      else s.(log := s.log + [SentDecision(s.approval.value.run, choice)])
    case DecideReplied(captured, ok) =>
      if captured.None? || s.approval != captured || s.active != captured.value.run || !ok then s else Hide(s)
    case ReconcileStarted =>
      var asked := s.(reconnectRequest := s.reconnectRequest + 1);
      if s.session == "" || s.streaming || s.approval.Some? then asked
      else if Read(s).None? then asked.(interlock := "")
      else Arm(asked)
    case ReconcileReplied(request, locator, reply) =>
      if !Current(s, request, locator) then s
      else if Classify(reply, locator.session, locator.run) == Active then
        Hide(s.(interlock := "", active := locator.run, log := s.log + [SawActive(reply.run)]))
      else s.(interlock := "", active := "")
    case ReconcileFailed(request, locator, expired) =>
      if !Current(s, request, locator) then s
      else if expired then s.(active := "", interlock := "")
      else if s.active == "" then s.(interlock := locator.run)
      else s
    case ReconcileSettled(request, locator) => if Current(s, request, locator) then ForgetRun(s, locator.run) else s
    case SessionCreated(id) => if id == "" then s else ForgetLocator(s.(session := id))
    case SessionSelected(id) => if Busy(s) then s else ForgetLocator(s.(session := id))
    case SessionsListed(requested, listed) =>
      if s.session != requested || s.streaming || s.session == "" || listed then s
      else Hide(ForgetLocator(s.(session := "", active := "")))
  }

  /** A page that has just loaded, with whatever the browser kept. */
  function Loaded(session: string, stored: Stored): Control {
    Arm(Control(session, "", "", false, None, stored, 0, 0, []))
  }

  function ReactAll(s: Control, inputs: seq<Input>): Control
    decreases inputs
  {
    if inputs == [] then s else React(ReactAll(s, inputs[..|inputs| - 1]), inputs[|inputs| - 1])
  }

  // ---------- What always holds ----------

  predicate Seen(log: seq<Note>, run: string) { SawStarted(run) in log || SawActive(run) in log }

  /** Whatever was sent names a run the server had named as live before. */
  ghost predicate Grounded(log: seq<Note>) {
    forall i :: 0 <= i < |log| ==>
      && (log[i].SentStop? ==> Seen(log[..i], log[i].run))
      && (log[i].SentDecision? ==> Seen(log[..i], log[i].run))
  }

  ghost predicate Inv(s: Control) {
    && (s.approval.Some? ==> s.streaming && s.active != "" && s.approval.value.run == s.active && s.approval.value.id < s.nextApproval)
    && (s.interlock != "" ==> !s.streaming && s.active == "")
    && (s.active != "" ==> Seen(s.log, s.active))
    && Grounded(s.log)
  }

  lemma GroundedAppend(log: seq<Note>, note: Note)
    requires Grounded(log)
    requires note.SentStop? ==> Seen(log, note.run)
    requires note.SentDecision? ==> Seen(log, note.run)
    ensures Grounded(log + [note])
  {
    var more := log + [note];
    forall i | 0 <= i < |more|
      ensures more[i].SentStop? ==> Seen(more[..i], more[i].run)
      ensures more[i].SentDecision? ==> Seen(more[..i], more[i].run)
    {
      assert more[..i] == log[..i];
    }
  }

  lemma HandleKeeps(s: Control, e: StreamEvent)
    requires Inv(s) && s.streaming
    ensures Inv(Handle(s, e))
  {
    if e.RunStarted? { GroundedAppend(s.log, SawStarted(e.run)); }
  }

  lemma ReactKeeps(s: Control, i: Input)
    requires Inv(s)
    ensures Inv(React(s, i))
  {
    match i
    case Streamed(event) => if s.streaming { HandleKeeps(s, event); }
    case StopClicked => if s.active != "" { GroundedAppend(s.log, SentStop(s.active)); }
    case DecideClicked(choice) => if s.approval.Some? { GroundedAppend(s.log, SentDecision(s.active, choice)); }
    case ReconcileReplied(request, locator, reply) => GroundedAppend(s.log, SawActive(reply.run));
    case _ =>
  }

  /**
   In every interleaving: an approval on show belongs to the active run of a running stream; the reconnect
   interlock excludes both; and every stop or decision names a run that a `run.started` or an active status
   reply had named, never one known from the browser's locator alone.
   */
  lemma {:induction false} RunControlHolds(session: string, stored: Stored, inputs: seq<Input>)
    ensures Inv(ReactAll(Loaded(session, stored), inputs))
    decreases inputs
  {
    if inputs != [] {
      RunControlHolds(session, stored, inputs[..|inputs| - 1]);
      ReactKeeps(ReactAll(Loaded(session, stored), inputs[..|inputs| - 1]), inputs[|inputs| - 1]);
    }
  }

  // ---------- What each part of the state becomes ----------

  /** What takes the approval on show away. */
  predicate Hides(s: Control, i: Input) {
    match i
    case Streamed(ApprovalRequest(run, requested)) => run == s.active && !requested
    case Streamed(RunEnded(run)) => run == s.active
    case Streamed(StreamError(run)) => run == s.active
    case StreamOver => true
    case DecideReplied(captured, ok) => ok && captured == s.approval
    case _ => false
  }

  /** A request for a decision on the active run of a running stream. */
  predicate Asks(s: Control, i: Input) { s.streaming && s.active != "" && i == Streamed(ApprovalRequest(s.active, true)) }

  /**
   An approval request for the active run of a running stream, and nothing else, puts a new approval on show, for
   exactly that run; an approval on show goes exactly when something hides it, and otherwise stays the same one.
   */
  lemma ApprovalExactly(s: Control, i: Input)
    requires Inv(s)
    ensures var now := React(s, i).approval;
      && (now.Some? && now != s.approval <==> Asks(s, i))
      && (Asks(s, i) ==> now.value.run == s.active && (s.approval.Some? ==> now.value.id > s.approval.value.id))
      && (s.approval.Some? ==> (now.None? <==> Hides(s, i)))
  {
  }

  /** The server names this run as live: by starting it on the stream, or in a current reply. */
  predicate NamedLive(s: Control, i: Input, run: string) {
    match i
    case Streamed(RunStarted(started)) => s.streaming && s.active == "" && started == run
    case ReconcileReplied(request, locator, reply) =>
      && Current(s, request, locator) && locator.run == run
      && reply.trusted && reply.run == run && reply.session == s.session && reply.status in ACTIVE_STATUSES
    case _ => false
  }

  /** The active run ends, its stream ends, a current lookup gives it up, or its session is lost. */
  predicate Releases(s: Control, i: Input) {
    match i
    case Streamed(RunEnded(run)) => s.streaming && run == s.active
    case Streamed(StreamError(run)) => s.streaming && run == s.active
    case StreamOver => s.streaming
    case ReconcileReplied(request, locator, reply) => Current(s, request, locator) && !NamedLive(s, i, locator.run)
    case ReconcileFailed(request, locator, expired) => expired && Current(s, request, locator)
    case SessionsListed(requested, listed) => s.session == requested && s.session != "" && !s.streaming && !listed
    case _ => false
  }

  /** A run becomes active exactly when the server names it as live, and stops being so exactly when it is released. */
  lemma ActiveExactly(s: Control, i: Input, run: string)
    requires Inv(s) && run != ""
    ensures run != s.active ==> (React(s, i).active == run <==> NamedLive(s, i, run))
    ensures run == s.active ==>
      (React(s, i).active == run <==> !Releases(s, i) && forall other :: other != run && other != "" ==> !NamedLive(s, i, other))
    ensures run == s.active ==> (React(s, i).active == "" <==> Releases(s, i))
  {
    NamedExactId(s, i);
  }

  lemma NamedExactId(s: Control, i: Input)
    ensures i.ReconcileReplied? && Current(s, i.request, i.locator) ==> ExactId(i.locator.run) && ExactId(i.locator.session)
  {
  }

  /** A stop names the active run when the user asks for one; a decision, the run of the approval on show. */
  lemma SentExactly(s: Control, i: Input, note: Note)
    requires Inv(s) && (note.SentStop? || note.SentDecision?)
    ensures React(s, i).log == s.log + [note] <==>
      || (i == StopClicked && s.active != "" && note == SentStop(s.active))
      || (i.DecideClicked? && s.approval.Some? && note == SentDecision(s.approval.value.run, i.choice))
    ensures s.log <= React(s, i).log && |React(s, i).log| <= |s.log| + 1
  {
    assert (s.log + [note])[|s.log|] == note;
    if i == StopClicked && s.active != "" { assert (s.log + [SentStop(s.active)])[|s.log|] == SentStop(s.active); }
    if i.DecideClicked? && s.approval.Some? {
      assert (s.log + [SentDecision(s.active, i.choice)])[|s.log|] == SentDecision(s.active, i.choice);
    }
    if i.Streamed? && i.event.RunStarted? { assert (s.log + [SawStarted(i.event.run)])[|s.log|] == SawStarted(i.event.run); }
    if i.ReconcileReplied? { assert (s.log + [SawActive(i.reply.run)])[|s.log|] == SawActive(i.reply.run); }
  }

  /** A turn starts exactly on a submission to an idle page, and ends exactly with its stream. */
  lemma StreamingExactly(s: Control, i: Input)
    ensures React(s, i).streaming <==>
      (s.streaming && i != StreamOver) || (i == Submit(false) && s.session != "" && !s.streaming && s.active == "" && s.interlock == "")
  {
  }

  /** The session changes exactly by being created, being selected on an idle page, or being found missing. */
  lemma SessionExactly(s: Control, i: Input, session: string)
    requires session != s.session
    ensures React(s, i).session == session <==>
      || (i == SessionCreated(session) && session != "")
      || (i == SessionSelected(session) && !s.streaming && s.active == "" && s.interlock == "")
      || (i == SessionsListed(s.session, false) && !s.streaming && session == "")
  {
  }

  /** The locator of a run is forgotten: when it ends, when its lookup is settled, or with its session. */
  predicate Forgets(s: Control, i: Input) {
    match i
    case Streamed(RunEnded(run)) =>
      s.streaming && run != "" && run == s.active && ParseLocator(s.stored, "").Some? && ParseLocator(s.stored, "").value.run == run
    case ReconcileSettled(request, locator) => Current(s, request, locator)
    case SessionCreated(id) => id != ""
    case SessionSelected(id) => !s.streaming && s.active == "" && s.interlock == ""
    case SessionsListed(requested, listed) => s.session == requested && s.session != "" && !s.streaming && !listed
    case _ => false
  }

  /** A locator is remembered exactly for the run that starts on the stream, under the page's session. */
  lemma LocatorExactly(s: Control, i: Input)
    requires Inv(s)
    ensures var starts := s.streaming && i.Streamed? && i.event.RunStarted? && (s.active == "" || i.event.run == s.active);
      React(s, i).stored ==
        if starts && ExactId(s.session) && ExactId(i.event.run) then Fields(1, s.session, i.event.run)
        else if Forgets(s, i) then Absent
        else s.stored
  {
  }

  /** The interlock is set for a located run, when a turn is over or a lookup starts or fails, while no run is active. */
  predicate Arms(s: Control, i: Input, run: string) {
    match i
    case StreamOver => s.streaming && s.session != "" && Read(s) == Some(Locator(s.session, run))
    case ReconcileStarted => !s.streaming && s.active == "" && s.session != "" && Read(s) == Some(Locator(s.session, run))
    case ReconcileFailed(request, locator, expired) => !expired && s.active == "" && Current(s, request, locator) && locator.run == run
    case _ => false
  }

  /** And lifted by a current reply, a run given up, a settled lookup, a lost locator or a lost session. */
  predicate Lifts(s: Control, i: Input) {
    match i
    case ReconcileReplied(request, locator, reply) => Current(s, request, locator)
    case ReconcileFailed(request, locator, expired) => expired && Current(s, request, locator)
    case ReconcileSettled(request, locator) => Current(s, request, locator) && locator.run == s.interlock
    case ReconcileStarted => s.session != "" && Read(s).None?
    case SessionCreated(id) => id != ""
    case SessionsListed(requested, listed) => s.session == requested && s.session != "" && !listed
    case _ => false
  }

  lemma InterlockExactly(s: Control, i: Input, run: string)
    requires Inv(s) && run != ""
    ensures run != s.interlock ==> (React(s, i).interlock == run <==> Arms(s, i, run))
    ensures run == s.interlock ==>
      (React(s, i).interlock == run <==> !Lifts(s, i) && forall other :: other != run ==> !Arms(s, i, other))
  {
    assert run == s.interlock && i.ReconcileFailed? && Current(s, i.request, i.locator) && !i.expired && i.locator.run != run ==>
      Arms(s, i, i.locator.run);
    assert run == s.interlock && i == ReconcileStarted && Read(s).Some? && Read(s).value.run != run && s.session != "" ==>
      Arms(s, i, Read(s).value.run);
  }

  // ---------- A request can be decided ----------

  /** Nothing hides the approval on show or replaces it. */
  ghost predicate KeepsApproval(s: Control, inputs: seq<Input>) {
    forall k :: 0 <= k < |inputs| ==> !Hides(ReactAll(s, inputs[..k]), inputs[k]) && !Asks(ReactAll(s, inputs[..k]), inputs[k])
  }

  lemma {:induction false} ApprovalKept(s: Control, inputs: seq<Input>)
    requires Inv(s) && s.approval.Some? && KeepsApproval(s, inputs)
    ensures Inv(ReactAll(s, inputs)) && ReactAll(s, inputs).approval == s.approval
    decreases inputs
  {
    if inputs != [] {
      var earlier, last := inputs[..|inputs| - 1], inputs[|inputs| - 1];
      assert forall k :: 0 <= k < |earlier| ==> earlier[..k] == inputs[..k];
      ApprovalKept(s, earlier);
      ReactKeeps(ReactAll(s, earlier), last);
      ApprovalExactly(ReactAll(s, earlier), last);
    }
  }

  /**
   On every page: once the server asks for a decision on the active run, the approval for that run is on show until
   something hides or replaces it, and a click sends the decision for that run.
   */
  lemma RequestCanBeDecided(session: string, stored: Stored, inputs: seq<Input>, run: string, more: seq<Input>, choice: string)
    requires var s := ReactAll(Loaded(session, stored), inputs); s.streaming && s.active == run && run != ""
    requires KeepsApproval(React(ReactAll(Loaded(session, stored), inputs), Streamed(ApprovalRequest(run, true))), more)
    ensures var shown := React(ReactAll(Loaded(session, stored), inputs), Streamed(ApprovalRequest(run, true)));
      var later := ReactAll(shown, more);
      && shown.approval.Some? && shown.approval.value.run == run && shown.approval != ReactAll(Loaded(session, stored), inputs).approval
      && later.approval == shown.approval && later.active == run
      && React(later, DecideClicked(choice)).log == later.log + [SentDecision(run, choice)]
  {
    var s, asked := ReactAll(Loaded(session, stored), inputs), Streamed(ApprovalRequest(run, true));
    RunControlHolds(session, stored, inputs);
    ApprovalExactly(s, asked);
    ReactKeeps(s, asked);
    ApprovalKept(React(s, asked), more);
    SentExactly(ReactAll(React(s, asked), more), DecideClicked(choice), SentDecision(run, choice));
  }

  /** The end of the active run clears run, locator and approval. */
  lemma TerminalClears(s: Control)
    requires Inv(s) && s.streaming && s.active != ""
    ensures var over := React(s, Streamed(RunEnded(s.active)));
      && over.active == "" && over.approval.None? && over.interlock == ""
      && (ParseLocator(over.stored, "").Some? ==> ParseLocator(over.stored, "").value.run != s.active)
      && over.session == s.session && over.streaming && over.log == s.log
  {
  }

  /** What a stream event makes of the page: requests and ends count for the active run only. */
  predicate Handled(s: Control, e: StreamEvent, now: Control) {
    match e
    case ApprovalRequest(run, requested) =>
      if run == "" || run != s.active then now == s
      else if requested then now == s.(approval := Some(Approval(s.nextApproval, run)), nextApproval := s.nextApproval + 1)
      else now == s.(approval := None)
    case RunEnded(run) =>
      if run == "" || run != s.active then now == s
      else
        && now.active == "" && now.approval.None? && now.interlock == "" && now.session == s.session && now.log == s.log
        && (ParseLocator(now.stored, "").Some? ==> ParseLocator(now.stored, "").value.run != run)
    case StreamError(run) => now == if run == "" || run != s.active then s else s.(active := "", approval := None)
    case RunStarted(run) =>
      if run == "" || (s.active != "" && run != s.active) then now == s
      else now.active == run && now.log == s.log + [SawStarted(run)] && now.approval == s.approval && now.interlock == s.interlock
    case OtherEvent => now == s
  }

  lemma HandledSo(s: Control, e: StreamEvent)
    requires Inv(s) && s.streaming
    ensures Handled(s, e, React(s, Streamed(e)))
  {
  }

  // ---------- Competing turns ----------

  /** A run of this session whose end the page has not learnt. */
  predicate Unresolved(s: Control, run: string) {
    && !s.streaming && s.session != "" && run != ""
    && Read(s) == Some(Locator(s.session, run))
    && (s.interlock == run || s.active == run)
  }

  /**
   What frees the page of an unresolved run: a current reply that is anything but active, a current 404 or 410, a
   settled current lookup, and the loss of the session.
   */
  predicate Frees(s: Control, i: Input) {
    match i
    case ReconcileReplied(request, locator, reply) =>
      Current(s, request, locator) && Classify(reply, locator.session, locator.run) != Active
    case ReconcileFailed(request, locator, expired) => expired && Current(s, request, locator)
    case ReconcileSettled(request, locator) => Current(s, request, locator)
    case SessionCreated(id) => id != ""
    case SessionsListed(requested, listed) => s.session == requested && !listed
    case _ => false
  }

  /** A turn that ends without a terminal event for its run leaves it unresolved. */
  lemma UnfinishedTurnIsUnresolved(s: Control, run: string)
    requires Inv(s) && s.streaming && s.session != "" && Read(s) == Some(Locator(s.session, run))
    ensures Unresolved(React(s, StreamOver), run)
  {
  }

  /** An unresolved run stays so exactly until something frees the page; active replies and lost lookups do not. */
  lemma UnresolvedEndsExactly(s: Control, i: Input, run: string)
    requires Inv(s) && Unresolved(s, run)
    ensures Unresolved(React(s, i), run) <==> !Frees(s, i)
  {
  }

  ghost predicate NeverFreed(s: Control, inputs: seq<Input>) {
    forall k :: 0 <= k < |inputs| ==> !Frees(ReactAll(s, inputs[..k]), inputs[k])
  }

  /** Until the page is freed no other turn starts, whatever arrives in the meantime. */
  lemma {:induction false} NoCompetingTurn(s: Control, run: string, inputs: seq<Input>)
    requires Inv(s) && Unresolved(s, run) && NeverFreed(s, inputs)
    ensures Inv(ReactAll(s, inputs)) && Unresolved(ReactAll(s, inputs), run) && !ReactAll(s, inputs).streaming
    decreases inputs
  {
    if inputs != [] {
      var earlier, last := inputs[..|inputs| - 1], inputs[|inputs| - 1];
      assert forall k :: 0 <= k < |earlier| ==> earlier[..k] == inputs[..k];
      NoCompetingTurn(s, run, earlier);
      ReactKeeps(ReactAll(s, earlier), last);
      UnresolvedEndsExactly(ReactAll(s, earlier), last, run);
    }
  }

  /** A reply that is not even about this run frees the page for the next turn all the same. */
  lemma UntrustedReplyFrees(s: Control, run: string)
    requires Inv(s) && Unresolved(s, run)
    ensures var reply := StatusReply(false, "", "", "");
      var freed := React(s, ReconcileReplied(s.reconnectRequest, Locator(s.session, run), reply));
      !Busy(freed) && React(freed, Submit(false)).streaming
  {
  }

  // ---------- The page ----------

  /** The page's mutable state; each handler does what the reaction says. */
  class Page {
    var session: string
    var active: string
    var interlock: string
    var streaming: bool
    var approval: Option<Approval>
    var stored: Stored
    var reconnectRequest: nat
    var nextApproval: nat
    ghost var log: seq<Note>

    ghost const keptSession: string
    ghost const keptLocator: Stored
    ghost var inputs: seq<Input>

    ghost function View(): Control
      reads this
    {
      Control(session, active, interlock, streaming, approval, stored, reconnectRequest, nextApproval, log)
    }

    /** The page is where its inputs since loading have brought it. */
    ghost predicate Valid()
      reads this
    {
      View() == ReactAll(Loaded(keptSession, keptLocator), inputs) && Inv(View())
    }

    constructor (kept: string, locator: Stored)
      ensures Valid() && View() == Loaded(kept, locator) && inputs == []
    {
      session, active, interlock, streaming, approval := kept, "", "", false, None;
      stored, reconnectRequest, nextApproval, log := locator, 0, 0, [];
      keptSession, keptLocator, inputs := kept, locator, [];
      new;
      RunControlHolds(kept, locator, []);
      ArmReconnectInterlock();
    }

    /** The next input arrives: what the page must come to is known, and keeps the invariant. */
    ghost method Receive(i: Input)
      modifies this`inputs
      requires Valid()
      ensures View() == old(View()) && inputs == old(inputs) + [i]
      ensures React(View(), i) == ReactAll(Loaded(keptSession, keptLocator), inputs) && Inv(React(View(), i))
    {
      ReactKeeps(View(), i);
      inputs := inputs + [i];
      assert inputs[..|inputs| - 1] == old(inputs);
    }

    method ArmReconnectInterlock()
      modifies this`interlock
      ensures View() == Arm(old(View()))
    {
      if session == "" || active != "" {
        return;
      }
      var locator := ParseLocator(stored, session);
      if locator.Some? {
        interlock := locator.value.run;
      }
    }

    method ClearRunLocator(expected: string)
      modifies this`stored, this`interlock
      ensures View() == ForgetRun(old(View()), expected)
    {
      if expected == "" {
        stored, interlock := Absent, "";
        return;
      }
      var current := ParseLocator(stored, "");
      if current.Some? && current.value.run == expected {
        stored := Absent;
        if interlock == expected {
          interlock := "";
        }
      }
    }

    method HandleStreamEvent(e: StreamEvent)
      modifies this
      requires Valid() && streaming
      ensures Valid() && inputs == old(inputs) + [Streamed(e)]
      ensures View() == React(old(View()), Streamed(e))
      ensures active == old(active) || active == "" || (e == RunStarted(active) && old(active) == "" && SawStarted(active) in log)
      ensures approval == old(approval) || approval.None? || (e == ApprovalRequest(active, true) && approval.value.run == active)
      ensures Handled(old(View()), e, View())
    {
      Receive(Streamed(e));
      HandledSo(View(), e);
      match e
      case RunStarted(run) =>
        if run == "" || (active != "" && run != active) {
          return;
        }
        active := run;
        log := log + [SawStarted(run)];
        var encoded := EncodeLocator(session, run);
        if encoded.Some? {
          stored := encoded.value;
        }
      case ApprovalRequest(run, requested) =>
        if run == "" || active == "" || run != active {
          return;
        }
        if !requested {
          approval := None;
          return;
        }
        approval := Some(Approval(nextApproval, run));
        nextApproval := nextApproval + 1;
      case RunEnded(run) =>
        if run == "" || active == "" || run != active {
          return;
        }
        active := "";
        ClearRunLocator(run);
        approval := None;
      case StreamError(run) =>
        if run != "" && run == active {
          active := "";
          approval := None;
        }
      case OtherEvent =>
    }

    /** `sendMessage` up to its first await. */
    method SendMessage(blank: bool) returns (started: bool)
      modifies this
      requires Valid()
      ensures Valid() && inputs == old(inputs) + [Submit(blank)]
      ensures View() == React(old(View()), Submit(blank))
      ensures started <==> !old(Busy(View())) && !blank && old(session) != ""
      ensures started ==> streaming && active == "" && interlock == "" && approval.None?
      ensures !started ==> View() == old(View())
    {
      Receive(Submit(blank));
      if streaming || active != "" || interlock != "" || blank || session == "" {
        return false;
      }
      streaming := true;
      reconnectRequest := reconnectRequest + 1;
      active := "";
      approval := None;
      started := true;
    }

    /** The `finally` of `sendMessage`, up to its await. */
    method FinishTurn()
      modifies this
      requires Valid() && streaming
      ensures Valid() && inputs == old(inputs) + [StreamOver]
      ensures View() == React(old(View()), StreamOver)
      ensures !streaming && active == "" && approval.None?
      ensures interlock != "" ==> Read(View()) == Some(Locator(session, interlock))
    {
      Receive(StreamOver);
      var unterminated := active;
      streaming := false;
      active := "";
      if unterminated != "" || approval.Some? {
        approval := None;
      }
      ArmReconnectInterlock();
    }

    /** `stopRun`: the run the stop request names, if one is sent. */
    method StopRun() returns (run: string)
      modifies this
      requires Valid()
      ensures Valid() && inputs == old(inputs) + [StopClicked]
      ensures View() == React(old(View()), StopClicked)
      ensures run == old(active)
      ensures run != "" ==> Seen(old(log), run) && log == old(log) + [SentStop(run)]
    {
      Receive(StopClicked);
      run := active;
      if active != "" {
        log := log + [SentStop(active)];
      }
    }

    /** `decideApproval` up to its await: the request it captured, if a decision is sent. */
    method DecideApproval(choice: string) returns (captured: Option<Approval>)
      modifies this
      requires Valid()
      ensures Valid() && inputs == old(inputs) + [DecideClicked(choice)]
      ensures View() == React(old(View()), DecideClicked(choice))
      ensures captured == old(approval) && (captured.None? ==> View() == old(View()))
      ensures captured.Some? ==> captured.value.run == old(active)
      ensures captured.Some? ==> streaming && Seen(old(log), captured.value.run) && log == old(log) + [SentDecision(captured.value.run, choice)]
    {
      Receive(DecideClicked(choice));
      if approval.None? || approval.value.run == "" || active != approval.value.run {
        approval := None;
        return None;
      }
      captured := approval;
      log := log + [SentDecision(captured.value.run, choice)];
    }

    method DecisionReplied(captured: Option<Approval>, ok: bool)
      modifies this
      requires Valid()
      ensures Valid() && inputs == old(inputs) + [DecideReplied(captured, ok)]
      ensures View() == React(old(View()), DecideReplied(captured, ok))
      ensures approval != old(approval) ==> ok && old(approval) == captured && approval.None?
      ensures active == old(active) && log == old(log)
    {
      Receive(DecideReplied(captured, ok));
      if captured.None? || approval != captured || active != captured.value.run {
        return;
      }
      if ok {
        approval := None;
      }
    }

    /** `reconcileReconnectState` up to its first await: the request and the locator it captured. */
    method StartReconcile() returns (request: nat, locator: Option<Locator>)
      modifies this
      requires Valid()
      ensures Valid() && inputs == old(inputs) + [ReconcileStarted]
      ensures View() == React(old(View()), ReconcileStarted)
      ensures request == reconnectRequest
      ensures locator.Some? ==> Current(View(), request, locator.value)
      ensures active == old(active) && log == old(log)
      ensures locator.None? && old(Read(View())).Some? && old(session) != "" ==> streaming
    {
      Receive(ReconcileStarted);
      reconnectRequest := reconnectRequest + 1;
      request := reconnectRequest;
      if session == "" || streaming || approval.Some? {
        return request, None;
      }
      locator := ParseLocator(stored, session);
      if locator.None? {
        interlock := "";
        return;
      }
      if active == "" {
        ArmReconnectInterlock();
      }
    }

    method IsCurrent(request: nat, locator: Locator) returns (current: bool)
      ensures current <==> Current(View(), request, locator)
    {
      var now := ParseLocator(stored, session);
      current := request == reconnectRequest && session == locator.session && !streaming && approval.None?
        && now.Some? && now.value.session == locator.session && now.value.run == locator.run;
    }

    method ReconcileReply(request: nat, locator: Locator, reply: StatusReply)
      modifies this
      requires Valid()
      ensures Valid() && inputs == old(inputs) + [ReconcileReplied(request, locator, reply)]
      ensures View() == React(old(View()), ReconcileReplied(request, locator, reply))
      ensures active != old(active) && active != "" ==> old(Current(View(), request, locator)) && reply.trusted && reply.run == active && reply.status in ACTIVE_STATUSES
      ensures old(Current(View(), request, locator)) && Classify(reply, locator.session, locator.run) != Active ==> !Busy(View())
    {
      Receive(ReconcileReplied(request, locator, reply));
      var current := IsCurrent(request, locator);
      if !current {
        return;
      }
      var observed := Classify(reply, locator.session, locator.run);
      if observed == Active {
        interlock := "";
        active := locator.run;
        log := log + [SawActive(reply.run)];
        approval := None;
        return;
      }
      interlock := "";
      active := "";
    }

    method ReconcileFailure(request: nat, locator: Locator, expired: bool)
      modifies this
      requires Valid()
      ensures Valid() && inputs == old(inputs) + [ReconcileFailed(request, locator, expired)]
      ensures View() == React(old(View()), ReconcileFailed(request, locator, expired))
      ensures active == old(active) || (active == "" && expired)
      ensures old(Current(View(), request, locator)) && !expired ==> Busy(View())
    {
      Receive(ReconcileFailed(request, locator, expired));
      var current := IsCurrent(request, locator);
      if !current {
        return;
      }
      if expired {
        active := "";
        interlock := "";
      } else if active == "" {
        interlock := locator.run;
      }
    }

    /** The tail of `reconcileReconnectState`, after the evidence was read again. */
    method SettleReconcile(request: nat, locator: Locator)
      modifies this
      requires Valid()
      ensures Valid() && inputs == old(inputs) + [ReconcileSettled(request, locator)]
      ensures View() == React(old(View()), ReconcileSettled(request, locator))
      ensures active == old(active) && streaming == old(streaming)
      ensures stored != old(stored) ==> old(Read(View())) == Some(locator) && stored == Absent
    {
      Receive(ReconcileSettled(request, locator));
      var current := IsCurrent(request, locator);
      if current {
        ClearRunLocator(locator.run);
      }
    }

    /** `createSession` after its await; nothing is looked at again. */
    method AdoptSession(id: string)
      modifies this
      requires Valid()
      ensures Valid() && inputs == old(inputs) + [SessionCreated(id)]
      ensures View() == React(old(View()), SessionCreated(id))
      ensures active == old(active) && streaming == old(streaming)
      ensures id != "" ==> session == id && stored == Absent && interlock == ""
    {
      Receive(SessionCreated(id));
      if id == "" {
        return;
      }
      session := id;
      ClearRunLocator("");
    }

    method SelectSession(id: string)
      modifies this
      requires Valid()
      ensures Valid() && inputs == old(inputs) + [SessionSelected(id)]
      ensures View() == React(old(View()), SessionSelected(id))
      ensures old(Busy(View())) ==> View() == old(View())
    {
      Receive(SessionSelected(id));
      if streaming || active != "" || interlock != "" {
        return;
      }
      session := id;
      ClearRunLocator("");
    }

    /** `refreshSessions` after its await. */
    method SessionsArrived(requested: string, listed: bool)
      modifies this
      requires Valid()
      ensures Valid() && inputs == old(inputs) + [SessionsListed(requested, listed)]
      ensures View() == React(old(View()), SessionsListed(requested, listed))
      ensures session != old(session) ==> session == "" && requested == old(session) && !listed && !streaming && active == ""
    {
      Receive(SessionsListed(requested, listed));
      if session != requested || streaming {
        return;
      }
      if session != "" && !listed {
        session := "";
        active := "";
        ClearRunLocator("");
        approval := None;
      }
    }
  }
}
