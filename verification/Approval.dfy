/**
 The text a human approves, and the check that binds the text kept in a receipt back to its plan.
 */
module Approval {
  import opened VaultModel

  /** How digests and tokens are rendered, and the UTF-8 length of a text. */
  datatype Format = Format(hex: Digest -> string, id: Token -> string, size: string -> nat)

  const ONE_TIME := "This one-time approval " + "may be used only by the "
  const FOR_PLAN := "for this exact plan. "
  const STILL_CLOSED := "Registered/live apply " + "remains fail-closed."

  const GUARDED_PATH := "guarded registered " + "production apply path "
  const NOT_DIRECT := "The private production " + "executor is not " + "registered directly."
  const PRODUCTION_PATH := "private production " + "mutation candidate "
  const DISPOSABLE_PATH := "private disposable " + "restore candidate "

  const GUARDED_SUFFIX := ONE_TIME + GUARDED_PATH + FOR_PLAN + NOT_DIRECT
  const PRODUCTION_SUFFIX := ONE_TIME + PRODUCTION_PATH + FOR_PLAN + STILL_CLOSED
  const DISPOSABLE_SUFFIX := ONE_TIME + DISPOSABLE_PATH + FOR_PLAN + STILL_CLOSED
  const CLOSED_SUFFIX := "Current apply handler " + "remains fail-closed and " + "will not mutate."

  function ExecutionSuffix(enabled: bool, action: Action): string {
    if enabled then GUARDED_SUFFIX
    else if action == RestoreEditAction || action == RestoreMoveAction then DISPOSABLE_SUFFIX
    else CLOSED_SUFFIX
  }

  /** `_approval_summary`, for an entry whose checks pass. */
  function Summary(fmt: Format, enabled: bool, c: Cached): string {
    var suffix := ExecutionSuffix(enabled, c.plan.Act());
    match c.plan
    case EditNote(_, _, target, originalSha, proposedSha, _) =>
      "Approve Orion vault edit preview? Target: " + target + ". Original SHA-256: " + fmt.hex(originalSha)
      + ". Proposed SHA-256: " + fmt.hex(proposedSha) + ".\nExact unified diff:\n" + c.diff + "\n" + suffix
    case MoveDraft(_, _, source, _, target, sourceSha, _) =>
      "Approve Orion draft move preview? Source: " + source + ". Target: " + target
      + ". Source SHA-256: " + fmt.hex(sourceSha) + ".\nExact unified diff:\n" + c.diff + "\n" + suffix
    case DeleteNote(_, _, target, targetSha, _) =>
      "Approve Orion vault delete preview? Target: " + target + ". Current SHA-256: " + fmt.hex(targetSha)
      + ". Resulting state: absent.\nExact unified diff:\n" + c.diff + "\n" + suffix
    case RestoreEdit(_, origin, _, _, target, currentSha, restoreSha, _, _) =>
      "Approve Orion historical edit restore preview? Recovery record: " + fmt.id(origin) + ". Target: " + target
      + ". Current SHA-256: " + fmt.hex(currentSha) + ". Restore SHA-256: " + fmt.hex(restoreSha)
      + ".\nExact unified diff:\n" + c.diff + "\n" + suffix
    case RestoreMoveSource(_, origin, _, target, restoreSha, _, reference, _) =>
      "Approve Orion historical move-source restore preview? Recovery record: " + fmt.id(origin)
      + ". Inbox source to recreate: " + target + ". Source state: absent. Restore SHA-256: " + fmt.hex(restoreSha)
      + ". Reference vault target: " + reference + ".\nExact unified diff:\n" + c.diff + "\n" + suffix
  }

  /** What every text about this plan starts with, according to the receipt check. */
  function ReceiptPrefix(fmt: Format, plan: Plan): string {
    Lead(fmt, plan) + "Exact unified diff:\n"
  }

  function Lead(fmt: Format, plan: Plan): string {
    match plan
    case EditNote(_, _, target, originalSha, proposedSha, _) =>
      "Approve Orion vault edit preview? Target: " + target + ". Original SHA-256: " + fmt.hex(originalSha)
      + ". Proposed SHA-256: " + fmt.hex(proposedSha) + ".\n"
    case MoveDraft(_, _, source, _, target, sourceSha, _) =>
      "Approve Orion draft move preview? Source: " + source + ". Target: " + target
      + ". Source SHA-256: " + fmt.hex(sourceSha) + ".\n"
    case DeleteNote(_, _, target, targetSha, _) =>
      "Approve Orion vault delete preview? Target: " + target + ". Current SHA-256: " + fmt.hex(targetSha)
      + ". Resulting state: absent.\n"
    case RestoreEdit(_, origin, _, _, target, currentSha, restoreSha, _, _) =>
      "Approve Orion historical edit restore preview? Recovery record: " + fmt.id(origin) + ". Target: " + target
      + ". Current SHA-256: " + fmt.hex(currentSha) + ". Restore SHA-256: " + fmt.hex(restoreSha) + ".\n"
    case RestoreMoveSource(_, origin, _, target, restoreSha, _, reference, _) =>
      "Approve Orion historical move-source restore preview? Recovery record: " + fmt.id(origin)
      + ". Inbox source to recreate: " + target + ". Source state: absent. Restore SHA-256: " + fmt.hex(restoreSha)
      + ". Reference vault target: " + reference + ".\n"
  }

  /** The suffixes a receipt of this schema may end with, in the order they are tried. */
  function ReceiptSuffixes(schema: nat, action: Action): seq<string> {
    if schema == 2 then ["\n" + GUARDED_SUFFIX, "\n" + PRODUCTION_SUFFIX]
    else if action == RestoreEditAction || action == RestoreMoveAction then ["\n" + DISPOSABLE_SUFFIX]
    else ["\n" + CLOSED_SUFFIX]
  }

  predicate StartsWith(s: string, prefix: string) {
    |prefix| <= |s| && s[..|prefix|] == prefix
  }

  predicate EndsWith(s: string, suffix: string) {
    |suffix| <= |s| && s[|s| - |suffix|..] == suffix
  }

  /** Python's `s[lo:hi]`: empty when the bounds cross. */
  function Slice(s: string, lo: nat, hi: int): string
    requires lo <= |s| && hi <= |s|
  {
    if lo <= hi then s[lo..hi] else ""
  }

  /** `_receipt_approval_message_matches_plan`: the first suffix that fits decides. */
  method ReceiptMatches(fmt: Format, plan: Plan, message: string, schema: nat) returns (ok: bool)
    ensures ok <==> Matches(fmt, plan, message, schema)
  {
    var prefix := ReceiptPrefix(fmt, plan);
    if !StartsWith(message, prefix) {
      return false;
    }
    ok := EndsFitting(prefix, ReceiptSuffixes(schema, plan.Act()), plan.diffSha, message);
  }

  /** Its loop: the text between the prefix and the first suffix that fits must be the plan's diff. */
  method EndsFitting(prefix: string, suffixes: seq<string>, diffSha: Digest, message: string) returns (ok: bool)
    requires StartsWith(message, prefix)
    ensures ok <==> FirstFit(prefix, suffixes, diffSha, message)
  {
    for i := 0 to |suffixes|
      invariant FirstFit(prefix, suffixes, diffSha, message) <==> FirstFit(prefix, suffixes[i..], diffSha, message)
    {
      if EndsWith(message, suffixes[i]) {
        return Sha256(Slice(message, |prefix|, |message| - |suffixes[i]|)) == diffSha;
      }
    }
    ok := false;
  }

  predicate FirstFit(prefix: string, suffixes: seq<string>, diffSha: Digest, message: string)
    requires StartsWith(message, prefix)
  {
    if suffixes == [] then false
    else if EndsWith(message, suffixes[0]) then Sha256(Slice(message, |prefix|, |message| - |suffixes[0]|)) == diffSha
    else FirstFit(prefix, suffixes[1..], diffSha, message)
  }

  predicate Matches(fmt: Format, plan: Plan, message: string, schema: nat) {
    var prefix := ReceiptPrefix(fmt, plan);
    StartsWith(message, prefix) && FirstFit(prefix, ReceiptSuffixes(schema, plan.Act()), plan.diffSha, message)
  }

  // ---------- What the check accepts ----------

  predicate OneLine(s: string) {
    forall i :: 0 <= i < |s| ==> s[i] != '\n'
  }

  lemma OneLineConcat(a: string, b: string)
    requires OneLine(a) && OneLine(b)
    ensures OneLine(a + b)
  {
  }

  /** A suffix is a newline and then a single line. */
  ghost predicate SuffixShape(s: string) {
    |s| > 1 && s[0] == '\n' && forall i :: 1 <= i < |s| ==> s[i] != '\n'
  }

  lemma NewlineShape(line: string)
    requires OneLine(line) && line != ""
    ensures SuffixShape("\n" + line)
  {
  }

  lemma PartsAreOneLine()
    ensures OneLine(ONE_TIME) && OneLine(FOR_PLAN) && OneLine(STILL_CLOSED)
  {
    OneLineConcat("This one-time approval ", "may be used only by the ");
    OneLineConcat("Registered/live apply ", "remains fail-closed.");
  }

  lemma PathsAreOneLine()
    ensures OneLine(GUARDED_PATH) && OneLine(PRODUCTION_PATH) && OneLine(DISPOSABLE_PATH)
  {
    OneLineConcat("guarded registered ", "production apply path ");
    OneLineConcat("private production ", "mutation candidate ");
    OneLineConcat("private disposable ", "restore candidate ");
  }

  lemma NotDirectIsOneLine()
    ensures OneLine(NOT_DIRECT)
  {
    OneLineConcat("The private production ", "executor is not ");
    OneLineConcat("The private production " + "executor is not ", "registered directly.");
  }

  lemma ClosedIsOneLine()
    ensures OneLine(CLOSED_SUFFIX)
  {
    OneLineConcat("Current apply handler ", "remains fail-closed and ");
    OneLineConcat("Current apply handler " + "remains fail-closed and ", "will not mutate.");
  }

  lemma FourParts(a: string, b: string, c: string, d: string)
    requires OneLine(a) && OneLine(b) && OneLine(c) && OneLine(d)
    ensures OneLine(a + b + c + d)
  {
    OneLineConcat(a, b);
    OneLineConcat(a + b, c);
    OneLineConcat(a + b + c, d);
  }

  lemma SuffixIsOneLine(s: string)
    requires s == GUARDED_SUFFIX || s == PRODUCTION_SUFFIX || s == DISPOSABLE_SUFFIX || s == CLOSED_SUFFIX
    ensures OneLine(s)
  {
    PartsAreOneLine();
    PathsAreOneLine();
    NotDirectIsOneLine();
    ClosedIsOneLine();
    FourParts(ONE_TIME, GUARDED_PATH, FOR_PLAN, NOT_DIRECT);
    FourParts(ONE_TIME, PRODUCTION_PATH, FOR_PLAN, STILL_CLOSED);
    FourParts(ONE_TIME, DISPOSABLE_PATH, FOR_PLAN, STILL_CLOSED);
  }

  lemma EndsWithChar(m: string, s: string)
    requires |s| >= 2 && EndsWith(m, s)
    ensures m[|m| - 2] == s[|s| - 2]
  {
    assert m[|m| - 2] == m[|m| - |s|..][|s| - 2];
  }

  /** No text ends with both suffixes of the production schema. */
  lemma SuffixesExclude(m: string)
    ensures !(EndsWith(m, "\n" + GUARDED_SUFFIX) && EndsWith(m, "\n" + PRODUCTION_SUFFIX))
  {
    var s, t := "\n" + GUARDED_SUFFIX, "\n" + PRODUCTION_SUFFIX;
    assert s[|s| - 2] == 'y' && t[|t| - 2] == 'd';
    if EndsWith(m, s) {
      EndsWithChar(m, s);
      assert m[|m| - 2] == 'y';
    }
    if EndsWith(m, t) {
      EndsWithChar(m, t);
      assert m[|m| - 2] == 'd';
    }
  }

  predicate Fits(prefix: string, suffix: string, diff: string, m: string) {
    StartsWith(m, prefix) && EndsWith(m, suffix) && Slice(m, |prefix|, |m| - |suffix|) == diff
  }

  /** Prefix, diff and suffix; or, around an empty diff, prefix and suffix sharing their newline. */
  ghost predicate Bound(prefix: string, suffix: string, diff: string, m: string)
    requires |suffix| > 0
  {
    m == prefix + diff + suffix || (diff == "" && m == prefix + suffix[1..])
  }

  lemma FitsOnlyBound(prefix: string, suffix: string, diff: string, m: string)
    requires |prefix| > 0 && prefix[|prefix| - 1] == '\n' && SuffixShape(suffix)
    requires Fits(prefix, suffix, diff, m)
    ensures Bound(prefix, suffix, diff, m)
  {
    var at := |m| - |suffix|;
    if |prefix| <= at {
      assert m == m[..|prefix|] + m[|prefix|..at] + m[at..];
    } else {
      assert suffix[|prefix| - 1 - at] == m[at..][|prefix| - 1 - at] == m[..|prefix|][|prefix| - 1] == '\n';
      assert at == |prefix| - 1;
      assert m == m[..|prefix|] + m[at..][1..];
    }
  }

  lemma BoundFits(prefix: string, suffix: string, diff: string, m: string)
    requires |prefix| > 0 && prefix[|prefix| - 1] == '\n' && SuffixShape(suffix)
    requires Bound(prefix, suffix, diff, m)
    ensures Fits(prefix, suffix, diff, m)
  {
    if m == prefix + diff + suffix {
      assert m[..|prefix|] == prefix && m[|prefix|..|m| - |suffix|] == diff && m[|m| - |suffix|..] == suffix;
    } else {
      assert m == prefix[..|prefix| - 1] + suffix;
      assert m[..|prefix|] == prefix && m[|m| - |suffix|..] == suffix;
    }
  }

  lemma {:induction false} FirstFitIsAnyFit(prefix: string, suffixes: seq<string>, diff: string, m: string)
    requires StartsWith(m, prefix)
    requires forall i, j :: 0 <= i < j < |suffixes| ==> !(EndsWith(m, suffixes[i]) && EndsWith(m, suffixes[j]))
    ensures FirstFit(prefix, suffixes, Sha256(diff), m) <==> exists s :: s in suffixes && Fits(prefix, s, diff, m)
  {
    if suffixes != [] {
      var rest := suffixes[1..];
      assert forall i :: 0 <= i < |rest| ==> rest[i] == suffixes[i + 1];
      FirstFitIsAnyFit(prefix, rest, diff, m);
      if EndsWith(m, suffixes[0]) {
        assert suffixes[0] in suffixes;
        forall s | s in suffixes && Fits(prefix, s, diff, m) ensures s == suffixes[0] {
          var i :| 0 <= i < |suffixes| && suffixes[i] == s;
        }
      } else {
        assert forall s :: s in suffixes ==> s == suffixes[0] || s in rest;
      }
    }
  }

  lemma PrefixEndsLine(fmt: Format, plan: Plan)
    ensures var p := ReceiptPrefix(fmt, plan); |p| > 0 && p[|p| - 1] == '\n'
  {
    var p, q := ReceiptPrefix(fmt, plan), "Exact unified diff:\n";
    assert p[|p| - 1] == q[|q| - 1] == '\n';
  }

  lemma SuffixFacts(schema: nat, action: Action, m: string)
    ensures var suffixes := ReceiptSuffixes(schema, action);
      && (forall s :: s in suffixes ==> SuffixShape(s))
      && (forall i, j :: 0 <= i < j < |suffixes| ==> !(EndsWith(m, suffixes[i]) && EndsWith(m, suffixes[j])))
  {
    var suffixes := ReceiptSuffixes(schema, action);
    forall s | s in suffixes ensures SuffixShape(s) {
      SuffixIsOneLine(s[1..]);
      NewlineShape(s[1..]);
    }
    SuffixesExclude(m);
  }

  /**
   Exactly the texts a receipt may keep: prefix, the plan's own diff and an allowed suffix; and, only when
   that diff is empty, also the text in which prefix and suffix share their newline.
   */
  lemma MatchesExactly(fmt: Format, plan: Plan, diff: string, m: string, schema: nat)
    requires plan.diffSha == Sha256(diff)
    ensures Matches(fmt, plan, m, schema) <==>
      exists s :: s in ReceiptSuffixes(schema, plan.Act()) && |s| > 0 && Bound(ReceiptPrefix(fmt, plan), s, diff, m)
  {
    var prefix, suffixes := ReceiptPrefix(fmt, plan), ReceiptSuffixes(schema, plan.Act());
    PrefixEndsLine(fmt, plan);
    SuffixFacts(schema, plan.Act(), m);
    BindsExactly(prefix, suffixes, diff, m);
  }

  lemma BindsExactly(prefix: string, suffixes: seq<string>, diff: string, m: string)
    requires |prefix| > 0 && prefix[|prefix| - 1] == '\n' && forall s :: s in suffixes ==> SuffixShape(s)
    requires forall i, j :: 0 <= i < j < |suffixes| ==> !(EndsWith(m, suffixes[i]) && EndsWith(m, suffixes[j]))
    ensures StartsWith(m, prefix) && FirstFit(prefix, suffixes, Sha256(diff), m) <==>
      exists s :: s in suffixes && |s| > 0 && Bound(prefix, s, diff, m)
  {
    forall s | s in suffixes ensures Fits(prefix, s, diff, m) <==> Bound(prefix, s, diff, m) {
      if Fits(prefix, s, diff, m) { FitsOnlyBound(prefix, s, diff, m); }
      if Bound(prefix, s, diff, m) { BoundFits(prefix, s, diff, m); }
    }
    if StartsWith(m, prefix) {
      FirstFitIsAnyFit(prefix, suffixes, diff, m);
    }
  }

  /** The summary's last literal is the end of the lead followed by the diff's headline. */
  lemma Regroup(lead: string, dots: string, headline: string, both: string, diff: string, suffix: string)
    requires both == dots + headline
    ensures lead + both + diff + "\n" + suffix == (lead + dots) + headline + diff + ("\n" + suffix)
  {
  }

  lemma Headline()
    ensures ".\nExact unified diff:\n" == ".\n" + "Exact unified diff:\n"
  {
  }

  lemma AbsentHeadline()
    ensures ". Resulting state: absent.\nExact unified diff:\n" == ". Resulting state: absent.\n" + "Exact unified diff:\n"
  {
  }

  lemma SummaryShape(fmt: Format, enabled: bool, c: Cached)
    ensures Summary(fmt, enabled, c) == ReceiptPrefix(fmt, c.plan) + c.diff + ("\n" + ExecutionSuffix(enabled, c.plan.Act()))
  {
    match c.plan
    case EditNote(_, _, _, _, _, _) => EditShape(fmt, enabled, c);
    case MoveDraft(_, _, _, _, _, _, _) => MoveShape(fmt, enabled, c);
    case DeleteNote(_, _, _, _, _) => DeleteShape(fmt, enabled, c);
    case RestoreEdit(_, _, _, _, _, _, _, _, _) => RestoreShape(fmt, enabled, c);
    case RestoreMoveSource(_, _, _, _, _, _, _, _) => RestoreMoveShape(fmt, enabled, c);
  }

  lemma EditShape(fmt: Format, enabled: bool, c: Cached)
    requires c.plan.EditNote?
    ensures Summary(fmt, enabled, c) == ReceiptPrefix(fmt, c.plan) + c.diff + ("\n" + ExecutionSuffix(enabled, c.plan.Act()))
  {
    var p := c.plan;
    Headline();
    Regroup("Approve Orion vault edit preview? Target: " + p.target + ". Original SHA-256: " + fmt.hex(p.originalSha)
      + ". Proposed SHA-256: " + fmt.hex(p.proposedSha),
      ".\n", "Exact unified diff:\n", ".\nExact unified diff:\n",
      c.diff, ExecutionSuffix(enabled, p.Act()));
  }

  lemma MoveShape(fmt: Format, enabled: bool, c: Cached)
    requires c.plan.MoveDraft?
    ensures Summary(fmt, enabled, c) == ReceiptPrefix(fmt, c.plan) + c.diff + ("\n" + ExecutionSuffix(enabled, c.plan.Act()))
  {
    var p := c.plan;
    Headline();
    Regroup("Approve Orion draft move preview? Source: " + p.source + ". Target: " + p.target
      + ". Source SHA-256: " + fmt.hex(p.sourceSha),
      ".\n", "Exact unified diff:\n", ".\nExact unified diff:\n",
      c.diff, ExecutionSuffix(enabled, p.Act()));
  }

  lemma DeleteShape(fmt: Format, enabled: bool, c: Cached)
    requires c.plan.DeleteNote?
    ensures Summary(fmt, enabled, c) == ReceiptPrefix(fmt, c.plan) + c.diff + ("\n" + ExecutionSuffix(enabled, c.plan.Act()))
  {
    var p := c.plan;
    AbsentHeadline();
    Regroup("Approve Orion vault delete preview? Target: " + p.target + ". Current SHA-256: " + fmt.hex(p.targetSha),
      ". Resulting state: absent.\n", "Exact unified diff:\n", ". Resulting state: absent.\nExact unified diff:\n",
      c.diff, ExecutionSuffix(enabled, p.Act()));
  }

  lemma RestoreShape(fmt: Format, enabled: bool, c: Cached)
    requires c.plan.RestoreEdit?
    ensures Summary(fmt, enabled, c) == ReceiptPrefix(fmt, c.plan) + c.diff + ("\n" + ExecutionSuffix(enabled, c.plan.Act()))
  {
    var p := c.plan;
    Headline();
    Regroup("Approve Orion historical edit restore preview? Recovery record: " + fmt.id(p.origin) + ". Target: " + p.target
      + ". Current SHA-256: " + fmt.hex(p.currentSha) + ". Restore SHA-256: " + fmt.hex(p.restoreSha),
      ".\n", "Exact unified diff:\n", ".\nExact unified diff:\n",
      c.diff, ExecutionSuffix(enabled, p.Act()));
  }

  lemma RestoreMoveShape(fmt: Format, enabled: bool, c: Cached)
    requires c.plan.RestoreMoveSource?
    ensures Summary(fmt, enabled, c) == ReceiptPrefix(fmt, c.plan) + c.diff + ("\n" + ExecutionSuffix(enabled, c.plan.Act()))
  {
    var p := c.plan;
    Headline();
    Regroup("Approve Orion historical move-source restore preview? Recovery record: " + fmt.id(p.origin)
      + ". Inbox source to recreate: " + p.source + ". Source state: absent. Restore SHA-256: " + fmt.hex(p.restoreSha)
      + ". Reference vault target: " + p.referenceCanonical,
      ".\n", "Exact unified diff:\n", ".\nExact unified diff:\n",
      c.diff, ExecutionSuffix(enabled, p.Act()));
  }

  /** Every text the plugin asks approval for passes the check of the schema it is kept under. */
  lemma SummaryPasses(fmt: Format, enabled: bool, c: Cached)
    requires SummaryOk(c)
    ensures Matches(fmt, c.plan, Summary(fmt, enabled, c), if enabled then 2 else 1)
  {
    var schema, m := if enabled then 2 else 1, Summary(fmt, enabled, c);
    SummaryShape(fmt, enabled, c);
    MatchesExactly(fmt, c.plan, c.diff, m, schema);
    var s := ReceiptSuffixes(schema, c.plan.Act())[0];
    assert s in ReceiptSuffixes(schema, c.plan.Act()) && Bound(ReceiptPrefix(fmt, c.plan), s, c.diff, m);
  }

  /** For a non-empty diff, what passes is the prefix, that exact diff and an allowed suffix, and nothing else. */
  lemma NonEmptyDiffIsPinned(fmt: Format, plan: Plan, diff: string, m: string)
    requires plan.diffSha == Sha256(diff) && diff != ""
    ensures Matches(fmt, plan, m, 2) <==>
      || m == ReceiptPrefix(fmt, plan) + diff + ("\n" + GUARDED_SUFFIX)
      || m == ReceiptPrefix(fmt, plan) + diff + ("\n" + PRODUCTION_SUFFIX)
  {
    MatchesExactly(fmt, plan, diff, m, 2);
    var suffixes := ReceiptSuffixes(2, plan.Act());
    assert suffixes[0] in suffixes && suffixes[1] in suffixes;
  }

  /** With an empty diff the check also accepts a text one newline short, which is no summary. */
  lemma EmptyDiffIsNotPinned(fmt: Format, c: Cached)
    requires SummaryOk(c) && c.diff == ""
    ensures var m := ReceiptPrefix(fmt, c.plan) + GUARDED_SUFFIX;
      Matches(fmt, c.plan, m, 2) && m != Summary(fmt, true, c)
  {
    var m, s := ReceiptPrefix(fmt, c.plan) + GUARDED_SUFFIX, "\n" + GUARDED_SUFFIX;
    MatchesExactly(fmt, c.plan, "", m, 2);
    assert s[1..] == GUARDED_SUFFIX;
    assert ReceiptSuffixes(2, c.plan.Act())[0] == s;
    assert s in ReceiptSuffixes(2, c.plan.Act()) && Bound(ReceiptPrefix(fmt, c.plan), s, "", m);
    SummaryShape(fmt, true, c);
    assert |Summary(fmt, true, c)| == |m| + 1;
  }

  /** The plugin in mutation_enabled mode, writing and checking receipts of schema 2. */
  function Plugin(fmt: Format, isDraft: Text -> bool): Env {
    Env(fmt.size, (c: Cached) => Summary(fmt, true, c), (plan: Plan, m: Text) => Matches(fmt, plan, m, 2), isDraft)
  }

  lemma PluginIsConsistent(fmt: Format, isDraft: Text -> bool)
    ensures Consistent(Plugin(fmt, isDraft))
  {
    var env := Plugin(fmt, isDraft);
    forall c: Cached | SummaryOk(c) ensures env.accepts(c.plan, env.render(c)) {
      SummaryPasses(fmt, true, c);
    }
  }

  // ---------- What the text tells the human ----------

  /** What a human is told of a plan, before its diff: fixed words, each followed by the plan's own field. */
  function Telling(fmt: Format, plan: Plan): seq<(string, string)> {
    match plan
    case EditNote(_, _, target, originalSha, proposedSha, _) => [
      ("Approve Orion vault edit preview? Target: ", target),
      (". Original SHA-256: ", fmt.hex(originalSha)),
      (". Proposed SHA-256: ", fmt.hex(proposedSha))]
    case MoveDraft(_, _, source, _, target, sourceSha, _) => [
      ("Approve Orion draft move preview? Source: ", source),
      (". Target: ", target),
      (". Source SHA-256: ", fmt.hex(sourceSha))]
    case DeleteNote(_, _, target, targetSha, _) => [
      ("Approve Orion vault delete preview? Target: ", target),
      (". Current SHA-256: ", fmt.hex(targetSha)),
      (". Resulting state: ", "absent")]
    case RestoreEdit(_, origin, _, _, target, currentSha, restoreSha, _, _) => [
      ("Approve Orion historical edit restore preview? Recovery record: ", fmt.id(origin)),
      (". Target: ", target),
      (". Current SHA-256: ", fmt.hex(currentSha)),
      (". Restore SHA-256: ", fmt.hex(restoreSha))]
    case RestoreMoveSource(_, origin, _, target, restoreSha, _, reference, _) => [
      ("Approve Orion historical move-source restore preview? Recovery record: ", fmt.id(origin)),
      (". Inbox source to recreate: ", target),
      (". Source state: absent. Restore SHA-256: ", fmt.hex(restoreSha)),
      (". Reference vault target: ", reference)]
  }

  /** Words and fields in order, and then the rest. */
  function Said(parts: seq<(string, string)>, rest: string): string {
    if parts == [] then rest else parts[0].0 + (parts[0].1 + Said(parts[1..], rest))
  }

  const DIFF_FOLLOWS := ".\nExact unified diff:\n"

  /** The text put to the human tells the plan, then its diff, then what the approval is good for. */
  lemma SummaryTells(fmt: Format, enabled: bool, c: Cached)
    ensures Summary(fmt, enabled, c)
      == Said(Telling(fmt, c.plan), DIFF_FOLLOWS + (c.diff + ("\n" + ExecutionSuffix(enabled, c.plan.Act()))))
  {
    var end := "\n" + ExecutionSuffix(enabled, c.plan.Act());
    SummaryShape(fmt, enabled, c);
    LeadTells(fmt, c.plan, c.diff + end);
    Grouped(ReceiptPrefix(fmt, c.plan), c.diff, end);
  }

  lemma Grouped(a: string, b: string, c: string)
    ensures a + b + c == a + (b + c)
  {
  }

  /** And so does every text a receipt may keep. */
  lemma ReceiptTells(fmt: Format, plan: Plan, m: string, schema: nat)
    requires Matches(fmt, plan, m, schema)
    ensures exists rest :: m == Said(Telling(fmt, plan), DIFF_FOLLOWS + rest)
  {
    var rest := AfterPrefix(ReceiptPrefix(fmt, plan), m);
    LeadTells(fmt, plan, rest);
    assert m == Said(Telling(fmt, plan), DIFF_FOLLOWS + rest);
  }

  lemma AfterPrefix(prefix: string, m: string) returns (rest: string)
    requires StartsWith(m, prefix)
    ensures m == prefix + rest
  {
    rest := m[|prefix|..];
  }

  lemma LeadTells(fmt: Format, plan: Plan, rest: string)
    ensures ReceiptPrefix(fmt, plan) + rest == Said(Telling(fmt, plan), DIFF_FOLLOWS + rest)
  {
    var t := Telling(fmt, plan);
    if |t| == 3 {
      SaidThree(t, DIFF_FOLLOWS + rest);
      LeadOfThree(fmt, plan, t);
      EndOfLead(t[0].0 + t[0].1 + t[1].0 + t[1].1 + t[2].0 + t[2].1, rest);
    } else {
      SaidFour(t, DIFF_FOLLOWS + rest);
      LeadOfFour(fmt, plan, t);
      EndOfLead(t[0].0 + t[0].1 + t[1].0 + t[1].1 + t[2].0 + t[2].1 + t[3].0 + t[3].1, rest);
    }
  }

  lemma EndOfLead(lead: string, rest: string)
    ensures (lead + ".\n") + "Exact unified diff:\n" + rest == lead + (DIFF_FOLLOWS + rest)
  {
    Headline();
    Grouped(lead, ".\n", "Exact unified diff:\n");
    Grouped(lead, DIFF_FOLLOWS, rest);
  }

  lemma LeadOfThree(fmt: Format, plan: Plan, t: seq<(string, string)>)
    requires t == Telling(fmt, plan) && |t| == 3
    ensures Lead(fmt, plan) == t[0].0 + t[0].1 + t[1].0 + t[1].1 + t[2].0 + t[2].1 + ".\n"
  {
    if plan.DeleteNote? {
      AbsentWords();
      var lead := t[0].0 + t[0].1 + t[1].0 + t[1].1;
      Grouped(lead, ". Resulting state: ", "absent");
      Grouped(lead, ". Resulting state: " + "absent", ".\n");
    }
  }

  lemma AbsentWords()
    ensures ". Resulting state: absent.\n" == ". Resulting state: " + "absent" + ".\n"
  {
  }

  lemma LeadOfFour(fmt: Format, plan: Plan, t: seq<(string, string)>)
    requires t == Telling(fmt, plan) && |t| == 4
    ensures Lead(fmt, plan) == t[0].0 + t[0].1 + t[1].0 + t[1].1 + t[2].0 + t[2].1 + t[3].0 + t[3].1 + ".\n"
  {
  }

  lemma SaidOne(t: seq<(string, string)>, rest: string)
    requires t != []
    ensures Said(t, rest) == t[0].0 + t[0].1 + Said(t[1..], rest)
  {
    Grouped(t[0].0, t[0].1, Said(t[1..], rest));
  }

  lemma SaidThree(t: seq<(string, string)>, rest: string)
    requires |t| == 3
    ensures Said(t, rest) == t[0].0 + t[0].1 + t[1].0 + t[1].1 + t[2].0 + t[2].1 + rest
  {
    SaidOne(t, rest);
    SaidOne(t[1..], rest);
    SaidOne(t[2..], rest);
    assert t[1..][1..] == t[2..] && t[2..][1..] == [];
    Chained(t[0].0 + t[0].1, t[1].0, t[1].1, t[2].0 + t[2].1 + rest);
    Chained(t[0].0 + t[0].1 + t[1].0 + t[1].1, t[2].0, t[2].1, rest);
  }

  lemma Chained(before: string, word: string, field: string, rest: string)
    ensures before + (word + field + rest) == before + word + field + rest
  {
  }

  lemma SaidFour(t: seq<(string, string)>, rest: string)
    requires |t| == 4
    ensures Said(t, rest) == t[0].0 + t[0].1 + t[1].0 + t[1].1 + t[2].0 + t[2].1 + t[3].0 + t[3].1 + rest
  {
    var late := t[1..];
    SaidOne(t, rest);
    SaidThree(late, rest);
    assert late[0] == t[1] && late[1] == t[2] && late[2] == t[3];
    var start := t[0].0 + t[0].1;
    Chained(start, t[1].0, t[1].1, t[2].0 + t[2].1 + t[3].0 + t[3].1 + rest);
    assert t[1].0 + t[1].1 + t[2].0 + t[2].1 + t[3].0 + t[3].1 + rest == t[1].0 + t[1].1 + (t[2].0 + t[2].1 + t[3].0 + t[3].1 + rest);
    Chained(start + t[1].0 + t[1].1, t[2].0, t[2].1, t[3].0 + t[3].1 + rest);
    assert t[2].0 + t[2].1 + t[3].0 + t[3].1 + rest == t[2].0 + t[2].1 + (t[3].0 + t[3].1 + rest);
    Chained(start + t[1].0 + t[1].1 + t[2].0 + t[2].1, t[3].0, t[3].1, rest);
  }

  // ---------- The text tells the plans apart ----------

  /**
   No colon before a blank or the end of a line. Path policy allows no colon below a root, and roots are not
   written that way; hexadecimal digits have none.
   */
  predicate Tame(field: string) {
    forall i :: 0 <= i < |field| - 1 && field[i] == ':' ==> field[i + 1] != ' ' && field[i + 1] != '\n'
  }

  /** Words that follow a field: a full stop, and later a colon before a blank or the end of a line. */
  ghost predicate Label(words: string, j: nat) {
    && 0 < j < |words| - 1 && words[0] == '.' && words[j] == ':' && (words[j + 1] == ' ' || words[j + 1] == '\n')
    && forall k :: 0 <= k < j ==> words[k] != ':'
  }

  predicate Marked(s: string, i: nat) { i < |s| - 1 && s[i] == ':' && (s[i + 1] == ' ' || s[i + 1] == '\n') }

  /** The first colon before a blank is that of the words behind a tame field. */
  lemma FirstMark(x: string, words: string, j: nat, r: string)
    requires Tame(x) && Label(words, j)
    ensures Marked(x + (words + r), |x| + j) && forall i :: 0 <= i < |x| + j ==> !Marked(x + (words + r), i)
  {
    var s := x + (words + r);
    assert forall i :: 0 <= i < |x| ==> s[i] == x[i];
    assert forall i :: 0 <= i < |words| ==> s[|x| + i] == words[i];
  }

  lemma FieldsAgree(x: string, y: string, words: string, j: nat, r: string, q: string)
    requires Tame(x) && Tame(y) && Label(words, j) && x + (words + r) == y + (words + q)
    ensures x == y && r == q
  {
    FirstMark(x, words, j, r);
    FirstMark(y, words, j, q);
    assert |x| == |y|;
    assert x == (x + (words + r))[..|x|] && y == (y + (words + q))[..|x|];
    assert words + r == (x + (words + r))[|x|..] && words + q == (y + (words + q))[|x|..];
    assert r == (words + r)[|words|..] && q == (words + q)[|words|..];
  }

  ghost predicate Labelled(t: seq<(string, string)>) {
    forall i :: 0 <= i < |t| ==> Tame(t[i].1) && (i > 0 ==> exists j :: Label(t[i].0, j))
  }

  /** The words that come next. */
  function NextWords(t: seq<(string, string)>): string { if t == [] then DIFF_FOLLOWS else t[0].0 }

  function AfterWords(t: seq<(string, string)>, rest: string): string {
    if t == [] then rest else t[0].1 + Said(t[1..], DIFF_FOLLOWS + rest)
  }

  lemma SaidFrom(t: seq<(string, string)>, rest: string)
    ensures Said(t, DIFF_FOLLOWS + rest) == NextWords(t) + AfterWords(t, rest)
  {
  }

  lemma DiffIsLabelled()
    ensures Label(DIFF_FOLLOWS, 20)
  {
  }

  /** What follows the same words is the same, field by field. */
  lemma {:induction false} SaidAgree(t: seq<(string, string)>, u: seq<(string, string)>, r: string, q: string)
    requires |t| == |u| > 0 && (forall i :: 0 <= i < |t| ==> t[i].0 == u[i].0) && Labelled(t) && Labelled(u)
    requires Said(t, DIFF_FOLLOWS + r) == Said(u, DIFF_FOLLOWS + q)
    ensures t == u && r == q
  {
    var words := t[0].0;
    assert t[0].1 + Said(t[1..], DIFF_FOLLOWS + r) == Said(t, DIFF_FOLLOWS + r)[|words|..];
    assert u[0].1 + Said(u[1..], DIFF_FOLLOWS + q) == Said(u, DIFF_FOLLOWS + q)[|words|..];
    SaidFrom(t[1..], r);
    SaidFrom(u[1..], q);
    var next := NextWords(t[1..]);
    assert next == NextWords(u[1..]) by { if |t| > 1 { assert t[1].0 == u[1].0; } }
    DiffIsLabelled();
    var j: nat :| Label(next, j);
    FieldsAgree(t[0].1, u[0].1, next, j, AfterWords(t[1..], r), AfterWords(u[1..], q));
    if |t| > 1 {
      assert forall i :: 0 <= i < |t| - 1 ==> t[1..][i] == t[i + 1] && u[1..][i] == u[i + 1];
      assert Said(t[1..], DIFF_FOLLOWS + r) == Said(u[1..], DIFF_FOLLOWS + q);
      SaidAgree(t[1..], u[1..], r, q);
    }
    assert t[0] == u[0];
    assert t == [t[0]] + t[1..] && u == [u[0]] + u[1..];
  }

  ghost predicate TameFields(fmt: Format, plan: Plan) {
    forall i :: 0 <= i < |Telling(fmt, plan)| ==> Tame(Telling(fmt, plan)[i].1)
  }

  lemma ShaLabels()
    ensures Label(". Original SHA-256: ", 18) && Label(". Proposed SHA-256: ", 18) && Label(". Source SHA-256: ", 16)
    ensures Label(". Current SHA-256: ", 17) && Label(". Restore SHA-256: ", 17)
  {
  }

  lemma OtherLabels()
    ensures Label(". Target: ", 8) && Label(". Resulting state: ", 17) && Label(". Inbox source to recreate: ", 26)
    ensures Label(". Source state: absent. Restore SHA-256: ", 14) && Label(". Reference vault target: ", 24)
  {
  }

  lemma PlansAreLabelled(fmt: Format, plan: Plan)
    requires TameFields(fmt, plan)
    ensures Labelled(Telling(fmt, plan))
  {
    ShaLabels();
    OtherLabels();
    var t := Telling(fmt, plan);
    forall i | 0 < i < |t| ensures exists j :: Label(t[i].0, j) {
      var later := {". Original SHA-256: ", ". Proposed SHA-256: ", ". Source SHA-256: ", ". Current SHA-256: ", ". Restore SHA-256: ",
        ". Target: ", ". Resulting state: ", ". Inbox source to recreate: ", ". Source state: absent. Restore SHA-256: ", ". Reference vault target: "};
      assert t[i].0 in later;
    }
  }

  /** The first words already tell which action it is. */
  lemma ActionsDiffer(fmt: Format, p: Plan, q: Plan, r: string, s: string)
    requires Said(Telling(fmt, p), r) == Said(Telling(fmt, q), s)
    ensures p.Act() == q.Act()
  {
    TextLetter(fmt, p, r);
    TextLetter(fmt, q, s);
  }

  lemma TextLetter(fmt: Format, p: Plan, rest: string)
    ensures var text := Said(Telling(fmt, p), rest); |text| > 34 && text[34] == Letter(p.Act())
  {
    FirstWords(fmt, p);
  }

  lemma FirstWords(fmt: Format, p: Plan)
    ensures var a := Telling(fmt, p)[0].0; |a| > 34 && a[34] == Letter(p.Act())
  {
  }

  /** The letter that tells the actions apart. */
  function Letter(action: Action): char {
    match action
    case EditAction => 'T'
    case MoveAction => 'S'
    case DeleteAction => '?'
    case RestoreEditAction => 'o'
    case RestoreMoveAction => 'c'
  }

  /**
   Two previews with tame fields are put to the human in the same text only if they are of the same action and agree
   in every field the text shows and in the whole diff.
   */
  lemma TextTellsPlansApart(fmt: Format, enabled: bool, c: Cached, e: Cached)
    requires TameFields(fmt, c.plan) && TameFields(fmt, e.plan)
    requires Summary(fmt, enabled, c) == Summary(fmt, enabled, e)
    ensures c.plan.Act() == e.plan.Act() && Telling(fmt, c.plan) == Telling(fmt, e.plan) && c.diff == e.diff
  {
    var end := "\n" + ExecutionSuffix(enabled, c.plan.Act());
    SummaryTells(fmt, enabled, c);
    SummaryTells(fmt, enabled, e);
    var t, u := Telling(fmt, c.plan), Telling(fmt, e.plan);
    ActionsDiffer(fmt, c.plan, e.plan, DIFF_FOLLOWS + (c.diff + end), DIFF_FOLLOWS + (e.diff + ("\n" + ExecutionSuffix(enabled, e.plan.Act()))));
    PlansAreLabelled(fmt, c.plan);
    PlansAreLabelled(fmt, e.plan);
    SameWords(fmt, c.plan, e.plan);
    SaidAgree(t, u, c.diff + end, e.diff + end);
    assert c.diff == (c.diff + end)[..|c.diff + end| - |end|] && e.diff == (e.diff + end)[..|e.diff + end| - |end|];
  }

  lemma SameWords(fmt: Format, p: Plan, q: Plan)
    requires p.Act() == q.Act()
    ensures |Telling(fmt, p)| == |Telling(fmt, q)| > 0
    ensures forall i :: 0 <= i < |Telling(fmt, p)| ==> Telling(fmt, p)[i].0 == Telling(fmt, q)[i].0
  {
    if p.RestoreEdit? || p.RestoreMoveSource? { SameRestoreWords(fmt, p, q); } else { SameChangeWords(fmt, p, q); }
  }

  lemma SameChangeWords(fmt: Format, p: Plan, q: Plan)
    requires (p.EditNote? && q.EditNote?) || (p.MoveDraft? && q.MoveDraft?) || (p.DeleteNote? && q.DeleteNote?)
    ensures |Telling(fmt, p)| == |Telling(fmt, q)| > 0
    ensures forall i :: 0 <= i < |Telling(fmt, p)| ==> Telling(fmt, p)[i].0 == Telling(fmt, q)[i].0
  {
  }

  lemma SameRestoreWords(fmt: Format, p: Plan, q: Plan)
    requires (p.RestoreEdit? && q.RestoreEdit?) || (p.RestoreMoveSource? && q.RestoreMoveSource?)
    ensures |Telling(fmt, p)| == |Telling(fmt, q)| > 0
    ensures forall i :: 0 <= i < |Telling(fmt, p)| ==> Telling(fmt, p)[i].0 == Telling(fmt, q)[i].0
  {
  }

  /** With a colon before a blank in a path two moves can share their text. */
  lemma UntamePathsAreAmbiguous(fmt: Format, enabled: bool, sha: Digest, diff: string)
    ensures var c := Cached(MoveDraft("", "", "a", "", "b. Target: c", sha, Sha256(diff)), diff, "");
      var e := Cached(MoveDraft("", "", "a. Target: b", "", "c", sha, Sha256(diff)), diff, "");
      Summary(fmt, enabled, c) == Summary(fmt, enabled, e) && !Tame(c.plan.targetCanonical) && !Tame(e.plan.sourceCanonical)
  {
    SharedText();
    MoveText(fmt, enabled, "a", "b. Target: c", sha, diff);
    MoveText(fmt, enabled, "a. Target: b", "c", sha, diff);
    assert "b. Target: c"[9] == ':' && "b. Target: c"[10] == ' ';
    assert "a. Target: b"[9] == ':' && "a. Target: b"[10] == ' ';
  }

  lemma MoveText(fmt: Format, enabled: bool, source: string, target: string, sha: Digest, diff: string)
    ensures Summary(fmt, enabled, Cached(MoveDraft("", "", source, "", target, sha, Sha256(diff)), diff, ""))
      == "Approve Orion draft move preview? Source: " + source + ". Target: " + target + ". Source SHA-256: " + fmt.hex(sha)
        + ".\nExact unified diff:\n" + diff + "\n" + ExecutionSuffix(enabled, MoveAction)
  {
  }

  lemma SharedText()
    ensures var first := "Approve Orion draft move preview? Source: ";
      first + "a" + ". Target: " + "b. Target: c" == first + "a. Target: b" + ". Target: " + "c"
  {
    var first := "Approve Orion draft move preview? Source: ";
    assert "a" + ". Target: " + "b. Target: c" == "a. Target: b" + ". Target: " + "c";
    Grouped(first, "a", ". Target: ");
    Grouped(first, "a" + ". Target: ", "b. Target: c");
    Grouped(first, "a. Target: b", ". Target: ");
    Grouped(first, "a. Target: b" + ". Target: ", "c");
  }

  // ---------- The texts themselves ----------

  /** What a human reads about an edit of `vault/b.md`. */
  lemma EditReads(fmt: Format, enabled: bool, x: Digest, y: Digest, diff: string)
    requires fmt.hex(x) == "aa" && fmt.hex(y) == "bb"
    ensures Summary(fmt, enabled, Cached(EditNote("", "b.md", "vault/b.md", x, y, Sha256(diff)), diff, ""))
      == "Approve Orion vault edit preview? Target: vault/b.md"
        + ". Original SHA-256: aa" + ". Proposed SHA-256: bb"
        + ".\nExact unified diff:\n" + diff + "\n" + ExecutionSuffix(enabled, EditAction)
  {
    var first := "Approve Orion vault edit preview? Target: vault/b.md";
    assert "Approve Orion vault edit preview? Target: " + "vault/b.md" == first;
    assert ". Original SHA-256: " + "aa" == ". Original SHA-256: aa";
    Grouped(first, ". Original SHA-256: ", "aa");
    assert ". Proposed SHA-256: " + "bb" == ". Proposed SHA-256: bb";
    Grouped(first + ". Original SHA-256: aa", ". Proposed SHA-256: ", "bb");
  }

  /** What a human reads about a move of `inbox/a.md` to `vault/b.md`. */
  lemma MoveReads(fmt: Format, enabled: bool, x: Digest, diff: string)
    requires fmt.hex(x) == "aa"
    ensures Summary(fmt, enabled, Cached(MoveDraft("", "a.md", "inbox/a.md", "b.md", "vault/b.md", x, Sha256(diff)), diff, ""))
      == "Approve Orion draft move preview? Source: inbox/a.md"
        + ". Target: vault/b.md" + ". Source SHA-256: aa"
        + ".\nExact unified diff:\n" + diff + "\n" + ExecutionSuffix(enabled, MoveAction)
  {
    var first := "Approve Orion draft move preview? Source: inbox/a.md";
    assert "Approve Orion draft move preview? Source: " + "inbox/a.md" == first;
    assert ". Target: " + "vault/b.md" == ". Target: vault/b.md";
    Grouped(first, ". Target: ", "vault/b.md");
    assert ". Source SHA-256: " + "aa" == ". Source SHA-256: aa";
    Grouped(first + ". Target: vault/b.md", ". Source SHA-256: ", "aa");
  }

  /** What a human reads about a delete of `vault/b.md`. */
  lemma DeleteReads(fmt: Format, enabled: bool, x: Digest, diff: string)
    requires fmt.hex(x) == "aa"
    ensures Summary(fmt, enabled, Cached(DeleteNote("", "b.md", "vault/b.md", x, Sha256(diff)), diff, ""))
      == "Approve Orion vault delete preview? Target: vault/b.md"
        + ". Current SHA-256: aa" + ". Resulting state: absent"
        + ".\nExact unified diff:\n" + diff + "\n" + ExecutionSuffix(enabled, DeleteAction)
  {
    var first := "Approve Orion vault delete preview? Target: vault/b.md";
    assert "Approve Orion vault delete preview? Target: " + "vault/b.md" == first;
    assert ". Current SHA-256: " + "aa" == ". Current SHA-256: aa";
    Grouped(first, ". Current SHA-256: ", "aa");
    AbsentEnd();
    Grouped(first + ". Current SHA-256: aa", ". Resulting state: absent", ".\nExact unified diff:\n");
  }

  /** What a human reads about a restore of `vault/b.md` from record r1. */
  lemma RestoreReads(fmt: Format, enabled: bool, x: Digest, y: Digest, origin: Token, diff: string)
    requires fmt.hex(x) == "aa" && fmt.hex(y) == "bb" && fmt.id(origin) == "r1"
    ensures Summary(fmt, enabled, Cached(RestoreEdit("", origin, EditAction, "b.md", "vault/b.md", x, y, y, Sha256(diff)), diff, ""))
      == "Approve Orion historical edit restore preview? Recovery record: r1"
        + ". Target: vault/b.md" + ". Current SHA-256: aa" + ". Restore SHA-256: bb"
        + ".\nExact unified diff:\n" + diff + "\n" + ExecutionSuffix(enabled, RestoreEditAction)
  {
    var first := "Approve Orion historical edit restore preview? Recovery record: r1";
    assert "Approve Orion historical edit restore preview? Recovery record: " + "r1" == first;
    assert ". Target: " + "vault/b.md" == ". Target: vault/b.md";
    Grouped(first, ". Target: ", "vault/b.md");
    assert ". Current SHA-256: " + "aa" == ". Current SHA-256: aa";
    Grouped(first + ". Target: vault/b.md", ". Current SHA-256: ", "aa");
    assert ". Restore SHA-256: " + "bb" == ". Restore SHA-256: bb";
    Grouped(first + ". Target: vault/b.md" + ". Current SHA-256: aa", ". Restore SHA-256: ", "bb");
  }

  /** What a human reads about a restore of `inbox/a.md`, moved to `vault/b.md`, from record r1. */
  lemma RestoreMoveReads(fmt: Format, enabled: bool, x: Digest, origin: Token, diff: string)
    requires fmt.hex(x) == "aa" && fmt.id(origin) == "r1"
    ensures Summary(fmt, enabled, Cached(RestoreMoveSource("", origin, "a.md", "inbox/a.md", x, x, "vault/b.md", Sha256(diff)), diff, ""))
      == "Approve Orion historical move-source restore preview? Recovery record: r1"
        + ". Inbox source to recreate: inbox/a.md" + ". Source state: absent. Restore SHA-256: aa" + ". Reference vault target: vault/b.md"
        + ".\nExact unified diff:\n" + diff + "\n" + ExecutionSuffix(enabled, RestoreMoveAction)
  {
    var first := "Approve Orion historical move-source restore preview? Recovery record: r1";
    FirstPiece();
    LaterPieces();
    Grouped(first, ". Inbox source to recreate: ", "inbox/a.md");
    Grouped(first + ". Inbox source to recreate: inbox/a.md", ". Source state: absent. Restore SHA-256: ", "aa");
    Grouped(first + ". Inbox source to recreate: inbox/a.md" + ". Source state: absent. Restore SHA-256: aa", ". Reference vault target: ", "vault/b.md");
  }

  lemma FirstPiece()
    ensures "Approve Orion historical move-source restore preview? Recovery record: " + "r1"
      == "Approve Orion historical move-source restore preview? Recovery record: r1"
  {
  }

  lemma LaterPieces()
    ensures ". Inbox source to recreate: " + "inbox/a.md" == ". Inbox source to recreate: inbox/a.md"
    ensures ". Source state: absent. Restore SHA-256: " + "aa" == ". Source state: absent. Restore SHA-256: aa"
    ensures ". Reference vault target: " + "vault/b.md" == ". Reference vault target: vault/b.md"
  {
  }

  /** What a human is told the approval is good for: in enabled mode, and otherwise by action. */
  lemma SuffixReads(action: Action)
    ensures ExecutionSuffix(true, action)
      == ("This one-time approval " + "may be used only by the ") + ("guarded registered " + "production apply path ") + "for this exact plan. "
        + ("The private production " + "executor is not " + "registered directly.")
    ensures ExecutionSuffix(false, action)
      == if action == RestoreEditAction || action == RestoreMoveAction then
        ("This one-time approval " + "may be used only by the ") + ("private disposable " + "restore candidate ") + "for this exact plan. "
          + ("Registered/live apply " + "remains fail-closed.")
      else
        "Current apply handler " + "remains fail-closed and " + "will not mutate."
  {
  }

  lemma AbsentEnd()
    ensures ". Resulting state: absent.\nExact unified diff:\n" == ". Resulting state: absent" + ".\nExact unified diff:\n"
  {
  }
}
