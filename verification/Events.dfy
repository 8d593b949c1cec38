/**
 The payload of a streamed event: JSON values with Python's numbers, and which of them the projection passes on.
 */
module Events {
  import opened Wrappers

  /** A Python number as JSON reads it: an integer of any size, a finite float by its bits, or `Infinity`, `-Infinity`, `NaN`. */
  datatype Number = Whole(n: int) | Float(bits: nat) | NotFinite(spelling: string)

  /** The keys that matter here; `Other` numbers all other spellings. */
  datatype Key =
    | Seq | Ts | Timestamp
    | SessionId | RunId | MessageId | ToolCallId
    | Action | PlanToken | RecoveryId | OriginRecoveryId | TargetRelativePath | SourceDraft | TargetCanonicalPath
    | SourceCanonicalPath | ReferenceTargetCanonicalPath | Changed | TargetState | SourceState
    | EventKey | Projection | ActionEvidence | Message | RunErrorObserved | Delta
    | Other(which: nat)

  type Fields = map<Key, Value>

  datatype Value = Null | Bool(b: bool) | Num(n: Number) | Str(s: string) | List(items: seq<Value>) | Object(fields: Fields)

  // ---------- What survives JSON ----------

  /** Every number is finite. */
  predicate Finite(v: Value) {
    match v
    case Num(n) => !n.NotFinite?
    case List(items) => forall i :: 0 <= i < |items| ==> Finite(items[i])
    case Object(fields) => forall k :: k in fields ==> Finite(fields[k])
    case _ => true
  }

  /** The value as the browser holds it: integers become the doubles nearest to them. */
  function AsRead(double: int -> Number, v: Value): Value {
    match v
    case Num(Whole(n)) => Num(double(n))
    case List(items) => List(seq(|items|, i requires 0 <= i < |items| => AsRead(double, items[i])))
    case Object(fields) => Object(map k | k in fields :: AsRead(double, fields[k]))
    case _ => v
  }

  predicate GoodNumber(double: int -> Number, n: Number) {
    match n
    case Whole(i) => double(i) == n
    case Float(_) => true
    case NotFinite(_) => false
  }

  /** Every number is finite, and every integer one that a double holds. */
  predicate Fine(double: int -> Number, v: Value) {
    match v
    case Num(n) => GoodNumber(double, n)
    case List(items) => forall i :: 0 <= i < |items| ==> Fine(double, items[i])
    case Object(fields) => forall k :: k in fields ==> Fine(double, fields[k])
    case _ => true
  }

  /** Exactly such a value comes back from JSON as it was. */
  lemma {:induction false} FineReadsBack(double: int -> Number, v: Value)
    ensures Fine(double, v) <==> Finite(v) && AsRead(double, v) == v
    decreases v
  {
    match v
    case List(items) =>
      forall i | 0 <= i < |items| ensures Fine(double, items[i]) <==> Finite(items[i]) && AsRead(double, items[i]) == items[i] {
        FineReadsBack(double, items[i]);
      }
      var read := AsRead(double, v).items;
      assert read == items <==> forall i :: 0 <= i < |items| ==> read[i] == items[i];
    case Object(fields) =>
      forall k | k in fields ensures Fine(double, fields[k]) <==> Finite(fields[k]) && AsRead(double, fields[k]) == fields[k] {
        FineReadsBack(double, fields[k]);
      }
      var read := AsRead(double, v).fields;
      assert read.Keys == fields.Keys;
      assert read == fields <==> forall k :: k in fields ==> read[k] == fields[k];
    case _ =>
  }

  // ---------- What the projection passes on ----------

  const NUMBER_KEYS: set<Key> := {Seq, Ts, Timestamp}

  const ID_KEYS: set<Key> := {SessionId, RunId, MessageId, ToolCallId}

  /** The result and plan fields copied as they are, whatever scalar they hold. */
  const RESULT_KEYS: set<Key> := {
    Action, PlanToken, RecoveryId, OriginRecoveryId, TargetRelativePath, SourceDraft, TargetCanonicalPath,
    SourceCanonicalPath, ReferenceTargetCanonicalPath, Changed}

  const PLAN_KEYS: set<Key> := {
    Action, TargetRelativePath, SourceDraft, TargetCanonicalPath, SourceCanonicalPath, ReferenceTargetCanonicalPath,
    TargetState, SourceState}

  /** A field that never holds a number: text, a flag, a list of choices, or a group of texts. */
  datatype Plain = Word(s: string) | Flag(b: bool) | Choices(words: seq<string>) | Group(named: map<Key, string>)

  function PlainValue(p: Plain): Value {
    match p
    case Word(s) => Str(s)
    case Flag(b) => Bool(b)
    case Choices(words) => List(seq(|words|, i requires 0 <= i < |words| => Str(words[i])))
    case Group(words) => Object(map k | k in words :: Str(words[k]))
  }

  function PlainFields(texts: map<Key, Plain>): Fields { map k | k in texts :: PlainValue(texts[k]) }

  /** A tool result among the messages of a completed run: the message, and the result or previewed plan in it. */
  datatype Shown = Shown(message: Fields, source: Fields, preview: bool, texts: map<Key, Plain>) {
    function Keys(): set<Key> { if preview then PLAN_KEYS else RESULT_KEYS }
  }

  /**
   The parts of the projection that deal in text only: well-formed ids; a value as a trimmed name; bounded text; the
   fields of an event, and of the projection inside it, that never hold numbers; and the results that are shown.
   */
  datatype Words = Words(
    id: Value -> string, name: Value -> string, bounded: (Key, string) -> string,
    texts: (string, Fields) -> map<Key, Plain>, inner: (string, Fields) -> map<Key, Plain>, shown: Fields -> seq<Shown>)

  function Get(fields: Fields, key: Key): Value { if key in fields then fields[key] else Null }

  /** `_common`: ids that are well formed, and numbers as they are. */
  function Common(w: Words, data: Fields): Fields {
    var ids := map k | k in ID_KEYS && w.id(Get(data, k)) != "" :: Str(w.id(Get(data, k)));
    var numbers := map k | k in NUMBER_KEYS && k in data && data[k].Num? :: data[k];
    ids + numbers
  }

  /** `_safe_scalar` over the keys that are copied. */
  function Copied(w: Words, source: Fields, keys: set<Key>): Fields {
    map k | k in keys && k in source && (source[k].Num? || source[k].Bool? || (source[k].Str? && w.bounded(k, source[k].s) != "")) ::
      (if source[k].Str? then Str(w.bounded(k, source[k].s)) else source[k])
  }

  /** One item of the evidence that ends a run. */
  function Item(w: Words, s: Shown): Value {
    Object(PlainFields(s.texts) + Copied(w, s.source, s.Keys()) + Common(w, s.message))
  }

  function Evidence(w: Words, shown: seq<Shown>): Value {
    List(seq(|shown|, i requires 0 <= i < |shown| => Item(w, shown[i])))
  }

  /** The run id, if it is one exactly. */
  function ExactRun(w: Words, data: Fields): Option<string> {
    var run := Get(data, RunId);
    if run.Str? && run.s != "" && w.id(run) == run.s then Some(run.s) else None
  }

  const NAMES: set<string> := {
    "run.started", "message.started", "assistant.delta", "tool.progress", "tool.started", "tool.completed",
    "tool.failed", "approval.request", "assistant.completed", "run.completed", "run.cancelled", "run.failed", "error",
    "done", "projection.unobserved"}

  /** The name an event goes by upstream. */
  function EventName(w: Words, eventName: string, data: Fields): string {
    w.name(if eventName != "" then Str(eventName) else Get(data, EventKey))
  }

  const UNOBSERVED := "projection.unobserved"
  const APPROVAL := "approval.request"
  const COMPLETED := "run.completed"

  /** Events that must name their run, and those that may. */
  predicate NeedsRun(name: string, data: Fields) {
    || name in {"run.started", "run.completed", "run.cancelled", "run.failed"}
    || (name in {"error", "done"} && RunId in data)
  }

  /** Which name the event goes by. */
  function ShownName(name: string): string { if name in NAMES && name != UNOBSERVED then name else UNOBSERVED }

  /** The common fields of an event; an approval whose run is not exact names none. */
  function CommonOf(w: Words, name: string, data: Fields): Fields {
    if name == APPROVAL && ExactRun(w, data).None? then Common(w, data) - {RunId} else Common(w, data)
  }

  /** Fields that are no texts of the event's own. */
  const NOT_TEXT: set<Key> := ID_KEYS + NUMBER_KEYS + {Projection, ActionEvidence}

  /** The payload of an event of this name. */
  function Payload(w: Words, name: string, data: Fields): Value {
    var common := CommonOf(w, name, data);
    var fields := PlainFields(w.texts(name, data) - NOT_TEXT) + common;
    if name == APPROVAL || ShownName(name) == UNOBSERVED then
      Object(fields[Projection := Object(PlainFields(w.inner(name, data) - NOT_TEXT) + common)])
    else if name == COMPLETED then Object(fields[ActionEvidence := Evidence(w, w.shown(data))])
    else Object(fields)
  }

  datatype Event = Event(name: string, payload: Value)

  /** `project_stream_event`. */
  function ProjectEvent(w: Words, session: string, eventName: string, data: Value): Option<Event> {
    if !data.Object? then None
    else
      var fields := data.fields;
      if session != "" && SessionId in fields && (fields[SessionId] != Str(session) || w.id(Str(session)) != session) then None
      else
        var name := EventName(w, eventName, fields);
        if NeedsRun(name, fields) && ExactRun(w, fields).None? then None
        else Some(Event(ShownName(name), Payload(w, name, fields)))
  }

  // ---------- Which events survive ----------

  predicate GoodField(double: int -> Number, data: Fields, key: Key) {
    key in data && data[key].Num? ==> GoodNumber(double, data[key].n)
  }

  predicate GoodCommon(double: int -> Number, data: Fields) { forall k :: k in NUMBER_KEYS ==> GoodField(double, data, k) }

  predicate GoodShown(double: int -> Number, s: Shown) {
    GoodCommon(double, s.message) && forall k :: k in s.Keys() ==> GoodField(double, s.source, k)
  }

  /** Seen on the upstream payload alone: its three numbers, and at the end of a run those of the results shown. */
  predicate GoodNumbers(w: Words, double: int -> Number, name: string, data: Fields) {
    && GoodCommon(double, data)
    && (name == COMPLETED ==> forall i :: 0 <= i < |w.shown(data)| ==> GoodShown(double, w.shown(data)[i]))
  }

  lemma PlainIsFine(double: int -> Number, p: Plain)
    ensures Fine(double, PlainValue(p))
  {
  }

  lemma PlainFieldsFine(double: int -> Number, texts: map<Key, Plain>)
    ensures forall k :: k in PlainFields(texts) ==> Fine(double, PlainFields(texts)[k])
  {
    forall k | k in texts ensures Fine(double, PlainFields(texts)[k]) { PlainIsFine(double, texts[k]); }
  }

  lemma CommonFine(w: Words, double: int -> Number, data: Fields)
    ensures GoodCommon(double, data) <==> forall k :: k in Common(w, data) ==> Fine(double, Common(w, data)[k])
  {
    var common := Common(w, data);
    if forall k :: k in common ==> Fine(double, common[k]) {
      forall k | k in NUMBER_KEYS ensures GoodField(double, data, k) {
        if k in data && data[k].Num? { assert common[k] == data[k]; }
      }
    } else {
      var k :| k in common && !Fine(double, common[k]);
      assert k in NUMBER_KEYS && common[k] == data[k];
    }
  }

  /** Merging fields that are fine anyway asks only for the rest. */
  lemma MergedFine(double: int -> Number, plain: Fields, rest: Fields)
    requires forall k :: k in plain ==> Fine(double, plain[k])
    ensures Fine(double, Object(plain + rest)) <==> forall k :: k in rest ==> Fine(double, rest[k])
  {
    if Fine(double, Object(plain + rest)) {
      forall k | k in rest ensures Fine(double, rest[k]) { assert (plain + rest)[k] == rest[k]; }
    }
  }

  lemma CopiedFine(w: Words, double: int -> Number, source: Fields, keys: set<Key>)
    ensures (forall k :: k in keys ==> GoodField(double, source, k))
      <==> forall k :: k in Copied(w, source, keys) ==> Fine(double, Copied(w, source, keys)[k])
  {
    var copied := Copied(w, source, keys);
    if forall k :: k in copied ==> Fine(double, copied[k]) {
      forall k | k in keys ensures GoodField(double, source, k) {
        if k in source && source[k].Num? { assert copied[k] == source[k]; }
      }
    } else {
      var k :| k in copied && !Fine(double, copied[k]);
      assert k in keys && copied[k] == source[k];
    }
  }

  /** Fields of two kinds with different keys are fine together when each kind is. */
  lemma ApartFine(double: int -> Number, a: Fields, b: Fields)
    requires a.Keys !! b.Keys
    ensures (forall k :: k in a + b ==> Fine(double, (a + b)[k]))
      <==> (forall k :: k in a ==> Fine(double, a[k])) && forall k :: k in b ==> Fine(double, b[k])
  {
    var both := a + b;
    if forall k :: k in both ==> Fine(double, both[k]) {
      forall k | k in b ensures Fine(double, b[k]) { assert both[k] == b[k]; }
      forall k | k in a ensures Fine(double, a[k]) { assert k !in b && both[k] == a[k]; }
    }
  }

  lemma CommonKeys(w: Words, data: Fields)
    ensures Common(w, data).Keys <= ID_KEYS + NUMBER_KEYS
    ensures RunId in Common(w, data) ==> Common(w, data)[RunId].Str?
    ensures Projection !in Common(w, data) && ActionEvidence !in Common(w, data)
  {
  }

  lemma CopiedKeys(w: Words, source: Fields, keys: set<Key>)
    ensures Copied(w, source, keys).Keys <= keys
  {
  }

  lemma CopiedKeysApart(s: Shown)
    ensures s.Keys() !! ID_KEYS + NUMBER_KEYS
  {
  }

  /** Texts and two kinds of fields with different keys, merged. */
  lemma ThreeFine(double: int -> Number, plain: Fields, copied: Fields, common: Fields)
    requires (forall k :: k in plain ==> Fine(double, plain[k])) && copied.Keys !! common.Keys
    ensures Fine(double, Object(plain + copied + common))
      <==> (forall k :: k in copied ==> Fine(double, copied[k])) && forall k :: k in common ==> Fine(double, common[k])
  {
    ApartFine(double, copied, common);
    assert plain + copied + common == plain + (copied + common);
    MergedFine(double, plain, copied + common);
  }

  lemma ItemFine(w: Words, double: int -> Number, s: Shown)
    ensures Fine(double, Item(w, s)) <==> GoodShown(double, s)
  {
    PlainFieldsFine(double, s.texts);
    CopiedFine(w, double, s.source, s.Keys());
    CommonFine(w, double, s.message);
    CommonKeys(w, s.message);
    CopiedKeys(w, s.source, s.Keys());
    CopiedKeysApart(s);
    ThreeFine(double, PlainFields(s.texts), Copied(w, s.source, s.Keys()), Common(w, s.message));
  }

  lemma EvidenceFine(w: Words, double: int -> Number, shown: seq<Shown>)
    ensures Fine(double, Evidence(w, shown)) <==> forall i :: 0 <= i < |shown| ==> GoodShown(double, shown[i])
  {
    forall i | 0 <= i < |shown| ensures Fine(double, Item(w, shown[i])) <==> GoodShown(double, shown[i]) {
      ItemFine(w, double, shown[i]);
    }
    var items := Evidence(w, shown).items;
    assert forall i :: 0 <= i < |shown| ==> items[i] == Item(w, shown[i]);
  }

  /** A field set beside others counts like one of them. */
  lemma WithFieldFine(double: int -> Number, fields: Fields, key: Key, v: Value)
    requires key !in fields || Fine(double, fields[key])
    ensures Fine(double, Object(fields[key := v])) <==> Fine(double, Object(fields)) && Fine(double, v)
  {
    var more := fields[key := v];
    if Fine(double, Object(more)) {
      assert more[key] == v;
      forall k | k in fields ensures Fine(double, fields[k]) { if k != key { assert more[k] == fields[k]; } }
    }
  }

  lemma WithoutTextFine(double: int -> Number, fields: Fields, key: Key)
    requires key in fields ==> fields[key].Str?
    ensures (forall k :: k in fields ==> Fine(double, fields[k]))
      <==> forall k :: k in fields - {key} ==> Fine(double, (fields - {key})[k])
  {
    var rest := fields - {key};
    if forall k :: k in rest ==> Fine(double, rest[k]) {
      forall k | k in fields ensures Fine(double, fields[k]) { if k != key { assert rest[k] == fields[k]; } }
    }
  }

  lemma CommonOfFine(w: Words, double: int -> Number, name: string, data: Fields)
    ensures GoodCommon(double, data) <==> forall k :: k in CommonOf(w, name, data) ==> Fine(double, CommonOf(w, name, data)[k])
    ensures Projection !in CommonOf(w, name, data) && ActionEvidence !in CommonOf(w, name, data)
  {
    CommonFine(w, double, data);
    CommonKeys(w, data);
    var all, common := Common(w, data), CommonOf(w, name, data);
    if name == APPROVAL && ExactRun(w, data).None? {
      assert common == all - {RunId};
      WithoutTextFine(double, all, RunId);
    } else {
      assert common == all;
    }
  }

  /** An event arrives as it was sent exactly when the upstream numbers it carries are good ones. */
  lemma PayloadFine(w: Words, double: int -> Number, name: string, data: Fields)
    ensures Fine(double, Payload(w, name, data)) <==> GoodNumbers(w, double, name, data)
  {
    var common, texts := CommonOf(w, name, data), w.texts(name, data) - NOT_TEXT;
    var fields := PlainFields(texts) + common;
    CommonOfFine(w, double, name, data);
    PlainFieldsFine(double, texts);
    MergedFine(double, PlainFields(texts), common);
    if name == APPROVAL || ShownName(name) == UNOBSERVED {
      var inner := w.inner(name, data) - NOT_TEXT;
      PlainFieldsFine(double, inner);
      MergedFine(double, PlainFields(inner), common);
      WithFieldFine(double, fields, Projection, Object(PlainFields(inner) + common));
      NotCompleted(name);
    } else if name == COMPLETED {
      EvidenceFine(w, double, w.shown(data));
      WithFieldFine(double, fields, ActionEvidence, Evidence(w, w.shown(data)));
    }
  }

  lemma NotCompleted(name: string)
    ensures name == APPROVAL || ShownName(name) == UNOBSERVED ==> name != COMPLETED
  {
    assert APPROVAL[0] == 'a' && COMPLETED[0] == 'r' && UNOBSERVED[0] == 'p';
    assert COMPLETED in NAMES;
  }

  lemma ShownNames(name: string)
    ensures ShownName(name) in NAMES
  {
    assert UNOBSERVED in NAMES;
  }

  /** Without a limit on integers only the finite ones count. */
  lemma {:induction false} FiniteIsFine(v: Value)
    ensures Finite(v) <==> Fine(n => Whole(n), v)
    decreases v
  {
    match v
    case List(items) =>
      forall i | 0 <= i < |items| ensures Finite(items[i]) <==> Fine(n => Whole(n), items[i]) { FiniteIsFine(items[i]); }
    case Object(fields) =>
      forall k | k in fields ensures Finite(fields[k]) <==> Fine(n => Whole(n), fields[k]) { FiniteIsFine(fields[k]); }
    case _ =>
  }

  // ---------- What a shown result carries ----------

  /**
   A shown result carries each field that is copied exactly when it is a number, a flag, or a text that is not empty
   once bounded; numbers and flags as they are.
   */
  lemma ResultIsCopied(w: Words, s: Shown, k: Key)
    requires k in s.Keys()
    ensures Item(w, s).Object?
    ensures k in s.source && (s.source[k].Num? || s.source[k].Bool?) ==> k in Item(w, s).fields && Item(w, s).fields[k] == s.source[k]
    ensures k in s.source && s.source[k].Str? && w.bounded(k, s.source[k].s) != "" ==>
      k in Item(w, s).fields && Item(w, s).fields[k] == Str(w.bounded(k, s.source[k].s))
    ensures k in Item(w, s).fields ==>
      k in s.texts || (k in s.source && (s.source[k].Num? || s.source[k].Bool? || s.source[k].Str?))
  {
    ItemField(w, s, k);
    CopiedField(w, s.source, s.Keys(), k);
  }

  lemma ItemField(w: Words, s: Shown, k: Key)
    requires k in s.Keys()
    ensures var copied := Copied(w, s.source, s.Keys());
      && Item(w, s).Object?
      && (k in copied ==> k in Item(w, s).fields && Item(w, s).fields[k] == copied[k])
      && (k !in copied ==> (k in Item(w, s).fields <==> k in s.texts))
  {
    CommonKeys(w, s.message);
    CopiedKeysApart(s);
    assert k !in Common(w, s.message);
  }

  lemma CopiedField(w: Words, source: Fields, keys: set<Key>, k: Key)
    requires k in keys
    ensures k in source && (source[k].Num? || source[k].Bool?) ==> k in Copied(w, source, keys) && Copied(w, source, keys)[k] == source[k]
    ensures k in source && source[k].Str? && w.bounded(k, source[k].s) != "" ==>
      k in Copied(w, source, keys) && Copied(w, source, keys)[k] == Str(w.bounded(k, source[k].s))
    ensures k in Copied(w, source, keys) ==> k in source && (source[k].Num? || source[k].Bool? || source[k].Str?)
  {
  }

  /** And the common fields of its message: well-formed ids, and numbers as they are. */
  lemma MessageIsCopied(w: Words, s: Shown, k: Key)
    requires k in ID_KEYS + NUMBER_KEYS
    ensures k in NUMBER_KEYS && k in s.message && s.message[k].Num? ==> k in Item(w, s).fields && Item(w, s).fields[k] == s.message[k]
    ensures k in ID_KEYS && w.id(Get(s.message, k)) != "" ==> k in Item(w, s).fields && Item(w, s).fields[k] == Str(w.id(Get(s.message, k)))
  {
    AllIds(w, s.message);
    var common := Common(w, s.message);
    assert k in NUMBER_KEYS && k in s.message && s.message[k].Num? ==> k in common && common[k] == s.message[k];
  }

  // ---------- Whose event it is ----------

  /** The run id is one exactly: a non-empty text that is well formed as it stands. */
  predicate NamesRun(w: Words, data: Fields) {
    RunId in data && data[RunId].Str? && data[RunId].s != "" && w.id(data[RunId]) == data[RunId].s
  }

  /** The event is of another session than the page's. */
  predicate OtherSession(w: Words, session: string, data: Fields) {
    session != "" && SessionId in data && !(data[SessionId] == Str(session) && w.id(Str(session)) == session)
  }

  /** Exactly these upstream events are projected: objects, of no other session, that name their run if they must. */
  lemma ProjectedExactly(w: Words, session: string, eventName: string, data: Value)
    ensures ProjectEvent(w, session, eventName, data).Some? <==>
      && data.Object? && !OtherSession(w, session, data.fields)
      && (NeedsRun(EventName(w, eventName, data.fields), data.fields) ==> NamesRun(w, data.fields))
  {
    if data.Object? { assert ExactRun(w, data.fields).Some? <==> NamesRun(w, data.fields); }
  }

  /**
   A projected event carries each id exactly when it is well formed upstream, and no other ids; an approval carries
   its run only if that is exact; and an event that must name its run carries the run it names.
   */
  lemma EventKeepsIdentity(w: Words, session: string, eventName: string, data: Fields)
    requires ProjectEvent(w, session, eventName, Object(data)).Some?
    ensures var event, name := ProjectEvent(w, session, eventName, Object(data)).value, EventName(w, eventName, data);
      && event.payload.Object?
      && (forall k :: k in ID_KEYS ==> (k in event.payload.fields <==> Carries(w, name, data, k)))
      && (forall k :: k in ID_KEYS && k in event.payload.fields ==> event.payload.fields[k] == Str(w.id(Get(data, k))))
      && (NeedsRun(name, data) ==> RunId in event.payload.fields && event.payload.fields[RunId] == data[RunId])
      && event.name == (if name in KNOWN then name else "projection.unobserved")
      && (event.name == "run.completed" ==> event.payload.fields[ActionEvidence] == Evidence(w, w.shown(data)))
  {
    var name := EventName(w, eventName, data);
    KnownNames(name);
    assert Projection != ActionEvidence && APPROVAL != COMPLETED;
    PayloadIds(w, name, data);
    CommonIds(w, name, data);
    ProjectedExactly(w, session, eventName, Object(data));
    if NamesRun(w, data) { NamedIsCarried(w, name, data); }
  }

  /** The events that keep their name. */
  const KNOWN: set<string> := {
    "run.started", "message.started", "assistant.delta", "tool.progress", "tool.started", "tool.completed",
    "tool.failed", "approval.request", "assistant.completed", "run.completed", "run.cancelled", "run.failed", "error",
    "done"}

  lemma KnownNames(name: string)
    ensures ShownName(name) == (if name in KNOWN then name else "projection.unobserved")
  {
    assert NAMES == KNOWN + {UNOBSERVED};
  }

  predicate Carries(w: Words, name: string, data: Fields, k: Key) {
    w.id(Get(data, k)) != "" && (k == RunId && name == APPROVAL ==> NamesRun(w, data))
  }

  lemma CommonIds(w: Words, name: string, data: Fields)
    ensures forall k :: k in ID_KEYS ==> (k in CommonOf(w, name, data) <==> Carries(w, name, data, k))
    ensures forall k :: k in ID_KEYS && k in CommonOf(w, name, data) ==> CommonOf(w, name, data)[k] == Str(w.id(Get(data, k)))
  {
    AllIds(w, data);
    assert ExactRun(w, data).Some? <==> NamesRun(w, data);
    var all, common := Common(w, data), CommonOf(w, name, data);
    assert common == if name == APPROVAL && ExactRun(w, data).None? then all - {RunId} else all;
  }

  lemma AllIds(w: Words, data: Fields)
    ensures forall k :: k in ID_KEYS ==> (k in Common(w, data) <==> w.id(Get(data, k)) != "")
    ensures forall k :: k in ID_KEYS && k in Common(w, data) ==> Common(w, data)[k] == Str(w.id(Get(data, k)))
  {
    assert ID_KEYS !! NUMBER_KEYS;
  }

  lemma NamedIsCarried(w: Words, name: string, data: Fields)
    requires NamesRun(w, data)
    ensures Carries(w, name, data, RunId) && Str(w.id(Get(data, RunId))) == data[RunId]
  {
  }

  /** The ids of a payload are those of its common fields. */
  lemma PayloadIds(w: Words, name: string, data: Fields)
    ensures Payload(w, name, data).Object?
    ensures forall k :: k in ID_KEYS ==> (k in Payload(w, name, data).fields <==> k in CommonOf(w, name, data))
    ensures forall k :: k in ID_KEYS && k in CommonOf(w, name, data) ==> Payload(w, name, data).fields[k] == CommonOf(w, name, data)[k]
  {
    assert PlainFields(w.texts(name, data) - NOT_TEXT).Keys !! ID_KEYS;
    assert Projection !in ID_KEYS && ActionEvidence !in ID_KEYS;
  }
}
