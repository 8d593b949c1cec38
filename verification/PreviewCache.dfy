/**
 The bounded cache of previews: a map and an insertion-ordered map of creation times, pruned by age when a
 preview is remembered, by one when the cache is full, and by one when a stale preview is asked for.
 */
module PreviewCache {
  import opened Wrappers
  import opened VaultModel

  const PREVIEW_TTL_SECONDS: real := 600.0
  const PREVIEW_CACHE_LIMIT: nat := 32

  /** One call of `_remember_preview`. */
  datatype Memo = Memo(token: Token, entry: Cached, time: real)

  // ---------- The entry and its public part ----------

  predicate IsPrivate(key: string) { key != "" && key[0] == '_' }

  /** What `_remember_preview` stores: the plan's fields with the exact diff and bytes beside them. */
  function Stored<V>(plan: map<string, V>, diff: V, proposed: V): map<string, V> {
    plan["_approval_diff" := diff]["_proposed_bytes" := proposed]
  }

  /** `_public_plan_snapshot`. */
  function PublicSnapshot<V>(entry: map<string, V>): map<string, V> {
    map key | key in entry && !IsPrivate(key) :: entry[key]
  }

  /** The receipt's plan is the previewed plan, so it hashes to the plan's own token, unless a plan field is private. */
  lemma SnapshotIsPlan<V>(plan: map<string, V>, diff: V, proposed: V)
    ensures PublicSnapshot(Stored(plan, diff, proposed)) == plan <==> forall key :: key in plan ==> !IsPrivate(key)
  {
    var entry := Stored(plan, diff, proposed);
    var public := PublicSnapshot(entry);
    assert IsPrivate("_approval_diff") && IsPrivate("_proposed_bytes");
    if forall key :: key in plan ==> !IsPrivate(key) {
      forall key ensures key in public <==> key in plan {
        assert key in entry <==> key in plan || key == "_approval_diff" || key == "_proposed_bytes";
      }
      assert public.Keys == plan.Keys;
    } else {
      var key :| key in plan && IsPrivate(key);
      assert key !in public;
    }
  }

  // ---------- Times ----------

  type Times = seq<(Token, real)>

  /** The creation times of everything remembered and not dropped since, in order. */
  function Listed(history: seq<Memo>, gone: set<Token>): Times {
    if history == [] then []
    else if history[0].token in gone then Listed(history[1..], gone)
    else [(history[0].token, history[0].time)] + Listed(history[1..], gone)
  }

  function Removing(times: Times, token: Token): Times {
    if times == [] then []
    else if times[0].0 == token then Removing(times[1..], token)
    else [times[0]] + Removing(times[1..], token)
  }

  predicate Distinct(history: seq<Memo>) {
    forall i, j :: 0 <= i < j < |history| ==> history[i].token != history[j].token
  }

  predicate Ordered(history: seq<Memo>) {
    forall i, j :: 0 <= i < j < |history| ==> history[i].time <= history[j].time
  }

  lemma {:induction false} RemovingListed(history: seq<Memo>, gone: set<Token>, token: Token)
    ensures Removing(Listed(history, gone), token) == Listed(history, gone + {token})
  {
    if history != [] {
      RemovingListed(history[1..], gone, token);
    }
  }

  lemma {:induction false} ListedAppend(history: seq<Memo>, gone: set<Token>, memo: Memo)
    requires memo.token !in gone
    ensures Listed(history + [memo], gone) == Listed(history, gone) + [(memo.token, memo.time)]
  {
    if history != [] {
      ListedAppend(history[1..], gone, memo);
      assert (history + [memo])[1..] == history[1..] + [memo];
    } else {
      assert (history + [memo])[1..] == [];
    }
  }

  lemma {:induction false} ListedMembers(history: seq<Memo>, gone: set<Token>)
    ensures forall p :: p in Listed(history, gone) <==>
      exists i :: 0 <= i < |history| && history[i].token !in gone && p == (history[i].token, history[i].time)
  {
    if history != [] {
      ListedMembers(history[1..], gone);
      var rest := history[1..];
      forall p ensures p in Listed(history, gone) <==>
        exists i :: 0 <= i < |history| && history[i].token !in gone && p == (history[i].token, history[i].time)
      {
        if p in Listed(rest, gone) {
          var i :| 0 <= i < |rest| && rest[i].token !in gone && p == (rest[i].token, rest[i].time);
          assert history[i + 1] == rest[i];
        }
        if i :| 0 <= i < |history| && history[i].token !in gone && p == (history[i].token, history[i].time) {
          if i > 0 { assert rest[i - 1] == history[i]; }
        }
      }
    }
  }

  lemma {:induction false} ListedSkips(history: seq<Memo>, gone: set<Token>, lo: nat)
    requires lo <= |history| && forall i :: 0 <= i < lo ==> history[i].token in gone
    ensures Listed(history, gone) == Listed(history[lo..], gone)
  {
    if lo > 0 {
      ListedSkips(history[1..], gone, lo - 1);
      assert history[1..][lo - 1..] == history[lo..];
    } else {
      assert history[0..] == history;
    }
  }

  lemma {:induction false} ListedCount(history: seq<Memo>, gone: set<Token>)
    ensures |Listed(history, gone)| <= |history|
    ensures |Listed(history, gone)| == |history| <==> forall i :: 0 <= i < |history| ==> history[i].token !in gone
  {
    if history != [] {
      var rest := history[1..];
      ListedCount(rest, gone);
      assert forall i :: 0 <= i < |rest| ==> rest[i] == history[i + 1];
      assert forall i :: 1 <= i < |history| ==> history[i] == rest[i - 1];
    }
  }

  /** What the cache should answer: remembered, young enough, and not pushed out by later previews. */
  ghost predicate Answers(history: seq<Memo>, token: Token, now: real, i: nat) {
    && i < |history| && history[i].token == token
    && now - history[i].time <= 600.0 && |history| - 1 - i < 32
  }

  /** `_PREVIEW_TIMES.get`. */
  function TimeOf(times: Times, token: Token): Option<real> {
    if times == [] then None else if times[0].0 == token then Some(times[0].1) else TimeOf(times[1..], token)
  }

  lemma {:induction false} TimeOfMember(times: Times, token: Token)
    ensures TimeOf(times, token).Some? ==> (token, TimeOf(times, token).value) in times
    ensures TimeOf(times, token).None? ==> forall p :: p in times ==> p.0 != token
  {
    if times != [] { TimeOfMember(times[1..], token); }
  }

  ghost predicate FirstSmallest(times: Times, i: nat) {
    && i < |times|
    && (forall j :: 0 <= j < |times| ==> times[i].1 <= times[j].1)
    && (forall j :: 0 <= j < i ==> times[i].1 < times[j].1)
  }

  /** `min(times, key=times.get)`: the first of the smallest. */
  method Oldest(times: Times) returns (token: Token)
    requires times != []
    ensures exists i :: 0 <= i < |times| && times[i].0 == token && FirstSmallest(times, i)
  {
    var best := 0;
    for k := 1 to |times|
      invariant 0 <= best < k
      invariant forall j :: 0 <= j < k ==> times[best].1 <= times[j].1
      invariant forall j :: 0 <= j < best ==> times[best].1 < times[j].1
    {
      if times[k].1 < times[best].1 {
        best := k;
      }
    }
    assert FirstSmallest(times, best);
    token := times[best].0;
  }

  lemma {:induction false} ListedOrdered(history: seq<Memo>, gone: set<Token>)
    requires Ordered(history)
    ensures forall i, j :: 0 <= i <= j < |Listed(history, gone)| ==> Listed(history, gone)[i].1 <= Listed(history, gone)[j].1
  {
    if history != [] {
      ListedOrdered(history[1..], gone);
      ListedMembers(history[1..], gone);
      var rest := Listed(history[1..], gone);
      forall p | p in rest ensures history[0].time <= p.1 {
        var i :| 0 <= i < |history[1..]| && history[1..][i].token !in gone && p == (history[1..][i].token, history[1..][i].time);
        assert history[1..][i] == history[i + 1];
      }
    }
  }

  lemma {:induction false} ListedKeys(history: seq<Memo>, gone: set<Token>)
    requires Distinct(history)
    ensures |set p | p in Listed(history, gone) :: p.0| == |Listed(history, gone)|
  {
    var list := Listed(history, gone);
    if history == [] {
      assert (set p | p in list :: p.0) == {};
    } else {
      var rest := history[1..];
      ListedKeys(rest, gone);
      ListedMembers(rest, gone);
      if history[0].token !in gone {
        assert (set p | p in list :: p.0) == {history[0].token} + set p | p in Listed(rest, gone) :: p.0;
        assert forall p :: p in Listed(rest, gone) ==> p.0 != history[0].token;
      }
    }
  }

  function Tokens(history: seq<Memo>): set<Token> {
    set i | 0 <= i < |history| :: history[i].token
  }

  /** The dictionaries hold what is remembered and not gone. */
  ghost predicate Holds(previews: map<Token, Cached>, times: Times, history: seq<Memo>, gone: set<Token>) {
    && times == Listed(history, gone)
    && gone <= Tokens(history) && previews.Keys == Tokens(history) - gone
    && forall i :: 0 <= i < |history| && history[i].token !in gone ==> previews[history[i].token] == history[i].entry
  }

  /** The clock is monotone and every token new. */
  ghost predicate Sane(history: seq<Memo>, clock: real) {
    Distinct(history) && Ordered(history) && forall i :: 0 <= i < |history| ==> history[i].time <= clock
  }

  /** Everything before the last `limit` is gone, and what is gone of those is stale. */
  ghost predicate Pruned(history: seq<Memo>, gone: set<Token>, clock: real, limit: nat) {
    && (forall i :: 0 <= i < |history| && i + limit < |history| ==> history[i].token in gone)
    && (forall i :: 0 <= i < |history| && i + limit >= |history| && history[i].token in gone ==>
      clock - history[i].time > PREVIEW_TTL_SECONDS)
  }

  ghost predicate NothingStale(history: seq<Memo>, gone: set<Token>, clock: real) {
    forall i :: 0 <= i < |history| && history[i].token !in gone ==> clock - history[i].time <= PREVIEW_TTL_SECONDS
  }

  lemma HoldsSize(previews: map<Token, Cached>, times: Times, history: seq<Memo>, gone: set<Token>)
    requires Holds(previews, times, history, gone) && Distinct(history)
    ensures previews.Keys == (set p | p in times :: p.0) && |previews| == |times|
  {
    ListedMembers(history, gone);
    ListedKeys(history, gone);
    var keys := set p | p in times :: p.0;
    forall t | t in previews.Keys ensures t in keys {
      var i :| 0 <= i < |history| && history[i].token == t;
      assert (history[i].token, history[i].time) in times;
    }
    assert previews.Keys == keys;
    assert |previews| == |previews.Keys|;
  }

  lemma PrunedSize(history: seq<Memo>, gone: set<Token>, clock: real)
    requires Pruned(history, gone, clock, PREVIEW_CACHE_LIMIT)
    ensures |Listed(history, gone)| <= PREVIEW_CACHE_LIMIT
  {
    var lo := if |history| <= PREVIEW_CACHE_LIMIT then 0 else |history| - PREVIEW_CACHE_LIMIT;
    ListedSkips(history, gone, lo);
    ListedCount(history[lo..], gone);
  }

  /** With nothing stale left, a cache that is not full has dropped the start of a full window. */
  lemma NotFullHasRoom(history: seq<Memo>, gone: set<Token>, clock: real)
    requires Sane(history, clock) && Pruned(history, gone, clock, PREVIEW_CACHE_LIMIT) && NothingStale(history, gone, clock)
    requires |Listed(history, gone)| < PREVIEW_CACHE_LIMIT
    ensures Pruned(history, gone, clock, PREVIEW_CACHE_LIMIT - 1)
  {
    if |history| >= PREVIEW_CACHE_LIMIT {
      var lo := |history| - PREVIEW_CACHE_LIMIT;
      var window := history[lo..];
      ListedSkips(history, gone, lo);
      ListedCount(window, gone);
      var i :| 0 <= i < |window| && window[i].token in gone;
      assert window[i] == history[lo + i];
      assert history[lo].time <= history[lo + i].time;
    }
  }

  /** A full cache starts with the start of the window. */
  lemma FullStartsWindow(history: seq<Memo>, gone: set<Token>, clock: real)
    requires Pruned(history, gone, clock, PREVIEW_CACHE_LIMIT) && |Listed(history, gone)| >= PREVIEW_CACHE_LIMIT
    ensures |history| >= PREVIEW_CACHE_LIMIT
    ensures Listed(history, gone)[0].0 == history[|history| - PREVIEW_CACHE_LIMIT].token
  {
    var lo := if |history| <= PREVIEW_CACHE_LIMIT then 0 else |history| - PREVIEW_CACHE_LIMIT;
    ListedSkips(history, gone, lo);
    ListedCount(history[lo..], gone);
    assert history[lo..][0].token !in gone;
  }

  lemma DropStart(history: seq<Memo>, gone: set<Token>, clock: real, token: Token)
    requires Distinct(history) && Pruned(history, gone, clock, PREVIEW_CACHE_LIMIT)
    requires |history| >= PREVIEW_CACHE_LIMIT && token == history[|history| - PREVIEW_CACHE_LIMIT].token
    ensures Pruned(history, gone + {token}, clock, PREVIEW_CACHE_LIMIT - 1)
  {
  }

  lemma FirstIsOldest(history: seq<Memo>, gone: set<Token>, i: nat)
    requires Ordered(history) && FirstSmallest(Listed(history, gone), i)
    ensures i == 0
  {
    ListedOrdered(history, gone);
    var list := Listed(history, gone);
    assert list[0].1 <= list[i].1;
  }

  lemma AppendHolds(previews: map<Token, Cached>, times: Times, history: seq<Memo>, gone: set<Token>, memo: Memo)
    requires Holds(previews, times, history, gone) && memo.token !in Tokens(history)
    ensures Holds(previews[memo.token := memo.entry], times + [(memo.token, memo.time)], history + [memo], gone)
  {
    ListedAppend(history, gone, memo);
    assert Tokens(history + [memo]) == Tokens(history) + {memo.token} by {
      forall t | t in Tokens(history) ensures t in Tokens(history + [memo]) {
        var i :| 0 <= i < |history| && history[i].token == t;
        assert (history + [memo])[i].token == t;
      }
      assert (history + [memo])[|history|].token == memo.token;
    }
    forall i | 0 <= i < |history| ensures history[i].token != memo.token {
      assert history[i].token in Tokens(history);
    }
  }

  lemma AppendPruned(history: seq<Memo>, gone: set<Token>, clock: real, memo: Memo)
    requires Sane(history, clock) && Pruned(history, gone, clock, PREVIEW_CACHE_LIMIT - 1) && gone <= Tokens(history)
    requires memo.token !in Tokens(history) && memo.time == clock
    ensures Sane(history + [memo], clock) && Pruned(history + [memo], gone, clock, PREVIEW_CACHE_LIMIT)
  {
    forall i | 0 <= i < |history| ensures history[i].token != memo.token {
      assert history[i].token in Tokens(history);
    }
  }

  /** Where a listed token was remembered. */
  lemma ListedAt(history: seq<Memo>, gone: set<Token>, token: Token) returns (i: nat)
    requires Distinct(history) && TimeOf(Listed(history, gone), token).Some?
    ensures i < |history| && history[i].token == token && token !in gone
    ensures history[i].time == TimeOf(Listed(history, gone), token).value
  {
    ListedMembers(history, gone);
    TimeOfMember(Listed(history, gone), token);
    var p := (token, TimeOf(Listed(history, gone), token).value);
    i :| 0 <= i < |history| && history[i].token !in gone && p == (history[i].token, history[i].time);
  }

  lemma Unlisted(history: seq<Memo>, gone: set<Token>, clock: real, token: Token)
    requires Pruned(history, gone, clock, PREVIEW_CACHE_LIMIT) && TimeOf(Listed(history, gone), token).None?
    ensures forall i: nat :: !Answers(history, token, clock, i)
  {
    ListedMembers(history, gone);
    TimeOfMember(Listed(history, gone), token);
    forall i: nat | i < |history| && history[i].token == token ensures !Answers(history, token, clock, i) {
      assert (token, history[i].time) in Listed(history, gone) || history[i].token in gone;
    }
  }

  /** A listed token is answered exactly while it is young, and with what was remembered. */
  lemma ListedAnswers(history: seq<Memo>, gone: set<Token>, clock: real, token: Token, i: nat)
    requires Sane(history, clock) && Pruned(history, gone, clock, PREVIEW_CACHE_LIMIT)
    requires i < |history| && history[i].token == token && token !in gone
    ensures (exists j: nat :: Answers(history, token, clock, j)) <==> clock - history[i].time <= PREVIEW_TTL_SECONDS
    ensures forall j: nat :: Answers(history, token, clock, j) ==> j == i
  {
    if clock - history[i].time <= PREVIEW_TTL_SECONDS { assert Answers(history, token, clock, i); }
  }

  class Cache {
    var previews: map<Token, Cached>
    var times: Times
    ghost var history: seq<Memo>
    ghost var gone: set<Token>
    ghost var clock: real

    ghost predicate Valid()
      reads this
    {
      && Sane(history, clock) && Holds(previews, times, history, gone)
      && Pruned(history, gone, clock, PREVIEW_CACHE_LIMIT)
    }

    /** Both dictionaries have the same keys, at most 32. */
    lemma SameKeys()
      requires Valid()
      ensures previews.Keys == (set p | p in times :: p.0) && |previews| == |times| <= 32
    {
      HoldsSize(previews, times, history, gone);
      PrunedSize(history, gone, clock);
    }

    constructor ()
      ensures Valid() && history == []
    {
      previews, times := map[], [];
      history, gone, clock := [], {}, 0.0;
    }

    /** Drops one key from both dictionaries. */
    method Pop(token: Token)
      modifies this
      requires Holds(previews, times, history, gone) && token in Tokens(history)
      ensures Holds(previews, times, history, gone) && gone == old(gone) + {token}
      ensures history == old(history) && clock == old(clock)
    {
      RemovingListed(history, gone, token);
      previews := previews - {token};
      times := Removing(times, token);
      gone := gone + {token};
    }

    /** Drops every entry older than the limit. */
    method Expire(now: real)
      modifies this
      requires Valid() && clock == now
      ensures Valid() && history == old(history) && clock == old(clock)
      ensures NothingStale(history, gone, clock)
    {
      var expired: seq<Token> := [];
      for k := 0 to |times|
        invariant forall t :: t in expired <==> exists i :: 0 <= i < k && times[i].0 == t && clock - times[i].1 > PREVIEW_TTL_SECONDS
      {
        if now - times[k].1 > PREVIEW_TTL_SECONDS {
          expired := expired + [times[k].0];
        }
      }
      StaleAreListed(expired);
      for k := 0 to |expired|
        invariant Valid() && history == old(history) && clock == old(clock)
        invariant gone == old(gone) + set t | t in expired[..k]
      {
        assert expired[..k + 1] == expired[..k] + [expired[k]];
        assert expired[k] in expired;
        Pop(expired[k]);
      }
      assert expired[..|expired|] == expired;
    }

    lemma StaleAreListed(expired: seq<Token>)
      requires Valid()
      requires forall t :: t in expired <==> exists i :: 0 <= i < |times| && times[i].0 == t && clock - times[i].1 > PREVIEW_TTL_SECONDS
      ensures forall i :: 0 <= i < |history| && history[i].token in expired ==> clock - history[i].time > PREVIEW_TTL_SECONDS
      ensures forall t :: t in expired ==> t in Tokens(history)
      ensures forall i :: 0 <= i < |history| && history[i].token !in gone && clock - history[i].time > PREVIEW_TTL_SECONDS ==>
        history[i].token in expired
    {
      ListedMembers(history, gone);
      forall t | t in expired
        ensures t in Tokens(history)
        ensures forall n :: 0 <= n < |history| && history[n].token == t ==> clock - history[n].time > PREVIEW_TTL_SECONDS
      {
        var i :| 0 <= i < |times| && times[i].0 == t && clock - times[i].1 > PREVIEW_TTL_SECONDS;
        assert times[i] in times;
        var j :| 0 <= j < |history| && history[j].token !in gone && times[i] == (history[j].token, history[j].time);
      }
      forall n | 0 <= n < |history| && history[n].token !in gone && clock - history[n].time > PREVIEW_TTL_SECONDS
        ensures history[n].token in expired
      {
        var p := (history[n].token, history[n].time);
        assert p in times;
        var i :| 0 <= i < |times| && times[i] == p;
      }
    }

    /** Drops the oldest entry of a full cache. */
    method MakeRoom()
      modifies this
      requires Valid() && NothingStale(history, gone, clock)
      ensures Sane(history, clock) && Holds(previews, times, history, gone)
      ensures Pruned(history, gone, clock, PREVIEW_CACHE_LIMIT - 1)
      ensures history == old(history) && clock == old(clock)
    {
      HoldsSize(previews, times, history, gone);
      if |previews| >= PREVIEW_CACHE_LIMIT {
        FullStartsWindow(history, gone, clock);
        var oldest := Oldest(times);
        ghost var i :| 0 <= i < |times| && times[i].0 == oldest && FirstSmallest(times, i);
        FirstIsOldest(history, gone, i);
        DropStart(history, gone, clock, oldest);
        Pop(oldest);
      } else {
        NotFullHasRoom(history, gone, clock);
      }
    }

    /** `_remember_preview`. */
    method Remember(token: Token, entry: Cached, now: real)
      modifies this
      requires Valid() && clock <= now && token !in Tokens(history)
      ensures Valid() && clock == now
      ensures history == old(history) + [Memo(token, entry, now)]
    {
      clock := now;
      Expire(now);
      MakeRoom();
      AppendHolds(previews, times, history, gone, Memo(token, entry, now));
      AppendPruned(history, gone, clock, Memo(token, entry, now));
      previews := previews[token := entry];
      times := times + [(token, now)];
      history := history + [Memo(token, entry, now)];
    }

    /** `_lookup_preview`: exactly the remembered plan, exactly while it is young and fewer than 32 came after it. */
    method Lookup(token: Token, now: real) returns (found: Option<Cached>)
      modifies this
      requires Valid() && clock <= now
      ensures Valid() && clock == now && history == old(history)
      ensures found.Some? <==> exists i: nat :: Answers(history, token, now, i)
      ensures forall i: nat :: Answers(history, token, now, i) ==> found == Some(history[i].entry)
    {
      clock := now;
      var created := TimeOf(times, token);
      if created.None? {
        Unlisted(history, gone, clock, token);
        return None;
      }
      ghost var i := ListedAt(history, gone, token);
      ListedAnswers(history, gone, clock, token, i);
      assert token in Tokens(history);
      if now - created.value > PREVIEW_TTL_SECONDS {
        Pop(token);
        return None;
      }
      found := Some(previews[token]);
    }
  }
}
