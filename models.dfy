/** The two persisted record types, `PostedToken` and `MonitorStats`, with
    their column defaults and their `to_dict` projections for the dashboard. */
module Models {
  import opened Wrappers
  import opened PyValue

  /** A point in time, carried by its `isoformat()` text; the model never
      reads a clock, the caller supplies the instant. */
  datatype Timestamp = Timestamp(iso: string)

  /** A row of `posted_token`: `name` and `contract_address` are non-null,
      `contract_address` is the table's unique key, `posted_at` defaults to
      the insertion instant and `telegram_message_id` may be null. */
  datatype PostedToken = PostedToken(
    id: int,
    name: string,
    contractAddress: string,
    postedAt: Timestamp,
    telegramMessageId: Option<string>)

  function OptStr(o: Option<string>): Json {
    if o.Some? then JStr(o.value) else JNull
  }

  function KeysOf(ms: seq<Member>): seq<string> {
    seq(|ms|, k requires 0 <= k < |ms| => ms[k].key)
  }

  /** A lookup finds the first entry with the key. */
  lemma {:induction false} LookupFirst(ms: seq<Member>, key: string, k: nat)
    requires k < |ms| && ms[k].key == key
    requires forall j :: 0 <= j < k ==> ms[j].key != key
    ensures Lookup(ms, key) == Some(ms[k].value)
  {
    if k > 0 {
      LookupFirst(ms[1..], key, k - 1);
    }
  }

  /** `PostedToken.to_dict()`: exactly five entries, in this order, with the
      timestamp as its ISO text and the other fields unchanged. */
  function PostedTokenToDict(t: PostedToken): (d: Json)
    ensures d.JObj?
    ensures KeysOf(d.members) == ["id", "name", "contract_address", "posted_at", "telegram_message_id"]
    ensures Lookup(d.members, "id") == Some(JInt(t.id))
    ensures Lookup(d.members, "name") == Some(JStr(t.name))
    ensures Lookup(d.members, "contract_address") == Some(JStr(t.contractAddress))
    ensures Lookup(d.members, "posted_at") == Some(JStr(t.postedAt.iso))
    ensures Lookup(d.members, "telegram_message_id") == Some(OptStr(t.telegramMessageId))
  {
    var ms := [
      Member("id", JInt(t.id)),
      Member("name", JStr(t.name)),
      Member("contract_address", JStr(t.contractAddress)),
      Member("posted_at", JStr(t.postedAt.iso)),
      Member("telegram_message_id", OptStr(t.telegramMessageId))];
    LookupFirst(ms, "id", 0);
    LookupFirst(ms, "name", 1);
    LookupFirst(ms, "contract_address", 2);
    LookupFirst(ms, "posted_at", 3);
    LookupFirst(ms, "telegram_message_id", 4);
    JObj(ms)
  }

  /** Reads a dashboard dict back into a row; `None` when an entry is missing
      or has the wrong type. */
  function PostedTokenFromDict(d: Json): Option<PostedToken> {
    if !d.JObj? then None
    else
      var id :- Lookup(d.members, "id");
      var name :- Lookup(d.members, "name");
      var key :- Lookup(d.members, "contract_address");
      var at :- Lookup(d.members, "posted_at");
      var msg :- Lookup(d.members, "telegram_message_id");
      if id.JInt? && name.JStr? && key.JStr? && at.JStr? && (msg.JStr? || msg.JNull?) then
        Some(PostedToken(id.i, name.s, key.s, Timestamp(at.s), if msg.JStr? then Some(msg.s) else None))
      else None
  }

  /** `to_dict` loses nothing: the row can be read back from it. */
  lemma PostedTokenDictRoundTrip(t: PostedToken)
    ensures PostedTokenFromDict(PostedTokenToDict(t)) == Some(t)
  {
  }

  /** The singleton `monitor_stats` row. */
  datatype MonitorStats = MonitorStats(
    id: int,
    totalTokensFound: int,
    totalTokensPosted: int,
    lastCheck: Option<Timestamp>,
    lastError: Option<string>,
    isRunning: bool)

  /** `MonitorStats()` as inserted with its column defaults. */
  function FreshStats(id: int): (s: MonitorStats)
    ensures s.totalTokensFound == 0 && s.totalTokensPosted == 0 && !s.isRunning
    ensures s.lastCheck.None? && s.lastError.None? && s.id == id
  {
    MonitorStats(id, 0, 0, None, None, false)
  }

  /** `MonitorStats.to_dict()`: six entries, in this order. */
  function StatsToDict(s: MonitorStats): (d: Json)
    ensures d.JObj?
    ensures KeysOf(d.members) == ["id", "total_tokens_found", "total_tokens_posted", "last_check", "last_error", "is_running"]
  {
    JObj([
      Member("id", JInt(s.id)),
      Member("total_tokens_found", JInt(s.totalTokensFound)),
      Member("total_tokens_posted", JInt(s.totalTokensPosted)),
      Member("last_check", if s.lastCheck.Some? then JStr(s.lastCheck.value.iso) else JNull),
      Member("last_error", OptStr(s.lastError)),
      Member("is_running", JBool(s.isRunning))])
  }

  /** The entries of `MonitorStats.to_dict()`: `last_check` becomes its ISO
      text, or `None` when unset; every other field is copied as it is. */
  lemma StatsToDictEntries(s: MonitorStats)
    ensures var ms := StatsToDict(s).members;
            && Lookup(ms, "id") == Some(JInt(s.id))
            && Lookup(ms, "total_tokens_found") == Some(JInt(s.totalTokensFound))
            && Lookup(ms, "total_tokens_posted") == Some(JInt(s.totalTokensPosted))
            && Lookup(ms, "last_check") == Some(if s.lastCheck.Some? then JStr(s.lastCheck.value.iso) else JNull)
            && Lookup(ms, "last_error") == Some(OptStr(s.lastError))
            && Lookup(ms, "is_running") == Some(JBool(s.isRunning))
  {
    var ms := StatsToDict(s).members;
    assert "last_check"[5] != "last_error"[5];
    assert "is_running"[0] != "last_check"[0] && "is_running"[0] != "last_error"[0];
    assert "total_tokens_found"[13] != "total_tokens_posted"[13];
    LookupFirst(ms, "id", 0);
    LookupFirst(ms, "total_tokens_found", 1);
    LookupFirst(ms, "total_tokens_posted", 2);
    LookupFirst(ms, "last_check", 3);
    LookupFirst(ms, "last_error", 4);
    LookupFirst(ms, "is_running", 5);
  }

  function StatsFromDict(d: Json): Option<MonitorStats> {
    if !d.JObj? then None
    else
      var id :- Lookup(d.members, "id");
      var found :- Lookup(d.members, "total_tokens_found");
      var posted :- Lookup(d.members, "total_tokens_posted");
      var check :- Lookup(d.members, "last_check");
      var err :- Lookup(d.members, "last_error");
      var running :- Lookup(d.members, "is_running");
      if id.JInt? && found.JInt? && posted.JInt? && (check.JStr? || check.JNull?)
         && (err.JStr? || err.JNull?) && running.JBool? then
        Some(MonitorStats(id.i, found.i, posted.i,
                          if check.JStr? then Some(Timestamp(check.s)) else None,
                          if err.JStr? then Some(err.s) else None,
                          running.b))
      else None
  }

  lemma StatsDictRoundTrip(s: MonitorStats)
    ensures StatsFromDict(StatsToDict(s)) == Some(s)
  {
    StatsToDictEntries(s);
  }

  /** One keyword argument of `update_stats`. */
  datatype StatsField =
    | TotalTokensFound(found: int)
    | TotalTokensPosted(posted: int)
    | LastCheck(check: Option<Timestamp>)
    | LastError(error: Option<string>)
    | IsRunning(running: bool)

  /** `setattr(stats, key, value)` for one keyword argument. */
  function Apply(s: MonitorStats, f: StatsField): MonitorStats {
    match f
    case TotalTokensFound(n) => s.(totalTokensFound := n)
    case TotalTokensPosted(n) => s.(totalTokensPosted := n)
    case LastCheck(t) => s.(lastCheck := t)
    case LastError(e) => s.(lastError := e)
    case IsRunning(b) => s.(isRunning := b)
  }

  /** The keyword arguments applied in order. */
  function ApplyAll(s: MonitorStats, fs: seq<StatsField>): MonitorStats
    decreases |fs|
  {
    if fs == [] then s else ApplyAll(Apply(s, fs[0]), fs[1..])
  }

  /** `update_stats` never touches `id`, and leaves every field that none of
      its arguments names as it was. */
  lemma {:induction false} ApplyAllKeepsUnnamed(s: MonitorStats, fs: seq<StatsField>)
    ensures ApplyAll(s, fs).id == s.id
    ensures (forall k :: 0 <= k < |fs| ==> !fs[k].IsRunning?) ==> ApplyAll(s, fs).isRunning == s.isRunning
    ensures (forall k :: 0 <= k < |fs| ==> !fs[k].TotalTokensFound?) ==> ApplyAll(s, fs).totalTokensFound == s.totalTokensFound
    ensures (forall k :: 0 <= k < |fs| ==> !fs[k].TotalTokensPosted?) ==> ApplyAll(s, fs).totalTokensPosted == s.totalTokensPosted
    ensures (forall k :: 0 <= k < |fs| ==> !fs[k].LastError?) ==> ApplyAll(s, fs).lastError == s.lastError
    decreases |fs|
  {
    if fs != [] {
      ApplyAllKeepsUnnamed(Apply(s, fs[0]), fs[1..]);
      assert forall k :: 1 <= k < |fs| ==> fs[1..][k - 1] == fs[k];
    }
  }
}
