/** One monitoring cycle of `CryptoMonitor` as a function of the state it
    acts on: the posted-token table, the stats row, and the Bot API (the
    replies it will give and the requests it has received). `StepPool` is
    one iteration of the `process_tokens` loop, `Run` the whole loop,
    `Cycle` one iteration of `monitor_loop`, `Session` the whole loop
    between its two `is_running` updates. The methods of `CryptoMonitor`
    are proved equal to these functions. */
module Pipeline {
  import opened Wrappers
  import opened PyStr
  import opened PyValue
  import opened Models
  import opened Telegram
  import opened Extract
  import opened Store

  datatype State = State(
    tokens: seq<PostedToken>,
    stats: Option<MonitorStats>,
    replies: seq<Option<Json>>,
    requests: seq<Request>)

  /** How the loop body ends for one pool. `Faulted` is an exception caught
      by the per-pool handler before anything was sent; `Undelivered` a
      falsy result from the bot; `Unrecorded` an exception after the send. */
  datatype Outcome =
    | Skipped(reason: SkipReason)
    | Faulted(fault: Fault)
    | Undelivered(key: string)
    | Unrecorded(key: string, fault: Fault)
    | Announced(token: PostedToken)

  // ---------------------------------------------------------------- delivery

  /** The request a draft goes out as: a photo for a `data:image` icon, a
      text message otherwise; `None` when `send_photo` refuses the icon. */
  function DraftRequest(bot: Bot, d: Draft): Option<Request> {
    if d.photo.Some? then PhotoRequest(bot, d.photo.value, d.text, d.button)
    else Some(MessageRequest(bot, d.text, d.button))
  }

  datatype Delivery = Delivery(state: State, reply: Option<Json>)

  /** The send: the request is logged and the next scripted reply consumed. */
  function Deliver(bot: Bot, s: State, d: Draft): Delivery {
    match DraftRequest(bot, d)
    case None => Delivery(s, None)
    case Some(req) =>
      Delivery(s.(replies := LaterReplies(s.replies), requests := s.requests + [req]), NextReply(s.replies))
  }

  /** A reply the record can be saved from: truthy, and a dict, so that
      `.get("message_id", "")` does not raise. */
  predicate Recordable(reply: Option<Json>) {
    reply.Some? && Truthy(reply.value) && reply.value.JObj?
  }

  /** `str(telegram_result.get("message_id", ""))`. */
  function MessageIdOf(reply: Json): (r: Result<string, Fault>)
    ensures r.Ok? <==> reply.JObj?
    ensures reply.JObj? && Lookup(reply.members, "message_id").None? ==> r == Ok("")
    ensures reply.JObj? && Lookup(reply.members, "message_id").Some? && Lookup(reply.members, "message_id").value.JInt?
            ==> r == Ok(IntToStr(Lookup(reply.members, "message_id").value.i))
  {
    var v :- GetOr(reply, "message_id", JStr(""));
    Ok(Str(v))
  }

  // -------------------------------------------------------------- one pool

  datatype Step = Step(state: State, outcome: Outcome)

  /** The loop body once the pool is prepared: the send, the truthiness
      test on its result, the save, and the handler around them. */
  function Settle(bot: Bot, s: State, p: Prepared, now: Timestamp): (r: Step)
    ensures r.state.stats == s.stats
    ensures r.outcome.Announced? ==> r.state.tokens == s.tokens + [r.outcome.token]
    ensures !r.outcome.Announced? ==> r.state.tokens == s.tokens
  {
    match p
    case Skip(why) => Step(s, Skipped(why))
    case Fail(f) => Step(s, Faulted(f))
    case Ready(d) =>
      var sent := Deliver(bot, s, d);
      if sent.reply.None? || !Truthy(sent.reply.value) then Step(sent.state, Undelivered(d.key))
      else
        match MessageIdOf(sent.reply.value)
        case Err(f) => Step(sent.state, Unrecorded(d.key, f))
        case Ok(mid) =>
          match Insert(sent.state.tokens, d.name, d.key, Some(mid), now)
          case Err(f) => Step(sent.state, Unrecorded(d.key, f))
          case Ok(t) => Step(sent.state.(tokens := t), Announced(t[|t| - 1]))
  }

  /** A prepared notification whose key is not yet in the table. */
  predicate Fresh(s: State, p: Prepared) {
    p.Ready? ==> Lower(p.draft.key) !in Keys(s.tokens)
  }

  /** A skip, and an exception the handler catches before the send, leave
      everything as it was. */
  lemma SettleSkipLeavesState(bot: Bot, s: State, p: Prepared, now: Timestamp)
    requires p.Skip? || p.Fail?
    ensures Settle(bot, s, p, now) == Step(s, if p.Skip? then Skipped(p.reason) else Faulted(p.fault))
  {
  }

  /** A notification that is sent ends delivered and recorded, or not
      delivered, or delivered but not recorded; never skipped or faulted. */
  lemma SettleReadyOutcome(bot: Bot, s: State, d: Draft, now: Timestamp)
    ensures var o := Settle(bot, s, Ready(d), now).outcome;
            o.Announced? || o.Undelivered? || o.Unrecorded?
  {
  }

  /** For a fresh key, the row is saved exactly when the bot returned a
      truthy dict, and it holds the key, the name, the message id of the
      reply and the next id: the save never violates the unique key. */
  lemma SettleRecordsIffDelivered(bot: Bot, s: State, p: Prepared, now: Timestamp)
    requires Fresh(s, p)
    ensures Settle(bot, s, p, now).outcome.Announced? <==> p.Ready? && Recordable(Deliver(bot, s, p.draft).reply)
    ensures Settle(bot, s, p, now).outcome.Announced? ==>
              Settle(bot, s, p, now).outcome.token
                == PostedToken(|s.tokens| + 1, p.draft.name, Lower(p.draft.key), now,
                               Some(MessageIdOf(Deliver(bot, s, p.draft).reply.value).value))
  {
    if p.Ready? {
      var sent := Deliver(bot, s, p.draft);
      assert sent.state.tokens == s.tokens;
    }
  }

  /** A falsy result, or none, records nothing: the key stays unposted. */
  lemma SettleUndelivered(bot: Bot, s: State, p: Prepared, now: Timestamp)
    ensures Settle(bot, s, p, now).outcome.Undelivered? <==>
              p.Ready? && !(Deliver(bot, s, p.draft).reply.Some? && Truthy(Deliver(bot, s, p.draft).reply.value))
    ensures Settle(bot, s, p, now).outcome.Undelivered? ==>
              Settle(bot, s, p, now).state.tokens == s.tokens
              && Settle(bot, s, p, now).outcome.key == p.draft.key
  {
  }

  /** Whatever happens, the table keeps unique keys and sequential ids. */
  lemma SettleKeepsTable(bot: Bot, s: State, p: Prepared, now: Timestamp)
    requires Table(s.tokens)
    ensures Table(Settle(bot, s, p, now).state.tokens)
  {
    if p.Ready? {
      var d := p.draft;
      var sent := Deliver(bot, s, d);
      assert sent.state.tokens == s.tokens;
      if sent.reply.Some? && Truthy(sent.reply.value) && MessageIdOf(sent.reply.value).Ok? {
        var mid := MessageIdOf(sent.reply.value).value;
        if Insert(s.tokens, d.name, d.key, Some(mid), now).Ok? {
          InsertKeepsTable(s.tokens, d.name, d.key, Some(mid), now);
        }
      }
    }
  }

  /** One iteration of the `process_tokens` loop, with the per-pool handler. */
  function StepPool(bot: Bot, s: State, pool: Json, now: Timestamp): (r: Step)
    ensures Grows(s, r)
  {
    Settle(bot, s, Prepare(pool, Keys(s.tokens)), now)
  }

  /** A skipped pool, and a pool whose exception the handler catches before
      the send, leave the table and the bot as they were. */
  lemma StepSkipLeavesState(bot: Bot, s: State, pool: Json, now: Timestamp)
    ensures var r := StepPool(bot, s, pool, now);
            (r.outcome.Skipped? || r.outcome.Faulted?) ==> r.state == s
    ensures var r := StepPool(bot, s, pool, now);
            r.outcome.Skipped? <==> Prepare(pool, Keys(s.tokens)).Skip?
  {
    var p := Prepare(pool, Keys(s.tokens));
    assert StepPool(bot, s, pool, now) == Settle(bot, s, p, now);
    if p.Ready? {
      SettleReadyOutcome(bot, s, p.draft, now);
    } else {
      SettleSkipLeavesState(bot, s, p, now);
    }
  }

  /** Delivery gates the record: a row is saved exactly when the pool is
      ready and the bot returned a truthy dict; the row holds the
      lower-cased `coinType`, not posted before, under the resolved name. */
  lemma StepRecordsIffDelivered(bot: Bot, s: State, pool: Json, now: Timestamp)
    ensures var p := Prepare(pool, Keys(s.tokens));
            StepPool(bot, s, pool, now).outcome.Announced? <==>
              p.Ready? && Recordable(Deliver(bot, s, p.draft).reply)
    ensures var p := Prepare(pool, Keys(s.tokens));
            var r := StepPool(bot, s, pool, now);
            r.outcome.Announced? ==>
              && ReadIdentity(pool).Key?
              && r.outcome.token.contractAddress == Lower(ReadIdentity(pool).raw)
              && Lower(ReadIdentity(pool).raw) !in Keys(s.tokens)
              && r.outcome.token.name == p.draft.name && p.draft.name != UnknownToken
              && r.outcome.token.id == |s.tokens| + 1
  {
    var p := Prepare(pool, Keys(s.tokens));
    SettleRecordsIffDelivered(bot, s, p, now);
    if p.Ready? {
      LowerIdempotent(ReadIdentity(pool).raw);
    }
  }

  /** An undelivered notification records nothing, so the next cycle that
      sees the same pool prepares the same notification again. */
  lemma StepUndeliveredRetries(bot: Bot, s: State, pool: Json, now: Timestamp)
    requires StepPool(bot, s, pool, now).outcome.Undelivered?
    ensures var t := StepPool(bot, s, pool, now).state;
            && t.tokens == s.tokens
            && Prepare(pool, Keys(t.tokens)).Ready?
            && Prepare(pool, Keys(t.tokens)) == Prepare(pool, Keys(s.tokens))
            && Lower(Prepare(pool, Keys(t.tokens)).draft.key) !in Keys(t.tokens)
  {
    SettleUndelivered(bot, s, Prepare(pool, Keys(s.tokens)), now);
  }

  /** A step keeps the table's keys unique and its ids sequential. */
  lemma StepKeepsTable(bot: Bot, s: State, pool: Json, now: Timestamp)
    requires Table(s.tokens)
    ensures Table(StepPool(bot, s, pool, now).state.tokens)
  {
    SettleKeepsTable(bot, s, Prepare(pool, Keys(s.tokens)), now);
  }

  // ------------------------------------------------------------ all pools

  /** The rows a sequence of outcomes saved, in order. */
  function Announcements(os: seq<Outcome>): (ts: seq<PostedToken>)
    ensures |ts| <= |os|
    decreases |os|
  {
    if os == [] then []
    else Announcements(os[..|os| - 1]) + (if os[|os| - 1].Announced? then [os[|os| - 1].token] else [])
  }

  /** What `process_tokens` leaves: the state, the count it returns (twice:
      `new_tokens_count` and `posted_tokens_count` are always incremented
      together), and the outcome of each pool. */
  datatype Batch = Batch(state: State, count: nat, outcomes: seq<Outcome>)

  /** The body of the `process_tokens` loop, as a value. */
  type PoolStep = (State, Json) -> Step

  /** What one iteration may do: leave the stats row alone, and grow the
      table by the row it announces and by nothing else. */
  predicate Grows(s: State, r: Step) {
    && r.state.stats == s.stats
    && r.state.tokens == s.tokens + (if r.outcome.Announced? then [r.outcome.token] else [])
  }

  ghost predicate Sound(step: PoolStep) {
    forall t, p :: Grows(t, step(t, p))
  }

  /** The body `CryptoMonitor` runs: `StepPool` with its bot, at the
      instant of the cycle. */
  function Body(bot: Bot, now: Timestamp): (step: PoolStep)
    ensures Sound(step)
  {
    (t, p) => StepPool(bot, t, p, now)
  }

  /** The loop over `pools`: the body applied to each pool in turn. */
  function Run(step: PoolStep, s: State, pools: seq<Json>): (b: Batch)
    requires Sound(step)
    ensures |b.outcomes| == |pools| && b.state.stats == s.stats
    ensures b.state.tokens == s.tokens + Announcements(b.outcomes)
    ensures b.count == |Announcements(b.outcomes)|
    decreases |pools|
  {
    if pools == [] then Batch(s, 0, [])
    else
      var b := Run(step, s, pools[..|pools| - 1]);
      var r := step(b.state, pools[|pools| - 1]);
      assert Grows(b.state, r);
      var os := b.outcomes + [r.outcome];
      assert os[..|os| - 1] == b.outcomes;
      var more := if r.outcome.Announced? then [r.outcome.token] else [];
      assert Announcements(os) == Announcements(b.outcomes) + more;
      assert r.state.tokens == s.tokens + (Announcements(b.outcomes) + more);
      Batch(r.state, b.count + (if r.outcome.Announced? then 1 else 0), os)
  }

  /** No key is saved twice: the loop keeps the table's keys unique, so the
      table holds one row per key. */
  lemma {:induction false} RunKeepsTable(bot: Bot, s: State, pools: seq<Json>, now: Timestamp)
    requires Table(s.tokens)
    ensures Table(Run(Body(bot, now), s, pools).state.tokens)
    ensures |Keys(Run(Body(bot, now), s, pools).state.tokens)| == |Run(Body(bot, now), s, pools).state.tokens|
    decreases |pools|
  {
    if pools != [] {
      var before := pools[..|pools| - 1];
      RunKeepsTable(bot, s, before, now);
      StepKeepsTable(bot, Run(Body(bot, now), s, before).state, pools[|pools| - 1], now);
    }
    OneRowPerKey(Run(Body(bot, now), s, pools).state.tokens);
  }

  lemma SnocAssoc<T>(a: seq<T>, b: seq<T>, x: T)
    ensures (a + b) + [x] == a + (b + [x])
  {
  }

  /** The loop over no pool yet, and over all of them. */
  lemma RunBounds(step: PoolStep, s: State, pools: seq<Json>)
    requires Sound(step)
    ensures Run(step, s, pools[..0]) == Batch(s, 0, [])
    ensures Run(step, s, pools[..|pools|]) == Run(step, s, pools)
  {
    assert pools[..0] == [];
    assert pools[..|pools|] == pools;
  }

  /** The loop over `q + [x]` is the loop over `q` and then one more step. */
  lemma RunSnoc(step: PoolStep, s: State, q: seq<Json>, x: Json)
    requires Sound(step)
    ensures var b := Run(step, s, q);
            var r := step(b.state, x);
            Run(step, s, q + [x]) == Batch(r.state, b.count + (if r.outcome.Announced? then 1 else 0), b.outcomes + [r.outcome])
  {
    assert (q + [x])[..|q|] == q;
  }

  /** The same for the monitor's body, one pool further into `pools`: one
      more `StepPool` on the state the loop left. */
  lemma PoolsStep(bot: Bot, now: Timestamp, s: State, pools: seq<Json>, i: nat)
    requires i < |pools|
    ensures var b := Run(Body(bot, now), s, pools[..i]);
            var r := StepPool(bot, b.state, pools[i], now);
            Run(Body(bot, now), s, pools[..i + 1]) == Batch(r.state, b.count + (if r.outcome.Announced? then 1 else 0), b.outcomes + [r.outcome])
  {
    assert pools[..i + 1] == pools[..i] + [pools[i]];
    RunSnoc(Body(bot, now), s, pools[..i], pools[i]);
  }

  /** Running two batches of pools one after the other is running them
      together. */
  lemma {:induction false} RunAppend(step: PoolStep, s: State, p1: seq<Json>, p2: seq<Json>)
    requires Sound(step)
    ensures var b1 := Run(step, s, p1);
            var b2 := Run(step, b1.state, p2);
            Run(step, s, p1 + p2) == Batch(b2.state, b1.count + b2.count, b1.outcomes + b2.outcomes)
    decreases |p2|
  {
    if p2 == [] {
      assert p1 + p2 == p1;
      assert Run(step, s, p1).outcomes + [] == Run(step, s, p1).outcomes;
    } else {
      var init, x := p2[..|p2| - 1], p2[|p2| - 1];
      assert p1 + p2 == (p1 + init) + [x];
      assert p2 == init + [x];
      RunAppend(step, s, p1, init);
      var b1 := Run(step, s, p1);
      RunSnoc(step, s, p1 + init, x);
      RunSnoc(step, b1.state, init, x);
      SnocAssoc(b1.outcomes, Run(step, b1.state, init).outcomes, step(Run(step, b1.state, init).state, x).outcome);
    }
  }

  /** A pool on which the body leaves the state as it is can be dropped:
      the pools after it fare exactly as if it had not been there. */
  lemma RunDropsInert(step: PoolStep, s: State, before: seq<Json>, pool: Json, after: seq<Json>)
    requires Sound(step)
    requires var b := Run(step, s, before);
             step(b.state, pool).state == b.state && !step(b.state, pool).outcome.Announced?
    ensures Run(step, s, before + [pool] + after).state == Run(step, s, before + after).state
    ensures Run(step, s, before + [pool] + after).count == Run(step, s, before + after).count
  {
    var b := Run(step, s, before);
    RunAppend(step, s, before, [pool]);
    assert Run(step, b.state, [pool]).state == b.state by {
      assert [pool][..0] == [];
    }
    RunAppend(step, s, before + [pool], after);
    RunAppend(step, s, before, after);
  }

  /** Per-pool isolation: a pool that is skipped, or whose exception the
      handler catches, affects neither the table, the bot, nor the count;
      the pools after it fare exactly as if it had not been there. */
  lemma RunIsolatesPool(bot: Bot, s: State, before: seq<Json>, pool: Json, after: seq<Json>, now: Timestamp)
    requires var o := StepPool(bot, Run(Body(bot, now), s, before).state, pool, now).outcome;
             o.Skipped? || o.Faulted?
    ensures Run(Body(bot, now), s, before + [pool] + after).state == Run(Body(bot, now), s, before + after).state
    ensures Run(Body(bot, now), s, before + [pool] + after).count == Run(Body(bot, now), s, before + after).count
  {
    StepSkipLeavesState(bot, Run(Body(bot, now), s, before).state, pool, now);
    RunDropsInert(Body(bot, now), s, before, pool, after);
  }

  // ---------------------------------------------------------------- cycles

  /** `fetch_tokens`: the `pools` entry of the decoded response, `[]` when
      it is missing; any failure (`None` here: the request, the status, the
      decoding, or a response that is no dict) is swallowed into `[]`. */
  function FetchTokens(response: Option<Json>): (pools: Json)
    ensures response.None? ==> pools == JArr([])
    ensures response.Some? && !response.value.JObj? ==> pools == JArr([])
    ensures response.Some? && response.value.JObj? ==>
              pools == Lookup(response.value.members, "pools").GetOr(JArr([]))
  {
    match response
    case None => JArr([])
    case Some(data) =>
      match GetOr(data, "pools", JArr([]))
      case Err(_) => JArr([])
      case Ok(v) => v
  }

  /** `for pool in tokens`: a list gives its items, a string its
      characters, a dict its keys; anything else raises `TypeError`. */
  function Iterate(v: Json): (r: Result<seq<Json>, Fault>)
    ensures r.Ok? <==> v.JArr? || v.JStr? || v.JObj?
    ensures v.JArr? ==> r == Ok(v.items)
    ensures v.JStr? ==> |r.value| == |v.s| && forall k :: 0 <= k < |v.s| ==> r.value[k] == JStr([v.s[k]])
    ensures v.JObj? ==> |r.value| == |v.members| && forall k :: 0 <= k < |v.members| ==> r.value[k] == JStr(v.members[k].key)
    ensures r.Err? ==> r.error == Fault("'" + TypeName(v) + "' object is not iterable")
  {
    match v
    case JArr(items) => Ok(items)
    case JStr(cs) => Ok(seq(|cs|, k requires 0 <= k < |cs| => JStr([cs[k]])))
    case JObj(ms) => Ok(seq(|ms|, k requires 0 <= k < |ms| => JStr(ms[k].key)))
    case _ => Err(Fault("'" + TypeName(v) + "' object is not iterable"))
  }

  /** `process_tokens(tokens)`: the loop over what iterating `tokens` gives. */
  function Process(bot: Bot, s: State, tokens: Json, now: Timestamp): Result<Batch, Fault> {
    var pools :- Iterate(tokens);
    Ok(Run(Body(bot, now), s, pools))
  }

  /** `update_stats(**kwargs)` on the state: the row, created when missing,
      with the arguments applied. */
  function Updated(s: State, fs: seq<StatsField>): State {
    s.(stats := Some(ApplyAll(StatsRow(s.stats), fs)))
  }

  const MonitorErrorPrefix := "Monitor error: "

  /** What one cycle of `monitor_loop` sees: the upstream response and the
      instant it records. */
  datatype CycleInput = CycleInput(response: Option<Json>, now: Timestamp)

  /** The end of a `monitor_loop` iteration, given what `process_tokens`
      did: on a return, both counts added to the totals, the check stamped
      and the error cleared; on an exception, the error and the check
      recorded, and the state it started from otherwise kept. */
  function Tally(s: State, processed: Result<Batch, Fault>, now: Timestamp): (t: State)
    ensures t.stats.Some?
  {
    match processed
    case Ok(b) =>
      var row := StatsRow(b.state.stats);
      Updated(b.state, [TotalTokensFound(row.totalTokensFound + b.count),
                        TotalTokensPosted(row.totalTokensPosted + b.count),
                        LastCheck(Some(now)), LastError(None)])
    case Err(f) =>
      Updated(s, [LastCheck(Some(now)), LastError(Some(MonitorErrorPrefix + f.message))])
  }

  lemma TallyCompleted(s: State, b: Batch, now: Timestamp)
    requires b.state.stats == s.stats
    ensures var row := StatsRow(s.stats);
            var t := Tally(s, Ok(b), now);
            && t.tokens == b.state.tokens
            && t.stats == Some(row.(totalTokensFound := row.totalTokensFound + b.count,
                                    totalTokensPosted := row.totalTokensPosted + b.count,
                                    lastCheck := Some(now), lastError := None))
  {
    var row := StatsRow(b.state.stats);
    var fs := [TotalTokensFound(row.totalTokensFound + b.count),
               TotalTokensPosted(row.totalTokensPosted + b.count),
               LastCheck(Some(now)), LastError(None)];
    var r1 := Apply(row, fs[0]);
    var r2 := Apply(r1, fs[1]);
    var r3 := Apply(r2, fs[2]);
    assert ApplyAll(row, fs) == ApplyAll(r1, fs[1..]);
    assert ApplyAll(r1, fs[1..]) == ApplyAll(r2, fs[2..]) by { assert fs[1..][1..] == fs[2..]; }
    assert ApplyAll(r2, fs[2..]) == ApplyAll(r3, fs[3..]) by { assert fs[2..][1..] == fs[3..]; }
    assert ApplyAll(r3, fs[3..]) == Apply(r3, fs[3]) by { assert fs[3..][1..] == []; }
  }

  lemma TallyFailed(s: State, f: Fault, now: Timestamp)
    ensures var row := StatsRow(s.stats);
            Tally(s, Err(f), now)
              == s.(stats := Some(row.(lastCheck := Some(now), lastError := Some(MonitorErrorPrefix + f.message))))
  {
    var fs := [LastCheck(Some(now)), LastError(Some(MonitorErrorPrefix + f.message))];
    var row := StatsRow(s.stats);
    assert ApplyAll(row, fs) == ApplyAll(Apply(row, fs[0]), fs[1..]);
    assert ApplyAll(Apply(row, fs[0]), fs[1..]) == Apply(Apply(row, fs[0]), fs[1]) by { assert fs[1..][1..] == []; }
  }

  /** One iteration of `monitor_loop`. */
  function Cycle(bot: Bot, s: State, c: CycleInput): (t: State)
    ensures t.stats.Some?
  {
    Tally(s, Process(bot, s, FetchTokens(c.response), c.now), c.now)
  }

  /** A completed cycle adds the number of rows it saved to both totals,
      stamps the check and clears the error. */
  lemma CycleCompleted(bot: Bot, s: State, c: CycleInput)
    requires Iterate(FetchTokens(c.response)).Ok?
    ensures var b := Run(Body(bot, c.now), s, Iterate(FetchTokens(c.response)).value);
            var row := StatsRow(s.stats);
            var t := Cycle(bot, s, c);
            && t.tokens == b.state.tokens && t.stats.Some?
            && t.stats.value.totalTokensFound == row.totalTokensFound + b.count
            && t.stats.value.totalTokensPosted == row.totalTokensPosted + b.count
            && t.stats.value.lastCheck == Some(c.now) && t.stats.value.lastError.None?
            && t.stats.value.isRunning == row.isRunning && t.stats.value.id == row.id
  {
    var b := Run(Body(bot, c.now), s, Iterate(FetchTokens(c.response)).value);
    assert Cycle(bot, s, c) == Tally(s, Ok(b), c.now);
    TallyCompleted(s, b, c.now);
  }

  /** A cycle whose `process_tokens` raises records the error message and
      the check, and changes neither the table nor the totals. */
  lemma CycleFailed(bot: Bot, s: State, c: CycleInput)
    requires Iterate(FetchTokens(c.response)).Err?
    ensures var row := StatsRow(s.stats);
            var t := Cycle(bot, s, c);
            && t.tokens == s.tokens
            && t.stats == Some(row.(lastCheck := Some(c.now),
                                    lastError := Some(MonitorErrorPrefix + Iterate(FetchTokens(c.response)).error.message)))
  {
    TallyFailed(s, Iterate(FetchTokens(c.response)).error, c.now);
  }

  /** A failed fetch is an empty, successful cycle: nothing is sent or
      saved, the totals stay, and any earlier error is cleared. */
  lemma FetchFailureClearsError(bot: Bot, s: State, c: CycleInput)
    requires c.response.None?
    ensures var t := Cycle(bot, s, c);
            && t.tokens == s.tokens && t.replies == s.replies && t.requests == s.requests
            && t.stats.value.lastError.None?
            && t.stats.value.totalTokensFound == StatsRow(s.stats).totalTokensFound
            && t.stats.value.totalTokensPosted == StatsRow(s.stats).totalTokensPosted
  {
    CycleCompleted(bot, s, c);
  }

  /** The two totals both count the rows of the table; before the stats row
      exists, nothing has been saved. */
  predicate Consistent(s: State) {
    && Table(s.tokens)
    && (s.stats.None? ==> s.tokens == [])
    && (s.stats.Some? ==> s.stats.value.totalTokensFound == |s.tokens| == s.stats.value.totalTokensPosted)
  }

  lemma CycleKeepsConsistent(bot: Bot, s: State, c: CycleInput)
    requires Consistent(s)
    ensures Consistent(Cycle(bot, s, c))
  {
    var it := Iterate(FetchTokens(c.response));
    if it.Ok? {
      CycleCompleted(bot, s, c);
      RunKeepsTable(bot, s, it.value, c.now);
    } else {
      CycleFailed(bot, s, c);
    }
  }

  /** A cycle leaves the `is_running` flag and the row's id as they were. */
  lemma CycleKeepsFlag(bot: Bot, s: State, c: CycleInput)
    ensures Cycle(bot, s, c).stats.value.isRunning == StatsRow(s.stats).isRunning
    ensures Cycle(bot, s, c).stats.value.id == StatsRow(s.stats).id
  {
    if Iterate(FetchTokens(c.response)).Ok? {
      CycleCompleted(bot, s, c);
    } else {
      CycleFailed(bot, s, c);
    }
  }

  // ------------------------------------------------------------- sessions

  /** The cycles of `monitor_loop`, one per input, in order. */
  function Cycles(bot: Bot, s: State, cs: seq<CycleInput>): State
    decreases |cs|
  {
    if cs == [] then s else Cycle(bot, Cycles(bot, s, cs[..|cs| - 1]), cs[|cs| - 1])
  }

  /** `update_stats(is_running=...)`. */
  function SetRunning(s: State, running: bool): (t: State)
    ensures t.tokens == s.tokens && t.stats.Some? && t.stats.value.isRunning == running
    ensures var row := StatsRow(s.stats);
            t.stats.value == row.(isRunning := running)
  {
    var fs := [IsRunning(running)];
    assert ApplyAll(StatsRow(s.stats), fs) == ApplyAll(Apply(StatsRow(s.stats), fs[0]), fs[1..]);
    Updated(s, fs)
  }

  /** A whole run of `monitor_loop` that starts while not running: the flag
      raised, the cycles, and the flag lowered once `stop` has been seen. */
  function Session(bot: Bot, s: State, cs: seq<CycleInput>): State {
    SetRunning(Cycles(bot, SetRunning(s, true), cs), false)
  }

  lemma {:induction false} CyclesKeepConsistent(bot: Bot, s: State, cs: seq<CycleInput>)
    requires Consistent(s)
    ensures Consistent(Cycles(bot, s, cs))
    decreases |cs|
  {
    if cs != [] {
      CyclesKeepConsistent(bot, s, cs[..|cs| - 1]);
      CycleKeepsConsistent(bot, Cycles(bot, s, cs[..|cs| - 1]), cs[|cs| - 1]);
    }
  }

  /** While the loop runs, the stats row says so after every cycle. */
  lemma {:induction false} CyclesKeepRunning(bot: Bot, s: State, cs: seq<CycleInput>)
    requires s.stats.Some? && s.stats.value.isRunning
    ensures var t := Cycles(bot, s, cs);
            t.stats.Some? && t.stats.value.isRunning && t.stats.value.id == s.stats.value.id
    decreases |cs|
  {
    if cs != [] {
      CyclesKeepRunning(bot, s, cs[..|cs| - 1]);
      CycleKeepsFlag(bot, Cycles(bot, s, cs[..|cs| - 1]), cs[|cs| - 1]);
    }
  }

  /** Across a whole run of the monitor, the totals keep counting exactly
      the saved rows, no key is saved twice, the row says running after
      every cycle, and it says stopped at the end. */
  lemma SessionKeepsConsistent(bot: Bot, s: State, cs: seq<CycleInput>)
    requires Consistent(s)
    ensures Consistent(Session(bot, s, cs))
    ensures !Session(bot, s, cs).stats.value.isRunning
    ensures forall k :: 0 <= k <= |cs| ==> Cycles(bot, SetRunning(s, true), cs[..k]).stats.value.isRunning
  {
    var up := SetRunning(s, true);
    assert Consistent(up);
    CyclesKeepConsistent(bot, up, cs);
    assert Consistent(Session(bot, s, cs));
    forall k | 0 <= k <= |cs| ensures Cycles(bot, up, cs[..k]).stats.value.isRunning {
      CyclesKeepRunning(bot, up, cs[..k]);
    }
  }
}
