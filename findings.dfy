/** `process_tokens` as written, where the per-pool handler evaluates
    `pool.get('coinType')` once more to log the pool. For a pool that is not
    a dict that call raises again, inside the handler, so the exception
    leaves `process_tokens` and reaches the handler of `monitor_loop`: the
    rows saved for the pools before it stay in the table while their counts
    are lost. The rest of the model (`Pipeline.StepPool`) treats the pool
    as the handler evidently intends, as one more pool logged and passed
    over. */
module Findings {
  import opened Wrappers
  import opened PyValue
  import opened Models
  import opened Telegram
  import opened Extract
  import opened Store
  import opened Pipeline

  /** How `process_tokens` ends as written: it returns, or an exception
      leaves it with the state the pools before it produced. */
  datatype Processed = Returned(batch: Batch) | Raised(state: State, fault: Fault)

  /** The position of the first pool that is not a dict (`|pools|` when
      there is none). */
  function FirstNonDict(pools: seq<Json>): (k: nat)
    ensures k <= |pools|
    ensures forall j :: 0 <= j < k ==> pools[j].JObj?
    ensures k < |pools| ==> !pools[k].JObj?
    decreases |pools|
  {
    if pools == [] || !pools[0].JObj? then 0 else 1 + FirstNonDict(pools[1..])
  }

  /** The loop as written: the pools before the first non-dict one are
      processed as usual, then the handler's own `pool.get` raises. */
  function ProcessAsWritten(bot: Bot, s: State, tokens: Json, now: Timestamp): (r: Processed)
    ensures r.Raised? ==> r.state.stats == s.stats
  {
    match Iterate(tokens)
    case Err(f) => Raised(s, f)
    case Ok(pools) =>
      var k := FirstNonDict(pools);
      if k == |pools| then Returned(Run(Body(bot, now), s, pools))
      else Raised(Run(Body(bot, now), s, pools[..k]).state, NoAttribute(pools[k], "get"))
  }

  /** A `monitor_loop` iteration as written: on the escape, the error branch
      updates the stats of the state the escape left behind. */
  function CycleAsWritten(bot: Bot, s: State, c: CycleInput): State {
    match ProcessAsWritten(bot, s, FetchTokens(c.response), c.now)
    case Returned(b) => Tally(s, Ok(b), c.now)
    case Raised(t, f) => Tally(t, Err(f), c.now)
  }

  /** Where every pool is a dict, the code as written and the model agree. */
  lemma AsWrittenAgreesOnDicts(bot: Bot, s: State, c: CycleInput)
    requires var it := Iterate(FetchTokens(c.response));
             it.Err? || FirstNonDict(it.value) == |it.value|
    ensures CycleAsWritten(bot, s, c) == Cycle(bot, s, c)
  {
  }

  /** A dict pool followed by `null`: the first pool is processed, then the
      handler raises on the second. */
  lemma RaisesAtNull(bot: Bot, s: State, pool: Json, now: Timestamp)
    requires pool.JObj?
    ensures ProcessAsWritten(bot, s, JArr([pool, JNull]), now)
            == Raised(StepPool(bot, s, pool, now).state, NoAttribute(JNull, "get"))
  {
    var pools := [pool, JNull];
    assert FirstNonDict(pools) == 1 by {
      assert FirstNonDict(pools[1..]) == 0;
    }
    RunSnoc(Body(bot, now), s, [], pool);
    assert pools[..1] == [] + [pool];
  }

  /** The cycle as written on such a feed: the error branch applied to the
      state the first pool left. */
  lemma CycleRaisesAtNull(bot: Bot, s: State, pool: Json, now: Timestamp)
    requires pool.JObj?
    ensures var c := CycleInput(Some(JObj([Member("pools", JArr([pool, JNull]))])), now);
            CycleAsWritten(bot, s, c)
            == Tally(StepPool(bot, s, pool, now).state, Err(NoAttribute(JNull, "get")), now)
  {
    var c := CycleInput(Some(JObj([Member("pools", JArr([pool, JNull]))])), now);
    assert FetchTokens(c.response) == JArr([pool, JNull]);
    RaisesAtNull(bot, s, pool, now);
  }

  /** The error branch on a state holding one more row than its totals
      count leaves it inconsistent. */
  lemma ErrorBranchKeepsStaleTotals(s: State, t: State, f: Fault, now: Timestamp)
    requires Consistent(s) && t.stats == s.stats && |t.tokens| == |s.tokens| + 1
    ensures !Consistent(Tally(t, Err(f), now))
    ensures Tally(t, Err(f), now).stats.value.lastError == Some(MonitorErrorPrefix + f.message)
  {
    TallyFailed(t, f, now);
  }

  /** A feed whose `pools` are one pool that gets announced followed by a
      `null`: the model keeps the totals equal to the number of rows
      (as `Pipeline.CycleKeepsConsistent` proves of every cycle); the code as written saves the row,
      loses its count, and reports
      `Monitor error: 'NoneType' object has no attribute 'get'`. */
  lemma EscapeLosesCounts(bot: Bot, s: State, pool: Json, now: Timestamp)
    requires Consistent(s)
    requires StepPool(bot, s, pool, now).outcome.Announced?
    ensures var c := CycleInput(Some(JObj([Member("pools", JArr([pool, JNull]))])), now);
            && Consistent(Cycle(bot, s, c))
            && !Consistent(CycleAsWritten(bot, s, c))
            && CycleAsWritten(bot, s, c).stats.value.lastError
               == Some(MonitorErrorPrefix + NoAttribute(JNull, "get").message)
  {
    CycleKeepsConsistent(bot, s, CycleInput(Some(JObj([Member("pools", JArr([pool, JNull]))])), now));
    StepRecordsIffDelivered(bot, s, pool, now);
    CycleRaisesAtNull(bot, s, pool, now);
    var f := NoAttribute(JNull, "get");
    ErrorBranchKeepsStaleTotals(s, StepPool(bot, s, pool, now).state, f, now);
  }
}
