/** `CryptoMonitor` as the object it is: the running flag it updates, the
    database and the Bot API channel it works through. Each method is
    proved to leave the database and the channel exactly where the
    matching function of `Pipeline` says. */
module Monitoring {
  import opened Wrappers
  import opened PyValue
  import opened Models
  import opened Telegram
  import opened Extract
  import opened Store
  import opened Pipeline

  /** The feed `fetch_tokens` polls. */
  const FeedUrl := "https://steep-thunder-1d39.vapexmeli1.workers.dev/"

  class CryptoMonitor {
    var running: bool
    const apiUrl: string
    /** Seconds slept between cycles. */
    const checkInterval: nat
    const bot: Bot
    const db: Database
    const channel: Channel

    /** Everything a cycle acts on, as one value. */
    function Snapshot(): State
      reads this, db, channel
    {
      State(db.tokens, db.stats, channel.replies, channel.requests)
    }

    predicate Valid()
      reads this, db
    {
      db.Valid()
    }

    /** `CryptoMonitor()`: not running, a 15-second interval. */
    constructor (bot: Bot, db: Database, channel: Channel)
      requires db.Valid()
      ensures Valid() && !running && apiUrl == FeedUrl && checkInterval == 15
      ensures this.bot == bot && this.db == db && this.channel == channel
    {
      running := false;
      apiUrl := FeedUrl;
      checkInterval := 15;
      this.bot := bot;
      this.db := db;
      this.channel := channel;
    }

    /** The send, the truthiness test, the save, and the handler around
        the two that can raise. */
    method Publish(ghost s: State, d: Draft, now: Timestamp) returns (o: Outcome)
      requires Valid() && Snapshot() == s
      modifies db, channel
      ensures Valid()
      ensures Step(Snapshot(), o) == Settle(bot, s, Ready(d), now)
    {
      var reply;
      if d.photo.Some? {
        reply := SendPhoto(bot, channel, d.photo.value, d.text, d.button);
      } else {
        reply := SendMessage(bot, channel, d.text, d.button);
      }
      if reply.None? || !Truthy(reply.value) {
        return Undelivered(d.key);
      }
      var mid := MessageIdOf(reply.value);
      if mid.Err? {
        return Unrecorded(d.key, mid.error);
      }
      var saved := db.SaveToken(d.name, d.key, Some(mid.value), now);
      if saved.Err? {
        return Unrecorded(d.key, saved.error);
      }
      o := Announced(saved.value);
    }

    /** One iteration of the `process_tokens` loop. */
    method ProcessPool(ghost s: State, pool: Json, now: Timestamp) returns (o: Outcome)
      requires Valid() && Snapshot() == s
      modifies db, channel
      ensures Valid()
      ensures Step(Snapshot(), o) == StepPool(bot, s, pool, now)
    {
      var id := ReadIdentity(pool);
      if id.NoKey? {
        return Skipped(NoCoinType);
      }
      if id.KeyFault? {
        return Faulted(id.fault);
      }
      var posted := db.IsTokenPosted(id.key);
      if posted {
        return Skipped(AlreadyPosted);
      }
      var p := Announce(pool, id.key, id.raw);
      assert Prepare(pool, Keys(db.tokens)) == p;
      match p
      case Skip(why) =>
        o := Skipped(why);
      case Fail(f) =>
        o := Faulted(f);
      case Ready(d) =>
        o := Publish(s, d, now);
    }

    /** One pass of the `for pool in tokens` loop, counters included, as a
        step of `Run`. */
    method ProcessNext(ghost s0: State, pools: seq<Json>, i: nat, now: Timestamp, found: nat, posted: nat)
      returns (found': nat, posted': nat)
      requires i < |pools| && Valid()
      requires var b := Run(Body(bot, now), s0, pools[..i]);
               Snapshot() == b.state && found == b.count && posted == b.count
      modifies db, channel
      ensures Valid()
      ensures var b := Run(Body(bot, now), s0, pools[..i + 1]);
              Snapshot() == b.state && found' == b.count && posted' == b.count
    {
      PoolsStep(bot, now, s0, pools, i);
      var o := ProcessPool(Run(Body(bot, now), s0, pools[..i]).state, pools[i], now);
      found', posted' := found, posted;
      if o.Announced? {
        found' := found' + 1;
        posted' := posted' + 1;
      }
    }

    /** The `for pool in tokens` loop of `process_tokens`, with its two
        counters. */
    method ProcessPools(pools: seq<Json>, now: Timestamp) returns (newCount: nat, postedCount: nat)
      requires Valid()
      modifies db, channel
      ensures Valid()
      ensures var b := Run(Body(bot, now), old(Snapshot()), pools);
              Snapshot() == b.state && newCount == b.count && postedCount == b.count
    {
      ghost var s0 := Snapshot();
      RunBounds(Body(bot, now), s0, pools);
      newCount, postedCount := 0, 0;
      var i := 0;
      while i < |pools|
        invariant 0 <= i <= |pools| && Valid()
        invariant var b := Run(Body(bot, now), s0, pools[..i]);
                  Snapshot() == b.state && newCount == b.count && postedCount == b.count
      {
        newCount, postedCount := ProcessNext(s0, pools, i, now, newCount, postedCount);
        i := i + 1;
      }
    }

    /** `process_tokens`: the two counts when the loop ends, or the
        exception of iterating over a value that is not iterable. */
    method ProcessTokens(tokens: Json, now: Timestamp) returns (r: Result<(nat, nat), Fault>)
      requires Valid()
      modifies db, channel
      ensures Valid()
      ensures var pr := Process(bot, old(Snapshot()), tokens, now);
              if pr.Ok? then r == Ok((pr.value.count, pr.value.count)) && Snapshot() == pr.value.state
              else r == Err(pr.error) && Snapshot() == old(Snapshot())
    {
      var it := Iterate(tokens);
      if it.Err? {
        return Err(it.error);
      }
      var newCount, postedCount := ProcessPools(it.value, now);
      r := Ok((newCount, postedCount));
    }

    /** The stats update after `process_tokens` returned `(n, p)`: both
        counts added, the check stamped, the error cleared. */
    method CompleteCycle(ghost s: State, ghost b: Batch, n: nat, p: nat, now: Timestamp)
      requires Snapshot() == b.state && n == b.count && p == b.count
      modifies db
      ensures db.tokens == old(db.tokens)
      ensures Snapshot() == Tally(s, Ok(b), now)
    {
      var stats := db.GetStats();
      db.UpdateStats([TotalTokensFound(stats.totalTokensFound + n),
                      TotalTokensPosted(stats.totalTokensPosted + p),
                      LastCheck(Some(now)), LastError(None)]);
    }

    /** The stats update of the handler: the check stamped and the error
        recorded. */
    method FailCycle(ghost s: State, f: Fault, now: Timestamp)
      requires Snapshot() == s
      modifies db
      ensures db.tokens == old(db.tokens)
      ensures Snapshot() == Tally(s, Err(f), now)
    {
      db.UpdateStats([LastCheck(Some(now)), LastError(Some(MonitorErrorPrefix + f.message))]);
    }

    /** One iteration of the `monitor_loop` loop: fetch, process, and the
        stats update of whichever branch ran. */
    method RunCycle(c: CycleInput)
      requires Valid()
      modifies db, channel
      ensures Valid()
      ensures Snapshot() == Cycle(bot, old(Snapshot()), c)
    {
      ghost var s := Snapshot();
      var tokens := FetchTokens(c.response);
      ghost var pr := Process(bot, s, tokens, c.now);
      var r := ProcessTokens(tokens, c.now);
      if r.Ok? {
        CompleteCycle(s, pr.value, r.value.0, r.value.1, c.now);
      } else {
        FailCycle(s, r.error, c.now);
      }
    }

    /** `monitor_loop`, run with the responses of the cycles it performs;
        the `stop` request arrives during the last of them (before the
        first when there are none). A monitor already running returns at
        once. */
    method MonitorLoop(inputs: seq<CycleInput>)
      requires Valid()
      modifies this, db, channel
      ensures Valid() && running == old(running)
      ensures old(running) ==> Snapshot() == old(Snapshot())
      ensures !old(running) ==> Snapshot() == Session(bot, old(Snapshot()), inputs)
    {
      if running {
        return;
      }
      running := true;
      db.UpdateStats([IsRunning(true)]);
      ghost var s0 := Snapshot();
      assert s0 == SetRunning(old(Snapshot()), true);
      if inputs == [] {
        Stop();
      }
      var i := 0;
      while running
        invariant 0 <= i <= |inputs|
        invariant running <==> i < |inputs|
        invariant Valid()
        invariant Snapshot() == Cycles(bot, s0, inputs[..i])
        decreases |inputs| - i
      {
        assert inputs[..i + 1][..i] == inputs[..i];
        RunCycle(inputs[i]);
        i := i + 1;
        if i == |inputs| {
          Stop();
        }
      }
      assert inputs[..i] == inputs;
      db.UpdateStats([IsRunning(false)]);
    }

    /** `stop`. */
    method Stop()
      modifies this
      ensures !running
    {
      running := false;
    }
  }

  /** `start_monitoring`: the guard on the shared monitor, then its loop. */
  method StartMonitoring(monitor: CryptoMonitor, inputs: seq<CycleInput>)
    requires monitor.Valid()
    modifies monitor, monitor.db, monitor.channel
    ensures monitor.Valid() && monitor.running == old(monitor.running)
    ensures old(monitor.running) ==> monitor.Snapshot() == old(monitor.Snapshot())
    ensures !old(monitor.running) ==> monitor.Snapshot() == Session(monitor.bot, old(monitor.Snapshot()), inputs)
  {
    if monitor.running {
      return;
    }
    monitor.MonitorLoop(inputs);
  }
}
