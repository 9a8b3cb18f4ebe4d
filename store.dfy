/** The two tables behind `CryptoMonitor`: `posted_token`, whose
    `contract_address` column is unique, and the single `monitor_stats` row.
    `Database` holds both and offers the four helpers the monitor calls:
    `is_token_posted`, `save_posted_token`, `get_stats` and `update_stats`. */
module Store {
  import opened Wrappers
  import opened PyStr
  import opened PyValue
  import opened Models

  /** The keys recorded in the table. */
  function Keys(tokens: seq<PostedToken>): set<string> {
    set i | 0 <= i < |tokens| :: tokens[i].contractAddress
  }

  /** The unique constraint on `contract_address`. */
  predicate KeysUnique(tokens: seq<PostedToken>) {
    forall i, j :: 0 <= i < j < |tokens| ==> tokens[i].contractAddress != tokens[j].contractAddress
  }

  /** Rows receive the ids 1, 2, 3, ... in insertion order (nothing is deleted). */
  predicate IdsSequential(tokens: seq<PostedToken>) {
    forall i :: 0 <= i < |tokens| ==> tokens[i].id == i + 1
  }

  predicate Table(tokens: seq<PostedToken>) {
    KeysUnique(tokens) && IdsSequential(tokens)
  }

  const UniqueViolation := "UNIQUE constraint failed: posted_token.contract_address"

  /** The insert of `save_posted_token`: the key is stored lower-cased, and a
      key already present violates the unique constraint. */
  function Insert(tokens: seq<PostedToken>, name: string, address: string, messageId: Option<string>,
                  now: Timestamp): (r: Result<seq<PostedToken>, Fault>)
    ensures r.Err? <==> Lower(address) in Keys(tokens)
    ensures r.Ok? ==> |r.value| == |tokens| + 1 && r.value[..|tokens|] == tokens
    ensures r.Ok? ==> r.value[|tokens|] == PostedToken(|tokens| + 1, name, Lower(address), now, messageId)
  {
    var key := Lower(address);
    if key in Keys(tokens) then Err(Fault(UniqueViolation))
    else
      var r := tokens + [PostedToken(|tokens| + 1, name, key, now, messageId)];
      assert r[..|tokens|] == tokens;
      Ok(r)
  }

  /** An insert keeps the key unique and the ids sequential, and adds exactly
      its own key. */
  lemma InsertKeepsTable(tokens: seq<PostedToken>, name: string, address: string,
                         messageId: Option<string>, now: Timestamp)
    requires Table(tokens)
    requires Insert(tokens, name, address, messageId, now).Ok?
    ensures var t := Insert(tokens, name, address, messageId, now).value;
            Table(t) && Keys(t) == Keys(tokens) + {Lower(address)}
  {
    var t := Insert(tokens, name, address, messageId, now).value;
    assert forall i :: 0 <= i < |tokens| ==> t[i] == tokens[i];
    forall k | k in Keys(t) ensures k in Keys(tokens) + {Lower(address)} {
      var i :| 0 <= i < |t| && t[i].contractAddress == k;
      if i < |tokens| {
        assert tokens[i].contractAddress == k;
      }
    }
    forall k | k in Keys(tokens) ensures k in Keys(t) {
      var i :| 0 <= i < |tokens| && tokens[i].contractAddress == k;
      assert t[i].contractAddress == k;
    }
    assert t[|tokens|].contractAddress in Keys(t);
  }

  /** Appending a row with the next id and a new key keeps the table valid. */
  lemma TableSnoc(tokens: seq<PostedToken>, t: PostedToken)
    requires Table(tokens) && t.id == |tokens| + 1 && t.contractAddress !in Keys(tokens)
    ensures Table(tokens + [t])
  {
    var r := tokens + [t];
    forall i, j | 0 <= i < j < |r| ensures r[i].contractAddress != r[j].contractAddress {
      if j == |tokens| {
        assert r[i] == tokens[i];
      }
    }
  }

  /** With unique keys, the table holds one row per key. */
  lemma {:induction false} OneRowPerKey(tokens: seq<PostedToken>)
    requires KeysUnique(tokens)
    ensures |Keys(tokens)| == |tokens|
  {
    if tokens != [] {
      var n := |tokens|;
      var init := tokens[..n - 1];
      assert KeysUnique(init) by {
        assert forall i :: 0 <= i < n - 1 ==> init[i] == tokens[i];
      }
      OneRowPerKey(init);
      assert Keys(tokens) == Keys(init) + {tokens[n - 1].contractAddress} by {
        forall k | k in Keys(tokens) ensures k in Keys(init) + {tokens[n - 1].contractAddress} {
          var i :| 0 <= i < n && tokens[i].contractAddress == k;
          if i < n - 1 {
            assert init[i].contractAddress == k;
          }
        }
        forall k | k in Keys(init) ensures k in Keys(tokens) {
          var i :| 0 <= i < n - 1 && init[i].contractAddress == k;
          assert tokens[i].contractAddress == k;
        }
      }
      assert tokens[n - 1].contractAddress !in Keys(init) by {
        forall i | 0 <= i < n - 1 ensures init[i].contractAddress != tokens[n - 1].contractAddress {
          assert init[i] == tokens[i];
        }
      }
    }
  }

  /** The stats row `get_stats` hands out: the stored one, or a fresh one
      with the column defaults when the table is empty. */
  function StatsRow(stats: Option<MonitorStats>): (row: MonitorStats)
    ensures stats.Some? ==> row == stats.value
    ensures stats.None? ==> row == FreshStats(1)
  {
    stats.GetOr(FreshStats(1))
  }

  class Database {
    /** The rows of `posted_token`, in insertion order. */
    var tokens: seq<PostedToken>
    /** The `monitor_stats` row, if it has been created. */
    var stats: Option<MonitorStats>

    predicate Valid()
      reads this
    {
      Table(tokens)
    }

    /** A database holding `tokens` and `stats`. */
    constructor (tokens: seq<PostedToken>, stats: Option<MonitorStats>)
      requires Table(tokens)
      ensures Valid() && this.tokens == tokens && this.stats == stats
    {
      this.tokens := tokens;
      this.stats := stats;
    }

    /** `is_token_posted`: whether a row with the lower-cased key exists. */
    method IsTokenPosted(address: string) returns (posted: bool)
      ensures posted <==> Lower(address) in Keys(tokens)
    {
      posted := false;
      var i := 0;
      while i < |tokens|
        invariant 0 <= i <= |tokens|
        invariant posted <==> exists j :: 0 <= j < i && tokens[j].contractAddress == Lower(address)
      {
        if tokens[i].contractAddress == Lower(address) {
          posted := true;
        }
        i := i + 1;
      }
    }

    /** `save_posted_token`: inserts a row for the lower-cased key, or fails
      on the unique constraint and changes nothing. */
    method SaveToken(name: string, address: string, messageId: Option<string>, now: Timestamp)
      returns (r: Result<PostedToken, Fault>)
      requires Valid()
      modifies this
      ensures Valid() && stats == old(stats)
      ensures var ins := Insert(old(tokens), name, address, messageId, now);
              if ins.Ok? then tokens == ins.value && r == Ok(tokens[|tokens| - 1])
              else tokens == old(tokens) && r == Err(ins.error)
    {
      var ins := Insert(tokens, name, address, messageId, now);
      if ins.Ok? {
        InsertKeepsTable(tokens, name, address, messageId, now);
        tokens := ins.value;
        r := Ok(tokens[|tokens| - 1]);
      } else {
        r := Err(ins.error);
      }
    }

    /** `get_stats`: the stats row, created with its defaults when missing. */
    method GetStats() returns (row: MonitorStats)
      modifies this
      ensures row == StatsRow(old(stats)) && stats == Some(row) && tokens == old(tokens)
    {
      if stats.None? {
        stats := Some(FreshStats(1));
      }
      row := stats.value;
    }

    /** `update_stats(**kwargs)`: each keyword argument set on the row in
      turn (every name the monitor passes is a column of the row). */
    method UpdateStats(fs: seq<StatsField>)
      modifies this
      ensures stats == Some(ApplyAll(StatsRow(old(stats)), fs)) && tokens == old(tokens)
    {
      var row := GetStats();
      var i := 0;
      while i < |fs|
        invariant 0 <= i <= |fs|
        invariant ApplyAll(row, fs[i..]) == ApplyAll(StatsRow(old(stats)), fs)
      {
        assert fs[i..][1..] == fs[i + 1..];
        row := Apply(row, fs[i]);
        i := i + 1;
      }
      stats := Some(row);
    }
  }
}
