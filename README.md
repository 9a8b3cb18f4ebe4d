# newsgog announce-once pipeline in Dafny

This project models the core of newsgog's `CryptoMonitor`. Each cycle it
polls an upstream feed of newly created tokens and skips any pool without a
usable identity, any pool whose lower-cased `coinType` is already in the
`posted_token` table, and any pool whose resolved name is
`"Unknown Token"`. For every other pool it builds a Telegram notification
and sends it through `TelegramBot`. A row is saved only when the bot returns
a truthy result. The singleton `monitor_stats` row keeps the running
totals, the last check, the last error and the `is_running` flag.

Modules, in dependency order:

- `Wrappers` (wrappers.dfy): `Option` and `Result`.
- `PyStr` (pystr.dfy): the Python `str` operations the code uses, and the
  thousands grouping of `format(x, ',')`.
- `PyValue` (pyvalue.dfy): decoded JSON values as Python sees them.
  - Truthiness, `dict.get`, `or`, `str()`/`repr()`, `format(v, ',')`.
  - Each wrong-typed access raises the exception Python raises.
- `Models` (models.py): `PostedToken`, `MonitorStats`, the `to_dict`
  projections, and the keyword arguments of `update_stats`.
- `Store` (store.dfy): the two tables.
  - The `class Database` offers `is_token_posted`, `save_posted_token`,
    `get_stats` and `update_stats`.
  - `contract_address` is the unique key, and ids are sequential.
- `Telegram` (telegram.dfy): `TelegramBot`.
  - Its chat-id rule, `format_token_message` (as a list of sections and
    their rendering) and `create_buy_button`.
  - `send_message` and `send_photo` go through a `Channel` class. It records
    every request and answers each one from a script of replies.
- `Extract` (extract.dfy): everything `process_tokens` reads out of one
  pool before the send.
- `DraftMonitor` (draft.dfy): the truncated `process_tokens` of
  `monitor.py`, proved to behave like the main one minus the description.
- `Pipeline` (pipeline.dfy): the cycle as functions of the state (table,
  stats row, Bot API).
  - `StepPool` is one loop iteration and `Run` is the whole
    `process_tokens` loop, both with the per-pool handler as it is
    evidently intended: a pool that raises is logged and passed over.
    The handler as written can itself raise (see "## Findings").
  - `Cycle` is one `monitor_loop` iteration and `Session` is a whole run.
- `Monitoring` (monitor.dfy): `class CryptoMonitor` with its `running`
  flag, its database and its channel.
  - Its methods have the source's loops, with the per-pool handler as
    intended, like `Pipeline`.
  - Each is proved to leave the state exactly where the matching
    `Pipeline` function says, so the invariants proved of the functions
    hold of the methods.
- `Findings` (findings.dfy): the per-pool exception handler as written,
  and the input on which it loses counts (see "## Findings").

The main invariants, proved over every input for the loop with the
per-pool handler as intended (`Findings` shows how the handler as written
breaks the third one):

- No key is saved twice: `Pipeline.RunKeepsTable`, `Store.OneRowPerKey`.
- A row is saved exactly when the send returned a truthy dict:
  `Pipeline.StepRecordsIffDelivered`.
- Both totals equal the number of saved rows after every cycle:
  `Pipeline.CycleKeepsConsistent` and `Pipeline.SessionKeepsConsistent`.
- A failed delivery leaves the pool retryable:
  `Pipeline.StepUndeliveredRetries`.
- A skipped or failing pool does not affect the others:
  `Pipeline.RunIsolatesPool`.

## Model

| member | source | states |
|---|---|---|
| PyStr.Strip | telegram_bot.py:198 | `strip()` removes only whitespace (CPython's `isspace` set) from both ends, and the result neither starts nor ends with whitespace |
| PyStr.LStripChar | telegram_bot.py:210 | `lstrip('@')` removes exactly the leading run of `@`, and what is left does not start with `@` |
| PyStr.Lower | telegram_bot.py:193 | `lower()` keeps the length, turns each upper-case ASCII letter into its lower-case letter and keeps every other character |
| PyStr.LowerUpper | telegram_bot.py:163-167 | lower-casing forgets ASCII case: a `coinType` and its upper-cased form give the same key |
| PyStr.Upper | telegram_bot.py:87 | `upper()` keeps the length, turns each lower-case ASCII letter into its upper-case letter and keeps every other character |
| PyStr.UpperLower | telegram_bot.py:87 | upper-casing forgets ASCII case in the same way |
| PyStr.LowerIdempotent | telegram_bot.py:161-167 | lower-casing an already lower-cased key changes nothing, so the double `lower()` of the posted check and of the save is harmless |
| PyStr.Take | telegram_bot.py:114 | `s[:n]` is the first `min(n, len(s))` characters |
| PyStr.TakeLast | telegram_bot.py:108 | `s[-n:]` is the last `min(n, len(s))` characters |
| PyStr.DigitsRoundTrip | telegram_bot.py:226 | the decimal digits of `n` read back as `n` |
| PyStr.UngroupGroup | telegram_bot.py:226 | comma grouping only inserts commas: removing them gives back the digits |
| PyStr.GroupPlacesCommas | telegram_bot.py:226 | grouping a comma-free text puts a comma at exactly every fourth place from the right end, keeps the first character first, and adds one comma per three characters after the first |
| PyStr.GroupWellGrouped | telegram_bot.py:226 | grouping writes the text in comma groups: the first group has one to three characters, every later group exactly three, and removing the commas gives the text back |
| PyStr.GroupInt | telegram_bot.py:226 | `format(i, ',')` with its commas removed is `str(i)`, and it starts with `-` exactly for a negative `i` |
| PyStr.GroupIntWellGrouped | telegram_bot.py:226 | after the sign, `format(i, ',')` is the digits of `i` in comma groups of three counted from the right |
| PyStr.GroupFloatRepr | telegram_bot.py:226 | `format(x, ',')` of a float differs from its `repr` only in commas |
| PyStr.GroupFloatReprGrouped | telegram_bot.py:226 | the sign and everything after the integer digits are kept, and the integer digits are written in comma groups |
| PyValue.Get | telegram_bot.py:190 | `v.get(key)` succeeds exactly on a dict and raises `AttributeError` on anything else |
| PyValue.Or | telegram_bot.py:197-198 | `a or b` is `a` when `a` is truthy and `b` otherwise |
| PyValue.Str | telegram_bot.py:94 | an f-string field gives a `str` unchanged, and is non-empty for every other value |
| PyValue.FormatGrouped | telegram_bot.py:226 | `format(v, ',')` succeeds on numbers only, so a `str` balance raises; an int gives `str(i)` plus commas |
| PyValue.LowerValue | telegram_bot.py:193 | `.lower()` succeeds exactly on a `str` |
| PyValue.StripValue | telegram_bot.py:198 | `.strip()` succeeds exactly on a `str`, with `PyStr.Strip`'s result |
| Models.PostedTokenToDict | models.py:14-21 | exactly the five keys in order, `posted_at` as ISO text, the other fields unchanged |
| Models.PostedTokenDictRoundTrip | models.py:14-21 | the row can be read back from its dict, so nothing is lost |
| Models.FreshStats | models.py:23-29 | a new stats row has both totals 0, no check, no error and `is_running` false |
| Models.StatsToDict | models.py:31-39 | exactly the six keys, in order |
| Models.StatsToDictEntries | models.py:31-39 | an unset `last_check` becomes `None`, a set one its ISO text; every other field is copied unchanged |
| Models.StatsDictRoundTrip | models.py:31-39 | the stats row can be read back from its dict |
| Models.ApplyAllKeepsUnnamed | telegram_bot.py:151-157 | `update_stats` never changes `id`; the totals, `last_error` and `is_running` change only when an argument names them |
| Store.Insert | telegram_bot.py:165-169 | the insert fails exactly when the lower-cased key is already present; otherwise it appends one row with the next id, the lower-cased key and the message id |
| Store.InsertKeepsTable | models.py:5-7 | an insert keeps the keys unique and the ids sequential, and adds exactly its own key |
| Store.OneRowPerKey | models.py:7 | with unique keys, the table holds one row per key |
| Store.StatsRow | telegram_bot.py:142-149 | the stored row, or a fresh one with the column defaults when none exists |
| Store.Database.IsTokenPosted | telegram_bot.py:161-163 | true exactly when a row with the lower-cased key exists |
| Store.Database.SaveToken | telegram_bot.py:165-171 | the table becomes `Insert`'s result and the saved row is returned, or the unique-constraint error is returned and nothing changes |
| Store.Database.GetStats | telegram_bot.py:142-149 | returns the stats row, creating it with its defaults when it is missing |
| Store.Database.UpdateStats | telegram_bot.py:151-158 | the row, created when missing, with each keyword argument applied in turn |
| Telegram.NormalizeChatId | telegram_bot.py:14-15 | the chat id always starts with `-`; one that already does is kept; otherwise `-` is prefixed |
| Telegram.NormalizeChatIdIdempotent | telegram_bot.py:15 | normalising twice is normalising once |
| Telegram.NewBot | telegram_bot.py:12-16 | the token and chat id come from the environment or their defaults, and the API URL embeds the token |
| Telegram.LinkList | telegram_bot.py:98-102 | the X link comes first and the TG link last, each present exactly when its entry is |
| Telegram.Sections | telegram_bot.py:87-108 | between 4 and 9 sections, opening with the headline and closing with the creator line |
| Telegram.SectionsLayout | telegram_bot.py:87-108 | the sections are strictly ordered by kind, so none occurs twice; the fixed head comes first and each optional section sits at its own place |
| Telegram.SectionsShown | telegram_bot.py:91-107 | description and dev buy appear only when truthy; market cap whenever it is not `None`; socials for a non-empty dict; protection "Active" for `True`, "NOT Active" for `False`, neither for `None` |
| Telegram.SocialsLinkOrder | telegram_bot.py:97-103 | with both handles, the socials line is the X link, `" \| "`, then the TG link |
| Telegram.ShortAddressOfLongAddress | telegram_bot.py:108 | for an address of ten or more characters the label is its first six characters, `...`, and its last four |
| Telegram.HeadlineOpens | telegram_bot.py:87-88 | the headline opens with the upper-cased name in bold |
| Telegram.MessageBookends | telegram_bot.py:87-109 | the message opens with the upper-cased name and ends with the creator link |
| Telegram.CreateBuyButton | telegram_bot.py:111-116 | one row holding one button; its URL is the fixed prefix followed by at most the first 20 characters of `coinType` |
| Telegram.BuyButtonDependsOnPrefix | telegram_bot.py:114 | two coin types give the same button exactly when their first 20 characters agree |
| Telegram.IndexOf | telegram_bot.py:44 | the first comma of the data URI, or none, which makes `split(',', 1)` raise |
| Telegram.PhotoRequest | telegram_bot.py:43-58 | a photo request is made exactly for a `data:image` URI holding a comma, with the caption unchanged; otherwise no request |
| Telegram.SendMessage | telegram_bot.py:18-39 | exactly one request to `/sendMessage` is logged, and the API's answer to it is returned |
| Telegram.SendPhoto | telegram_bot.py:41-72 | one request for a supported image; `None` and no request for any other format |
| Extract.ReadIdentity | telegram_bot.py:190-193 | a missing or falsy `coinType` gives no identity; a `str` gives its lower-cased form; any other value, or a non-dict pool, raises |
| Extract.FirstTruthy | telegram_bot.py:198 | the value of an `or` chain is the default or one of the values, and it is truthy unless it is the default |
| Extract.FirstTruthyPicksFirst | telegram_bot.py:198 | the `or` chain stops at the first truthy value |
| Extract.FirstTruthyNone | telegram_bot.py:198 | an `or` chain of falsy values gives the default |
| Extract.NameCandidate | telegram_bot.py:197-198 | the name chain is tried in order (metadata name, metadata symbol, pool name, pool symbol, then `"Unknown Token"`); a non-dict `coinMetadata` raises |
| Extract.ResolveName | telegram_bot.py:198 | the display name is the chain's value stripped; it must be a `str` |
| Extract.BlankNameAccepted | telegram_bot.py:198 | any name chain stopping at a non-empty whitespace-only `str` resolves to `""` |
| Extract.BlankNameNotSkipped | telegram_bot.py:198-200 | a new pool named by whitespace only is never skipped as unknown, and a ready draft for it has the empty name |
| Extract.PaddedUnknownRejected | telegram_bot.py:198-200 | `" Unknown Token "` strips to the rejected name |
| Extract.TwitterUrlIgnoresAt | telegram_bot.py:210 | a leading `@` on the handle makes no difference to the URL |
| Extract.TwitterUrlOfCleanHandle | telegram_bot.py:210 | a clean handle is embedded unchanged after `https://x.com/` |
| Extract.ReadSocials | telegram_bot.py:205-212 | a Twitter entry for a truthy `str` handle (any other truthy value raises), and the truthy Telegram handle passed through |
| Extract.MarketCapText | telegram_bot.py:216-217 | the market cap is shown exactly when it is not `None`; a non-dict `marketData` raises |
| Extract.ZeroMarketCapShown | telegram_bot.py:93-94 | an instance of `MarketCapText` for documentation: a market cap of 0 is shown as `0` |
| Extract.ProtectionFlag | telegram_bot.py:218 | a missing flag is `False`, a `bool` flag is passed on as it is, and any other value selects no protection line |
| Extract.DescriptionText | telegram_bot.py:219 | a truthy metadata description is shown; otherwise a truthy pool description; otherwise `"N/A"`; the text is never empty |
| Extract.DevBuyText | telegram_bot.py:222-228 | no text for a falsy balance; otherwise it raises exactly when the balance does not format, and the text is `Dev Initial: <format(balance, ',')> tokens`, followed by ` (<str(percent)>%)` exactly when the percent is truthy |
| Extract.CreatorText | telegram_bot.py:215 | the creator address must be a `str` to be sliced |
| Extract.Route | telegram_bot.py:247-250 | a photo exactly for a `str` icon starting with `data:image`; a truthy non-`str` icon raises |
| Extract.Gather | telegram_bot.py:202-250 | the draft carries the key, the name, the raw `coinType` and a non-empty description; the button exactly when `coinType` is truthy; the text is the formatted message; the socials, symbol, creator, market cap, protection flag, description, dev-buy text and photo are each the reading of its own pool field; it raises exactly when one of those readings raises |
| Extract.ReadyGathered | telegram_bot.py:190-250 | a ready draft is `Gather`'s result for the pool, its metadata and its resolved name |
| Extract.ReadyWithoutFlagWarns | telegram_bot.py:218 | a ready pool without `isProtected` gets the flag `False`, so the message carries the "Anti-Sniper NOT Active" line of lines 106-107 |
| Extract.ReadyShowsMarketCap | telegram_bot.py:216-217 | a ready pool with a market cap that is not `None`, 0 included, is announced with the market-cap line of lines 93-94, showing `str` of the value |
| Extract.Announce | telegram_bot.py:197-200 | the pool is skipped as unknown exactly when its name resolves to `"Unknown Token"` |
| Extract.Prepare | telegram_bot.py:190-200 | a ready draft has an identity, a key not yet posted and a name that is not `"Unknown Token"` |
| Extract.SkipWithoutCoinType | telegram_bot.py:190-192 | skipped for no identity exactly when there is no truthy `coinType` |
| Extract.SkipWhenPosted | telegram_bot.py:193-195 | skipped as posted exactly when the lower-cased key is recorded |
| Extract.SkipUnknownName | telegram_bot.py:197-200 | skipped as unknown exactly when a new key's name resolves to `"Unknown Token"` |
| Extract.ReadyDraft | telegram_bot.py:190-244 | a ready draft is for the lower-cased, unposted key, under a name other than `"Unknown Token"`, with the buy button, and always has a description |
| DraftMonitor.DevBuyVariantsAgree | monitor.py:52-59 | the nested `if` of the variant builds the same dev-buy text |
| DraftMonitor.GatherVariantsAgree | monitor.py:32-87 | the variant's fields and send choice are the main ones without the description |
| DraftMonitor.AnnounceVariantsAgree | monitor.py:19-30 | the variant's name gate agrees with the main one |
| DraftMonitor.VariantIsMainWithoutDescription | monitor.py:8-87 | the variant skips, fails and sends on exactly the same pools as the main `process_tokens`, with the same fields except the description |
| DraftMonitor.VariantNeverDescribes | monitor.py:68-78 | the variant's messages never have a description section |
| DraftMonitor.WithoutDescription | monitor.py:68-78 | dropping the description keeps readiness and rebuilds the text without it; the key, name, button, photo and every other field stay as they were; a skip or failure is unchanged |
| Pipeline.MessageIdOf | telegram_bot.py:253 | `str(result.get("message_id", ""))`: `""` when missing, `str(n)` for an int, raises for a non-dict result |
| Pipeline.Settle | telegram_bot.py:246-256 | the stats row never changes; the table grows by the announced row and by nothing else |
| Pipeline.SettleSkipLeavesState | telegram_bot.py:258-260 | a skip, or an exception caught before the send, leaves everything as it was |
| Pipeline.SettleRecordsIffDelivered | telegram_bot.py:252-254 | for a fresh key, a row is saved exactly when the reply is a truthy dict; the row holds the next id, the name, the lower-cased key and the reply's message id |
| Pipeline.SettleUndelivered | telegram_bot.py:252 | a falsy or missing reply records nothing |
| Pipeline.SettleKeepsTable | telegram_bot.py:165-169 | every outcome keeps the keys unique and the ids sequential |
| Pipeline.StepPool | telegram_bot.py:189-260 | with the handler as intended, one iteration leaves the stats row alone and adds only the announced row |
| Pipeline.StepSkipLeavesState | telegram_bot.py:190-200 | a skipped or faulted pool leaves the state unchanged; skipped exactly when the preparation skips |
| Pipeline.StepRecordsIffDelivered | telegram_bot.py:252-256 | a row is saved exactly when the pool is ready and the reply is a truthy dict; it holds the lower-cased unposted `coinType` and the next id |
| Pipeline.StepUndeliveredRetries | telegram_bot.py:252-256 | an undelivered pool leaves the table unchanged, so it is prepared again, identically, on the next cycle |
| Pipeline.StepKeepsTable | telegram_bot.py:254 | a step keeps the keys unique and the ids sequential |
| Pipeline.Run | telegram_bot.py:185-262 | with the handler as intended, one outcome per pool; the stats row is untouched; the table grows by exactly the announced rows; the returned count is their number |
| Pipeline.RunKeepsTable | telegram_bot.py:188-256 | no key is saved twice across the loop, so the table holds one row per key |
| Pipeline.RunAppend | telegram_bot.py:188 | the loop over two batches one after the other is the loop over both |
| Pipeline.RunIsolatesPool | telegram_bot.py:258-260 | with the handler as intended, a skipped or faulted pool affects neither the state nor the count, and the pools after it fare as if it were absent |
| Pipeline.FetchTokens | telegram_bot.py:174-182 | the `pools` entry of the response, `[]` when missing, and `[]` for any failure |
| Pipeline.Iterate | telegram_bot.py:188 | iterating a list gives its items, a string its characters, a dict its keys; any other value raises `TypeError` |
| Pipeline.TallyCompleted | telegram_bot.py:278-284 | a returned cycle adds its count to both totals, stamps the check and clears the error |
| Pipeline.TallyFailed | telegram_bot.py:286-289 | a raising cycle records the check and `Monitor error: ...`, and changes nothing else |
| Pipeline.CycleCompleted | telegram_bot.py:276-284 | a completed cycle adds the number of saved rows to both totals, clears the error, and keeps the flag and the id |
| Pipeline.CycleFailed | telegram_bot.py:286-289 | a cycle whose `process_tokens` raises leaves the table and the totals, and records the error |
| Pipeline.FetchFailureClearsError | telegram_bot.py:174-182 | a failed fetch is an empty, successful cycle: nothing sent or saved, totals kept, `last_error` cleared |
| Pipeline.CycleKeepsConsistent | telegram_bot.py:275-290 | after every cycle both totals equal the number of rows, and keys stay unique |
| Pipeline.CycleKeepsFlag | telegram_bot.py:279-289 | a cycle leaves `is_running` and the row id as they were |
| Pipeline.SetRunning | telegram_bot.py:272 | `update_stats(is_running=...)` sets the flag, creating the row if needed, and changes nothing else |
| Pipeline.CyclesKeepConsistent | telegram_bot.py:274-291 | the totals stay equal to the number of rows across any number of cycles |
| Pipeline.CyclesKeepRunning | telegram_bot.py:274-291 | while the loop runs the row says running after every cycle |
| Pipeline.SessionKeepsConsistent | telegram_bot.py:265-294 | across a whole run the totals stay equal to the rows; the row says running after each cycle and stopped at the end |
| Monitoring.CryptoMonitor.constructor | telegram_bot.py:135-139 | not running, the feed URL and a 15-second interval |
| Monitoring.CryptoMonitor.Publish | telegram_bot.py:246-256 | the send, the truthiness test and the save leave the state and outcome `Settle` gives |
| Monitoring.CryptoMonitor.ProcessPool | telegram_bot.py:189-260 | one loop iteration leaves the state and outcome `StepPool` gives |
| Monitoring.CryptoMonitor.ProcessNext | telegram_bot.py:188-256 | one more pass of the loop, both counters included, is one more step of `Run` |
| Monitoring.CryptoMonitor.ProcessPools | telegram_bot.py:186-262 | the loop leaves the state `Run` gives, and both counters equal its count |
| Monitoring.CryptoMonitor.ProcessTokens | telegram_bot.py:185-262 | returns both counts of `Process`, or its exception with the state untouched |
| Monitoring.CryptoMonitor.CompleteCycle | telegram_bot.py:278-284 | the stats update after a returned cycle, as `Tally` gives it |
| Monitoring.CryptoMonitor.FailCycle | telegram_bot.py:286-289 | the handler's stats update, as `Tally` gives it |
| Monitoring.CryptoMonitor.RunCycle | telegram_bot.py:275-290 | one `monitor_loop` iteration leaves the state `Cycle` gives |
| Monitoring.CryptoMonitor.MonitorLoop | telegram_bot.py:265-294 | a no-op when already running; otherwise the state `Session` gives, with `running` cleared by `stop` |
| Monitoring.CryptoMonitor.Stop | telegram_bot.py:296-297 | clears `running` |
| Monitoring.StartMonitoring | telegram_bot.py:304-311 | a no-op when the monitor runs; otherwise its loop |
| Findings.ProcessAsWritten | telegram_bot.py:185-262 | the loop as written: when the handler raises, the stats row is the one it started with |
| Findings.AsWrittenAgreesOnDicts | telegram_bot.py:258-260 | when every pool is a dict, the code as written and the model agree |
| Findings.RaisesAtNull | telegram_bot.py:259 | an instance of `ProcessAsWritten` on the input of the finding: for `[pool, None]` the first pool is processed and then `'NoneType' object has no attribute 'get'` escapes |
| Findings.CycleRaisesAtNull | telegram_bot.py:286-289 | the cycle as written then takes the error branch on the state the first pool left |
| Findings.EscapeLosesCounts | telegram_bot.py:252-289 | on such a feed the model keeps the totals equal to the rows, while the code as written saves the row, loses its count and reports the error |

## Left out

- Decoded JSON objects are taken to have distinct keys. `PyValue.Lookup` returns the first entry for a key, while `json.loads` keeps the last of repeated keys; a Python dict never holds a key twice, so the two agree on every object with distinct keys.
- HTTP is not modelled: `requests.get`/`post`, status checks, JSON decoding and timeouts.
  - A fetch is given as its decoded response, or `None` for any failure.
  - A Bot API answer is given as the `result` it returns, or `None` when the request failed in any way.
- The base64 decoding and the temporary file of `send_photo` are not modelled. The request carries the part of the data URI after its first comma, and a decoding error is not modelled.
- SQLAlchemy sessions, `app.app_context()` and commit failures are not modelled; the tables are in-memory sequences. A failure other than the unique constraint on `contract_address` is left out.
- `socketio.emit` (telegram_bot.py:158, 170, 290) and all `logging` are left out. They are dashboard pushes and log lines that change no modelled state.
- Threads, the check-then-act race between `start_monitoring` and `monitor_loop`, and `time.sleep(self.check_interval)` are left out.
  - The loop is run with the responses of the cycles it performs.
  - `stop` is taken to arrive during the last of them, or before the first when there are none.
- `datetime.utcnow()` is not modelled. Each cycle is given one instant, used both for `posted_at` and for `last_check`.
- `lower()` and `upper()` are modelled on ASCII letters only; full Unicode case mapping is not.
- `repr` of a `str` is simplified to single quotes without escaping.
- A list-valued `creatorAddress` (which Python would slice) is treated as raising, like any other non-`str` value.
- The module-level `telegram_bot` and `monitor` instances, `routes.py`, `app.py`, `main.py` and `static/js/main.js` are not part of this model.
- Pipeline.StepPool, Pipeline.Run, Pipeline.Process, Pipeline.Cycle, Pipeline.Cycles, Pipeline.Session, Pipeline.RunIsolatesPool and the `Monitoring.CryptoMonitor` loop methods (ProcessPool, ProcessNext, ProcessPools, ProcessTokens, RunCycle, MonitorLoop) model the per-pool handler of telegram_bot.py:258-260 as intended: a pool that is not a dict becomes `Faulted` and the loop goes on. As written, the handler's own `pool.get('coinType')` raises for such a pool and the exception leaves `process_tokens`. That loop as written is `Findings.ProcessAsWritten` and `Findings.CycleAsWritten`; they agree with the model whenever every pool is a dict (`Findings.AsWrittenAgreesOnDicts`).
- monitor.py ends mid-statement at line 89, so its loop, counters and save cannot be modelled. Only its per-pool extraction up to the send choice is modelled, as a function.
- Monitoring.CryptoMonitor.ProcessNext, CompleteCycle and FailCycle are the loop bodies of `process_tokens` and `monitor_loop` split into methods of their own. They are not separate functions of the source.

## Where the design and the code differ

The model follows the code in each case:

- A failed fetch is swallowed into `[]` by `fetch_tokens`, so it becomes an empty, successful cycle that clears `last_error` instead of recording it (`Pipeline.FetchFailureClearsError`).
- The identity key is only lower-cased, not trimmed. There is no fallback to a pool id.
- There is no in-memory cache in front of the table.
- A name of whitespace only is not rejected: it strips to `""` (`Extract.BlankNameAccepted`, `Extract.BlankNameNotSkipped`).
- A `str` balance does not render raw: `format(s, ',')` raises, and the per-pool handler skips the pool.
- The two totals are always incremented together, so "found" counts saved rows, not seen pools.

## Findings

| source | as written | input that shows it | evidently intended | confidence | as-written member | corrected member |
|---|---|---|---|---|---|---|
| telegram_bot.py:258-260 | the per-pool handler calls `pool.get('coinType')` to log the pool, which raises again for a pool that is not a dict; the exception leaves `process_tokens`, so rows saved earlier in the cycle stay while their counts are lost and the cycle is reported as an error | a feed `{"pools": [p, null]}` where `p` is announced | log the pool and continue with the next one, as for any other per-pool exception | not executed | Findings.EscapeLosesCounts | Pipeline.CycleKeepsConsistent |
