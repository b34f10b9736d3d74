# Swap pipeline, exit watcher and agent route — a Dafny model

This project models three decision cores of a Solana trading system and proves
properties of them.

- **Swap classification and publication** (`ProcessSwap`,
  `listen-data/src/process_swap.rs`). Each observed transaction's
  token-balance diffs go through an ordered chain of guards:
  1. all diffs tiny;
  2. some diff exactly zero;
  3. leg count outside {2, 3};
  4. three legs (multi-hop), counted and dropped.

  A guard that fires moves exactly one metrics counter and ends the run with
  `Ok`. A two-leg swap is priced by the diff resolver and enriched with token
  metadata into a `PriceUpdate`. The update goes to the database, the message
  queue and the key-value store in that order, each outcome moving that sink's
  success or failure counter. The first failing sink ends the run with its error.

  The pure reading (`ProcessSwapRun`, `TwoTokenSwapRun`, `Fanout`) describes a
  run as a trace of effects. The step-by-step methods (`ProcessSwap`,
  `ProcessTwoTokenSwap`, `Publish3`) update a `SwapMetrics` object and three
  `PriceSink` objects, and are proved to realise that trace.
- **Take-profit / stop-loss exit watcher** (`SellerService`,
  `src/seller_service.rs`). The watch task does the following:
  1. It resolves the wallet's balance of the bought token. It uses the direct
     balance query, and only if that fails, the first notification of a
     token-account subscription, raced against a 10 s timeout.
  2. It subscribes to the pool's SOL vault.
  3. It reads vault updates until the first whose reserve `lamports / 10^9` is
     at least 1.4 R or at most 0.8 R, where R is the reserve at purchase.
  4. It sells the whole balance through the pool.
  5. Only after a successful sell does it release the vault subscription.

  The HTTP handler acknowledges the request with a fixed body. `ExitWatchRun`
  is the task as a function of its inputs. `RunExitWatch` and
  `GetSplBalanceStream` are the step-by-step versions over `PubsubClient` and
  `Trader` objects: `RunExitWatch` is proved equal to `ExitWatchRun`, and
  `GetSplBalanceStream` to `SplBalanceStream`. `WatchVault` is the watch loop
  itself, proved to stop at `FirstCrossing`.
- **Chat history and chain dispatch** (`Routes`, `listen-kit/src/http/routes.rs`):
  - the all-or-nothing, order-preserving validation of `{role, content}`
    records into completion messages;
  - the choice of agent from the optional `chain` parameter;
  - the adjacently tagged JSON shape of the streamed events, with its inverse.

Supporting modules:

- `Common`: `Option`, `Result`, `u8`/`u64` as bounded naturals, and JSON values.
- `Text`: `str::contains`, `str::parse::<u64>` and a decimal rendering proved to
  be the parse's inverse.

Every external answer is a parameter. This covers:

- the diffs, the diff resolver (a function value), the SOL price and the
  metadata lookup;
- each sink's write outcome and the clock reading;
- the balance query, the fallback's first notification and when it arrives,
  and the Base64-and-unpack decoding of token-account data;
- the vault updates and whether the vault stream ends;
- the exit swap's outcome;
- whether an agent can be created.

A failing `expect` is a `Panic` outcome that ends the task.

Subscription release follows the code:

- On the token-account subscription, `unsub()` is called only when the fallback
  returns an amount. It is not called after a timeout or unexpected data.
- On the vault subscription, `unsub()` is called only after a successful exit swap.

What the pub/sub library does when a stream and its handle are dropped is not
part of this model.

`ExitWatchRun` and `GetSplBalanceStream` state exactly these releases.

## Model

| member | source | states |
|---|---|---|
| Common.AsStr | listen-data/src/process_swap.rs:253 | `as_str` yields text exactly for a JSON string, and that string's text |
| Common.Abs | listen-data/src/process_swap.rs:41 | the magnitude is non-negative and is the value or its negation |
| Text.Contains | listen-data/src/process_swap.rs:253 | `contains` is true exactly when the pattern occurs at some offset |
| Text.ParseDigits | src/seller_service.rs:70-73 | the checked digit loop of `parse::<u64>` (multiply by 10, add the digit, fail on a non-digit or when a step reaches 2^64) succeeds exactly when the rest is all digits and `acc * 10^n + value` stays below 2^64, and yields that number |
| Text.ParseU64 | src/seller_service.rs:70-73 | the parse (empty string and lone sign rejected, one `+` stripped, then the checked loop) succeeds exactly for one or more digits whose value is below 2^64, and yields that value |
| Text.DecimalString | src/seller_service.rs:70-73 | the rendering of n is plain digits without leading zero, denotes n, and `ParseU64` of it gives back n for every u64 |
| ProcessSwap.Classify | listen-data/src/process_swap.rs:41-106 | each route iff its test holds and no earlier guard fired: tiny iff all tiny (so the empty set); zero iff not tiny and some diff is 0; unexpected count iff neither and the count is outside {2,3}; multi-hop iff neither and three legs; pricing iff neither and exactly two legs |
| ProcessSwap.MarketCap | listen-data/src/process_swap.rs:240-245 | market cap × 10^decimals == price × supply |
| ProcessSwap.IsPump | listen-data/src/process_swap.rs:247-254 | the flag holds iff the off-chain metadata has a string `createdOn` in which "pump.fun" occurs |
| ProcessSwap.BuildPriceUpdate | listen-data/src/process_swap.rs:256-269 | every field of the update: resolver fields, metadata name, market cap relation, pump flag iff, slot/fee payer/signature of the transaction, the multi-hop flag and the clock |
| ProcessSwap.FirstFailure | listen-data/src/process_swap.rs:271-298 | the position of the first failing sink: all before it were written, it failed |
| ProcessSwap.Fanout | listen-data/src/process_swap.rs:271-298 | sinks up to and including the first failure are attempted in order, each moving its own success/failure counter, none after it; error is that sink's error, `Ok` when none fails |
| ProcessSwap.FanoutOfSinkOrder | listen-data/src/process_swap.rs:271-298 | the three spelled-out writes are the sequential-abort fan-out over db → queue → kv |
| ProcessSwap.AttemptedIffEarlierWritten | listen-data/src/process_swap.rs:271-298 | a sink is attempted iff every earlier sink succeeded, and counted a success iff it also succeeded |
| ProcessSwap.TwoTokenSwapRun | listen-data/src/process_swap.rs:198-298 | `NonWsolsSwap` → only `skipped_non_wsol`; `ExpectedExactlyTwoTokenBalanceDiffs` → only `skipped_unexpected_number_of_tokens`; missing or failed metadata → only `skipped_no_metadata`, each `Ok`, no update; an update is built iff the resolver and lookup succeed, and then the run is the fan-out |
| ProcessSwap.ProcessSwapRun | listen-data/src/process_swap.rs:21-184 | each guard moves only its counter with `Ok` and no writes (tiny including the empty list; zero only when not tiny; count outside {2,3}; three legs); an update only for two legs, `multi_hop == false`, transaction fields copied; swap amount = \|SOL diff\| × SOL price when the resolver does so (lines 337-340, 371-374); an accepted diff set's run is `TwoTokenSwapRun` with `multi_hop == false` (trace, update, and its error under the context "failed to process two token swap"); an error only after an attempted write whose failure counter is the last effect |
| ProcessSwap.SwapMetrics.Increment | listen-data/src/process_swap.rs:43 | the named counter goes up by one and no other counter moves |
| ProcessSwap.PriceSink.Write | listen-data/src/process_swap.rs:271 | a write is recorded as attempted, and as stored only when it succeeds |
| ProcessSwap.WriteAndCount | listen-data/src/process_swap.rs:271-277 | one write followed by exactly that sink's success or failure counter |
| ProcessSwap.Publish3 | listen-data/src/process_swap.rs:271-298 | the result and trace are the fan-out's; counters move by the trace's tally; each sink receives the update iff it is reached, stores it iff it also succeeds |
| ProcessSwap.ProcessTwoTokenSwap | listen-data/src/process_swap.rs:188-299 | the step-by-step run equals `TwoTokenSwapRun`, with counters and sink contents as its trace says |
| ProcessSwap.ProcessSwap | listen-data/src/process_swap.rs:21-184 | the step-by-step run equals `ProcessSwapRun`, with counters and sink contents as its trace says |
| SellerService.ExitThresholds | src/seller_service.rs:96-97 | tp = 1.4 R, sl = 0.8 R; for R > 0 the reserve at purchase lies strictly between them and does not trigger; for R ≤ 0 every reserve triggers |
| SellerService.SolPooled | src/seller_service.rs:104 | the reserve in SOL is non-negative and times 10^9 gives back the lamports |
| SellerService.FirstCrossing | src/seller_service.rs:103-118 | the first update that reaches tp or falls to sl; none before it does |
| SellerService.WatchVault | src/seller_service.rs:103-118 | the loop stops exactly at the first crossing; without one it ends with the stream, or waits forever if the stream stays open |
| SellerService.SplBalanceStream | src/seller_service.rs:137-170 | a Base64 binary first notification before 10 s yields its decoded amount (or the decoder's panic), and an amount comes only from there; no event before the deadline → "timeout"; other data → "unexpected data", its only errors; refused subscription → panic "account_subscribe"; stream ended → panic "log" |
| SellerService.ResolveBalance | src/seller_service.rs:65-81 | a successful query gives its parsed amount (every rendered u64 parses back), or panics "balance string to u64"; only a failed query uses the fallback: its amount is taken, its error panics "get_spl_balance_stream", its own panics (refused subscription, ended stream, undecodable data) end the task; an amount comes only from the parsed query or the fallback; never a plain failure |
| SellerService.ExitWatchRun | src/seller_service.rs:55-131 | fallback subscription only on query failure; once the balance is known, the subscriptions are exactly the fallback's (on query failure) then the vault (when accepted); no swap is sent unless an update crossed or the stream ended, and then exactly one, for the whole resolved balance of `input_mint` for `output_mint` via `amm_pool`, selling on success and aborting on failure; waiting iff nothing crossed and the stream is open; a refused vault subscription or an unresolved balance aborts with no swap; releases as described above |
| SellerService.PubsubClient.AccountSubscribe | src/seller_service.rs:84-94 | an accepted subscription is recorded, nothing is released |
| SellerService.PubsubClient.Unsubscribe | src/seller_service.rs:131 | the release is recorded, subscriptions unchanged |
| SellerService.Trader.Swap | src/seller_service.rs:120-129 | the order is recorded as sent; success as the outcome says |
| SellerService.GetSplBalanceStream | src/seller_service.rs:137-170 | equals `SplBalanceStream`; subscribes when the node accepts; releases exactly on success |
| SellerService.RunExitWatch | src/seller_service.rs:55-132 | the step-by-step task equals `ExitWatchRun`, its subscriptions, releases and orders |
| SellerService.HandleSell | src/seller_service.rs:49-135 | the response is always `200 {"status": "OK, triggered sell"}`, whatever the task meets; the task's outcome, subscriptions, releases and swaps are those of `ExitWatchRun` |
| Routes.DeserializeMessage | listen-kit/src/http/routes.rs:307-336 | "user"/"assistant" with string content → that message with exactly one text item; other content → "Invalid user content format" / "Invalid assistant content format"; any other role (case-sensitive) → "Invalid role" |
| Routes.DeserializeMessages | listen-kit/src/http/routes.rs:302-338 | `Ok` iff every record converts, then same length and order, element by element; otherwise the error of the first failing record |
| Routes.HistoryRoundTrip | listen-kit/src/http/routes.rs:290-339 | every history of single-text messages, sent as records, is accepted back unchanged |
| Routes.ToJson | listen-kit/src/http/routes.rs:35-41 | an object with exactly the keys `type` and `content`: `type` is the variant name; `content` is the string for `Message`/`Error` and the object with exactly `name` and `result` for `ToolCall` |
| Routes.FromJson | listen-kit/src/http/routes.rs:35-41 | accepts only objects `ToJson` writes |
| Routes.StreamResponseRoundTrip | listen-kit/src/http/routes.rs:35-41 | every event reads back as itself, so the serialisation is injective |
| Routes.SelectAgent | listen-kit/src/http/routes.rs:121-197 | no chain → "Chain parameter is required"; a chain naming no enabled agent (including "solana"/"evm" with the feature off) → "Unsupported chain: {chain}"; an enabled agent's name → that agent if it can be created, else "Failed to create … agent: {e}"; a selection always matches its chain |

## Left out

- The multi-hop pricing after the `return` at listen-data/src/process_swap.rs:107-169 cannot be reached and is not modelled. The three-leg guard ends the run.
- `crate::diffs` (`get_token_balance_diff`, `process_diffs`) is not part of this model. The diffs are an input. The resolver is an arbitrary function value. Only its pinned swap-amount rule (`PricesSolLeg`) is assumed, and only where a contract says so.
- `get_sol_price`, `get_token_metadata`, the ClickHouse, Redis queue and Redis KV clients, the RPC and pub/sub clients, `buyer::swap`, Base64 decoding and the SPL account unpack are foreign calls. Their answers are inputs.
- Floating point: prices, diffs, market cap, thresholds and `lamports / 10^9` are reals. f64 rounding and the `round_to_decimals` test assertions are not modelled.
- `ProcessSwap.BuildPriceUpdate`: the timestamp is an input `now`. `Utc::now().timestamp() as u64`, including the cast of a negative clock, is not modelled.
- `ProcessSwap.SwapMetrics.Increment`: counters are unbounded naturals. Wrap-around of the 64-bit counters is not modelled.
- `ProcessSwap.ProcessSwapRun`: the swap amount is pinned only under `PricesSolLeg`. The resolver's price, coin mint and buy flag are otherwise unconstrained, because the resolver is not part of this model.
- Concurrency. The `tokio::spawn` of the watch task is not modelled: `SellerService.HandleSell` runs the task and then returns the acknowledgement, which does not depend on the task's outcome. The `tokio::select!` race is modelled only through its outcomes. A notification arriving at exactly 10 s counts as the timeout.
- `SellerService.SplBalanceStream`: the undefined tie between a notification and the timer at exactly 10 s is resolved as a timeout.
- Reading the keypair file, building the provider and deriving the associated token account are not modelled. The token account is an input, and their `expect` panics are left out.
- `PubsubClient::new(..).expect("make pubsub client")` (src/seller_service.rs:62-64) is not modelled. The client is an input, so its panic is left out.
- The `.unwrap()` of `pre_token_balances` and `post_token_balances` (listen-data/src/process_swap.rs:33, 38) is not modelled. The diffs are an input, so a missing balance list and its panic are left out.
- Logging (`info!`, `debug!`, `warn!`, `tracing`) is not modelled.
- The network-dependent tests at listen-data/src/process_swap.rs:378-441 are not modelled.
- The outer JSON decoding of the chat request (`Vec<RawMessage>` and the other request fields) is not modelled. The records are an input.
- HTTP and SSE plumbing is not modelled. This covers body collection, `verify_auth` and its unauthorized event, the channel send, the reasoning loop and its relay task, `ServerError`, `healthz` and `auth`.
- `Routes.SelectAgent`: agent construction and the `preamble` it receives are not modelled. Whether creating each agent succeeds is an input.
- `listen-kit/src/solana/tools.rs` is not part of this model. It holds thin wrappers over external trading libraries.
