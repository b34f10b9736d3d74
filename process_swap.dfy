/** Swap classification and publication fan-out of the data pipeline
    (`process_swap` and `process_two_token_swap`).

    A transaction's token-balance diffs pass an ordered chain of guards; each
    guard that fires bumps one metrics counter and ends the run with `Ok`.
    An accepted two-leg swap is priced by the diff resolver, enriched with
    token metadata into a `PriceUpdate`, and written to three sinks in a fixed
    order, stopping at the first sink that fails.

    The collaborators are inputs: the diffs themselves (computed from the
    transaction's pre/post balances elsewhere), the resolver `process_diffs`
    as a function value, the SOL price, the metadata lookup's answer, each
    sink's write outcome and the clock. */
module ProcessSwap {
  import opened Common
  import opened Text

  /** The wrapped-SOL mint, the pricing numeraire. */
  const WsolMint: string := "So11111111111111111111111111111111111111112"
  /** A diff whose magnitude is below this is fee or rounding noise. */
  const TinyDiff: real := 0.01
  const CreatedOnKey: string := "createdOn"
  const PumpFunMarker: string := "pump.fun"
  /** The context the caller attaches to a failed two-token swap. */
  const TwoTokenContext: string := "failed to process two token swap"

  // ---------------------------------------------------------------------
  // Data model
  // ---------------------------------------------------------------------

  /** One token account's balance change within a transaction. */
  datatype Diff = Diff(mint: string, preAmount: real, postAmount: real, diff: real, owner: string)

  /** The parts of the observed transaction that reach the price update. */
  datatype TransactionMetadata = TransactionMetadata(signature: string, slot: U64, feePayer: string)

  /** What the diff resolver computes for an accepted swap. */
  datatype DiffsResult = DiffsResult(price: real, swapAmount: real, coinMint: string, isBuy: bool)

  datatype DiffsError = NonWsolsSwap | ExpectedExactlyTwoTokenBalanceDiffs

  /** The resolver `process_diffs(diffs, sol_price)`, whose code is not part of this model. */
  type DiffResolver = (seq<Diff>, real) -> Result<DiffsResult, DiffsError>

  datatype SplMetadata = SplMetadata(supply: U64, decimals: U8)
  datatype MplMetadata = MplMetadata(name: string, ipfsMetadata: Option<map<string, Json>>)
  datatype TokenMetadata = TokenMetadata(mpl: MplMetadata, spl: SplMetadata)

  /** The three answers of the metadata lookup: found, absent, failed. */
  datatype MetadataLookup = Found(metadata: TokenMetadata) | NotFound | LookupFailed(message: string)

  /** The event fanned out to the sinks; built once, never changed. */
  datatype PriceUpdate = PriceUpdate(
    name: string,
    pubkey: string,
    price: real,
    marketCap: real,
    timestamp: U64,
    slot: U64,
    swapAmount: real,
    owner: string,
    signature: string,
    multiHop: bool,
    isBuy: bool,
    isPump: bool)

  /** The counters of `SwapMetrics`. */
  datatype Counter =
    | SkippedTiny
    | SkippedZero
    | SkippedUnexpectedNumberOfTokens
    | MultiHopSwap
    | SkippedNonWsol
    | SkippedNoMetadata
    | DbInsertSuccess
    | DbInsertFailure
    | MessageSendSuccess
    | MessageSendFailure
    | KvInsertSuccess
    | KvInsertFailure

  /** The analytical store, the message queue and the key-value store. */
  datatype Sink = Database | MessageQueue | KvStore

  /** The order in which a price update is written. */
  const SinkOrder: seq<Sink> := [Database, MessageQueue, KvStore]

  datatype WriteResult = Written | WriteFailed(message: string)

  /** What each sink answers when it is written to. */
  datatype SinkResults = SinkResults(db: WriteResult, queue: WriteResult, kv: WriteResult)
  {
    function At(s: Sink): WriteResult
    {
      match s
      case Database => db
      case MessageQueue => queue
      case KvStore => kv
    }
  }

  function SuccessCounter(s: Sink): Counter
  {
    match s
    case Database => DbInsertSuccess
    case MessageQueue => MessageSendSuccess
    case KvStore => KvInsertSuccess
  }

  function FailureCounter(s: Sink): Counter
  {
    match s
    case Database => DbInsertFailure
    case MessageQueue => MessageSendFailure
    case KvStore => KvInsertFailure
  }

  /** The counter a write's outcome moves. */
  function Accounting(s: Sink, w: WriteResult): Counter
  {
    if w.Written? then SuccessCounter(s) else FailureCounter(s)
  }

  /** One observable step of a run. Every step moves exactly one counter:
      `Bump` only that, `Publish` after attempting a write to `sink`. */
  datatype Effect = Bump(counter: Counter) | Publish(sink: Sink, counter: Counter)

  /** How often a trace moves counter `c`. */
  function Tally(trace: seq<Effect>, c: Counter): nat
  {
    if trace == [] then 0
    else Tally(trace[..|trace| - 1], c) + (if trace[|trace| - 1].counter == c then 1 else 0)
  }

  lemma TallySnoc(trace: seq<Effect>, e: Effect)
    ensures forall c :: Tally(trace + [e], c) == Tally(trace, c) + (if e.counter == c then 1 else 0)
  {
  }

  // ---------------------------------------------------------------------
  // Guards
  // ---------------------------------------------------------------------

  /** `diffs.iter().all(|d| d.diff.abs() < 0.01)`; true of the empty list. */
  predicate AllTiny(diffs: seq<Diff>)
  {
    forall i :: 0 <= i < |diffs| ==> Abs(diffs[i].diff) < TinyDiff
  }

  /** `diffs.iter().any(|d| d.diff == 0.0)`. */
  predicate AnyZero(diffs: seq<Diff>)
  {
    exists i :: 0 <= i < |diffs| && diffs[i].diff == 0.0
  }

  /** Where the guard chain sends a diff set. */
  datatype Route = SkipTiny | SkipZero | SkipUnexpectedCount | SkipMultiHop | TwoToken

  function Classify(diffs: seq<Diff>): (r: Route)
    // each guard fires exactly when the earlier ones did not and its own test holds
    ensures r == SkipTiny <==> AllTiny(diffs)
    ensures r == SkipZero <==> !AllTiny(diffs) && AnyZero(diffs)
    ensures r == SkipUnexpectedCount <==> !AllTiny(diffs) && !AnyZero(diffs) && (|diffs| < 2 || |diffs| > 3)
    ensures r == SkipMultiHop <==> !AllTiny(diffs) && !AnyZero(diffs) && |diffs| == 3
    ensures r == TwoToken <==> !AllTiny(diffs) && !AnyZero(diffs) && |diffs| == 2
    // what an accepted diff set looks like
    ensures r == TwoToken ==> |diffs| == 2 && diffs[0].diff != 0.0 && diffs[1].diff != 0.0
                              && (Abs(diffs[0].diff) >= TinyDiff || Abs(diffs[1].diff) >= TinyDiff)
    ensures |diffs| == 0 ==> r == SkipTiny
  {
    if AllTiny(diffs) then SkipTiny
    else if AnyZero(diffs) then SkipZero
    else if |diffs| > 3 || |diffs| < 2 then SkipUnexpectedCount
    else if |diffs| == 3 then SkipMultiHop
    else TwoToken
  }

  /** The one counter a guard that fires moves. */
  function GuardCounter(r: Route): Counter
    requires r != TwoToken
  {
    match r
    case SkipTiny => SkippedTiny
    case SkipZero => SkippedZero
    case SkipUnexpectedCount => SkippedUnexpectedNumberOfTokens
    case SkipMultiHop => MultiHopSwap
  }

  // ---------------------------------------------------------------------
  // Price update construction
  // ---------------------------------------------------------------------

  function Pow10(n: nat): (p: real)
    ensures p >= 1.0
  {
    if n == 0 then 1.0 else 10.0 * Pow10(n - 1)
  }

  /** `price * (supply / 10^decimals)`: the price times the supply in whole tokens. */
  function MarketCap(price: real, spl: SplMetadata): (m: real)
    ensures m * Pow10(spl.decimals) == price * spl.supply as real
  {
    var p := Pow10(spl.decimals);
    var adjusted := spl.supply as real / p;
    assert adjusted * p == spl.supply as real;
    price * adjusted
  }

  /** Reference reading of the launch-origin flag: the off-chain metadata has a
      `createdOn` entry that is a JSON string in which "pump.fun" occurs. */
  ghost predicate CreatedOnPumpFun(ipfs: Option<map<string, Json>>)
  {
    && ipfs.Some?
    && CreatedOnKey in ipfs.value
    && ipfs.value[CreatedOnKey].JString?
    && exists i :: OccursAt(ipfs.value[CreatedOnKey].s, PumpFunMarker, i)
  }

  /** `ipfs_metadata.and_then(get "createdOn").is_some_and(as_str contains "pump.fun")`. */
  function IsPump(ipfs: Option<map<string, Json>>): (b: bool)
    ensures b <==> CreatedOnPumpFun(ipfs)
  {
    match ipfs
    case None => false
    case Some(m) =>
      if CreatedOnKey !in m then false
      else
        match AsStr(m[CreatedOnKey])
        case None => false
        case Some(s) => Contains(s, PumpFunMarker)
  }

  function BuildPriceUpdate(tx: TransactionMetadata, r: DiffsResult, meta: TokenMetadata,
                            now: U64, multiHop: bool): (u: PriceUpdate)
    ensures u.marketCap * Pow10(meta.spl.decimals) == u.price * meta.spl.supply as real
    ensures u.isPump <==> CreatedOnPumpFun(meta.mpl.ipfsMetadata)
    ensures u.price == r.price && u.swapAmount == r.swapAmount
    ensures u.pubkey == r.coinMint && u.isBuy == r.isBuy && u.name == meta.mpl.name
    ensures u.slot == tx.slot && u.owner == tx.feePayer && u.signature == tx.signature
    ensures u.multiHop == multiHop && u.timestamp == now
  {
    PriceUpdate(
      name := meta.mpl.name,
      pubkey := r.coinMint,
      price := r.price,
      marketCap := MarketCap(r.price, meta.spl),
      timestamp := now,
      slot := tx.slot,
      swapAmount := r.swapAmount,
      owner := tx.feePayer,
      signature := tx.signature,
      multiHop := multiHop,
      isBuy := r.isBuy,
      isPump := IsPump(meta.mpl.ipfsMetadata))
  }

  // ---------------------------------------------------------------------
  // Fan-out
  // ---------------------------------------------------------------------

  /** The position of the first sink in `order` whose write fails, `|order|` if none does. */
  function FirstFailure(order: seq<Sink>, results: SinkResults): (k: nat)
    ensures k <= |order|
    ensures forall j :: 0 <= j < k ==> results.At(order[j]).Written?
    ensures k < |order| ==> results.At(order[k]).WriteFailed?
  {
    if order == [] then 0
    else if results.At(order[0]).WriteFailed? then 0
    else 1 + FirstFailure(order[1..], results)
  }

  datatype FanoutRun = FanoutRun(trace: seq<Effect>, result: Result<(), string>)

  /** Sequential writes that abort on the first failure: the sinks of `order`
      up to and including the first failing one are attempted, in order, each
      moving its own success or failure counter, and nothing after it is. The
      run's error is that sink's error; it succeeds when no sink fails. */
  function Fanout(order: seq<Sink>, results: SinkResults): (o: FanoutRun)
    ensures var k := FirstFailure(order, results);
            && |o.trace| == (if k < |order| then k + 1 else k)
            && (forall i :: 0 <= i < |o.trace| ==>
                  o.trace[i] == Publish(order[i], Accounting(order[i], results.At(order[i]))))
            && o.result == (if k < |order| then Err(results.At(order[k]).message) else Ok(()))
  {
    if order == [] then FanoutRun([], Ok(()))
    else
      var s := order[0];
      var step := Publish(s, Accounting(s, results.At(s)));
      match results.At(s)
      case WriteFailed(e) => FanoutRun([step], Err(e))
      case Written =>
        var rest := Fanout(order[1..], results);
        FanoutRun([step] + rest.trace, rest.result)
  }

  /** The three writes as `process_two_token_swap` spells them out. */
  function FanoutThree(results: SinkResults): FanoutRun
  {
    if results.db.WriteFailed? then
      FanoutRun([Publish(Database, DbInsertFailure)], Err(results.db.message))
    else if results.queue.WriteFailed? then
      FanoutRun([Publish(Database, DbInsertSuccess), Publish(MessageQueue, MessageSendFailure)],
                Err(results.queue.message))
    else if results.kv.WriteFailed? then
      FanoutRun([Publish(Database, DbInsertSuccess), Publish(MessageQueue, MessageSendSuccess),
                 Publish(KvStore, KvInsertFailure)], Err(results.kv.message))
    else
      FanoutRun([Publish(Database, DbInsertSuccess), Publish(MessageQueue, MessageSendSuccess),
                 Publish(KvStore, KvInsertSuccess)], Ok(()))
  }

  /** The spelled-out writes are the sequential-abort fan-out over db, queue, kv. */
  lemma FanoutOfSinkOrder(results: SinkResults)
    ensures Fanout(SinkOrder, results) == FanoutThree(results)
  {
  }

  // ---------------------------------------------------------------------
  // The runs, as functions of their inputs
  // ---------------------------------------------------------------------

  datatype TwoTokenRun = TwoTokenRun(trace: seq<Effect>, update: Option<PriceUpdate>, result: Result<(), string>)

  /** `process_two_token_swap`: resolver errors and a missing or failed
      metadata lookup are benign skips with one counter each; otherwise the
      update is built and fanned out. */
  function TwoTokenSwapRun(tx: TransactionMetadata, resolved: Result<DiffsResult, DiffsError>,
                           lookup: MetadataLookup, results: SinkResults, now: U64,
                           multiHop: bool): (o: TwoTokenRun)
    ensures resolved == Err(NonWsolsSwap) ==> o == TwoTokenRun([Bump(SkippedNonWsol)], None, Ok(()))
    ensures resolved == Err(ExpectedExactlyTwoTokenBalanceDiffs) ==>
              o == TwoTokenRun([Bump(SkippedUnexpectedNumberOfTokens)], None, Ok(()))
    ensures resolved.Ok? && !lookup.Found? ==> o == TwoTokenRun([Bump(SkippedNoMetadata)], None, Ok(()))
    ensures o.update.Some? <==> resolved.Ok? && lookup.Found?
    ensures o.update.Some? ==>
              && o.update.value == BuildPriceUpdate(tx, resolved.value, lookup.metadata, now, multiHop)
              && o.trace == Fanout(SinkOrder, results).trace
              && o.result == Fanout(SinkOrder, results).result
  {
    match resolved
    case Err(NonWsolsSwap) => TwoTokenRun([Bump(SkippedNonWsol)], None, Ok(()))
    case Err(ExpectedExactlyTwoTokenBalanceDiffs) =>
      TwoTokenRun([Bump(SkippedUnexpectedNumberOfTokens)], None, Ok(()))
    case Ok(r) =>
      match lookup
      case NotFound => TwoTokenRun([Bump(SkippedNoMetadata)], None, Ok(()))
      case LookupFailed(_) => TwoTokenRun([Bump(SkippedNoMetadata)], None, Ok(()))
      case Found(meta) =>
        var u := BuildPriceUpdate(tx, r, meta, now, multiHop);
        var f := Fanout(SinkOrder, results);
        TwoTokenRun(f.trace, Some(u), f.result)
  }

  /** The error `process_swap` returns: the sink's cause under the caller's context. */
  datatype SwapFailure = SwapFailure(context: string, cause: string)

  datatype SwapRun = SwapRun(trace: seq<Effect>, update: Option<PriceUpdate>, result: Result<(), SwapFailure>)

  /** The sole WSOL leg of a two-leg diff set, when there is exactly one. */
  function SolLeg(diffs: seq<Diff>): Option<Diff>
  {
    if |diffs| != 2 then None
    else if diffs[0].mint == WsolMint && diffs[1].mint != WsolMint then Some(diffs[0])
    else if diffs[1].mint == WsolMint && diffs[0].mint != WsolMint then Some(diffs[1])
    else None
  }

  /** The one behaviour of the resolver its tests pin: the USD swap amount is
      the magnitude of the SOL leg's diff times the SOL price. */
  ghost predicate PricesSolLeg(resolve: DiffResolver)
  {
    forall diffs, solPrice :: SolLeg(diffs).Some? && resolve(diffs, solPrice).Ok? ==>
      resolve(diffs, solPrice).value.swapAmount == Abs(SolLeg(diffs).value.diff) * solPrice
  }

  /** `process_swap`: the guard chain, then the two-token path with
      `multi_hop == false`. A skipped run moves exactly one counter, returns
      `Ok` and writes nothing; three-leg diff sets are counted and dropped. */
  function ProcessSwapRun(tx: TransactionMetadata, diffs: seq<Diff>, solPrice: real,
                          resolve: DiffResolver, lookup: MetadataLookup,
                          results: SinkResults, now: U64): (o: SwapRun)
    ensures AllTiny(diffs) ==> o == SwapRun([Bump(SkippedTiny)], None, Ok(()))
    ensures !AllTiny(diffs) && AnyZero(diffs) ==> o == SwapRun([Bump(SkippedZero)], None, Ok(()))
    ensures !AllTiny(diffs) && !AnyZero(diffs) && (|diffs| < 2 || |diffs| > 3) ==>
              o == SwapRun([Bump(SkippedUnexpectedNumberOfTokens)], None, Ok(()))
    ensures !AllTiny(diffs) && !AnyZero(diffs) && |diffs| == 3 ==>
              o == SwapRun([Bump(MultiHopSwap)], None, Ok(()))
    ensures o.update.None? ==> |o.trace| == 1 && o.trace[0].Bump? && o.result == Ok(())
    // an accepted diff set is priced and published by the two-token path, with `multi_hop == false`
    ensures Classify(diffs) == TwoToken ==>
              var t := TwoTokenSwapRun(tx, resolve(diffs, solPrice), lookup, results, now, false);
              && o.trace == t.trace && o.update == t.update
              && (t.result.Ok? <==> o.result.Ok?)
              && (t.result.Err? ==> o.result == Err(SwapFailure(TwoTokenContext, t.result.error)))
    ensures o.update.Some? ==>
              && |diffs| == 2
              && (forall i :: 0 <= i < |o.trace| ==> o.trace[i].Publish?)
              && !o.update.value.multiHop
              && o.update.value.slot == tx.slot
              && o.update.value.owner == tx.feePayer
              && o.update.value.signature == tx.signature
    ensures o.update.Some? && PricesSolLeg(resolve) && SolLeg(diffs).Some? ==>
              o.update.value.swapAmount == Abs(SolLeg(diffs).value.diff) * solPrice
    ensures o.result.Err? ==>
              o.update.Some? && o.result.error.context == TwoTokenContext
              && |o.trace| > 0 && o.trace[|o.trace| - 1].Publish?
              && o.trace[|o.trace| - 1].counter == FailureCounter(o.trace[|o.trace| - 1].sink)
  {
    var route := Classify(diffs);
    if route != TwoToken then
      SwapRun([Bump(GuardCounter(route))], None, Ok(()))
    else
      FanoutOfSinkOrder(results);
      var r := TwoTokenSwapRun(tx, resolve(diffs, solPrice), lookup, results, now, false);
      var result := match r.result
        case Ok(_) => Ok(())
        case Err(e) => Err(SwapFailure(TwoTokenContext, e));
      SwapRun(r.trace, r.update, result)
  }

  // ---------------------------------------------------------------------
  // The imperative run: counters and sinks as objects
  // ---------------------------------------------------------------------

  /** `SwapMetrics`: one monotone counter per reason. */
  class SwapMetrics {
    var skippedTiny: nat
    var skippedZero: nat
    var skippedUnexpectedNumberOfTokens: nat
    var multiHopSwap: nat
    var skippedNonWsol: nat
    var skippedNoMetadata: nat
    var dbInsertSuccess: nat
    var dbInsertFailure: nat
    var messageSendSuccess: nat
    var messageSendFailure: nat
    var kvInsertSuccess: nat
    var kvInsertFailure: nat

    function Count(c: Counter): nat
      reads this
    {
      match c
      case SkippedTiny => skippedTiny
      case SkippedZero => skippedZero
      case SkippedUnexpectedNumberOfTokens => skippedUnexpectedNumberOfTokens
      case MultiHopSwap => multiHopSwap
      case SkippedNonWsol => skippedNonWsol
      case SkippedNoMetadata => skippedNoMetadata
      case DbInsertSuccess => dbInsertSuccess
      case DbInsertFailure => dbInsertFailure
      case MessageSendSuccess => messageSendSuccess
      case MessageSendFailure => messageSendFailure
      case KvInsertSuccess => kvInsertSuccess
      case KvInsertFailure => kvInsertFailure
    }

    constructor ()
      ensures forall c :: Count(c) == 0
    {
      skippedTiny, skippedZero, skippedUnexpectedNumberOfTokens, multiHopSwap := 0, 0, 0, 0;
      skippedNonWsol, skippedNoMetadata := 0, 0;
      dbInsertSuccess, dbInsertFailure, messageSendSuccess, messageSendFailure := 0, 0, 0, 0;
      kvInsertSuccess, kvInsertFailure := 0, 0;
    }

    /** The `increment_*` methods: counter `c` goes up by one, no other moves. */
    method Increment(c: Counter)
      modifies this
      ensures Count(c) == old(Count(c)) + 1
      ensures forall d :: d != c ==> Count(d) == old(Count(d))
    {
      match c
      case SkippedTiny => skippedTiny := skippedTiny + 1;
      case SkippedZero => skippedZero := skippedZero + 1;
      case SkippedUnexpectedNumberOfTokens =>
        skippedUnexpectedNumberOfTokens := skippedUnexpectedNumberOfTokens + 1;
      case MultiHopSwap => multiHopSwap := multiHopSwap + 1;
      case SkippedNonWsol => skippedNonWsol := skippedNonWsol + 1;
      case SkippedNoMetadata => skippedNoMetadata := skippedNoMetadata + 1;
      case DbInsertSuccess => dbInsertSuccess := dbInsertSuccess + 1;
      case DbInsertFailure => dbInsertFailure := dbInsertFailure + 1;
      case MessageSendSuccess => messageSendSuccess := messageSendSuccess + 1;
      case MessageSendFailure => messageSendFailure := messageSendFailure + 1;
      case KvInsertSuccess => kvInsertSuccess := kvInsertSuccess + 1;
      case KvInsertFailure => kvInsertFailure := kvInsertFailure + 1;
    }
  }

  /** A sink client: every write it is asked for, and those that succeeded. */
  class PriceSink {
    const kind: Sink
    var attempts: seq<PriceUpdate>
    var stored: seq<PriceUpdate>

    constructor (kind: Sink)
      ensures this.kind == kind && attempts == [] && stored == []
    {
      this.kind := kind;
      attempts, stored := [], [];
    }

    /** One write, answered by `outcome`. */
    method Write(u: PriceUpdate, outcome: WriteResult) returns (r: WriteResult)
      modifies this
      ensures r == outcome
      ensures attempts == old(attempts) + [u]
      ensures stored == if outcome.Written? then old(stored) + [u] else old(stored)
    {
      attempts := attempts + [u];
      if outcome.Written? {
        stored := stored + [u];
      }
      r := outcome;
    }
  }

  /** Is a write to `s` attempted: did every sink before it in `SinkOrder` succeed? */
  function Reaches(results: SinkResults, s: Sink): bool
  {
    match s
    case Database => true
    case MessageQueue => results.db.Written?
    case KvStore => results.db.Written? && results.queue.Written?
  }

  /** The updates a run hands to sink `s`: its update once if the write to
      `s` is attempted (and, with `acceptedOnly`, succeeds), otherwise none. */
  function SentTo(update: Option<PriceUpdate>, results: SinkResults, s: Sink, acceptedOnly: bool): seq<PriceUpdate>
  {
    if update.Some? && Reaches(results, s) && (acceptedOnly ==> results.At(s).Written?)
    then [update.value] else []
  }

  /** A sink appears in the fan-out's trace exactly when every sink before it
      succeeded, and it is counted as a success exactly when it also succeeded. */
  lemma AttemptedIffEarlierWritten(results: SinkResults, s: Sink)
    ensures (exists c :: Publish(s, c) in Fanout(SinkOrder, results).trace) <==> Reaches(results, s)
    ensures (Publish(s, SuccessCounter(s)) in Fanout(SinkOrder, results).trace) <==>
            (Reaches(results, s) && results.At(s).Written?)
  {
  }

  /** One sink step of the fan-out: write, then move that sink's counter. */
  method WriteAndCount(sink: PriceSink, u: PriceUpdate, outcome: WriteResult, metrics: SwapMetrics)
    returns (ok: bool, step: Effect)
    modifies sink, metrics
    ensures ok == outcome.Written?
    ensures step == Publish(sink.kind, Accounting(sink.kind, outcome))
    ensures sink.attempts == old(sink.attempts) + [u]
    ensures sink.stored == if ok then old(sink.stored) + [u] else old(sink.stored)
    ensures metrics.Count(step.counter) == old(metrics.Count(step.counter)) + 1
    ensures forall d :: d != step.counter ==> metrics.Count(d) == old(metrics.Count(d))
  {
    var r := sink.Write(u, outcome);
    ok := r.Written?;
    step := Publish(sink.kind, Accounting(sink.kind, outcome));
    metrics.Increment(step.counter);
  }

  /** The three writes of `process_two_token_swap`, in order, each followed by
      its counter, returning at the first failure. */
  method Publish3(u: PriceUpdate, results: SinkResults,
                  metrics: SwapMetrics, db: PriceSink, queue: PriceSink, kv: PriceSink)
    returns (result: Result<(), string>, trace: seq<Effect>)
    requires db.kind == Database && queue.kind == MessageQueue && kv.kind == KvStore
    modifies metrics, db, queue, kv
    ensures result == FanoutThree(results).result && trace == FanoutThree(results).trace
    ensures forall c :: metrics.Count(c) == old(metrics.Count(c)) + Tally(trace, c)
    ensures db.attempts == old(db.attempts) + SentTo(Some(u), results, Database, false)
    ensures db.stored == old(db.stored) + SentTo(Some(u), results, Database, true)
    ensures queue.attempts == old(queue.attempts) + SentTo(Some(u), results, MessageQueue, false)
    ensures queue.stored == old(queue.stored) + SentTo(Some(u), results, MessageQueue, true)
    ensures kv.attempts == old(kv.attempts) + SentTo(Some(u), results, KvStore, false)
    ensures kv.stored == old(kv.stored) + SentTo(Some(u), results, KvStore, true)
  {
    trace := [];
    var ok, step := WriteAndCount(db, u, results.db, metrics);
    TallySnoc(trace, step);
    trace := trace + [step];
    if !ok {
      return Err(results.db.message), trace;
    }
    ok, step := WriteAndCount(queue, u, results.queue, metrics);
    TallySnoc(trace, step);
    trace := trace + [step];
    if !ok {
      return Err(results.queue.message), trace;
    }
    ok, step := WriteAndCount(kv, u, results.kv, metrics);
    TallySnoc(trace, step);
    trace := trace + [step];
    if !ok {
      return Err(results.kv.message), trace;
    }
    result := Ok(());
  }

  /** `process_two_token_swap`, step by step. */
  method ProcessTwoTokenSwap(tx: TransactionMetadata, resolved: Result<DiffsResult, DiffsError>,
                             lookup: MetadataLookup, results: SinkResults, now: U64, multiHop: bool,
                             metrics: SwapMetrics, db: PriceSink, queue: PriceSink, kv: PriceSink)
    returns (result: Result<(), string>, trace: seq<Effect>)
    requires db.kind == Database && queue.kind == MessageQueue && kv.kind == KvStore
    modifies metrics, db, queue, kv
    ensures var o := TwoTokenSwapRun(tx, resolved, lookup, results, now, multiHop);
            && result == o.result && trace == o.trace
            && (forall c :: metrics.Count(c) == old(metrics.Count(c)) + Tally(trace, c))
            && db.attempts == old(db.attempts) + SentTo(o.update, results, Database, false)
            && db.stored == old(db.stored) + SentTo(o.update, results, Database, true)
            && queue.attempts == old(queue.attempts) + SentTo(o.update, results, MessageQueue, false)
            && queue.stored == old(queue.stored) + SentTo(o.update, results, MessageQueue, true)
            && kv.attempts == old(kv.attempts) + SentTo(o.update, results, KvStore, false)
            && kv.stored == old(kv.stored) + SentTo(o.update, results, KvStore, true)
  {
    trace := [];
    var r: DiffsResult;
    match resolved {
      case Err(e) =>
        var c := if e == NonWsolsSwap then SkippedNonWsol else SkippedUnexpectedNumberOfTokens;
        metrics.Increment(c);
        trace := [Bump(c)];
        return Ok(()), trace;
      case Ok(v) =>
        r := v;
    }
    var meta: TokenMetadata;
    match lookup {
      case Found(m) =>
        meta := m;
      case _ =>
        metrics.Increment(SkippedNoMetadata);
        trace := [Bump(SkippedNoMetadata)];
        return Ok(()), trace;
    }
    var u := BuildPriceUpdate(tx, r, meta, now, multiHop);
    FanoutOfSinkOrder(results);
    result, trace := Publish3(u, results, metrics, db, queue, kv);
  }

  /** `process_swap`, step by step: the guards, then the two-token path. */
  method ProcessSwap(tx: TransactionMetadata, diffs: seq<Diff>, solPrice: real, resolve: DiffResolver,
                     lookup: MetadataLookup, results: SinkResults, now: U64,
                     metrics: SwapMetrics, db: PriceSink, queue: PriceSink, kv: PriceSink)
    returns (result: Result<(), SwapFailure>, trace: seq<Effect>)
    requires db.kind == Database && queue.kind == MessageQueue && kv.kind == KvStore
    modifies metrics, db, queue, kv
    ensures var o := ProcessSwapRun(tx, diffs, solPrice, resolve, lookup, results, now);
            && result == o.result && trace == o.trace
            && (forall c :: metrics.Count(c) == old(metrics.Count(c)) + Tally(trace, c))
            && db.attempts == old(db.attempts) + SentTo(o.update, results, Database, false)
            && db.stored == old(db.stored) + SentTo(o.update, results, Database, true)
            && queue.attempts == old(queue.attempts) + SentTo(o.update, results, MessageQueue, false)
            && queue.stored == old(queue.stored) + SentTo(o.update, results, MessageQueue, true)
            && kv.attempts == old(kv.attempts) + SentTo(o.update, results, KvStore, false)
            && kv.stored == old(kv.stored) + SentTo(o.update, results, KvStore, true)
  {
    var tiny := forall i :: 0 <= i < |diffs| ==> Abs(diffs[i].diff) < TinyDiff;
    if tiny {
      metrics.Increment(SkippedTiny);
      return Ok(()), [Bump(SkippedTiny)];
    }
    var zero := exists i :: 0 <= i < |diffs| && diffs[i].diff == 0.0;
    if zero {
      metrics.Increment(SkippedZero);
      return Ok(()), [Bump(SkippedZero)];
    }
    if |diffs| > 3 || |diffs| < 2 {
      metrics.Increment(SkippedUnexpectedNumberOfTokens);
      return Ok(()), [Bump(SkippedUnexpectedNumberOfTokens)];
    }
    if |diffs| == 3 {
      metrics.Increment(MultiHopSwap);
      return Ok(()), [Bump(MultiHopSwap)];
    }
    var r;
    r, trace := ProcessTwoTokenSwap(tx, resolve(diffs, solPrice), lookup, results, now, false,
                                    metrics, db, queue, kv);
    result := match r
      case Ok(_) => Ok(())
      case Err(e) => Err(SwapFailure(TwoTokenContext, e));
  }
}
