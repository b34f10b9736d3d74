/** The take-profit / stop-loss exit watcher of the seller service
    (`handle_sell` and `get_spl_balance_stream`).

    One watch task resolves the wallet's balance of the bought token (a direct
    balance query, and only when that fails the first notification of a
    subscription to the token account, bounded by 10 s), subscribes to the
    pool's SOL vault, consumes vault updates until the first one whose SOL
    reserve reaches 1.4 times or falls to 0.8 times the reserve at purchase,
    sells the whole balance through the pool, and only then releases the vault
    subscription. The HTTP request that starts the task is acknowledged at once.

    Every external answer is an input: the balance query, the notifications
    the subscriptions deliver (and when), the decoding of a token account's
    Base64 data, the vault updates and the exit swap's outcome. */
module SellerService {
  import opened Common
  import opened Text

  type Pubkey = string

  /** `10u64.pow(9)`: lamports per SOL. */
  const LamportsPerSol: nat := 1_000_000_000
  const TakeProfitFactor: real := 1.4
  const StopLossFactor: real := 0.8
  /** The fallback's deadline for the first token-account notification. */
  const BalanceTimeoutMs: nat := 10_000
  const AckStatus: string := "OK, triggered sell"

  /** The body of a `POST /sell` request. */
  datatype SellRequest = SellRequest(
    ammPool: Pubkey,
    inputMint: Pubkey,
    outputMint: Pubkey,
    solVault: Pubkey,
    solPooledWhenBought: real)

  // ---------------------------------------------------------------------
  // Thresholds and the vault watch
  // ---------------------------------------------------------------------

  datatype Thresholds = Thresholds(takeProfit: real, stopLoss: real)

  /** Does a vault reserve (in SOL) end the watch? */
  predicate Crosses(solPooled: real, t: Thresholds)
  {
    solPooled >= t.takeProfit || solPooled <= t.stopLoss
  }

  /** `tp = R * 1.4`, `sl = R * 0.8` for the reserve `R` at purchase. For a
      positive `R` the reserve at purchase itself lies strictly inside the band;
      for `R <= 0` every reserve ends the watch at once. */
  function ExitThresholds(solPooledWhenBought: real): (t: Thresholds)
    ensures t.takeProfit == TakeProfitFactor * solPooledWhenBought
    ensures t.stopLoss == StopLossFactor * solPooledWhenBought
    ensures solPooledWhenBought > 0.0 ==>
              t.stopLoss < solPooledWhenBought < t.takeProfit && !Crosses(solPooledWhenBought, t)
    ensures solPooledWhenBought <= 0.0 ==> forall x: real :: x >= 0.0 ==> Crosses(x, t)
  {
    Thresholds(solPooledWhenBought * TakeProfitFactor, solPooledWhenBought * StopLossFactor)
  }

  /** `lamports as f64 / 10u64.pow(9) as f64`, over the reals. */
  function SolPooled(lamports: U64): (s: real)
    ensures s >= 0.0
    ensures s * LamportsPerSol as real == lamports as real
  {
    lamports as real / LamportsPerSol as real
  }

  /** The position of the first vault update that ends the watch, `|updates|` if none does. */
  function FirstCrossing(updates: seq<U64>, t: Thresholds): (k: nat)
    ensures k <= |updates|
    ensures forall j :: 0 <= j < k ==> !Crosses(SolPooled(updates[j]), t)
    ensures k < |updates| ==> Crosses(SolPooled(updates[k]), t)
  {
    if updates == [] then 0
    else if Crosses(SolPooled(updates[0]), t) then 0
    else 1 + FirstCrossing(updates[1..], t)
  }

  /** The vault subscription's stream: the updates it delivers, and whether it
      then ends (`closes`) or stays open delivering nothing more. */
  datatype VaultStream = VaultStream(updates: seq<U64>, closes: bool)

  /** How a watch ends: at a crossing update, at the end of the stream, or
      not at all (the loop has no timeout). */
  datatype WatchResult = Crossed(at: nat) | StreamClosed | StillWaiting

  /** The `while let Some(log) = stream.next()` loop. */
  method WatchVault(stream: VaultStream, t: Thresholds) returns (w: WatchResult)
    ensures w.Crossed? <==> FirstCrossing(stream.updates, t) < |stream.updates|
    ensures w.Crossed? ==>
              && w.at == FirstCrossing(stream.updates, t)
              && w.at < |stream.updates| && Crosses(SolPooled(stream.updates[w.at]), t)
              && forall j :: 0 <= j < w.at ==> !Crosses(SolPooled(stream.updates[j]), t)
    ensures !w.Crossed? ==> forall j :: 0 <= j < |stream.updates| ==> !Crosses(SolPooled(stream.updates[j]), t)
    ensures w == StreamClosed <==> !w.Crossed? && stream.closes
    ensures w == StillWaiting <==> !w.Crossed? && !stream.closes
  {
    var i := 0;
    while i < |stream.updates|
      invariant 0 <= i <= |stream.updates|
      invariant forall j :: 0 <= j < i ==> !Crosses(SolPooled(stream.updates[j]), t)
      invariant i <= FirstCrossing(stream.updates, t)
    {
      var solPooled := SolPooled(stream.updates[i]);
      if solPooled >= t.takeProfit || solPooled <= t.stopLoss {
        return Crossed(i);
      }
      i := i + 1;
    }
    w := if stream.closes then StreamClosed else StillWaiting;
  }

  // ---------------------------------------------------------------------
  // Balance resolution
  // ---------------------------------------------------------------------

  /** An outcome of a step that can also panic (an `expect` that fails). */
  datatype Fallible<+T> = Success(value: T) | Failure(message: string) | Panic(message: string)

  /** The direct balance query's answer: the raw amount as a decimal string. */
  datatype BalanceQuery = QueryOk(amount: string) | QueryFailed(message: string)

  datatype UiAccountEncoding = Binary | Base58 | Base64 | JsonParsed | Base64Zstd

  /** The data of an account notification. */
  datatype UiAccountData =
    | LegacyBinary(blob: string)
    | ParsedJson(parsed: Json)
    | EncodedBinary(blob: string, encoding: UiAccountEncoding)

  /** What the token-account subscription delivers first, and after how many
      milliseconds: a notification, the end of the stream, or nothing ever. */
  datatype FirstNotification = Notified(afterMs: nat, data: UiAccountData) | Ended(afterMs: nat) | Silent

  /** Base64 decoding followed by the SPL token-account unpack: the account's
      amount, or the message of the `expect` that fails. */
  type AccountDecoder = string -> Result<U64, string>

  /** Did the subscription's first event come before the 10 s deadline? (At
      exactly the deadline the timeout is taken.) */
  predicate BeforeDeadline(n: FirstNotification)
  {
    match n
    case Notified(ms, _) => ms < BalanceTimeoutMs
    case Ended(ms) => ms < BalanceTimeoutMs
    case Silent => false
  }

  /** `get_spl_balance_stream`, given whether the subscription opened (`None`
      when `account_subscribe` fails) and what it then delivers first. */
  function SplBalanceStream(feed: Option<FirstNotification>, decode: AccountDecoder): (r: Fallible<U64>)
    ensures r.Success? ==>
              && feed.Some? && feed.value.Notified? && feed.value.afterMs < BalanceTimeoutMs
              && feed.value.data.EncodedBinary? && feed.value.data.encoding == Base64
              && decode(feed.value.data.blob) == Ok(r.value)
    ensures feed.Some? && !BeforeDeadline(feed.value) ==> r == Failure("timeout")
    ensures feed.Some? && BeforeDeadline(feed.value) && feed.value.Notified?
            && !(feed.value.data.EncodedBinary? && feed.value.data.encoding == Base64) ==>
              r == Failure("unexpected data")
    ensures feed.Some? && feed.value.Notified? && feed.value.afterMs < BalanceTimeoutMs
            && feed.value.data.EncodedBinary? && feed.value.data.encoding == Base64 ==>
              && (decode(feed.value.data.blob).Ok? ==> r == Success(decode(feed.value.data.blob).value))
              && (decode(feed.value.data.blob).Err? ==> r == Panic(decode(feed.value.data.blob).error))
    ensures r.Failure? ==> r.message in {"timeout", "unexpected data"}
    // the three `expect`s: subscription refused, stream ended, undecodable data
    ensures feed == None ==> r == Panic("account_subscribe")
    ensures feed.Some? && feed.value.Ended? && feed.value.afterMs < BalanceTimeoutMs ==> r == Panic("log")
  {
    match feed
    case None => Panic("account_subscribe")
    case Some(first) =>
      if !BeforeDeadline(first) then Failure("timeout")
      else
        match first
        case Ended(_) => Panic("log")
        case Notified(_, data) =>
          if data.EncodedBinary? && data.encoding == Base64 then
            match decode(data.blob)
            case Ok(amount) => Success(amount)
            case Err(e) => Panic(e)
          else Failure("unexpected data")
  }

  /** The `balance` of the task: the parsed query amount when the query
      succeeds, the fallback's amount only when it fails; any failure on the
      way is a panic of the task. */
  function ResolveBalance(primary: BalanceQuery, feed: Option<FirstNotification>,
                          decode: AccountDecoder): (r: Fallible<U64>)
    ensures !r.Failure?
    ensures primary.QueryOk? ==>
              r == (if ParseU64(primary.amount).Some? then Success(ParseU64(primary.amount).value)
                    else Panic("balance string to u64"))
    ensures forall n: U64 :: primary == QueryOk(DecimalString(n)) ==> r == Success(n)
    ensures primary.QueryFailed? && SplBalanceStream(feed, decode).Success? ==>
              r == SplBalanceStream(feed, decode)
    ensures primary.QueryFailed? && SplBalanceStream(feed, decode).Failure? ==>
              r == Panic("get_spl_balance_stream")
    ensures primary.QueryFailed? && SplBalanceStream(feed, decode).Panic? ==>
              r == SplBalanceStream(feed, decode)
    // an amount comes from the parsed query or, only when it failed, from the fallback
    ensures r.Success? ==>
              || (primary.QueryOk? && ParseU64(primary.amount) == Some(r.value))
              || (primary.QueryFailed? && SplBalanceStream(feed, decode) == Success(r.value))
  {
    match primary
    case QueryOk(amount) =>
      (match ParseU64(amount)
       case Some(v) => Success(v)
       case None => Panic("balance string to u64"))
    case QueryFailed(_) =>
      match SplBalanceStream(feed, decode)
      case Success(v) => Success(v)
      case Failure(_) => Panic("get_spl_balance_stream")
      case Panic(m) => Panic(m)
  }

  // ---------------------------------------------------------------------
  // The watch task as a function of its inputs
  // ---------------------------------------------------------------------

  /** The exit swap `buyer::swap(amm_pool, input_mint, output_mint, balance, ...)`. */
  datatype SwapOrder = SwapOrder(pool: Pubkey, inputMint: Pubkey, outputMint: Pubkey, amount: U64)

  datatype Stage = ResolvingBalance | WatchingVault | Exiting

  /** How a task ends: the exit swap went through, the task waits on the vault
      forever, or a step panicked. */
  datatype TaskOutcome = Sold(order: SwapOrder) | Waiting | Aborted(stage: Stage, reason: string)

  /** A task's outcome with what it did to the subscriptions and the trader:
      accounts subscribed to, accounts unsubscribed, swaps sent, in order. */
  datatype WatchRun = WatchRun(outcome: TaskOutcome, subscribed: seq<Pubkey>, released: seq<Pubkey>,
                               orders: seq<SwapOrder>)

  function ExitOrder(req: SellRequest, balance: U64): SwapOrder
  {
    SwapOrder(req.ammPool, req.inputMint, req.outputMint, balance)
  }

  /** The body of the spawned task. */
  function ExitWatchRun(req: SellRequest, tokenAccount: Pubkey, primary: BalanceQuery,
                        feed: Option<FirstNotification>, decode: AccountDecoder,
                        vault: Option<VaultStream>, swap: Result<(), string>): (o: WatchRun)
    // the fallback subscription is opened exactly when the query fails
    ensures primary.QueryOk? ==> o.subscribed == [] || o.subscribed == [req.solVault]
    ensures primary.QueryFailed? && feed.Some? ==> |o.subscribed| > 0 && o.subscribed[0] == tokenAccount
    // nothing is sold before the balance is known, and it is sold whole
    ensures o.outcome.Sold? ==>
              && ResolveBalance(primary, feed, decode).Success?
              && o.outcome.order == ExitOrder(req, ResolveBalance(primary, feed, decode).value)
              && o.orders == [o.outcome.order]
    ensures |o.orders| <= 1
    // the token account is released once when the fallback succeeds; the
    // vault only after a successful swap, as the last step
    ensures o.released ==
              (if primary.QueryFailed? && ResolveBalance(primary, feed, decode).Success? then [tokenAccount] else [])
              + (if o.outcome.Sold? then [req.solVault] else [])
    ensures o.outcome.Sold? ==> swap.Ok?
    // nothing is sold, or even sent, unless an update crossed or the stream ended
    ensures o.outcome.Sold? || |o.orders| > 0 ==>
              vault.Some? && (FirstCrossing(vault.value.updates, ExitThresholds(req.solPooledWhenBought))
                                < |vault.value.updates| || vault.value.closes)
    ensures ResolveBalance(primary, feed, decode).Success? && vault.Some?
            && FirstCrossing(vault.value.updates, ExitThresholds(req.solPooledWhenBought)) == |vault.value.updates|
            && !vault.value.closes ==>
              o.outcome == Waiting && o.orders == []
    // once triggered the swap is sent; a failing swap aborts the task
    ensures ResolveBalance(primary, feed, decode).Success? && vault.Some?
            && (FirstCrossing(vault.value.updates, ExitThresholds(req.solPooledWhenBought))
                  < |vault.value.updates| || vault.value.closes) ==>
              && o.orders == [ExitOrder(req, ResolveBalance(primary, feed, decode).value)]
              && o.outcome == (if swap.Ok? then Sold(o.orders[0]) else Aborted(Exiting, "buy"))
    // a refused vault subscription aborts before anything is sent
    ensures ResolveBalance(primary, feed, decode).Success? && vault.None? ==>
              o.outcome == Aborted(WatchingVault, "account_subscribe") && o.orders == []
    // the watch stops at the first crossing; a stream that ends still sells
    ensures ResolveBalance(primary, feed, decode).Success? && vault.Some? && swap.Ok?
            && (FirstCrossing(vault.value.updates, ExitThresholds(req.solPooledWhenBought))
                  < |vault.value.updates| || vault.value.closes) ==>
              o.outcome.Sold?
    ensures o.outcome == Waiting ==>
              && vault.Some? && !vault.value.closes && o.orders == []
              && forall j :: 0 <= j < |vault.value.updates| ==>
                   !Crosses(SolPooled(vault.value.updates[j]), ExitThresholds(req.solPooledWhenBought))
    // once the balance is known, the vault is subscribed to after the fallback's subscription
    ensures ResolveBalance(primary, feed, decode).Success? ==>
              o.subscribed == (if primary.QueryFailed? then [tokenAccount] else [])
                              + (if vault.Some? then [req.solVault] else [])
    // the vault is subscribed to only once the balance is known
    ensures !ResolveBalance(primary, feed, decode).Success? ==>
              && o.outcome.Aborted? && o.outcome.stage == ResolvingBalance && o.orders == []
              && o.subscribed == (if primary.QueryFailed? && feed.Some? then [tokenAccount] else [])
  {
    var fallback := if primary.QueryFailed? && feed.Some? then [tokenAccount] else [];
    var balance := ResolveBalance(primary, feed, decode);
    var releasedByFallback := if primary.QueryFailed? && balance.Success? then [tokenAccount] else [];
    if !balance.Success? then
      WatchRun(Aborted(ResolvingBalance, balance.message), fallback, releasedByFallback, [])
    else
      match vault
      case None => WatchRun(Aborted(WatchingVault, "account_subscribe"), fallback, releasedByFallback, [])
      case Some(stream) =>
        var subscribedTo := fallback + [req.solVault];
        var k := FirstCrossing(stream.updates, ExitThresholds(req.solPooledWhenBought));
        if k == |stream.updates| && !stream.closes then
          WatchRun(Waiting, subscribedTo, releasedByFallback, [])
        else
          var order := ExitOrder(req, balance.value);
          match swap
          case Err(e) => WatchRun(Aborted(Exiting, "buy"), subscribedTo, releasedByFallback, [order])
          case Ok(_) => WatchRun(Sold(order), subscribedTo, releasedByFallback + [req.solVault], [order])
  }

  // ---------------------------------------------------------------------
  // The watch task, step by step
  // ---------------------------------------------------------------------

  /** The pub/sub client: the accounts subscribed to and unsubscribed from, in order. */
  class PubsubClient {
    var subscribed: seq<Pubkey>
    var unsubscribed: seq<Pubkey>

    constructor ()
      ensures subscribed == [] && unsubscribed == []
    {
      subscribed, unsubscribed := [], [];
    }

    /** `account_subscribe`; `accepted` is the node's answer. */
    method AccountSubscribe(account: Pubkey, accepted: bool) returns (ok: bool)
      modifies this
      ensures ok == accepted
      ensures subscribed == old(subscribed) + (if accepted then [account] else [])
      ensures unsubscribed == old(unsubscribed)
    {
      if accepted {
        subscribed := subscribed + [account];
      }
      ok := accepted;
    }

    /** Calling the `unsub` handle of the subscription to `account`. */
    method Unsubscribe(account: Pubkey)
      modifies this
      ensures unsubscribed == old(unsubscribed) + [account]
      ensures subscribed == old(subscribed)
    {
      unsubscribed := unsubscribed + [account];
    }
  }

  /** The swap executor: every exit swap sent, in order. */
  class Trader {
    var sent: seq<SwapOrder>

    constructor ()
      ensures sent == []
    {
      sent := [];
    }

    /** `buyer::swap`; `outcome` is how the swap fares. */
    method Swap(order: SwapOrder, outcome: Result<(), string>) returns (ok: bool)
      modifies this
      ensures ok == outcome.Ok?
      ensures sent == old(sent) + [order]
    {
      sent := sent + [order];
      ok := outcome.Ok?;
    }
  }

  /** `get_spl_balance_stream`: subscribe, then race the first notification
      against the deadline. Only the success path unsubscribes. */
  method GetSplBalanceStream(client: PubsubClient, tokenAccount: Pubkey, feed: Option<FirstNotification>,
                             decode: AccountDecoder)
    returns (r: Fallible<U64>)
    modifies client
    ensures r == SplBalanceStream(feed, decode)
    ensures client.subscribed == old(client.subscribed) + (if feed.Some? then [tokenAccount] else [])
    ensures client.unsubscribed == old(client.unsubscribed) + (if r.Success? then [tokenAccount] else [])
  {
    var ok := client.AccountSubscribe(tokenAccount, feed.Some?);
    if !ok {
      return Panic("account_subscribe");
    }
    match feed.value {
      case Silent =>
        r := Failure("timeout");
      case Ended(ms) =>
        r := if ms < BalanceTimeoutMs then Panic("log") else Failure("timeout");
      case Notified(ms, data) =>
        if ms >= BalanceTimeoutMs {
          r := Failure("timeout");
        } else if data.EncodedBinary? && data.encoding == Base64 {
          match decode(data.blob) {
            case Err(e) =>
              r := Panic(e);
            case Ok(amount) =>
              client.Unsubscribe(tokenAccount);
              r := Success(amount);
          }
        } else {
          r := Failure("unexpected data");
        }
    }
  }

  /** The spawned task of `handle_sell`. */
  method RunExitWatch(req: SellRequest, tokenAccount: Pubkey, primary: BalanceQuery,
                      feed: Option<FirstNotification>, decode: AccountDecoder,
                      vault: Option<VaultStream>, swap: Result<(), string>,
                      client: PubsubClient, trader: Trader)
    returns (outcome: TaskOutcome)
    modifies client, trader
    ensures var o := ExitWatchRun(req, tokenAccount, primary, feed, decode, vault, swap);
            && outcome == o.outcome
            && client.subscribed == old(client.subscribed) + o.subscribed
            && client.unsubscribed == old(client.unsubscribed) + o.released
            && trader.sent == old(trader.sent) + o.orders
  {
    var balance: U64;
    match primary {
      case QueryOk(amount) =>
        var parsed := ParseU64(amount);
        if parsed.None? {
          return Aborted(ResolvingBalance, "balance string to u64");
        }
        balance := parsed.value;
      case QueryFailed(_) =>
        var fetched := GetSplBalanceStream(client, tokenAccount, feed, decode);
        match fetched {
          case Success(v) =>
            balance := v;
          case Failure(_) =>
            return Aborted(ResolvingBalance, "get_spl_balance_stream");
          case Panic(m) =>
            return Aborted(ResolvingBalance, m);
        }
    }
    var ok := client.AccountSubscribe(req.solVault, vault.Some?);
    if !ok {
      return Aborted(WatchingVault, "account_subscribe");
    }
    var thresholds := ExitThresholds(req.solPooledWhenBought);
    var watched := WatchVault(vault.value, thresholds);
    if watched == StillWaiting {
      return Waiting;
    }
    var order := ExitOrder(req, balance);
    var swapped := trader.Swap(order, swap);
    if !swapped {
      return Aborted(Exiting, "buy");
    }
    client.Unsubscribe(req.solVault);
    outcome := Sold(order);
  }

  datatype HttpResponse = HttpResponse(status: nat, body: Json)

  /** `200 OK` with `{"status": "OK, triggered sell"}`. */
  function TriggeredSellAck(): HttpResponse
  {
    HttpResponse(200, JObject(map["status" := JString(AckStatus)]))
  }

  /** `POST /sell`: start the watch task and acknowledge. The response does not
      depend on anything the task meets. */
  method HandleSell(req: SellRequest, tokenAccount: Pubkey, primary: BalanceQuery,
                    feed: Option<FirstNotification>, decode: AccountDecoder,
                    vault: Option<VaultStream>, swap: Result<(), string>,
                    client: PubsubClient, trader: Trader)
    returns (response: HttpResponse, outcome: TaskOutcome)
    modifies client, trader
    ensures response == TriggeredSellAck()
    ensures var o := ExitWatchRun(req, tokenAccount, primary, feed, decode, vault, swap);
            && outcome == o.outcome
            && client.subscribed == old(client.subscribed) + o.subscribed
            && client.unsubscribed == old(client.unsubscribed) + o.released
            && trader.sent == old(trader.sent) + o.orders
  {
    outcome := RunExitWatch(req, tokenAccount, primary, feed, decode, vault, swap, client, trader);
    response := TriggeredSellAck();
  }
}
