/**
 * The records the contract stores and the messages it accepts and returns.
 */
module EscrowState {
  import opened Results
  import opened BalanceMerge
  import opened Transfers

  /** One funding record, appended on every top-up: who funded, the token
      amount (0 for a native deposit) and the two times the funder gave. */
  datatype AccountInfo = AccountInfo(addr: string, amount: nat, startTime: nat, endTime: nat)

  /** One escrow, stored under its id. */
  datatype Escrow = Escrow(
    client: string,
    accountinfo: seq<AccountInfo>,
    endTime: Option<nat>,
    balance: GenericBalance,
    cw20Whitelist: seq<string>,
    title: string,
    url: string,
    threshold: nat,
    state: nat)

  /** Errors raised by the host: a failed storage load, a rejected address. */
  datatype StdError = NotFound | InvalidAddress(addr: string)

  datatype ContractError =
    | Std(err: StdError)
    | Unauthorized
    | EmptyBalance
    | AlreadyInUse
    | NotInWhitelist

  /** A successful call returns the instructions the host is to carry out. */
  datatype Response = Response(messages: seq<SubMsg>)

  datatype CreateMsg = CreateMsg(
    id: string,
    client: string,
    endTime: Option<nat>,
    cw20Whitelist: Option<seq<string>>,
    title: string,
    url: string,
    threshold: nat,
    state: nat)

  /** The governance values, as written by SetConstant and read by the query. */
  datatype ConstantMsg = ConstantMsg(managerAddr: string, minStake: string, rateClient: string, rateManager: string)

  /** The payload a token contract forwards with a token deposit. */
  datatype ReceiveMsg =
    | CreateEscrow(create: CreateMsg)
    | TopUpEscrow(id: string, startTime: nat, endTime: nat)

  /** A token deposit: `sender` sent `amount` of the calling token contract. */
  datatype Cw20ReceiveMsg = Cw20ReceiveMsg(sender: string, amount: nat, msg: ReceiveMsg)

  /** The caller of an entry point and the native coins it attached. */
  datatype MessageInfo = MessageInfo(sender: string, funds: seq<Coin>)

  datatype ExecuteMsg =
    | Create(create: CreateMsg)
    | Approve(id: string)
    | TopUp(id: string, startTime: nat, endTime: nat)
    | Refund(id: string)
    | Receive(wrapper: Cw20ReceiveMsg)
    | SetConstant(config: ConstantMsg)

  /** What a details query shows of one escrow. */
  datatype DetailsResponse = DetailsResponse(
    id: string,
    client: string,
    endTime: Option<nat>,
    nativeBalance: seq<Coin>,
    cw20Balance: seq<Cw20CoinVerified>,
    cw20Whitelist: seq<string>)

  // Names of the governance entries in the constant store.
  const ManagerKey := "manager_addr"
  const MinStakeKey := "min_stake"
  const RateClientKey := "rate_client"
  const RateManagerKey := "rate_manager"
  const DevAddrKey := "devAddr"

  /** The entries a SetConstant rewrites. */
  const ConfigKeys: set<string> := {ManagerKey, MinStakeKey, RateClientKey, RateManagerKey}

  const DevAddr := "juno15fg4zvl8xgj3txslr56ztnyspf3jc7n9j44vhz"

  /** The whitelist requested at creation; none requested is the empty list. */
  function RequestedWhitelist(msg: CreateMsg): seq<string>
  {
    match msg.cw20Whitelist
    case None => []
    case Some(ws) => ws
  }
}
