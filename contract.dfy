/**
 * The escrow contract: the registry of escrows, the governance constants, and
 * the entry points that create, fund, approve and refund escrows.
 *
 * Every entry point is first stated as a pure function of the stored state
 * (`Created`, `ToppedUp`, `Received`, `ConstantsSet`, `ExecuteApprove`,
 * `ExecuteRefund`); the class `EscrowContract` holds the two stores and its
 * methods are proved to commit exactly what those functions compute, or to
 * leave the stores untouched when they fail.
 */
module Contract {
  import opened Results
  import opened BalanceMerge
  import opened Transfers
  import opened EscrowState

  /** The host's address check. An address it accepts validates to itself;
      any other fails with `InvalidAddress`. */
  type AddrApi = string -> bool

  function ValidateAddr(api: AddrApi, addr: string): (r: Result<string, ContractError>)
    ensures r.Success? <==> api(addr)
    ensures r.Success? ==> r.value == addr
    ensures r.Failure? ==> r.error == Std(InvalidAddress(addr))
  {
    if api(addr) then Success(addr) else Failure(Std(InvalidAddress(addr)))
  }

  /** Loads the stored manager address and validates it: it succeeds exactly
      when the stored manager is valid, and yields that address. */
  function LoadManager(constants: map<string, string>, api: AddrApi): (r: Result<string, ContractError>)
    ensures ManagerKey !in constants ==> r == Failure(Std(NotFound))
    ensures ManagerKey in constants && !api(constants[ManagerKey])
      ==> r == Failure(Std(InvalidAddress(constants[ManagerKey])))
    ensures r.Success? <==> ManagerValid(constants, api)
    ensures r.Success? ==> r.value == constants[ManagerKey]
  {
    if ManagerKey !in constants then Failure(Std(NotFound))
    else ValidateAddr(api, constants[ManagerKey])
  }

  /** A stored manager address that loads and validates. */
  predicate ManagerValid(constants: map<string, string>, api: AddrApi)
  {
    ManagerKey in constants && api(constants[ManagerKey])
  }

  /** The outcome of a state-changing entry point as the host commits it: on
      success the new state and an empty instruction list, on failure the
      error and the state exactly as it was. */
  ghost predicate Committed<S>(outcome: Result<S, ContractError>, r: Result<Response, ContractError>, before: S, after: S)
  {
    match outcome
    case Success(s) => r == Success(Response([])) && after == s
    case Failure(e) => r == Failure(e) && after == before
  }

  // ---------------------------------------------------------------------
  // Governance constants
  // ---------------------------------------------------------------------

  /** The constant store after SetConstant. While the stored manager is the
      empty string anyone may write; after that only the manager may. All
      four values are replaced together; the developer address is kept. */
  function ConstantsSet(constants: map<string, string>, api: AddrApi, sender: string, msg: ConstantMsg)
    : (r: Result<map<string, string>, ContractError>)
    ensures ManagerKey !in constants ==> r == Failure(Std(NotFound))
    ensures ManagerKey in constants && constants[ManagerKey] == "" ==> r.Success?
    ensures ManagerKey in constants && constants[ManagerKey] != "" && !api(constants[ManagerKey])
      ==> r == Failure(Std(InvalidAddress(constants[ManagerKey])))
    ensures ManagerKey in constants && constants[ManagerKey] != "" && api(constants[ManagerKey])
      ==> (r.Success? <==> sender == constants[ManagerKey]) && (r.Failure? ==> r.error == Unauthorized)
    ensures r.Success? ==> QueryConstants(r.value) == Success(msg)
    ensures r.Success? ==> r.value.Keys == constants.Keys + ConfigKeys
    ensures r.Success? ==> forall k :: k in constants && k !in ConfigKeys ==> r.value[k] == constants[k]
  {
    if ManagerKey !in constants then Failure(Std(NotFound))
    else
      var manager := constants[ManagerKey];
      if manager != "" && !api(manager) then Failure(Std(InvalidAddress(manager)))
      else if manager != "" && sender != manager then Failure(Unauthorized)
      else
        Success(constants[ManagerKey := msg.managerAddr][MinStakeKey := msg.minStake]
                         [RateClientKey := msg.rateClient][RateManagerKey := msg.rateManager])
  }

  /** `query_constants`: the four governance values, when all are stored. */
  function QueryConstants(constants: map<string, string>): (r: Result<ConstantMsg, ContractError>)
    ensures r.Success? <==> ConfigKeys <= constants.Keys
    ensures r.Failure? ==> r.error == Std(NotFound)
    ensures r.Success? ==> && r.value.managerAddr == constants[ManagerKey]
                           && r.value.minStake == constants[MinStakeKey]
                           && r.value.rateClient == constants[RateClientKey]
                           && r.value.rateManager == constants[RateManagerKey]
  {
    if ManagerKey !in constants || MinStakeKey !in constants
       || RateClientKey !in constants || RateManagerKey !in constants
    then Failure(Std(NotFound))
    else Success(ConstantMsg(constants[ManagerKey], constants[MinStakeKey],
                             constants[RateClientKey], constants[RateManagerKey]))
  }

  /** Governance bootstrap and lock: from an unset manager anyone's first
      write succeeds; once it has stored a valid manager, a write from anyone
      else is refused. */
  lemma BootstrapThenLock(constants: map<string, string>, api: AddrApi, first: string, msg: ConstantMsg,
                          other: string, next: ConstantMsg)
    requires ManagerKey in constants && constants[ManagerKey] == ""
    requires msg.managerAddr != "" && api(msg.managerAddr) && other != msg.managerAddr
    ensures ConstantsSet(constants, api, first, msg).Success?
    ensures ConstantsSet(ConstantsSet(constants, api, first, msg).value, api, other, next) == Failure(Unauthorized)
  {
    var written := ConstantsSet(constants, api, first, msg).value;
    assert QueryConstants(written) == Success(msg);
  }

  // ---------------------------------------------------------------------
  // Create, top up, token deposits
  // ---------------------------------------------------------------------

  /** The registry after creating an escrow. An empty deposit fails; a token
      deposit must come from the token named by the stored `rate_manager`;
      the id must be free. The new escrow belongs to the sender, holds the
      deposit and nothing else, and its whitelist is the requested one with
      the deposited token appended when it is not listed yet. */
  function Created(escrows: map<string, Escrow>, constants: map<string, string>, msg: CreateMsg,
                   deposit: Balance, sender: string)
    : (r: Result<map<string, Escrow>, ContractError>)
    ensures IsEmpty(deposit) ==> r == Failure(EmptyBalance)
    ensures !IsEmpty(deposit) && RateManagerKey !in constants ==> r == Failure(Std(NotFound))
    ensures !IsEmpty(deposit) && RateManagerKey in constants
            && deposit.Cw20? && deposit.token.key != constants[RateManagerKey]
      ==> r == Failure(Unauthorized)
    ensures !IsEmpty(deposit) && RateManagerKey in constants
            && (deposit.Cw20? ==> deposit.token.key == constants[RateManagerKey]) && msg.id in escrows
      ==> r == Failure(AlreadyInUse)
    ensures r.Success? <==> && !IsEmpty(deposit) && RateManagerKey in constants
                            && (deposit.Cw20? ==> deposit.token.key == constants[RateManagerKey])
                            && msg.id !in escrows
    ensures r.Success? ==> r.value.Keys == escrows.Keys + {msg.id}
    ensures r.Success? ==> forall id :: id in escrows ==> r.value[id] == escrows[id]
    ensures r.Success? ==> var e := r.value[msg.id];
      && e.client == sender && e.accountinfo == [] && e.state == 0
      && e.balance == Deposited(deposit)
      && e.endTime == msg.endTime && e.title == msg.title && e.url == msg.url && e.threshold == msg.threshold
    ensures r.Success? ==> var wl, requested := r.value[msg.id].cw20Whitelist, RequestedWhitelist(msg);
      && requested <= wl
      && |wl| <= |requested| + 1
      && (deposit.Cw20? ==> deposit.token.key in wl)
      && (deposit.Native? || deposit.token.key in requested ==> wl == requested)
  {
    if IsEmpty(deposit) then Failure(EmptyBalance)
    else
      var requested := RequestedWhitelist(msg);
      if RateManagerKey !in constants then Failure(Std(NotFound))
      else
        var rateManager := constants[RateManagerKey];
        if deposit.Cw20? && deposit.token.key != rateManager then Failure(Unauthorized)
        else
          var whitelist :=
            if deposit.Cw20? && deposit.token.key !in requested then requested + [deposit.token.key]
            else requested;
          var escrow := Escrow(sender, [], msg.endTime, Deposited(deposit), whitelist,
                               msg.title, msg.url, msg.threshold, 0);
          if msg.id in escrows then Failure(AlreadyInUse)
          else Success(escrows[msg.id := escrow])
  }

  /** The registry after a top-up. An empty deposit, an unknown id or a token
      missing from the escrow's whitelist fails. Otherwise the escrow gains
      one funding record at the end of its log and the deposit is merged into
      its balance; nothing else about it, and no other escrow, changes. */
  function ToppedUp(escrows: map<string, Escrow>, id: string, startTime: nat, endTime: nat,
                    deposit: Balance, sender: string)
    : (r: Result<map<string, Escrow>, ContractError>)
    ensures IsEmpty(deposit) ==> r == Failure(EmptyBalance)
    ensures !IsEmpty(deposit) && id !in escrows ==> r == Failure(Std(NotFound))
    ensures !IsEmpty(deposit) && id in escrows
            && deposit.Cw20? && deposit.token.key !in escrows[id].cw20Whitelist
      ==> r == Failure(NotInWhitelist)
    ensures r.Success? <==> && !IsEmpty(deposit) && id in escrows
                            && (deposit.Cw20? ==> deposit.token.key in escrows[id].cw20Whitelist)
    ensures r.Success? ==> r.value.Keys == escrows.Keys
    ensures r.Success? ==> forall other :: other in escrows && other != id ==> r.value[other] == escrows[other]
    ensures r.Success? ==> var before, after := escrows[id], r.value[id];
      && after.accountinfo
         == before.accountinfo + [AccountInfo(sender, if deposit.Cw20? then deposit.token.amount else 0, startTime, endTime)]
      && after.balance == Merged(before.balance, deposit)
      && Conserves(before.balance, deposit, after.balance)
      && after == before.(accountinfo := after.accountinfo, balance := after.balance)
  {
    if IsEmpty(deposit) then Failure(EmptyBalance)
    else if id !in escrows then Failure(Std(NotFound))
    else
      var escrow := escrows[id];
      if deposit.Cw20? && deposit.token.key !in escrow.cw20Whitelist then Failure(NotInWhitelist)
      else
        var funded := if deposit.Cw20? then deposit.token.amount else 0;
        var info := AccountInfo(sender, funded, startTime, endTime);
        MergedConserves(escrow.balance, deposit);
        Success(escrows[id := escrow.(accountinfo := escrow.accountinfo + [info],
                                      balance := Merged(escrow.balance, deposit))])
  }

  /** A token deposit forwarded by token contract `token`: the deposit is
      `amount` of that token, and the wrapped sender, once it validates, is
      the creator or funder. */
  function Received(escrows: map<string, Escrow>, constants: map<string, string>, api: AddrApi,
                    token: string, wrapper: Cw20ReceiveMsg)
    : (r: Result<map<string, Escrow>, ContractError>)
    ensures !api(wrapper.sender) ==> r == Failure(Std(InvalidAddress(wrapper.sender)))
    ensures api(wrapper.sender) && wrapper.msg.CreateEscrow?
      ==> r == Created(escrows, constants, wrapper.msg.create, Cw20(Holding(token, wrapper.amount)), wrapper.sender)
    ensures api(wrapper.sender) && wrapper.msg.TopUpEscrow?
      ==> r == ToppedUp(escrows, wrapper.msg.id, wrapper.msg.startTime, wrapper.msg.endTime,
                        Cw20(Holding(token, wrapper.amount)), wrapper.sender)
  {
    var deposit := Cw20(Holding(token, wrapper.amount));
    match wrapper.msg
    case CreateEscrow(create) =>
      if !api(wrapper.sender) then Failure(Std(InvalidAddress(wrapper.sender)))
      else Created(escrows, constants, create, deposit, wrapper.sender)
    case TopUpEscrow(id, startTime, endTime) =>
      if !api(wrapper.sender) then Failure(Std(InvalidAddress(wrapper.sender)))
      else ToppedUp(escrows, id, startTime, endTime, deposit, wrapper.sender)
  }

  /** No stored escrow holds two native entries of one denomination or two
      holdings of one token. */
  ghost predicate StoredUnique(escrows: map<string, Escrow>)
  {
    forall id :: id in escrows ==> UniqueKeys(escrows[id].balance.native) && UniqueKeys(escrows[id].balance.cw20)
  }

  /** Creation keeps every stored balance free of repeated keys when the
      native funds repeat no denomination, as the host delivers them. */
  lemma CreatedKeepsUnique(escrows: map<string, Escrow>, constants: map<string, string>, msg: CreateMsg,
                           deposit: Balance, sender: string)
    requires StoredUnique(escrows)
    requires deposit.Native? ==> UniqueKeys(deposit.coins)
    ensures Created(escrows, constants, msg, deposit, sender).Success?
      ==> StoredUnique(Created(escrows, constants, msg, deposit, sender).value)
  {
    var r := Created(escrows, constants, msg, deposit, sender);
    if r.Success? {
      forall id | id in r.value
        ensures UniqueKeys(r.value[id].balance.native) && UniqueKeys(r.value[id].balance.cw20)
      {
        if id == msg.id {
          assert r.value[id].balance == Deposited(deposit);
          assert Keys([]) == [];
          if deposit.Cw20? {
            assert |Keys([deposit.token])| == 1;
          }
        } else {
          assert r.value[id] == escrows[id];
        }
      }
    }
  }

  /** A top-up keeps every stored balance free of repeated keys, whatever the
      deposit holds. */
  lemma ToppedUpKeepsUnique(escrows: map<string, Escrow>, id: string, startTime: nat, endTime: nat,
                            deposit: Balance, sender: string)
    requires StoredUnique(escrows)
    ensures ToppedUp(escrows, id, startTime, endTime, deposit, sender).Success?
      ==> StoredUnique(ToppedUp(escrows, id, startTime, endTime, deposit, sender).value)
  {
    var r := ToppedUp(escrows, id, startTime, endTime, deposit, sender);
    if r.Success? {
      MergedKeepsUnique(escrows[id].balance, deposit);
      forall other | other in r.value
        ensures UniqueKeys(r.value[other].balance.native) && UniqueKeys(r.value[other].balance.cw20)
      {
        if other != id {
          assert r.value[other] == escrows[other];
        }
      }
    }
  }

  /** A token deposit keeps every stored balance free of repeated keys. */
  lemma ReceivedKeepsUnique(escrows: map<string, Escrow>, constants: map<string, string>, api: AddrApi,
                            token: string, wrapper: Cw20ReceiveMsg)
    requires StoredUnique(escrows)
    ensures Received(escrows, constants, api, token, wrapper).Success?
      ==> StoredUnique(Received(escrows, constants, api, token, wrapper).value)
  {
    var deposit := Cw20(Holding(token, wrapper.amount));
    match wrapper.msg
    case CreateEscrow(create) =>
      CreatedKeepsUnique(escrows, constants, create, deposit, wrapper.sender);
    case TopUpEscrow(id, startTime, endTime) =>
      ToppedUpKeepsUnique(escrows, id, startTime, endTime, deposit, wrapper.sender);
  }

  /** Creating twice under one id: the second create fails and, since a
      failed call commits nothing, the first record stays as it was. */
  lemma CreateTwiceFails(escrows: map<string, Escrow>, constants: map<string, string>,
                         msg: CreateMsg, deposit: Balance, sender: string,
                         again: CreateMsg, deposit2: Balance, sender2: string)
    requires Created(escrows, constants, msg, deposit, sender).Success?
    requires again.id == msg.id && !IsEmpty(deposit2)
    requires deposit2.Cw20? ==> deposit2.token.key == constants[RateManagerKey]
    ensures Created(Created(escrows, constants, msg, deposit, sender).value, constants, again, deposit2, sender2)
         == Failure(AlreadyInUse)
  {
  }

  // ---------------------------------------------------------------------
  // Approve, refund
  // ---------------------------------------------------------------------

  /** The approve rule as written: a request is refused when the sender is
      not the client OR is not the manager, so only a sender that is both
      the client and the manager may approve. */
  function ApproveAllowed(sender: string, client: string, manager: string): (ok: bool)
    ensures ok <==> sender == client && sender == manager
  {
    !(sender != client || sender != manager)
  }

  /** `execute_approve`: for a stored escrow and a stored, valid manager
      address, a sender allowed by `ApproveAllowed` receives the transfers
      of the whole balance to the client. The list for the manager is
      computed and dropped; the escrow is neither removed nor drained. */
  function ExecuteApprove(escrows: map<string, Escrow>, constants: map<string, string>, api: AddrApi,
                          sender: string, id: string)
    : (r: Result<Response, ContractError>)
    ensures id !in escrows ==> r == Failure(Std(NotFound))
    ensures id in escrows && ManagerKey !in constants ==> r == Failure(Std(NotFound))
    ensures id in escrows && ManagerKey in constants && !api(constants[ManagerKey])
      ==> r == Failure(Std(InvalidAddress(constants[ManagerKey])))
    ensures id in escrows && ManagerValid(constants, api)
            && !(sender == escrows[id].client && sender == constants[ManagerKey])
      ==> r == Failure(Unauthorized)
    ensures r.Success? <==> && id in escrows && ManagerValid(constants, api)
                            && sender == escrows[id].client && sender == constants[ManagerKey]
    ensures r.Success? ==> r.value.messages == SendTokens(escrows[id].client, escrows[id].balance)
  {
    if id !in escrows then Failure(Std(NotFound))
    else
      var escrow := escrows[id];
      match LoadManager(constants, api)
      case Failure(e) => Failure(e)
      case Success(manager) =>
        if !ApproveAllowed(sender, escrow.client, manager) then Failure(Unauthorized)
        else
          var toClient := SendTokens(escrow.client, escrow.balance);
          var toManager := SendTokens(manager, escrow.balance);
          Success(Response(toClient))
  }

  /** `execute_refund`: for a stored escrow and a stored, valid manager
      address, the whole balance is sent to whoever calls. No check is made
      on the caller, and the escrow is neither removed nor drained. */
  function ExecuteRefund(escrows: map<string, Escrow>, constants: map<string, string>, api: AddrApi,
                         sender: string, id: string)
    : (r: Result<Response, ContractError>)
    ensures id !in escrows ==> r == Failure(Std(NotFound))
    ensures id in escrows && ManagerKey !in constants ==> r == Failure(Std(NotFound))
    ensures id in escrows && ManagerKey in constants && !api(constants[ManagerKey])
      ==> r == Failure(Std(InvalidAddress(constants[ManagerKey])))
    ensures r.Success? <==> id in escrows && ManagerValid(constants, api)
    ensures r.Success? ==> r.value.messages == SendTokens(sender, escrows[id].balance)
  {
    if id !in escrows then Failure(Std(NotFound))
    else
      var escrow := escrows[id];
      match LoadManager(constants, api)
      case Failure(e) => Failure(e)
      case Success(_) => Success(Response(SendTokens(sender, escrow.balance)))
  }

  /** A successful approve pays the escrow's whole balance, and only to the
      client, who is also the sender and the manager. */
  lemma ApprovePaysClient(escrows: map<string, Escrow>, constants: map<string, string>, api: AddrApi,
                          sender: string, id: string)
    requires ExecuteApprove(escrows, constants, api, sender, id).Success?
    ensures var msgs := ExecuteApprove(escrows, constants, api, sender, id).value.messages;
      && Released(msgs) == escrows[id].balance
      && (forall i :: 0 <= i < |msgs| ==> Recipient(msgs[i]) == escrows[id].client)
      && sender == escrows[id].client == constants[ManagerKey]
  {
    SendTokensReleasesBalance(escrows[id].client, escrows[id].balance);
  }

  /** A successful refund pays the escrow's whole balance to the caller,
      whoever the caller is. */
  lemma RefundPaysCaller(escrows: map<string, Escrow>, constants: map<string, string>, api: AddrApi,
                         sender: string, id: string)
    requires id in escrows && ManagerValid(constants, api)
    ensures ExecuteRefund(escrows, constants, api, sender, id).Success?
    ensures var msgs := ExecuteRefund(escrows, constants, api, sender, id).value.messages;
      && Released(msgs) == escrows[id].balance
      && (forall i :: 0 <= i < |msgs| ==> Recipient(msgs[i]) == sender)
  {
    SendTokensReleasesBalance(sender, escrows[id].balance);
  }

  /** What an approve after a top-up pays out is the old balance with the
      deposit merged in. */
  lemma TopUpThenApprove(escrows: map<string, Escrow>, constants: map<string, string>, api: AddrApi,
                         id: string, startTime: nat, endTime: nat, deposit: Balance, funder: string,
                         sender: string)
    requires ToppedUp(escrows, id, startTime, endTime, deposit, funder).Success?
    requires ExecuteApprove(ToppedUp(escrows, id, startTime, endTime, deposit, funder).value,
                            constants, api, sender, id).Success?
    ensures Released(ExecuteApprove(ToppedUp(escrows, id, startTime, endTime, deposit, funder).value,
                                    constants, api, sender, id).value.messages)
         == Merged(escrows[id].balance, deposit)
  {
    ApprovePaysClient(ToppedUp(escrows, id, startTime, endTime, deposit, funder).value, constants, api, sender, id);
  }

  // ---------------------------------------------------------------------
  // Queries
  // ---------------------------------------------------------------------

  /** `query_details`: the stored escrow's id, client, end time, balances and
      whitelist; an unknown id fails with NotFound. */
  function QueryDetails(escrows: map<string, Escrow>, id: string): (r: Result<DetailsResponse, ContractError>)
    ensures r.Success? <==> id in escrows
    ensures r.Failure? ==> r.error == Std(NotFound)
    ensures r.Success? ==> && r.value.id == id
                           && r.value.client == escrows[id].client
                           && r.value.endTime == escrows[id].endTime
                           && GenericBalance(r.value.nativeBalance, r.value.cw20Balance) == escrows[id].balance
                           && r.value.cw20Whitelist == escrows[id].cw20Whitelist
  {
    if id !in escrows then Failure(Std(NotFound))
    else
      var escrow := escrows[id];
      Success(DetailsResponse(id, escrow.client, escrow.endTime, escrow.balance.native,
                              escrow.balance.cw20, escrow.cw20Whitelist))
  }

  /** Right after a create, the details show the sender as client, exactly
      the deposit as balance, and the deposited token on the whitelist. */
  lemma CreateThenDetails(escrows: map<string, Escrow>, constants: map<string, string>, msg: CreateMsg,
                          deposit: Balance, sender: string)
    requires Created(escrows, constants, msg, deposit, sender).Success?
    ensures var d := QueryDetails(Created(escrows, constants, msg, deposit, sender).value, msg.id);
      && d.Success? && d.value.client == sender && d.value.endTime == msg.endTime
      && d.value.nativeBalance == Deposited(deposit).native
      && d.value.cw20Balance == Deposited(deposit).cw20
      && (deposit.Cw20? ==> deposit.token.key in d.value.cw20Whitelist)
  {
  }

  // ---------------------------------------------------------------------
  // The contract's stores and its state-changing entry points
  // ---------------------------------------------------------------------

  /** `iter().any(|t| t == key)` over a whitelist. */
  method Contains(ws: seq<string>, key: string) returns (found: bool)
    ensures found <==> key in ws
  {
    found := false;
    var i := 0;
    while i < |ws| && !found
      invariant 0 <= i <= |ws|
      invariant found <==> key in ws[..i]
    {
      found := ws[i] == key;
      assert ws[..i + 1] == ws[..i] + [ws[i]];
      i := i + 1;
    }
    assert !found ==> ws[..i] == ws;
  }

  class EscrowContract {
    /** The escrow registry, by id. */
    var escrows: map<string, Escrow>
    /** The constant store: the governance values and the developer address. */
    var constants: map<string, string>

    /** Every constant entry is stored, and no stored balance repeats a
        denomination or a token. */
    ghost predicate Valid()
      reads this
    {
      && ConfigKeys + {DevAddrKey} <= constants.Keys
      && StoredUnique(escrows)
    }

    /** `instantiate`: no escrows; the manager unset (the empty string), the
        stake and both rates "10", and the developer address. */
    constructor Instantiate()
      ensures Valid()
      ensures escrows == map[]
      ensures constants == map[ManagerKey := "", MinStakeKey := "10", RateClientKey := "10",
                               RateManagerKey := "10", DevAddrKey := DevAddr]
      ensures QueryConstants(constants) == Success(ConstantMsg("", "10", "10", "10"))
    {
      escrows := map[];
      constants := map[];
      new;
      constants := constants[ManagerKey := ""];
      constants := constants[MinStakeKey := "10"];
      constants := constants[RateClientKey := "10"];
      constants := constants[RateManagerKey := "10"];
      constants := constants[DevAddrKey := DevAddr];
    }

    /** `execute_setconstant`. */
    method SetConstant(api: AddrApi, sender: string, msg: ConstantMsg) returns (r: Result<Response, ContractError>)
      modifies this
      ensures escrows == old(escrows)
      ensures Committed(ConstantsSet(old(constants), api, sender, msg), r, old(constants), constants)
      ensures old(Valid()) ==> Valid()
    {
      if ManagerKey !in constants {
        return Failure(Std(NotFound));
      }
      var manager := constants[ManagerKey];
      if manager != "" {
        if !api(manager) {
          return Failure(Std(InvalidAddress(manager)));
        }
        if sender != manager {
          return Failure(Unauthorized);
        }
      }
      constants := constants[ManagerKey := msg.managerAddr];
      constants := constants[MinStakeKey := msg.minStake];
      constants := constants[RateClientKey := msg.rateClient];
      constants := constants[RateManagerKey := msg.rateManager];
      r := Success(Response([]));
    }

    /** `execute_create`. */
    method Create(msg: CreateMsg, deposit: Balance, sender: string) returns (r: Result<Response, ContractError>)
      modifies this
      ensures constants == old(constants)
      ensures Committed(Created(old(escrows), constants, msg, deposit, sender), r, old(escrows), escrows)
      ensures old(Valid()) && (deposit.Native? ==> UniqueKeys(deposit.coins)) ==> Valid()
    {
      if StoredUnique(escrows) && (deposit.Native? ==> UniqueKeys(deposit.coins)) {
        CreatedKeepsUnique(escrows, constants, msg, deposit, sender);
      }
      if IsEmpty(deposit) {
        return Failure(EmptyBalance);
      }
      var whitelist := RequestedWhitelist(msg);
      if RateManagerKey !in constants {
        return Failure(Std(NotFound));
      }
      var rateManager := constants[RateManagerKey];
      var escrowBalance: GenericBalance;
      match deposit {
        case Native(coins) =>
          escrowBalance := GenericBalance(coins, []);
        case Cw20(token) =>
          if token.key != rateManager {
            return Failure(Unauthorized);
          }
          var listed := Contains(whitelist, token.key);
          if !listed {
            whitelist := whitelist + [token.key];
          }
          escrowBalance := GenericBalance([], [token]);
      }
      var escrow := Escrow(sender, [], msg.endTime, escrowBalance, whitelist,
                           msg.title, msg.url, msg.threshold, 0);
      if msg.id in escrows {
        return Failure(AlreadyInUse);
      }
      escrows := escrows[msg.id := escrow];
      r := Success(Response([]));
    }

    /** `execute_top_up`. */
    method TopUp(id: string, startTime: nat, endTime: nat, deposit: Balance, sender: string)
      returns (r: Result<Response, ContractError>)
      modifies this
      ensures constants == old(constants)
      ensures Committed(ToppedUp(old(escrows), id, startTime, endTime, deposit, sender), r, old(escrows), escrows)
      ensures old(Valid()) ==> Valid()
    {
      if StoredUnique(escrows) {
        ToppedUpKeepsUnique(escrows, id, startTime, endTime, deposit, sender);
      }
      if IsEmpty(deposit) {
        return Failure(EmptyBalance);
      }
      if id !in escrows {
        return Failure(Std(NotFound));
      }
      var escrow := escrows[id];
      var cwval: nat := 0;
      if deposit.Cw20? {
        var listed := Contains(escrow.cw20Whitelist, deposit.token.key);
        if !listed {
          return Failure(NotInWhitelist);
        }
        cwval := deposit.token.amount;
      }
      var info := AccountInfo(sender, cwval, startTime, endTime);
      escrow := escrow.(accountinfo := escrow.accountinfo + [info]);
      var balance := AddTokens(escrow.balance, deposit);
      escrow := escrow.(balance := balance);
      escrows := escrows[id := escrow];
      r := Success(Response([]));
    }

    /** `execute_receive`: called by token contract `token`. */
    method Receive(api: AddrApi, token: string, wrapper: Cw20ReceiveMsg) returns (r: Result<Response, ContractError>)
      modifies this
      ensures constants == old(constants)
      ensures Committed(Received(old(escrows), constants, api, token, wrapper), r, old(escrows), escrows)
      ensures old(Valid()) ==> Valid()
    {
      var deposit := Cw20(Holding(token, wrapper.amount));
      match wrapper.msg {
        case CreateEscrow(create) =>
          if !api(wrapper.sender) {
            return Failure(Std(InvalidAddress(wrapper.sender)));
          }
          r := Create(create, deposit, wrapper.sender);
        case TopUpEscrow(id, startTime, endTime) =>
          if !api(wrapper.sender) {
            return Failure(Std(InvalidAddress(wrapper.sender)));
          }
          r := TopUp(id, startTime, endTime, deposit, wrapper.sender);
      }
    }

    /** `execute`: routes a message. Native coins attached to the call are
        the deposit of Create and TopUp; approve and refund change nothing. */
    method Execute(api: AddrApi, info: MessageInfo, msg: ExecuteMsg) returns (r: Result<Response, ContractError>)
      modifies this
      ensures !msg.SetConstant? ==> constants == old(constants)
      ensures !(msg.Create? || msg.TopUp? || msg.Receive?) ==> escrows == old(escrows)
      ensures old(Valid()) && UniqueKeys(info.funds) ==> Valid()
      ensures match msg
        case Create(create) =>
          Committed(Created(old(escrows), constants, create, Native(info.funds), info.sender), r, old(escrows), escrows)
        case Approve(id) => r == ExecuteApprove(escrows, constants, api, info.sender, id)
        case TopUp(id, startTime, endTime) =>
          Committed(ToppedUp(old(escrows), id, startTime, endTime, Native(info.funds), info.sender),
                    r, old(escrows), escrows)
        case Refund(id) => r == ExecuteRefund(escrows, constants, api, info.sender, id)
        case Receive(wrapper) =>
          Committed(Received(old(escrows), constants, api, info.sender, wrapper), r, old(escrows), escrows)
        case SetConstant(config) =>
          Committed(ConstantsSet(old(constants), api, info.sender, config), r, old(constants), constants)
    {
      match msg {
        case Create(create) =>
          r := Create(create, Native(info.funds), info.sender);
        case Approve(id) =>
          r := ExecuteApprove(escrows, constants, api, info.sender, id);
        case TopUp(id, startTime, endTime) =>
          r := TopUp(id, startTime, endTime, Native(info.funds), info.sender);
        case Refund(id) =>
          r := ExecuteRefund(escrows, constants, api, info.sender, id);
        case Receive(wrapper) =>
          r := Receive(api, info.sender, wrapper);
        case SetConstant(config) =>
          r := SetConstant(api, info.sender, config);
      }
    }
  }
}
