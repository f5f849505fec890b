/**
 * Client runs of the contract, following the two end-to-end tests of the
 * source, with each expectation stated as the code computes it.
 */
module Scenarios {
  import opened Results
  import opened BalanceMerge
  import opened Transfers
  import opened EscrowState
  import opened Contract

  /** A token escrow from creation to approval. A token deposit is refused
      while `rate_manager` still holds its default; once the bootstrap write
      names the token, the escrow is created for the forwarding sender (not
      the client named in the request), only the sender that is both client
      and manager may approve, approving twice pays twice, and anyone may
      refund the balance to themselves. */
  method HappyPathCw20(api: AddrApi)
    returns (refused: Result<Response, ContractError>,
             details: Result<DetailsResponse, ContractError>,
             byNamedClient: Result<Response, ContractError>,
             byClient: Result<Response, ContractError>,
             again: Result<Response, ContractError>,
             byStranger: Result<Response, ContractError>)
    requires api("source")
    ensures refused == Failure(Unauthorized)
    ensures details == Success(DetailsResponse("foobar", "source", Some(123456), [],
                                               [Holding("my-cw20-token", 100)],
                                               ["other-token", "my-cw20-token"]))
    ensures byNamedClient == Failure(Unauthorized)
    ensures byClient == Success(Response([Cw20Transfer("my-cw20-token", "source", 100)]))
    ensures again == byClient
    ensures byStranger == Success(Response([Cw20Transfer("my-cw20-token", "stranger", 100)]))
  {
    var c := new EscrowContract.Instantiate();
    var create := CreateMsg("foobar", "arbitrate", Some(123456), Some(["other-token"]), "title", "url", 100, 0);
    var receive := Cw20ReceiveMsg("source", 100, CreateEscrow(create));

    // The default rate_manager is "10", so this token is refused.
    assert c.constants[RateManagerKey] == "10";
    refused := c.Receive(api, "my-cw20-token", receive);

    // Bootstrap write: the manager is still unset, so anyone may write.
    var config := ConstantMsg("source", "10", "10", "my-cw20-token");
    assert ManagerKey in c.constants && c.constants[ManagerKey] == "";
    assert ConstantsSet(c.constants, api, "anyone", config).Success?;
    var written := c.SetConstant(api, "anyone", config);
    assert QueryConstants(c.constants) == Success(config);
    assert c.constants[ManagerKey] == "source" && c.constants[RateManagerKey] == "my-cw20-token";

    var deposit := Cw20(Holding("my-cw20-token", 100));
    assert !IsEmpty(deposit);
    var next := Created(c.escrows, c.constants, create, deposit, "source");
    assert next.Success?;
    var created := c.Receive(api, "my-cw20-token", receive);
    assert c.escrows == next.value;
    var escrow := c.escrows["foobar"];
    assert escrow.client == "source";
    assert escrow.balance == GenericBalance([], [Holding("my-cw20-token", 100)]);
    assert escrow.cw20Whitelist == ["other-token", "my-cw20-token"];
    details := QueryDetails(c.escrows, "foobar");

    var payout := SendTokens("source", escrow.balance);
    assert payout == [Cw20Transfer("my-cw20-token", "source", 100)];
    byNamedClient := ExecuteApprove(c.escrows, c.constants, api, "arbitrate", "foobar");
    byClient := ExecuteApprove(c.escrows, c.constants, api, "source", "foobar");
    // Approve removes nothing, so approving again pays again.
    again := c.Execute(api, MessageInfo("source", []), Approve("foobar"));

    var toStranger := SendTokens("stranger", escrow.balance);
    assert toStranger == [Cw20Transfer("my-cw20-token", "stranger", 100)];
    byStranger := ExecuteRefund(c.escrows, c.constants, api, "stranger", "foobar");
  }

  /** The native merge of the mixed top-up: "stake" is summed in place and
      "random" is appended after the coins already held. */
  lemma MixedNativeMerge()
    ensures AddAll([Holding("fee", 100), Holding("stake", 200)], [Holding("random", 250), Holding("stake", 300)])
         == [Holding("fee", 100), Holding("stake", 500), Holding("random", 250)]
  {
    var held := [Holding("fee", 100), Holding("stake", 200)];
    var extra := [Holding("random", 250), Holding("stake", 300)];
    assert extra[..1] == [Holding("random", 250)];
    var once := held + [Holding("random", 250)];
    assert AddAll(held, extra[..1]) == once;
    assert FirstIndex(once, "stake") == Some(1) by {
      assert once[0].key != "stake" && once[1].key == "stake";
    }
  }

  /** The native half of the mixed top-up: after the bootstrap write names
      "source" as manager, "source" creates an escrow with two native coins
      and tops it up with two more, one of a denomination already held. */
  method FundMixed(api: AddrApi) returns (c: EscrowContract)
    requires api("source")
    ensures fresh(c)
    ensures ManagerKey in c.constants && c.constants[ManagerKey] == "source"
    ensures c.escrows.Keys == {"foobar"}
    ensures c.escrows["foobar"].client == "source"
    ensures c.escrows["foobar"].cw20Whitelist == ["bar_token", "foo_token"]
    ensures c.escrows["foobar"].balance
         == GenericBalance([Holding("fee", 100), Holding("stake", 500), Holding("random", 250)], [])
  {
    c := new EscrowContract.Instantiate();
    var config := ConstantMsg("source", "10", "10", "10");
    assert ManagerKey in c.constants && c.constants[ManagerKey] == "";
    assert ConstantsSet(c.constants, api, "anyone", config).Success?;
    var written := c.SetConstant(api, "anyone", config);
    assert QueryConstants(c.constants) == Success(config);
    assert c.constants[ManagerKey] == "source";

    // Creation with two native coins.
    var create := CreateMsg("foobar", "arbitrate", None, Some(["bar_token", "foo_token"]), "title", "url", 10, 0);
    var funds := [Holding("fee", 100), Holding("stake", 200)];
    assert funds[0].amount != 0;
    var created := Created(c.escrows, c.constants, create, Native(funds), "source");
    assert created.Success?;
    var r := c.Create(create, Native(funds), "source");
    assert c.escrows == created.value;
    assert c.escrows["foobar"].balance == GenericBalance(funds, []);
    assert c.escrows["foobar"].cw20Whitelist == ["bar_token", "foo_token"];

    // Native top-up: "stake" is summed in place, "random" is appended.
    var extra := [Holding("random", 250), Holding("stake", 300)];
    assert extra[0].amount != 0;
    var topped := ToppedUp(c.escrows, "foobar", 123456, 654321, Native(extra), "source");
    assert topped.Success?;
    r := c.TopUp("foobar", 123456, 654321, Native(extra), "source");
    assert c.escrows == topped.value;
    MixedNativeMerge();
    var native := [Holding("fee", 100), Holding("stake", 500), Holding("random", 250)];
    assert c.escrows["foobar"].balance == GenericBalance(native, []);
    assert c.escrows["foobar"].cw20Whitelist == ["bar_token", "foo_token"];
  }

  /** The token half of the mixed top-up: two whitelisted tokens are appended
      to the escrow's token balance in arrival order, and a third token, off
      the whitelist, is refused without changing anything. */
  method TopUpTokens(c: EscrowContract, api: AddrApi) returns (offList: Result<Response, ContractError>)
    requires api("random")
    requires c.escrows.Keys == {"foobar"}
    requires c.escrows["foobar"].cw20Whitelist == ["bar_token", "foo_token"]
    requires c.escrows["foobar"].balance.cw20 == []
    modifies c
    ensures offList == Failure(NotInWhitelist)
    ensures c.constants == old(c.constants)
    ensures c.escrows.Keys == {"foobar"}
    ensures c.escrows["foobar"].client == old(c.escrows["foobar"].client)
    ensures c.escrows["foobar"].balance
         == old(c.escrows["foobar"].balance).(cw20 := [Holding("bar_token", 7890), Holding("foo_token", 888)])
  {
    var topUp := TopUpEscrow("foobar", 123456, 654321);
    var bar := Holding("bar_token", 7890);
    var withBar := ToppedUp(c.escrows, "foobar", 123456, 654321, Cw20(bar), "random");
    assert withBar.Success?;
    assert Received(c.escrows, c.constants, api, "bar_token", Cw20ReceiveMsg("random", 7890, topUp)) == withBar;
    var r := c.Receive(api, "bar_token", Cw20ReceiveMsg("random", 7890, topUp));
    assert c.escrows == withBar.value;
    assert Add([], bar) == [bar];
    assert c.escrows["foobar"].balance.cw20 == [bar];

    var refusal := ToppedUp(c.escrows, "foobar", 123456, 654321, Cw20(Holding("baz_token", 7890)), "random");
    assert refusal == Failure(NotInWhitelist);
    assert Received(c.escrows, c.constants, api, "baz_token", Cw20ReceiveMsg("random", 7890, topUp)) == refusal;
    offList := c.Receive(api, "baz_token", Cw20ReceiveMsg("random", 7890, topUp));
    assert c.escrows == withBar.value;

    var foo := Holding("foo_token", 888);
    var withFoo := ToppedUp(c.escrows, "foobar", 123456, 654321, Cw20(foo), "random");
    assert withFoo.Success?;
    assert Received(c.escrows, c.constants, api, "foo_token", Cw20ReceiveMsg("random", 888, topUp)) == withFoo;
    r := c.Receive(api, "foo_token", Cw20ReceiveMsg("random", 888, topUp));
    assert c.escrows == withFoo.value;
    assert FirstIndex([bar], "foo_token") == None;
  }

  /** Native and token top-ups of one escrow. Native deposits merge by
      denomination in first-seen order, whitelisted tokens are appended in
      arrival order, a token off the whitelist is refused, and an approval
      by the client who is also the manager pays out one bank send and one
      transfer per token. */
  method TopUpMixedTokens(api: AddrApi)
    returns (offList: Result<Response, ContractError>, approved: Result<Response, ContractError>)
    requires api("source") && api("random")
    ensures offList == Failure(NotInWhitelist)
    ensures approved == Success(Response([
      BankSend("source", [Holding("fee", 100), Holding("stake", 500), Holding("random", 250)]),
      Cw20Transfer("bar_token", "source", 7890),
      Cw20Transfer("foo_token", "source", 888)]))
  {
    var c := FundMixed(api);
    offList := TopUpTokens(c, api);

    // The client is the creator "source", which is also the manager.
    var native := [Holding("fee", 100), Holding("stake", 500), Holding("random", 250)];
    var tokens := [Holding("bar_token", 7890), Holding("foo_token", 888)];
    var escrow := c.escrows["foobar"];
    assert escrow.client == "source";
    assert escrow.balance == GenericBalance(native, tokens);
    var payout := SendTokens("source", escrow.balance);
    var transfers := [Cw20Transfer("bar_token", "source", 7890), Cw20Transfer("foo_token", "source", 888)];
    assert TokenTransfers("source", tokens) == transfers;
    assert payout == [BankSend("source", native)] + transfers;
    assert ManagerValid(c.constants, api);
    approved := ExecuteApprove(c.escrows, c.constants, api, "source", "foobar");
    assert approved.value.messages == payout
        == [BankSend("source", native), Cw20Transfer("bar_token", "source", 7890), Cw20Transfer("foo_token", "source", 888)];
  }
}
