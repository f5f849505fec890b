/**
 * Outbound transfer instructions and `send_tokens`, which turns a balance
 * into the ordered list of instructions that pays all of it to one address.
 */
module Transfers {
  import opened BalanceMerge

  /** An instruction handed to the host: a bank send of native coins, or a
      call to a token contract to transfer an amount to a recipient. */
  datatype SubMsg =
    | BankSend(toAddress: string, coins: seq<Coin>)
    | Cw20Transfer(contractAddr: string, recipient: string, amount: nat)

  /** Who an instruction pays. */
  function Recipient(m: SubMsg): string
  {
    match m
    case BankSend(to, _) => to
    case Cw20Transfer(_, recipient, _) => recipient
  }

  /** One token transfer per token holding, in holding order. */
  function TokenTransfers(to: string, cw20: seq<Cw20CoinVerified>): (msgs: seq<SubMsg>)
    ensures |msgs| == |cw20|
    ensures forall j :: 0 <= j < |cw20| ==> msgs[j] == Cw20Transfer(cw20[j].key, to, cw20[j].amount)
  {
    seq(|cw20|, j requires 0 <= j < |cw20| => Cw20Transfer(cw20[j].key, to, cw20[j].amount))
  }

  /** `send_tokens`: one bank send carrying every native coin when there is
      any, then one transfer per token holding. */
  function SendTokens(to: string, balance: GenericBalance): (msgs: seq<SubMsg>)
    ensures |msgs| == (if balance.native == [] then 0 else 1) + |balance.cw20|
    ensures forall i :: 0 <= i < |msgs| ==> Recipient(msgs[i]) == to
    ensures forall i :: 0 <= i < |msgs| ==> (msgs[i].BankSend? <==> i == 0 && balance.native != [])
  {
    var bank := if balance.native == [] then [] else [BankSend(to, balance.native)];
    bank + TokenTransfers(to, balance.cw20)
  }

  /** The value a list of instructions moves, read back from the instructions:
      the coins of every bank send in order, and one holding per token
      transfer. */
  function Released(msgs: seq<SubMsg>): GenericBalance
    decreases |msgs|
  {
    if msgs == [] then GenericBalance([], [])
    else
      var before := Released(msgs[..|msgs| - 1]);
      match msgs[|msgs| - 1]
      case BankSend(_, coins) => before.(native := before.native + coins)
      case Cw20Transfer(contract, _, amount) => before.(cw20 := before.cw20 + [Holding(contract, amount)])
  }

  lemma {:induction false} ReleasedAppend(p: seq<SubMsg>, q: seq<SubMsg>)
    ensures Released(p + q)
         == GenericBalance(Released(p).native + Released(q).native, Released(p).cw20 + Released(q).cw20)
    decreases |q|
  {
    if q == [] {
      assert p + q == p;
    } else {
      var n := |q| - 1;
      assert (p + q)[..|p + q| - 1] == p + q[..n];
      assert (p + q)[|p + q| - 1] == q[n];
      ReleasedAppend(p, q[..n]);
    }
  }

  lemma {:induction false} ReleasedTokenTransfers(to: string, cw20: seq<Cw20CoinVerified>)
    ensures Released(TokenTransfers(to, cw20)) == GenericBalance([], cw20)
    decreases |cw20|
  {
    if cw20 != [] {
      var n := |cw20| - 1;
      var msgs := TokenTransfers(to, cw20);
      assert msgs[..n] == TokenTransfers(to, cw20[..n]);
      ReleasedTokenTransfers(to, cw20[..n]);
      assert cw20[..n] + [Holding(cw20[n].key, cw20[n].amount)] == cw20;
    }
  }

  /** `send_tokens` pays out exactly the balance: native coins in their order,
      then every token holding in balance order, nothing added or dropped. */
  lemma SendTokensReleasesBalance(to: string, balance: GenericBalance)
    ensures Released(SendTokens(to, balance)) == balance
  {
    var bank := if balance.native == [] then [] else [BankSend(to, balance.native)];
    ReleasedAppend(bank, TokenTransfers(to, balance.cw20));
    ReleasedTokenTransfers(to, balance.cw20);
    if balance.native != [] {
      assert [BankSend(to, balance.native)][..0] == [];
    }
  }
}
