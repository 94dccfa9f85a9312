/** The card company: one ledger, keyed by idempotency key. */
module CardCompany {
  import opened Ledgers

  datatype CardTx = CardTx(txId: nat, token: CardToken, amount: int, currency: Currency,
                           status: TxStatus, approval: Option<ApprovalNo>)

  /** tokens maps each issued card token to whether it is active. */
  datatype Card = Card(tokens: map<CardToken, bool>, txs: map<Key, CardTx>)

  /** The ledger and the answer after one approval request. */
  function Approval(c: Card, token: CardToken, amount: int, currency: Currency, key: Key, draw: Draw): (Card, Reply)
  {
    if key in c.txs then
      (c, Reply(c.txs[key].status, c.txs[key].txId, c.txs[key].approval))
    else if amount <= 0 || token !in c.tokens then
      (c, Raised)  // a missing token breaks the row's foreign key
    else if !c.tokens[token] then
      (c.(txs := c.txs[key := CardTx(draw.cardTx, token, amount, currency, Failed, None)]),
       Reply(Failed, draw.cardTx, None))
    else
      (c.(txs := c.txs[key := CardTx(draw.cardTx, token, amount, currency, Success, Some(Issued(draw.approval)))]),
       Reply(Success, draw.cardTx, Some(Issued(draw.approval))))
  }

  class CardService {
    var tokens: map<CardToken, bool>
    var txs: map<Key, CardTx>

    constructor ()
      ensures View() == Card(map[], map[])
    {
      tokens, txs := map[], map[];
    }

    function View(): Card
      reads this
    {
      Card(tokens, txs)
    }

    /** Inserts unless the key has a row, and answers with the stored one. */
    method CreateTransaction(key: Key, row: CardTx) returns (stored: CardTx)
      modifies this`txs
      ensures txs == (if key in old(txs) then old(txs) else old(txs)[key := row]) && stored == txs[key]
    {
      if key !in txs {
        txs := txs[key := row];
      }
      return txs[key];
    }

    method ApprovePayment(token: CardToken, amount: int, currency: Currency, key: Key, draw: Draw)
      returns (r: Reply)
      modifies this
      ensures (View(), r) == Approval(old(View()), token, amount, currency, key, draw)
    {
      if key in txs {
        return Reply(txs[key].status, txs[key].txId, txs[key].approval);
      }
      if amount <= 0 || token !in tokens {
        return Raised;
      }
      if !tokens[token] {
        var stored := CreateTransaction(key, CardTx(draw.cardTx, token, amount, currency, Failed, None));
        return Reply(Failed, draw.cardTx, None);
      }
      var approval := Issued(draw.approval);
      var stored := CreateTransaction(key, CardTx(draw.cardTx, token, amount, currency, Success, Some(approval)));
      return Reply(Success, draw.cardTx, Some(approval));
    }
  }
}
