/** The payment gateway (PG): billing keys and a ledger keyed by idempotency key. */
module PaymentGateway {
  import opened Ledgers
  import opened CardCompany

  datatype PgKey = PgKey(orderId: nat, token: CardToken, lastFour: nat, active: bool)

  datatype PgTx = PgTx(txId: nat, billingKey: BillingKey, token: CardToken, amount: int, currency: Currency,
                       status: TxStatus, approval: Option<ApprovalNo>, cardTxId: Option<nat>)

  datatype Pg = Pg(keys: map<BillingKey, PgKey>, txs: map<Key, PgTx>)

  /** What the PG writes over its pending row once it has heard (or not heard) from the card company. */
  function Settled(row: PgTx, heard: Reply): PgTx {
    match heard
    case Raised => row.(status := Failed, approval := None, cardTxId := None)
    case Reply(Success, txId, Some(approval)) => row.(status := Success, approval := Some(approval), cardTxId := Some(txId))
    case Reply(Success, _, None) => row.(status := Failed, approval := None, cardTxId := None)
    case Reply(_, txId, _) => row.(status := Failed, approval := None, cardTxId := Some(txId))
  }

  /** Both ledgers and the PG's answer after one charge request reached the PG. */
  function Charge(g: Pg, c: Card, billingKey: BillingKey, key: Key, draw: Draw, link: Delivery): (Pg, Card, Reply)
  {
    if key in g.txs then
      (g, c, Reply(g.txs[key].status, g.txs[key].txId, g.txs[key].approval))
    else if billingKey !in g.keys then
      (g, c, Reply(Failed, draw.pgTx, None))
    else if key.amount <= 0 then
      (g, c, Raised)  // the ledger's check constraint amount > 0
    else
      var bk := g.keys[billingKey];
      var row := PgTx(draw.pgTx, billingKey, bk.token, key.amount, key.currency, Pending, None, None);
      if !bk.active then
        (g.(txs := g.txs[key := row.(status := Failed)]), c, Reply(Failed, draw.pgTx, None))
      else
        var called := if link.NotDelivered? then (c, Raised) else Approval(c, bk.token, key.amount, key.currency, key, draw);
        var done := Settled(row, Heard(called.1, link));
        (g.(txs := g.txs[key := done]), called.0, Reply(done.status, draw.pgTx, done.approval))
  }

  /** How the backend's HTTP client reads the PG's answer: only "failed" is a decline; any other
      answer must carry an approval number, else reading it raises. */
  datatype PgResult = ClientRaised | Declined | Approved(pgTxId: nat, approval: ApprovalNo)

  function Understood(r: Reply): PgResult {
    match r
    case Raised => ClientRaised
    case Reply(Failed, _, _) => Declined
    case Reply(_, txId, Some(approval)) => Approved(txId, approval)
    case Reply(_, _, None) => ClientRaised
  }

  class PgService {
    var keys: map<BillingKey, PgKey>
    var txs: map<Key, PgTx>
    const card: CardService

    constructor (card: CardService)
      ensures View() == Pg(map[], map[]) && this.card == card
    {
      this.card := card;
      keys, txs := map[], map[];
    }

    function View(): Pg
      reads this
    {
      Pg(keys, txs)
    }

    /** Inserts unless the key has a row, and answers with the stored one. */
    method CreateTransaction(key: Key, row: PgTx) returns (stored: PgTx)
      modifies this`txs
      ensures txs == (if key in old(txs) then old(txs) else old(txs)[key := row]) && stored == txs[key]
    {
      if key !in txs {
        txs := txs[key := row];
      }
      return txs[key];
    }

    method UpdateTransactionStatus(key: Key, status: TxStatus, approval: Option<ApprovalNo>, cardTxId: Option<nat>) returns (found: bool)
      modifies this`txs
      ensures found <==> key in old(txs)
      ensures txs == if found then old(txs)[key := old(txs)[key].(status := status, approval := approval, cardTxId := cardTxId)] else old(txs)
    {
      if key !in txs {
        return false;
      }
      txs := txs[key := txs[key].(status := status, approval := approval, cardTxId := cardTxId)];
      return true;
    }

    method ChargeBillingKey(billingKey: BillingKey, key: Key, draw: Draw, link: Delivery) returns (r: Reply)
      modifies this, card
      ensures (View(), card.View(), r) == Charge(old(View()), old(card.View()), billingKey, key, draw, link)
    {
      if key in txs {
        return Reply(txs[key].status, txs[key].txId, txs[key].approval);
      }
      if billingKey !in keys {
        return Reply(Failed, draw.pgTx, None);
      }
      if key.amount <= 0 {
        return Raised;
      }
      var bk := keys[billingKey];
      var row := PgTx(draw.pgTx, billingKey, bk.token, key.amount, key.currency, Pending, None, None);
      if !bk.active {
        var stored := CreateTransaction(key, row.(status := Failed));
        return Reply(Failed, draw.pgTx, None);
      }
      var stored := CreateTransaction(key, row);
      var answer := Raised;
      if !link.NotDelivered? {
        answer := card.ApprovePayment(bk.token, key.amount, key.currency, key, draw);
      }
      match Heard(answer, link) {
        case Raised =>
          var updated := UpdateTransactionStatus(key, Failed, None, None);
        case Reply(status, txId, approval) =>
          if status != Success {
            var updated := UpdateTransactionStatus(key, Failed, None, Some(txId));
          } else if approval.None? {
            var updated := UpdateTransactionStatus(key, Failed, None, None);  // reading the approval number raised
          } else {
            var updated := UpdateTransactionStatus(key, Success, approval, Some(txId));
          }
      }
      assert txs == old(txs)[key := txs[key]];
      return Reply(txs[key].status, draw.pgTx, txs[key].approval);
    }
  }
}
