/** Identifiers and small values shared by the four services.

    Row identifiers, lots, plates and cars are only ever compared, so they are
    numbers here. Currencies are ISO 4217 numeric
    codes. Times are whole seconds of one clock. */
module Ledgers {

  datatype Option<+T> = None | Some(value: T)

  type Time = int
  type LotId = nat
  type Plate = nat
  type CarId = nat
  type PmsId = nat
  type SessionId = nat
  type BillingKey = nat
  type CardToken = nat
  type Currency = nat

  const KRW: Currency := 410

  /** A place in a lot: the PMS cache and both pre-registration stores use it as their key. */
  datatype Slot = Slot(lot: LotId, plate: Plate)

  /** A session id as a client spells it. Python's UUID parser accepts several
      spellings of one id; the Redis key and the idempotency key use the spelling,
      the database uses the parsed id. Spelling 0 is the canonical one. */
  datatype SessionRef = SessionRef(id: SessionId, spelling: nat)

  /** The idempotency key. It is the SHA-256 digest of the four fields; SHA-256 is
      taken as injective and module IdempotencyKey proves the hashed text injective. */
  datatype Key = Key(ref: SessionRef, car: CarId, amount: int, currency: Currency)

  /** uuid4() for card payments, uuid5(key) for free ones; the version bits keep them apart. */
  datatype TxId = Uuid4(draw: nat) | Uuid5(key: Key)

  datatype ApprovalNo = FREE | Issued(draw: nat)

  datatype TxStatus = Pending | Success | Failed

  /** What becomes of one remote call. */
  datatype Delivery = NotDelivered | ResponseLost | Received

  /** The answer of a payment service: an exception, or a status with its approval number. */
  datatype Reply = Raised | Reply(status: TxStatus, txId: nat, approval: Option<ApprovalNo>)

  /** The random identifiers one payment draws. */
  datatype Draw = Draw(tx: nat, pgTx: nat, cardTx: nat, approval: nat)

  /** What happens to the three remote calls one payment may make. */
  datatype Links = Links(pg: Delivery, card: Delivery, pms: Delivery)

  /** The caller's view of a call whose callee answered r. */
  function Heard(r: Reply, link: Delivery): Reply {
    if link.Received? then r else Raised
  }
}
