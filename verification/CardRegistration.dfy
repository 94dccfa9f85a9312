/** Card registration across the backend (orders, vehicle keys), the PG (billing keys) and the card company (card tokens). */
module CardRegistration {
  import opened Ledgers
  import opened CardCompany
  import opened PaymentGateway

  type OrderId = nat

  const CARD_ORDER_TTL_SECONDS: nat := 1800

  /** A card as the card company stores it: the PG passes the order id as the user id. */
  datatype CardRef = CardRef(user: OrderId, number: nat)

  /** At the card company: the token of each stored card, and whether each token is active. */
  datatype Vault = Vault(cards: map<CardRef, CardToken>, tokens: map<CardToken, bool>)

  datatype Order = Order(car: CarId, complete: bool, expiresAt: Time)
  datatype VehicleKey = VehicleKey(billingKey: BillingKey, lastFour: nat)

  /** At the backend: known vehicles, card orders in Redis, and the current billing key of each vehicle. */
  datatype Desk = Desk(vehicles: set<CarId>, orders: map<OrderId, Order>, keys: map<CarId, VehicleKey>)

  /** The registration webhook the PG signs and sends. */
  datatype Hook = Hook(order: OrderId, billingKey: BillingKey, lastFour: nat)

  datatype Answer = Failure | Registered(billingKey: BillingKey) | ServerError

  function LastFour(number: nat): nat {
    number % 10000
  }

  // ----- what each service does

  /** The card company's answer to one tokenize request; None when the card is invalid. */
  function Tokenized(v: Vault, ref: CardRef, valid: bool, drawn: CardToken): (Vault, Option<CardToken>) {
    if !valid then (v, None)
    else if ref in v.cards then (v, Some(v.cards[ref]))
    else (Vault(v.cards[ref := drawn], v.tokens[drawn := true]), Some(drawn))
  }

  /** The vehicle table admits a billing key once. */
  predicate TakenByAnother(keys: map<CarId, VehicleKey>, car: CarId, billingKey: BillingKey) {
    exists c :: c in keys && c != car && keys[c].billingKey == billingKey
  }

  /** The backend after one signed webhook, and whether it answered ok. */
  function HookHandled(d: Desk, h: Hook): (Desk, bool) {
    if h.lastFour >= 10000 || h.order !in d.orders then (d, false)
    else
      var order := d.orders[h.order];
      if order.complete then (d, true)
      else if order.car !in d.vehicles || TakenByAnother(d.keys, order.car, h.billingKey) then (d, false)
      else (Desk(d.vehicles, d.orders[h.order := order.(complete := true)], d.keys[order.car := VehicleKey(h.billingKey, h.lastFour)]), true)
  }

  /** The PG's answer to "is there a key for this order". */
  predicate KeyOfOrder(keys: map<BillingKey, PgKey>, order: OrderId, found: Option<BillingKey>) {
    match found
    case None => forall b | b in keys :: keys[b].orderId != order
    case Some(b) => b in keys && keys[b].orderId == order
  }

  /** save_billing_key inserts only if the order has no key yet; found is that second look. */
  function KeySaved(keys: map<BillingKey, PgKey>, billingKey: BillingKey, row: PgKey, found: Option<BillingKey>): map<BillingKey, PgKey> {
    if found.Some? then keys else keys[billingKey := row]
  }

  // ----- the three together

  /** owners remembers which vehicle each order was made for, sent every webhook the PG ever sent. */
  datatype Registry = Registry(now: Time, vault: Vault, keys: map<BillingKey, PgKey>, desk: Desk,
                               owners: map<OrderId, CarId>, sent: set<Hook>)

  function Sent(r: Registry, h: Hook, link: Delivery): Registry {
    r.(sent := r.sent + {h}, desk := if link.NotDelivered? then r.desk else HookHandled(r.desk, h).0)
  }

  function SendRaises(r: Registry, h: Hook, link: Delivery): bool {
    !link.Received? || !HookHandled(r.desk, h).1
  }

  /** One form submission at the PG, handled to its end. */
  function Submitted(r: Registry, ref: CardRef, valid: bool, found: Option<BillingKey>, card: Delivery, hook: Delivery,
                     token: CardToken, billingKey: BillingKey): (Registry, Answer)
    requires found.Some? ==> found.value in r.keys
  {
    match found
    case Some(existing) =>
      var h := Hook(ref.user, existing, r.keys[existing].lastFour);
      (Sent(r, h, hook), if SendRaises(r, h, hook) then ServerError else Registered(existing))
    case None => Continued(r, ref, valid, None, card, hook, token, billingKey)
  }

  /** The rest of a submission that found no key at its first look; again is what the second look inside save_billing_key finds. */
  function Continued(r: Registry, ref: CardRef, valid: bool, again: Option<BillingKey>, card: Delivery, hook: Delivery,
                     token: CardToken, billingKey: BillingKey): (Registry, Answer)
  {
    var (vault, answer) := if card.NotDelivered? then (r.vault, None) else Tokenized(r.vault, ref, valid, token);
    if answer.None? || !card.Received? then (r.(vault := vault), Failure)
    else
      var row := PgKey(ref.user, answer.value, LastFour(ref.number), true);
      var saved := r.(vault := vault, keys := KeySaved(r.keys, billingKey, row, again));
      (Sent(saved, Hook(ref.user, billingKey, row.lastFour), hook), Registered(billingKey))
  }

  datatype Event =
    | AddVehicle(car: CarId)
    | OpenOrder(order: OrderId, owner: CarId)
    | Submit(ref: CardRef, valid: bool, found: Option<BillingKey>, card: Delivery, hook: Delivery, token: CardToken, billingKey: BillingKey)
    | Redeliver(again: Hook)   // a webhook sent earlier arrives, late or once more
    | Wait(seconds: nat)       // and the orders whose time is up are gone

  /** Order ids, card tokens and billing keys are drawn fresh. */
  predicate Possible(r: Registry, e: Event) {
    match e
    case AddVehicle(_) => true
    case OpenOrder(order, owner) => order !in r.owners && owner in r.desk.vehicles
    case Submit(ref, _, found, _, _, token, billingKey) =>
      KeyOfOrder(r.keys, ref.user, found) && token !in r.vault.tokens && billingKey !in r.keys
    case Redeliver(h) => h in r.sent
    case Wait(_) => true
  }

  function Next(r: Registry, e: Event): Registry
    requires Possible(r, e)
  {
    match e
    case AddVehicle(car) => r.(desk := r.desk.(vehicles := r.desk.vehicles + {car}))
    case OpenOrder(order, owner) =>
      r.(desk := r.desk.(orders := r.desk.orders[order := Order(owner, false, r.now + CARD_ORDER_TTL_SECONDS)]), owners := r.owners[order := owner])
    case Submit(ref, valid, found, card, hook, token, billingKey) => Submitted(r, ref, valid, found, card, hook, token, billingKey).0
    case Redeliver(h) => Sent(r, h, Received)
    case Wait(seconds) =>
      var now := r.now + seconds;
      r.(now := now, desk := r.desk.(orders := map o | o in r.desk.orders && r.desk.orders[o].expiresAt > now :: r.desk.orders[o]))
  }

  const Start: Registry := Registry(0, Vault(map[], map[]), map[], Desk({}, map[], map[]), map[], {})

  ghost predicate PossibleRun(events: seq<Event>)
    decreases |events|, 0
  {
    |events| > 0 ==> PossibleRun(events[..|events| - 1]) && Possible(Run(events[..|events| - 1]), events[|events| - 1])
  }

  ghost function Run(events: seq<Event>): Registry
    requires PossibleRun(events)
    decreases |events|, 1
  {
    if events == [] then Start else Next(Run(events[..|events| - 1]), events[|events| - 1])
  }

  ghost predicate Reached(r: Registry) {
    exists events :: PossibleRun(events) && r == Run(events)
  }

  // ----- what every step keeps

  /** A key stands for a card stored under its order: its token is that card's, its last four that card's. */
  ghost predicate StandsFor(v: Vault, k: PgKey, number: nat) {
    && CardRef(k.orderId, number) in v.cards && v.cards[CardRef(k.orderId, number)] == k.token
    && k.lastFour == LastFour(number)
  }

  ghost predicate VaultOk(v: Vault) {
    && (forall ref | ref in v.cards :: v.cards[ref] in v.tokens)
    && (forall t | t in v.tokens :: v.tokens[t])
    && (forall a, b | a in v.cards && b in v.cards && v.cards[a] == v.cards[b] :: a == b)
  }

  ghost predicate KeyOk(v: Vault, k: PgKey) {
    k.active && k.token in v.tokens && exists number :: StandsFor(v, k, number)
  }

  ghost predicate KeysOk(v: Vault, keys: map<BillingKey, PgKey>) {
    && (forall b | b in keys :: KeyOk(v, keys[b]))
    && (forall a, b | a in keys && b in keys && keys[a].orderId == keys[b].orderId :: a == b)
  }

  ghost predicate SentOk(keys: map<BillingKey, PgKey>, h: Hook) {
    h.billingKey in keys && keys[h.billingKey].orderId == h.order && keys[h.billingKey].lastFour == h.lastFour
  }

  ghost predicate DeskOk(keys: map<BillingKey, PgKey>, d: Desk, owners: map<OrderId, CarId>) {
    && (forall o | o in d.orders :: o in owners && owners[o] == d.orders[o].car && d.orders[o].car in d.vehicles)
    && (forall c | c in d.keys :: VehicleKeyOk(keys, owners, c, d.keys[c]))
  }

  /** The key exists at the PG with the same last four, for an order that was made for this vehicle. */
  ghost predicate VehicleKeyOk(keys: map<BillingKey, PgKey>, owners: map<OrderId, CarId>, car: CarId, k: VehicleKey) {
    && k.billingKey in keys && keys[k.billingKey].lastFour == k.lastFour
    && keys[k.billingKey].orderId in owners && owners[keys[k.billingKey].orderId] == car
  }

  ghost predicate RegistryOk(r: Registry) {
    && VaultOk(r.vault) && KeysOk(r.vault, r.keys) && (forall h | h in r.sent :: SentOk(r.keys, h)) && DeskOk(r.keys, r.desk, r.owners)
  }

  lemma SentKeeps(r: Registry, h: Hook, link: Delivery)
    requires RegistryOk(r) && SentOk(r.keys, h)
    ensures RegistryOk(Sent(r, h, link))
  {
    HandledKeeps(r.keys, r.desk, r.owners, h);
  }

  lemma HandledKeeps(keys: map<BillingKey, PgKey>, d: Desk, owners: map<OrderId, CarId>, h: Hook)
    requires DeskOk(keys, d, owners) && SentOk(keys, h)
    ensures DeskOk(keys, HookHandled(d, h).0, owners)
  {
  }

  lemma TokenizedKeeps(v: Vault, ref: CardRef, valid: bool, token: CardToken)
    requires VaultOk(v) && token !in v.tokens
    ensures VaultOk(Tokenized(v, ref, valid, token).0)
    ensures var (v', t) := Tokenized(v, ref, valid, token);
            && (forall x | x in v.tokens :: x in v'.tokens) && (forall x | x in v.cards :: x in v'.cards && v'.cards[x] == v.cards[x])
            && (t.Some? ==> ref in v'.cards && v'.cards[ref] == t.value && t.value in v'.tokens)
  {
  }

  lemma VaultGrows(v: Vault, v': Vault, keys: map<BillingKey, PgKey>)
    requires KeysOk(v, keys) && VaultOk(v')
    requires (forall x | x in v.tokens :: x in v'.tokens) && (forall x | x in v.cards :: x in v'.cards && v'.cards[x] == v.cards[x])
    ensures KeysOk(v', keys)
  {
    forall b | b in keys ensures KeyOk(v', keys[b]) {
      assert KeyOk(v, keys[b]);
      var number :| StandsFor(v, keys[b], number);
      assert StandsFor(v', keys[b], number);
    }
  }

  lemma KeyAdded(v: Vault, keys: map<BillingKey, PgKey>, billingKey: BillingKey, ref: CardRef)
    requires KeysOk(v, keys) && VaultOk(v) && ref in v.cards && billingKey !in keys && KeyOfOrder(keys, ref.user, None)
    ensures KeysOk(v, keys[billingKey := PgKey(ref.user, v.cards[ref], LastFour(ref.number), true)])
  {
    assert StandsFor(v, PgKey(ref.user, v.cards[ref], LastFour(ref.number), true), ref.number);
  }

  lemma SavedKeeps(r: Registry, billingKey: BillingKey, ref: CardRef)
    requires RegistryOk(r) && ref in r.vault.cards && billingKey !in r.keys && KeyOfOrder(r.keys, ref.user, None)
    ensures RegistryOk(r.(keys := r.keys[billingKey := PgKey(ref.user, r.vault.cards[ref], LastFour(ref.number), true)]))
  {
    var row := PgKey(ref.user, r.vault.cards[ref], LastFour(ref.number), true);
    KeyAdded(r.vault, r.keys, billingKey, ref);
    forall h | h in r.sent ensures SentOk(r.keys[billingKey := row], h) {
      assert SentOk(r.keys, h);
    }
    forall c | c in r.desk.keys ensures VehicleKeyOk(r.keys[billingKey := row], r.owners, c, r.desk.keys[c]) {
      assert VehicleKeyOk(r.keys, r.owners, c, r.desk.keys[c]);
    }
  }

  lemma SubmitKeeps(r: Registry, e: Event)
    requires RegistryOk(r) && Possible(r, e) && e.Submit?
    ensures RegistryOk(Next(r, e))
  {
    var ref := e.ref;
    match e.found
    case Some(existing) => SentKeeps(r, Hook(ref.user, existing, r.keys[existing].lastFour), e.hook);
    case None => ContinuedKeeps(r, ref, e.valid, e.card, e.hook, e.token, e.billingKey);
  }

  lemma StepKeeps(r: Registry, e: Event)
    requires RegistryOk(r) && Possible(r, e)
    ensures RegistryOk(Next(r, e))
  {
    match e
    case Submit(_, _, _, _, _, _, _) => SubmitKeeps(r, e);
    case Redeliver(h) => SentKeeps(r, h, Received);
    case OpenOrder(order, owner) =>
      forall c | c in r.desk.keys ensures VehicleKeyOk(r.keys, r.owners[order := owner], c, r.desk.keys[c]) {
        assert VehicleKeyOk(r.keys, r.owners, c, r.desk.keys[c]);
      }
    case _ =>
  }

  lemma {:induction false} RunKeeps(events: seq<Event>)
    requires PossibleRun(events)
    ensures RegistryOk(Run(events))
    decreases |events|
  {
    if events != [] {
      RunKeeps(events[..|events| - 1]);
      StepKeeps(Run(events[..|events| - 1]), events[|events| - 1]);
    }
  }

  lemma ReachedOk(r: Registry)
    requires Reached(r)
    ensures RegistryOk(r)
  {
    var events :| PossibleRun(events) && r == Run(events);
    RunKeeps(events);
  }

  // ----- what follows, in every run of lost, replayed, late and expired webhooks

  /** A vehicle's billing key is an active key of the PG with the same last four, made for an order of that vehicle, and
      stands for an active token of the card that order registered. */
  lemma BillingKeyIntegrity(r: Registry, car: CarId)
    requires Reached(r) && car in r.desk.keys
    ensures var k := r.desk.keys[car];
            && k.billingKey in r.keys && r.keys[k.billingKey].active && r.keys[k.billingKey].lastFour == k.lastFour
            && r.keys[k.billingKey].token in r.vault.tokens && r.vault.tokens[r.keys[k.billingKey].token]
            && r.keys[k.billingKey].orderId in r.owners && r.owners[r.keys[k.billingKey].orderId] == car
            && exists number: nat :: StandsFor(r.vault, r.keys[k.billingKey], number) && k.lastFour == number % 10000
  {
    ReachedOk(r);
    var k := r.desk.keys[car];
    assert VehicleKeyOk(r.keys, r.owners, car, k);
    assert KeyOk(r.vault, r.keys[k.billingKey]);
    var number :| StandsFor(r.vault, r.keys[k.billingKey], number);
  }

  // ----- only checked cards

  /** The cards the card company found valid, over a run: those of submissions that reached it. */
  function Checked(events: seq<Event>): set<CardRef> {
    if events == [] then {}
    else
      var e := events[|events| - 1];
      Checked(events[..|events| - 1]) + if e.Submit? && e.valid && e.found.None? && !e.card.NotDelivered? then {e.ref} else {}
  }

  lemma StepStores(r: Registry, e: Event)
    requires Possible(r, e)
    ensures Next(r, e).vault.cards.Keys
            == r.vault.cards.Keys + if e.Submit? && e.valid && e.found.None? && !e.card.NotDelivered? then {e.ref} else {}
  {
  }

  /** The stored cards are exactly the valid ones. */
  lemma {:induction false} StoredAreChecked(events: seq<Event>)
    requires PossibleRun(events)
    ensures Run(events).vault.cards.Keys == Checked(events)
    decreases |events|
  {
    if events != [] {
      StoredAreChecked(events[..|events| - 1]);
      StepStores(Run(events[..|events| - 1]), events[|events| - 1]);
    }
  }

  /** So every vehicle's key stands for a card that was found valid, with the last four digits of its number. */
  lemma VehicleCardsAreChecked(events: seq<Event>, car: CarId) returns (card: CardRef)
    requires PossibleRun(events) && car in Run(events).desk.keys
    ensures card in Checked(events) && Run(events).desk.keys[car].lastFour == card.number % 10000
    ensures var r := Run(events); var b := r.desk.keys[car].billingKey;
            b in r.keys && r.keys[b].orderId == card.user && card in r.vault.cards && r.vault.cards[card] == r.keys[b].token
  {
    var r := Run(events);
    assert Reached(r);
    BillingKeyIntegrity(r, car);
    StoredAreChecked(events);
    var k := r.keys[r.desk.keys[car].billingKey];
    var number: nat :| StandsFor(r.vault, k, number) && r.desk.keys[car].lastFour == number % 10000;
    card := CardRef(k.orderId, number);
  }

  /** An invalid card changes nothing anywhere and is answered with failure. */
  lemma InvalidCardIsRefused(r: Registry, ref: CardRef, card: Delivery, hook: Delivery, token: CardToken, billingKey: BillingKey)
    ensures Submitted(r, ref, false, None, card, hook, token, billingKey) == (r, Failure)
  {
  }

  /** What a submission is answered: for an order without a key, its new key exactly if the card is valid and the card company was
      heard, else failure; for an order with a key, that key exactly if the backend still holds the order and was heard. */
  lemma AnswerExactly(r: Registry, e: Event)
    requires Reached(r) && Possible(r, e) && e.Submit?
    ensures var answer := Submitted(r, e.ref, e.valid, e.found, e.card, e.hook, e.token, e.billingKey).1;
            && (e.found.None? ==> answer == if e.valid && e.card.Received? then Registered(e.billingKey) else Failure)
            && (e.found.Some? ==> answer == if e.hook.Received? && e.ref.user in r.desk.orders then Registered(e.found.value) else ServerError)
  {
    if e.found.Some? {
      var h := Hook(e.ref.user, e.found.value, r.keys[e.found.value].lastFour);
      ReachedOk(r);
      HookOfKey(r, h);
    }
  }

  /** A webhook with the data of a saved key, sent before or not. */
  lemma HookOfKey(r: Registry, h: Hook)
    requires RegistryOk(r) && SentOk(r.keys, h)
    ensures HookHandled(r.desk, h).1 <==> h.order in r.desk.orders
  {
    assert KeyOk(r.vault, r.keys[h.billingKey]);
    if h.order in r.desk.orders {
      forall c | c in r.desk.keys && c != r.desk.orders[h.order].car ensures r.desk.keys[c].billingKey != h.billingKey {
        assert VehicleKeyOk(r.keys, r.owners, c, r.desk.keys[c]);
      }
    }
  }

  /** What a new key's submission leaves: the PG's row for the order, with the card's token and last four, and, if the webhook arrives
      while the order is pending, the vehicle's key. */
  lemma NewKeyStored(r: Registry, e: Event)
    requires Reached(r) && Possible(r, e) && e.Submit? && e.found.None? && e.valid && e.card.Received?
    ensures var r' := Next(r, e);
            && e.ref in r'.vault.cards && r'.vault.cards[e.ref] in r'.vault.tokens && r'.vault.tokens[r'.vault.cards[e.ref]]
            && r'.keys == r.keys[e.billingKey := PgKey(e.ref.user, r'.vault.cards[e.ref], e.ref.number % 10000, true)]
            && r'.sent == r.sent + {Hook(e.ref.user, e.billingKey, e.ref.number % 10000)}
    ensures e.ref.user in r.desk.orders && !r.desk.orders[e.ref.user].complete && !e.hook.NotDelivered? ==>
              var (d, car) := (Next(r, e).desk, r.desk.orders[e.ref.user].car);
              d.keys == r.desk.keys[car := VehicleKey(e.billingKey, e.ref.number % 10000)] && e.ref.user in d.orders && d.orders[e.ref.user].complete
    ensures e.ref.user !in r.desk.orders || r.desk.orders[e.ref.user].complete || e.hook.NotDelivered? ==> Next(r, e).desk == r.desk
  {
    ReachedOk(r);
    StepKeeps(r, e);
    if e.ref.user in r.desk.orders {
      forall c | c in r.desk.keys ensures r.desk.keys[c].billingKey != e.billingKey {
        assert VehicleKeyOk(r.keys, r.owners, c, r.desk.keys[c]);
      }
    }
  }

  /** An order is held for thirty minutes, to the second. */
  lemma OrderLivesExactly(r: Registry, order: OrderId, owner: CarId, seconds: nat)
    requires Possible(r, OpenOrder(order, owner))
    ensures order in Next(Next(r, OpenOrder(order, owner)), Wait(seconds)).desk.orders <==> seconds < 1800
  {
  }

  /** No two vehicles share a billing key, so the unique constraint is never violated by a webhook. */
  lemma VehiclesDoNotShareKeys(r: Registry, a: CarId, b: CarId)
    requires Reached(r) && a in r.desk.keys && b in r.desk.keys && r.desk.keys[a].billingKey == r.desk.keys[b].billingKey
    ensures a == b
  {
    ReachedOk(r);
    assert VehicleKeyOk(r.keys, r.owners, a, r.desk.keys[a]) && VehicleKeyOk(r.keys, r.owners, b, r.desk.keys[b]);
  }

  /** A sent webhook is refused exactly when its order has expired or was never made here: the form of the last four, the
      vehicle and the unique billing key never stand in its way. */
  lemma RefusedExactly(r: Registry, h: Hook)
    requires Reached(r) && h in r.sent
    ensures HookHandled(r.desk, h).1 <==> h.order in r.desk.orders
  {
    ReachedOk(r);
    HookOfKey(r, h);
  }

  /** The first card that gets a key for an order keeps it: whatever is submitted or delivered later, the order's key, its
      token and its last four stay, and every later submission of the order answers with that key. */
  lemma FirstCardWins(r: Registry, e: Event, billingKey: BillingKey)
    requires Reached(r) && Possible(r, e) && billingKey in r.keys
    ensures billingKey in Next(r, e).keys && Next(r, e).keys[billingKey] == r.keys[billingKey]
    ensures e.Submit? && e.ref.user == r.keys[billingKey].orderId ==>
              && Next(r, e).keys == r.keys && Next(r, e).vault == r.vault
              && Submitted(r, e.ref, e.valid, e.found, e.card, e.hook, e.token, e.billingKey).1 in {ServerError, Registered(billingKey)}
  {
    ReachedOk(r);
  }

  /** Whether any webhook is accepted, sent by the PG or not, and what it changes: only one with four digits, for a pending order of a
      known vehicle, with a key no other vehicle holds, writes; it sets the vehicle's key and completes the order. */
  lemma HookExactly(d: Desk, h: Hook)
    ensures var (d', ok) := HookHandled(d, h);
            && (ok <==> h.lastFour < 10000 && h.order in d.orders
                        && (d.orders[h.order].complete
                            || (d.orders[h.order].car in d.vehicles
                                && forall c | c in d.keys && c != d.orders[h.order].car :: d.keys[c].billingKey != h.billingKey)))
            && (!ok || d.orders[h.order].complete ==> d' == d)
            && (ok && !d.orders[h.order].complete ==>
                  && d'.vehicles == d.vehicles && d'.keys == d.keys[d.orders[h.order].car := VehicleKey(h.billingKey, h.lastFour)]
                  && d'.orders == d.orders[h.order := Order(d.orders[h.order].car, true, d.orders[h.order].expiresAt)])
  {
  }

  /** Once a webhook was accepted, any webhook of its order changes nothing at the backend, also one with another key. */
  lemma ReplayIsNoop(d: Desk, h: Hook, again: Hook)
    requires HookHandled(d, h).1 && again.order == h.order && again.lastFour < 10000
    ensures var d' := HookHandled(d, h).0; HookHandled(d', again) == (d', true)
  {
  }

  /** A registered vehicle's key can be charged: the PG and the card company have what a charge of it needs. */
  lemma RegisteredKeyCharges(r: Registry, car: CarId, pg: Pg, card: Card, key: Key, draw: Draw)
    requires Reached(r) && car in r.desk.keys && pg.keys == r.keys && card.tokens == r.vault.tokens
    requires key !in pg.txs && key !in card.txs && key.amount > 0
    ensures var (pg', card', reply) := Charge(pg, card, r.desk.keys[car].billingKey, key, draw, Received);
            && reply.Reply? && reply.status == Success
            && key in card'.txs && card'.txs[key].status == Success && card'.txs[key].token == r.keys[r.desk.keys[car].billingKey].token
            && key in pg'.txs && pg'.txs[key].status == Success && pg'.txs[key].approval == card'.txs[key].approval == reply.approval
  {
    BillingKeyIntegrity(r, car);
  }

  // ----- two submissions of one order at once

  /** A submission that found no key at its first look goes on in whatever state others have left. The registry stays sound if
      and only if it fails or its second look finds none either; and the backend's keys stay sound if and only if that is so, or
      its webhook is lost, or the order is no longer pending. */
  lemma UnsavedKeyExactly(r: Registry, ref: CardRef, valid: bool, again: Option<BillingKey>, card: Delivery, hook: Delivery,
                          token: CardToken, billingKey: BillingKey)
    requires RegistryOk(r) && KeyOfOrder(r.keys, ref.user, again) && token !in r.vault.tokens && billingKey !in r.keys
    ensures var (r', answer) := Continued(r, ref, valid, again, card, hook, token, billingKey);
            && (RegistryOk(r') <==> !answer.Registered? || again.None?)
            && (DeskOk(r'.keys, r'.desk, r'.owners) <==>
                  !answer.Registered? || again.None? || hook.NotDelivered? || ref.user !in r.desk.orders || r.desk.orders[ref.user].complete)
  {
    var (r', answer) := Continued(r, ref, valid, again, card, hook, token, billingKey);
    if answer.Registered? && again.Some? {
      var vault := Tokenized(r.vault, ref, valid, token).0;
      UnsavedHook(r.(vault := vault), Hook(ref.user, billingKey, LastFour(ref.number)), hook);
    } else {
      ContinuedKeeps(r, ref, valid, card, hook, token, billingKey);
    }
  }

  lemma ContinuedKeeps(r: Registry, ref: CardRef, valid: bool, card: Delivery, hook: Delivery, token: CardToken, billingKey: BillingKey)
    requires RegistryOk(r) && token !in r.vault.tokens && billingKey !in r.keys
    ensures var (r', answer) := Continued(r, ref, valid, None, card, hook, token, billingKey);
            KeyOfOrder(r.keys, ref.user, None) || !answer.Registered? ==> RegistryOk(r')
  {
    var (vault, answer) := if card.NotDelivered? then (r.vault, None) else Tokenized(r.vault, ref, valid, token);
    TokenizedKeeps(r.vault, ref, valid, token);
    VaultGrows(r.vault, vault, r.keys);
    if answer.Some? && card.Received? && KeyOfOrder(r.keys, ref.user, None) {
      var row := PgKey(ref.user, answer.value, LastFour(ref.number), true);
      SavedKeeps(r.(vault := vault), billingKey, ref);
      SentKeeps(r.(vault := vault, keys := r.keys[billingKey := row]), Hook(ref.user, billingKey, row.lastFour), hook);
    }
  }

  /** A webhook that names a key nobody saved. */
  lemma UnsavedHook(r: Registry, h: Hook, link: Delivery)
    requires DeskOk(r.keys, r.desk, r.owners) && h.billingKey !in r.keys && h.lastFour < 10000
    ensures var d := Sent(r, h, link).desk; var pending := h.order in r.desk.orders && !r.desk.orders[h.order].complete;
            && h in Sent(r, h, link).sent && !SentOk(r.keys, h)
            && (DeskOk(r.keys, d, r.owners) <==> link.NotDelivered? || !pending)
            && (!link.NotDelivered? && pending ==> var car := r.desk.orders[h.order].car; car in d.keys && d.keys[car] == VehicleKey(h.billingKey, h.lastFour))
  {
    if !link.NotDelivered? && h.order in r.desk.orders && !r.desk.orders[h.order].complete {
      var car := r.desk.orders[h.order].car;
      forall c | c in r.desk.keys ensures r.desk.keys[c].billingKey != h.billingKey {
        assert VehicleKeyOk(r.keys, r.owners, c, r.desk.keys[c]);
      }
      assert car in HookHandled(r.desk, h).0.keys && !VehicleKeyOk(r.keys, r.owners, car, HookHandled(r.desk, h).0.keys[car]);
    }
  }

  /** In that case the vehicle is left with a key the PG does not know: every charge of it fails, and no later webhook of the
      order changes it while the order is held. */
  lemma UnsavedKeyNeverCharges(r: Registry, ref: CardRef, again: BillingKey, hook: Delivery, token: CardToken, billingKey: BillingKey,
                               pg: Pg, card: Card, key: Key, draw: Draw, link: Delivery, later: Hook)
    requires RegistryOk(r) && KeyOfOrder(r.keys, ref.user, Some(again)) && token !in r.vault.tokens && billingKey !in r.keys
    requires ref.user in r.desk.orders && !r.desk.orders[ref.user].complete && !hook.NotDelivered?
    requires later.order == ref.user && later.lastFour < 10000
    ensures var r' := Continued(r, ref, true, Some(again), Received, hook, token, billingKey).0;
            var car := r.desk.orders[ref.user].car;
            && r'.keys == r.keys && car in r'.desk.keys && r'.desk.keys[car].billingKey == billingKey
            && HookHandled(r'.desk, later) == (r'.desk, true)
            && (pg.keys == r'.keys && key !in pg.txs ==> Charge(pg, card, r'.desk.keys[car].billingKey, key, draw, link).2 == Reply(Failed, draw.pgTx, None))
  {
    UnsavedHook(r.(vault := Tokenized(r.vault, ref, true, token).0), Hook(ref.user, billingKey, LastFour(ref.number)), hook);
  }

  lemma Onward(r: Registry, e: Event) returns (r': Registry)
    requires Reached(r) && Possible(r, e)
    ensures Reached(r') && r' == Next(r, e)
  {
    var events :| PossibleRun(events) && r == Run(events);
    assert (events + [e])[..|events|] == events;
    assert PossibleRun(events + [e]) && Run(events + [e]) == Next(r, e);
    r' := Next(r, e);
  }

  /** Such a state comes about: a vehicle opens an order, two submissions look and find no key, the first is handled to its end
      except that its webhook is delayed, and then the second goes on. */
  lemma ConcurrentSubmissions(first: CardRef, second: CardRef, order: OrderId, car: CarId) returns (looked: Registry, r: Registry)
    requires first.user == second.user == order
    ensures Reached(looked) && KeyOfOrder(looked.keys, order, None)
    ensures Reached(r) && KeyOfOrder(r.keys, order, Some(0)) && 1 !in r.keys && 1 !in r.vault.tokens
    ensures exists e :: Possible(looked, e) && e.Submit? && e.ref == first && r == Next(looked, e)
    ensures order in r.desk.orders && !r.desk.orders[order].complete && r.desk.orders[order].car == car
    ensures Continued(r, second, true, Some(0), Received, Received, 1, 1).0.desk.keys == map[car := VehicleKey(1, LastFour(second.number))]
  {
    assert PossibleRun([]) && Run([]) == Start;
    var known := Onward(Start, AddVehicle(car));
    looked := Onward(known, OpenOrder(order, car));
    assert KeyOfOrder(looked.keys, order, None);
    var e := Submit(first, true, None, Received, NotDelivered, 0, 0);
    r := Onward(looked, e);
  }

  // ----- the services

  class TokenService {
    var cards: map<CardRef, CardToken>
    var tokens: map<CardToken, bool>

    constructor ()
      ensures View() == Vault(map[], map[])
    {
      cards, tokens := map[], map[];
    }

    function View(): Vault
      reads this
    {
      Vault(cards, tokens)
    }

    method VerifyAndTokenize(ref: CardRef, valid: bool, drawn: CardToken) returns (token: Option<CardToken>, lastFour: nat)
      modifies this
      ensures (View(), token) == Tokenized(old(View()), ref, valid, drawn) && lastFour == LastFour(ref.number)
    {
      lastFour := ref.number % 10000;
      if !valid {
        return None, lastFour;
      }
      if ref in cards {
        return Some(cards[ref]), lastFour;
      }
      cards := cards[ref := drawn];
      tokens := tokens[drawn := true];
      return Some(drawn), lastFour;
    }
  }

  class WebhookService {
    var vehicles: set<CarId>
    var orders: map<OrderId, Order>
    var keys: map<CarId, VehicleKey>

    constructor ()
      ensures View() == Desk({}, map[], map[])
    {
      vehicles, orders, keys := {}, map[], map[];
    }

    function View(): Desk
      reads this
    {
      Desk(vehicles, orders, keys)
    }

    method MarkComplete(order: OrderId)
      modifies this`orders
      ensures orders == if order in old(orders) then old(orders)[order := old(orders)[order].(complete := true)] else old(orders)
    {
      if order in orders {
        orders := orders[order := orders[order].(complete := true)];
      }
    }

    /** signed is the signature verifier's answer, active whether the webhook's status is "active". */
    method HandleCardWebhook(h: Hook, signed: bool, active: bool) returns (ok: bool)
      modifies this
      ensures (View(), ok) == if signed && active then HookHandled(old(View()), h) else (old(View()), false)
    {
      if !signed {
        return false;
      }
      if h.lastFour >= 10000 {
        return false;
      }
      if !active {
        return false;
      }
      if h.order !in orders || orders[h.order].complete {
        return h.order in orders;
      }
      var car := orders[h.order].car;
      if car !in vehicles {
        return false;
      }
      if c :| c in keys && c != car && keys[c].billingKey == h.billingKey {
        return false;  // the unique constraint
      }
      keys := keys[car := VehicleKey(h.billingKey, h.lastFour)];
      MarkComplete(h.order);
      return true;
    }
  }

  class RegistrationService {
    var keys: map<BillingKey, PgKey>
    const card: TokenService
    const backend: WebhookService
    ghost var sent: set<Hook>

    constructor (card: TokenService, backend: WebhookService)
      ensures this.card == card && this.backend == backend && keys == map[] && sent == {}
    {
      this.card, this.backend, keys, sent := card, backend, map[], {};
    }

    ghost function View(now: Time, owners: map<OrderId, CarId>): Registry
      reads this, card, backend
    {
      Registry(now, card.View(), keys, backend.View(), owners, sent)
    }

    method GetByOrderId(order: OrderId) returns (found: Option<BillingKey>)
      ensures KeyOfOrder(keys, order, found)
    {
      if b :| b in keys && keys[b].orderId == order {
        return Some(b);
      }
      return None;
    }

    method SaveBillingKey(billingKey: BillingKey, row: PgKey) returns (ghost found: Option<BillingKey>)
      modifies this`keys
      ensures KeyOfOrder(old(keys), row.orderId, found) && keys == KeySaved(old(keys), billingKey, row, found)
    {
      var existing := GetByOrderId(row.orderId);
      found := existing;
      if existing.Some? {
        return;
      }
      keys := keys[billingKey := row];
    }

    method SendWebhook(h: Hook, link: Delivery, ghost now: Time, ghost owners: map<OrderId, CarId>) returns (ok: bool)
      modifies this`sent, backend
      ensures View(now, owners) == Sent(old(View(now, owners)), h, link) && ok == !SendRaises(old(View(now, owners)), h, link)
    {
      sent := sent + {h};
      if link.NotDelivered? {
        return false;
      }
      ok := backend.HandleCardWebhook(h, true, true);
      ok := ok && link.Received?;
    }

    method CompleteCardRegistration(ref: CardRef, valid: bool, cardLink: Delivery, hookLink: Delivery, token: CardToken, billingKey: BillingKey,
                                    ghost now: Time, ghost owners: map<OrderId, CarId>)
      returns (answer: Answer, ghost found: Option<BillingKey>)
      modifies this, card, backend
      ensures KeyOfOrder(old(keys), ref.user, found)
      ensures (View(now, owners), answer) == Submitted(old(View(now, owners)), ref, valid, found, cardLink, hookLink, token, billingKey)
    {
      var existing := GetByOrderId(ref.user);
      found := existing;
      if existing.Some? {
        var ok := SendWebhook(Hook(ref.user, existing.value, keys[existing.value].lastFour), hookLink, now, owners);
        return if ok then Registered(existing.value) else ServerError, found;
      }
      var cardToken, lastFour := None, 0;
      if !cardLink.NotDelivered? {
        cardToken, lastFour := card.VerifyAndTokenize(ref, valid, token);
      }
      if cardToken.None? || !cardLink.Received? {
        return Failure, found;
      }
      ghost var again := SaveBillingKey(billingKey, PgKey(ref.user, cardToken.value, lastFour, true));
      var ok := SendWebhook(Hook(ref.user, billingKey, lastFour), hookLink, now, owners);
      return Registered(billingKey), found;
    }
  }
}
