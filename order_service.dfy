/** The order service: the checkout workflow (createOrder), the order and order-item tables,
    the look-ups by VA number, the payment callback and the shipment fallback.

    The four remote collaborators (product service, GoShip logistics, Dompet Sawit payment)
    are not executed: each is a total function from its request to an `Outcome`, so the
    model can say which request the workflow makes and what it does with each answer. */
module OrderService {
  import opened Common

  /** Origin city id of the warehouse (Jakarta) sent with every shipping quote. */
  const KotaAsalId: string := "1"
  /** Every order is created for this user. */
  const DefaultUserId: int := 1
  const StatusPending: string := "PENDING"
  const StatusProcessed: string := "PROCESSED"
  const PaymentUnpaid: string := "UNPAID"
  const PaymentPaid: string := "PAID"
  /** Stored as va_number when the payment gateway answers without a vaNumber. */
  const VaPending: string := "VA-PENDING"
  /** The receipt and status createShipment reports when the logistics call fails. */
  const ResiError: string := "PENDING-RESI-ERROR"
  const ShipmentManualCheck: string := "MANUAL_CHECK"

  /** The fields the workflow reads from the product service's getProduct. Amounts are
      whole rupiah and weights whole grams. */
  datatype ProductInfo = ProductInfo(namaProduk: string, harga: int, berat: int, stok: int)

  /** One option of a GoShip quote. */
  datatype ShippingOption = ShippingOption(metodePengiriman: string, hargaOngkir: int, estimasiHari: string)

  /** What Dompet Sawit's createTransaction answers; only vaNumber is used. */
  datatype PaymentData = PaymentData(transactionId: Option<string>, vaNumber: Option<string>)

  /** What GoShip's createShipmentFromMarketplace answers. */
  datatype Shipment = Shipment(nomorResi: string, status: string)

  /** The remote collaborators as functions of the request they receive. */
  datatype Gateways = Gateways(
    /** getProduct(id); `Ok(None)` when the product service knows no such product */
    fetchProduct: string -> Outcome<Option<ProductInfo>>,
    /** decreaseStock(productId, quantity) */
    decreaseStock: (string, int) -> Outcome<()>,
    /** getShippingOptions(kotaAsal, kotaTujuan, berat) */
    fetchShippingOptions: (string, string, int) -> Outcome<seq<ShippingOption>>,
    /** createTransaction(amount) */
    createTransaction: int -> Outcome<PaymentData>)

  /** A remote request the workflow issues, in the order it issues them. */
  datatype GatewayCall =
    | FetchProduct(productId: string)
    | DecreaseStock(productId: string, quantity: int)
    | QuoteShipping(kotaAsal: string, kotaTujuan: string, berat: int)
    | RequestPayment(amount: int)

  datatype CreateOrderInput = CreateOrderInput(
    productId: string, quantity: int, alamatPengiriman: string,
    kotaTujuanId: string, metodePengiriman: string)

  /** Why a checkout is aborted; each is rethrown to the caller as an error message. */
  datatype CheckoutError =
    | ProductServiceError                        // "Product Service Error: ..."
    | ProductNotFound                            // getProduct returned null; reading its stok throws
    | StokTidakCukup(tersedia: int, diminta: int) // "Stok tidak cukup. Tersedia: .., Diminta: .."
    | GagalMengurangiStok                        // "Gagal mengurangi stok: ..."
    | GagalMengambilOngkir                       // "Gagal mengambil ongkir dari GoShip"
    | MetodeTidakTersedia(metode: string)        // "Metode pengiriman '..' tidak tersedia di GoShip."
    | GagalMembuatTransaksi                      // "Gagal membuat transaksi di Dompet Sawit"
    | PersistFailed                              // the INSERT INTO orders did not run

  /** A row of the `orders` table. */
  datatype OrderRow = OrderRow(
    id: nat, userId: int, status: string, paymentStatus: string, totalAmount: int,
    shippingAddress: string, shippingMethod: string, shippingCost: int,
    vaNumber: string, shippingReceipt: Option<string>)

  /** A row of the `order_items` table: a snapshot of the product at purchase time. */
  datatype ItemRow = ItemRow(
    id: nat, orderId: nat, productId: string, productName: string,
    quantity: int, priceAtPurchase: int, weightPerItem: int)

  /** The GraphQL `Order` the resolvers return. */
  datatype Order = Order(
    id: string, productId: string, quantity: int, totalHarga: int, status: string,
    paymentStatus: string, alamatPengiriman: string, metodePengiriman: string,
    ongkir: int, nomorVA: string, nomorResi: Option<string>)

  /** What a checkout that reaches the insert writes, before ids are assigned. */
  datatype Draft = Draft(product: ProductInfo, option: ShippingOption, grandTotal: int,
                         vaNumber: string, receipt: Option<string>)

  /** The requests a checkout issued and how it ended. */
  datatype Plan = Plan(calls: seq<GatewayCall>, outcome: Result<Draft, CheckoutError>)

  // ---------------------------------------------------------------------------------------
  // Pure steps of the workflow

  /** `options.find(opt => opt.metodePengiriman === metode)`: the first option whose method
      is exactly the requested one. */
  function FindOption(options: seq<ShippingOption>, metode: string): (r: Option<ShippingOption>)
    ensures r.None? <==> forall o | o in options :: o.metodePengiriman != metode
    ensures r.Some? ==> exists i | 0 <= i < |options| ::
                          options[i] == r.value && r.value.metodePengiriman == metode &&
                          forall j | 0 <= j < i :: options[j].metodePengiriman != metode
  {
    if options == [] then None
    else if options[0].metodePengiriman == metode then Some(options[0])
    else
      var r := FindOption(options[1..], metode);
      assert r.Some? ==> exists i | 0 <= i < |options| ::
                           options[i] == r.value && r.value.metodePengiriman == metode &&
                           forall j | 0 <= j < i :: options[j].metodePengiriman != metode by {
        if r.Some? {
          var i :| 0 <= i < |options[1..]| && options[1..][i] == r.value && r.value.metodePengiriman == metode &&
                   forall j | 0 <= j < i :: options[1..][j].metodePengiriman != metode;
          assert options[i + 1] == r.value;
          assert forall j | 0 <= j < i + 1 :: options[j].metodePengiriman != metode by {
            forall j | 0 <= j < i + 1 ensures options[j].metodePengiriman != metode {
              if j > 0 { assert options[j] == options[1..][j - 1]; }
            }
          }
        }
      }
      assert r.None? ==> forall o | o in options :: o.metodePengiriman != metode by {
        if r.None? {
          forall o | o in options ensures o.metodePengiriman != metode {
            if o != options[0] { assert o in options[1..]; }
          }
        }
      }
      r
  }

  /** The weight sent for the quote: unit weight times quantity. */
  function TotalWeight(product: ProductInfo, quantity: int): int
  {
    product.berat * quantity
  }

  /** The amount charged: unit price times quantity plus the quoted shipping cost. */
  function GrandTotal(product: ProductInfo, quantity: int, ongkir: int): int
  {
    product.harga * quantity + ongkir
  }

  /** `paymentData.vaNumber || "VA-PENDING"`: an absent or empty VA number is replaced. */
  function VaOrPending(payment: PaymentData): (va: string)
    ensures va != ""
    ensures payment.vaNumber.Some? && payment.vaNumber.value != "" ==> va == payment.vaNumber.value
    ensures (payment.vaNumber.None? || payment.vaNumber.value == "") ==> va == VaPending
  {
    match payment.vaNumber
    case Some(v) => if v != "" then v else VaPending
    case None => VaPending
  }

  /** The requests of a checkout that runs to the insert, in order. */
  function FullCalls(input: CreateOrderInput, product: ProductInfo, grandTotal: int): seq<GatewayCall>
  {
    [FetchProduct(input.productId),
     DecreaseStock(input.productId, input.quantity),
     QuoteShipping(KotaAsalId, input.kotaTujuanId, TotalWeight(product, input.quantity)),
     RequestPayment(grandTotal)]
  }

  /** The checkout of createOrder, step by step: fetch the product, check the stock,
      decrease the stock, quote shipping, pick the requested method, compute the grand total,
      request payment, then persist. Any failure ends the checkout with that error; nothing
      already done is undone.

      `receipt` is the value the INSERT binds to shipping_receipt. As written the code binds
      `nomorResi`, whose only declaration is commented out, so evaluating it throws a
      ReferenceError: that is `Err`. The evidently intended value is the placeholder "-" of the
      commented-out declaration: `Ok(Some("-"))`. */
  function Checkout(input: CreateOrderInput, gw: Gateways, receipt: Outcome<Option<string>>): (p: Plan)
  {
    var c1 := [FetchProduct(input.productId)];
    match gw.fetchProduct(input.productId)
    case Err => Plan(c1, Failure(ProductServiceError))
    case Ok(None) => Plan(c1, Failure(ProductNotFound))
    case Ok(Some(product)) =>
      if product.stok < input.quantity then
        Plan(c1, Failure(StokTidakCukup(product.stok, input.quantity)))
      else
        var c2 := c1 + [DecreaseStock(input.productId, input.quantity)];
        if gw.decreaseStock(input.productId, input.quantity).Err? then
          Plan(c2, Failure(GagalMengurangiStok))
        else
          var berat := TotalWeight(product, input.quantity);
          var c3 := c2 + [QuoteShipping(KotaAsalId, input.kotaTujuanId, berat)];
          match gw.fetchShippingOptions(KotaAsalId, input.kotaTujuanId, berat)
          case Err => Plan(c3, Failure(GagalMengambilOngkir))
          case Ok(options) =>
            match FindOption(options, input.metodePengiriman)
            case None => Plan(c3, Failure(MetodeTidakTersedia(input.metodePengiriman)))
            case Some(option) =>
              var total := GrandTotal(product, input.quantity, option.hargaOngkir);
              var c4 := c3 + [RequestPayment(total)];
              match gw.createTransaction(total)
              case Err => Plan(c4, Failure(GagalMembuatTransaksi))
              case Ok(payment) =>
                match receipt
                case Err => Plan(c4, Failure(PersistFailed))
                case Ok(resi) => Plan(c4, Success(Draft(product, option, total, VaOrPending(payment), resi)))
  }

  /** The orders row a successful checkout inserts. */
  function NewOrderRow(id: nat, input: CreateOrderInput, d: Draft): OrderRow
  {
    OrderRow(id, DefaultUserId, StatusPending, PaymentUnpaid, d.grandTotal,
             input.alamatPengiriman, input.metodePengiriman, d.option.hargaOngkir,
             d.vaNumber, d.receipt)
  }

  /** The order_items row a successful checkout inserts. */
  function NewItemRow(id: nat, orderId: nat, input: CreateOrderInput, d: Draft): ItemRow
  {
    ItemRow(id, orderId, input.productId, d.product.namaProduk, input.quantity,
            d.product.harga, d.product.berat)
  }

  // ---------------------------------------------------------------------------------------
  // Reading the tables

  /** `SELECT * FROM order_items WHERE order_id = ?`, in insertion order. */
  function ItemsOf(items: seq<ItemRow>, orderId: nat): (r: seq<ItemRow>)
    ensures forall it | it in r :: it in items && it.orderId == orderId
    ensures forall it | it in items && it.orderId == orderId :: it in r
  {
    if items == [] then []
    else if items[0].orderId == orderId then [items[0]] + ItemsOf(items[1..], orderId)
    else ItemsOf(items[1..], orderId)
  }

  /** The row-to-Order mapping of the resolvers: the first item supplies productId and
      quantity, which default to '' and 0 when the order has no item. */
  function ToOrder(row: OrderRow, its: seq<ItemRow>): (o: Order)
    ensures o.id == NatToString(row.id) && o.totalHarga == row.totalAmount
    ensures o.status == row.status && o.paymentStatus == row.paymentStatus
    ensures o.alamatPengiriman == row.shippingAddress && o.metodePengiriman == row.shippingMethod
    ensures o.ongkir == row.shippingCost && o.nomorVA == row.vaNumber && o.nomorResi == row.shippingReceipt
    ensures its == [] ==> o.productId == "" && o.quantity == 0
    ensures its != [] ==> o.productId == its[0].productId && o.quantity == its[0].quantity
  {
    var productId := if its == [] then "" else its[0].productId;
    var quantity := if its == [] then 0 else its[0].quantity;
    Order(NatToString(row.id), productId, quantity, row.totalAmount, row.status,
          row.paymentStatus, row.shippingAddress, row.shippingMethod, row.shippingCost,
          row.vaNumber, row.shippingReceipt)
  }

  /** `SELECT * FROM orders WHERE va_number = ?` through `dbGet`: the first such row. */
  function FirstWithVa(orders: seq<OrderRow>, va: string): (r: Option<OrderRow>)
    ensures r.None? <==> forall o | o in orders :: o.vaNumber != va
    ensures r.Some? ==> r.value in orders && r.value.vaNumber == va
    ensures r.Some? ==> exists i | 0 <= i < |orders| :: orders[i] == r.value &&
                          forall j | 0 <= j < i :: orders[j].vaNumber != va
  {
    if orders == [] then None
    else if orders[0].vaNumber == va then Some(orders[0])
    else
      var r := FirstWithVa(orders[1..], va);
      assert r.Some? ==> exists i | 0 <= i < |orders| :: orders[i] == r.value &&
                           forall j | 0 <= j < i :: orders[j].vaNumber != va by {
        if r.Some? {
          var i :| 0 <= i < |orders[1..]| && orders[1..][i] == r.value &&
                   forall j | 0 <= j < i :: orders[1..][j].vaNumber != va;
          assert orders[i + 1] == r.value;
          forall j | 0 <= j < i + 1 ensures orders[j].vaNumber != va {
            if j > 0 { assert orders[j] == orders[1..][j - 1]; }
          }
        }
      }
      r
  }

  /** getOrderByVA: null when no order carries `va`, else the first such order mapped. */
  function OrderByVa(orders: seq<OrderRow>, items: seq<ItemRow>, va: string): (r: Option<Order>)
    ensures r.None? <==> forall o | o in orders :: o.vaNumber != va
    ensures r.Some? ==> r.value.nomorVA == va
    ensures r.Some? ==> exists i | 0 <= i < |orders| ::
                          && orders[i].vaNumber == va
                          && (forall j | 0 <= j < i :: orders[j].vaNumber != va)
                          && r.value == ToOrder(orders[i], ItemsOf(items, orders[i].id))
  {
    match FirstWithVa(orders, va)
    case None => None
    case Some(row) => Some(ToOrder(row, ItemsOf(items, row.id)))
  }

  // ---------------------------------------------------------------------------------------
  // The payment callback

  /** `UPDATE orders SET status = 'PROCESSED', payment_status = 'PAID' WHERE va_number = ?` */
  function PayRows(orders: seq<OrderRow>, va: string): (r: seq<OrderRow>)
    ensures |r| == |orders|
  {
    if orders == [] then []
    else
      var head := if orders[0].vaNumber == va
                  then orders[0].(status := StatusProcessed, paymentStatus := PaymentPaid)
                  else orders[0];
      [head] + PayRows(orders[1..], va)
  }

  /** Exactly the rows with that VA are marked PROCESSED and PAID; every other row and every
      other field is left as it was. */
  lemma {:induction false} PayRowsAt(orders: seq<OrderRow>, va: string, i: nat)
    requires i < |orders|
    ensures PayRows(orders, va)[i] ==
              if orders[i].vaNumber == va
              then orders[i].(status := StatusProcessed, paymentStatus := PaymentPaid)
              else orders[i]
  {
    if i > 0 {
      PayRowsAt(orders[1..], va, i - 1);
    }
  }

  /** A second callback for the same VA changes nothing. */
  lemma {:induction false} PayRowsIdempotent(orders: seq<OrderRow>, va: string)
    ensures PayRows(PayRows(orders, va), va) == PayRows(orders, va)
  {
    if orders != [] {
      PayRowsIdempotent(orders[1..], va);
    }
  }

  /** A callback for a VA no order carries changes nothing. */
  lemma {:induction false} PayRowsUnknownVa(orders: seq<OrderRow>, va: string)
    requires forall o | o in orders :: o.vaNumber != va
    ensures PayRows(orders, va) == orders
  {
    if orders != [] {
      PayRowsUnknownVa(orders[1..], va);
    }
  }

  // ---------------------------------------------------------------------------------------
  // Shipping quote and shipment fallback

  /** getShippingOptions(kotaTujuanId, productId, quantity): the GoShip quote for the
      product's weight times the quantity. No stock check is made. */
  function ShippingOptions(gw: Gateways, kotaTujuanId: string, productId: string, quantity: int)
    : (r: Result<seq<ShippingOption>, CheckoutError>)
    ensures r.Success? <==>
              exists p: ProductInfo :: gw.fetchProduct(productId) == Ok(Some(p)) &&
                          gw.fetchShippingOptions(KotaAsalId, kotaTujuanId, p.berat * quantity).Ok?
    ensures gw.fetchProduct(productId).Err? ==> r == Failure(ProductServiceError)
    ensures gw.fetchProduct(productId) == Ok(None) ==> r == Failure(ProductNotFound)
    ensures gw.fetchProduct(productId).Ok? && gw.fetchProduct(productId).value.Some? ==>
              var p := gw.fetchProduct(productId).value.value;
              var quoted := gw.fetchShippingOptions(KotaAsalId, kotaTujuanId, p.berat * quantity);
              && (quoted.Err? ==> r == Failure(GagalMengambilOngkir))
              && (quoted.Ok? ==> r == Success(quoted.value))
  {
    match gw.fetchProduct(productId)
    case Err => Failure(ProductServiceError)
    case Ok(None) => Failure(ProductNotFound)
    case Ok(Some(p)) =>
      match gw.fetchShippingOptions(KotaAsalId, kotaTujuanId, TotalWeight(p, quantity))
      case Err => Failure(GagalMengambilOngkir)
      case Ok(options) => Success(options)
  }

  /** createShipment never fails: a failed logistics call yields the placeholder receipt
      "PENDING-RESI-ERROR" with status "MANUAL_CHECK"; a successful one is passed through
      (possibly null). */
  function ShipmentOrPlaceholder(answer: Outcome<Option<Shipment>>): (r: Option<Shipment>)
    ensures answer.Err? ==> r == Some(Shipment(ResiError, ShipmentManualCheck))
    ensures answer.Ok? ==> r == answer.value
  {
    match answer
    case Err => Some(Shipment(ResiError, ShipmentManualCheck))
    case Ok(s) => s
  }

  // ---------------------------------------------------------------------------------------
  // Properties of the checkout

  /** The stock check: with `stok < quantity` the checkout stops right after fetching the
      product, before any stock decrement, payment or write; `quantity == stok` passes. */
  lemma CheckoutStockCheck(input: CreateOrderInput, gw: Gateways, receipt: Outcome<Option<string>>, p: ProductInfo)
    requires gw.fetchProduct(input.productId) == Ok(Some(p))
    ensures p.stok < input.quantity <==>
              Checkout(input, gw, receipt) ==
                Plan([FetchProduct(input.productId)], Failure(StokTidakCukup(p.stok, input.quantity)))
    ensures p.stok >= input.quantity ==>
              |Checkout(input, gw, receipt).calls| >= 2 &&
              Checkout(input, gw, receipt).calls[1] == DecreaseStock(input.productId, input.quantity)
  {
  }

  /** The four requests of a checkout that got as far as the payment request: the stock
      decrement for the requested quantity, the quote for the product's weight times the
      quantity, and the payment for price times quantity plus the cost of the first quoted
      option with the requested method. */
  predicate ChargedForQuote(input: CreateOrderInput, gw: Gateways, calls: seq<GatewayCall>)
  {
    && gw.fetchProduct(input.productId).Ok? && gw.fetchProduct(input.productId).value.Some?
    && var product := gw.fetchProduct(input.productId).value.value;
       var quoted := gw.fetchShippingOptions(KotaAsalId, input.kotaTujuanId, product.berat * input.quantity);
       && quoted.Ok?
       && FindOption(quoted.value, input.metodePengiriman).Some?
       && calls == FullCalls(input, product,
                             GrandTotal(product, input.quantity,
                                        FindOption(quoted.value, input.metodePengiriman).value.hargaOngkir))
  }

  /** Strict step order: the requests issued are always a non-empty prefix of fetch product,
      decrease stock, quote shipping, request payment; a checkout that reaches the insert has
      issued all four, the quote for `berat * quantity` and the payment for the grand total.
      Whether or not the insert then succeeds, a checkout that issued four requests asked
      for the payment of exactly the quoted grand total. */
  lemma CheckoutStepOrder(input: CreateOrderInput, gw: Gateways, receipt: Outcome<Option<string>>)
    ensures var p := Checkout(input, gw, receipt);
            gw.fetchProduct(input.productId).Ok? && gw.fetchProduct(input.productId).value.Some? ==>
              var product := gw.fetchProduct(input.productId).value.value;
              exists total :: 1 <= |p.calls| <= 4 && p.calls == FullCalls(input, product, total)[..|p.calls|]
    ensures var p := Checkout(input, gw, receipt);
            p.outcome.Success? ==>
              p.calls == FullCalls(input, p.outcome.value.product, p.outcome.value.grandTotal)
    ensures gw.fetchProduct(input.productId).Err? || gw.fetchProduct(input.productId) == Ok(None) ==>
              Checkout(input, gw, receipt).calls == [FetchProduct(input.productId)]
    ensures var p := Checkout(input, gw, receipt);
            |p.calls| == 4 ==> ChargedForQuote(input, gw, p.calls)
  {
    var p := Checkout(input, gw, receipt);
    if gw.fetchProduct(input.productId).Ok? && gw.fetchProduct(input.productId).value.Some? {
      var product := gw.fetchProduct(input.productId).value.value;
      var berat := TotalWeight(product, input.quantity);
      match gw.fetchShippingOptions(KotaAsalId, input.kotaTujuanId, berat)
      case Err =>
        assert p.calls == FullCalls(input, product, 0)[..|p.calls|];
      case Ok(options) =>
        match FindOption(options, input.metodePengiriman)
        case None =>
          assert p.calls == FullCalls(input, product, 0)[..|p.calls|];
        case Some(option) =>
          var total := GrandTotal(product, input.quantity, option.hargaOngkir);
          assert p.calls == FullCalls(input, product, total)[..|p.calls|];
    }
  }

  /** The requested method must be quoted exactly: when no quoted option has it the
      checkout fails with MetodeTidakTersedia after the stock decrement was requested
      (and that decrement is not undone), and writes nothing. */
  lemma CheckoutUnknownMethod(input: CreateOrderInput, gw: Gateways, receipt: Outcome<Option<string>>,
                              p: ProductInfo, options: seq<ShippingOption>)
    requires gw.fetchProduct(input.productId) == Ok(Some(p))
    requires p.stok >= input.quantity
    requires gw.decreaseStock(input.productId, input.quantity).Ok?
    requires gw.fetchShippingOptions(KotaAsalId, input.kotaTujuanId, p.berat * input.quantity) == Ok(options)
    requires forall o | o in options :: o.metodePengiriman != input.metodePengiriman
    ensures Checkout(input, gw, receipt).outcome == Failure(MetodeTidakTersedia(input.metodePengiriman))
    ensures DecreaseStock(input.productId, input.quantity) in Checkout(input, gw, receipt).calls
  {
  }

  /** What a checkout that reaches the insert computed: the first quoted option with the
      exact requested method, a grand total of price times quantity plus that option's
      cost (never a caller-supplied price), and the gateway's VA number or "VA-PENDING". */
  lemma CheckoutAmounts(input: CreateOrderInput, gw: Gateways, receipt: Outcome<Option<string>>)
    requires Checkout(input, gw, receipt).outcome.Success?
    ensures var d := Checkout(input, gw, receipt).outcome.value;
            && gw.fetchProduct(input.productId) == Ok(Some(d.product))
            && d.product.stok >= input.quantity
            && gw.decreaseStock(input.productId, input.quantity).Ok?
            && gw.fetchShippingOptions(KotaAsalId, input.kotaTujuanId, d.product.berat * input.quantity).Ok?
            && Some(d.option) == FindOption(gw.fetchShippingOptions(KotaAsalId, input.kotaTujuanId,
                                                                    d.product.berat * input.quantity).value,
                                            input.metodePengiriman)
            && d.option.metodePengiriman == input.metodePengiriman
            && d.grandTotal == d.product.harga * input.quantity + d.option.hargaOngkir
            && gw.createTransaction(d.grandTotal).Ok?
            && d.vaNumber == VaOrPending(gw.createTransaction(d.grandTotal).value)
            && receipt == Ok(d.receipt)
  {
  }

  /** A failing payment gateway aborts the checkout: there is no fallback reference. */
  lemma CheckoutPaymentFailureAborts(input: CreateOrderInput, gw: Gateways, receipt: Outcome<Option<string>>)
    requires var p := Checkout(input, gw, receipt);
             |p.calls| == 4 && gw.createTransaction(p.calls[3].amount).Err?
    ensures Checkout(input, gw, receipt).outcome == Failure(GagalMembuatTransaksi)
  {
  }

  /** The shipping-quote query and the checkout ask GoShip the same question: the option a
      checkout charges for is one the quote query lists. */
  lemma CheckoutOptionIsQuoted(input: CreateOrderInput, gw: Gateways, receipt: Outcome<Option<string>>)
    requires Checkout(input, gw, receipt).outcome.Success?
    ensures var r := ShippingOptions(gw, input.kotaTujuanId, input.productId, input.quantity);
            r.Success? && Checkout(input, gw, receipt).outcome.value.option in r.value
  {
    CheckoutAmounts(input, gw, receipt);
  }

  // ---------------------------------------------------------------------------------------
  // The nomorResi defect

  /** The value the INSERT binds to shipping_receipt as the code is written: the name
      `nomorResi` is declared only in a commented-out line, so in this ES module reading it
      throws a ReferenceError. */
  const ReceiptAsWritten: Outcome<Option<string>> := Err

  /** The placeholder receipt the commented-out declaration gives: "-", as no receipt exists
      before payment. */
  const NoReceiptYet: string := "-"

  /** The value evidently intended: the placeholder receipt. */
  const ReceiptIntended: Outcome<Option<string>> := Ok(Some(NoReceiptYet))

  /** As written, every checkout fails; one that reaches the insert fails there, after the
      stock decrement and the request for the full payment were already issued. */
  lemma AsWrittenCheckoutNeverPersists(input: CreateOrderInput, gw: Gateways)
    ensures Checkout(input, gw, ReceiptAsWritten).outcome.Failure?
    ensures var p := Checkout(input, gw, ReceiptAsWritten);
            p.outcome == Failure(PersistFailed) <==> |p.calls| == 4 && gw.createTransaction(p.calls[3].amount).Ok?
    ensures var p := Checkout(input, gw, ReceiptAsWritten);
            p.outcome == Failure(PersistFailed) ==> ChargedForQuote(input, gw, p.calls)
  {
  }

  /** With the intended receipt, a checkout whose collaborators all succeed persists an
      order carrying the placeholder receipt "-", after issuing all four requests. */
  lemma IntendedCheckoutPersists(input: CreateOrderInput, gw: Gateways, p: ProductInfo, options: seq<ShippingOption>)
    requires gw.fetchProduct(input.productId) == Ok(Some(p))
    requires p.stok >= input.quantity
    requires gw.decreaseStock(input.productId, input.quantity).Ok?
    requires gw.fetchShippingOptions(KotaAsalId, input.kotaTujuanId, p.berat * input.quantity) == Ok(options)
    requires FindOption(options, input.metodePengiriman).Some?
    requires gw.createTransaction(p.harga * input.quantity + FindOption(options, input.metodePengiriman).value.hargaOngkir).Ok?
    ensures Checkout(input, gw, ReceiptIntended).outcome.Success?
    ensures Checkout(input, gw, ReceiptIntended).outcome.value.receipt == Some(NoReceiptYet)
    ensures ChargedForQuote(input, gw, Checkout(input, gw, ReceiptIntended).calls)
  {
  }

  // ---------------------------------------------------------------------------------------
  // The order store

  /** The `orders` and `order_items` tables with their AUTOINCREMENT counters. */
  class OrderStore {
    var orders: seq<OrderRow>
    var items: seq<ItemRow>
    var nextOrderId: nat
    var nextItemId: nat

    /** Ids are assigned in increasing order below the counters, and every item refers to
        an order id already handed out. */
    ghost predicate Valid()
      reads this
    {
      && 1 <= nextOrderId && 1 <= nextItemId
      && (forall i, j | 0 <= i < j < |orders| :: orders[i].id < orders[j].id)
      && (forall i | 0 <= i < |orders| :: orders[i].id < nextOrderId)
      && (forall i, j | 0 <= i < j < |items| :: items[i].id < items[j].id)
      && (forall i | 0 <= i < |items| :: items[i].id < nextItemId && items[i].orderId < nextOrderId)
    }

    constructor ()
      ensures Valid()
      ensures orders == [] && items == [] && nextOrderId == 1 && nextItemId == 1
    {
      orders, items := [], [];
      nextOrderId, nextItemId := 1, 1;
    }

    /** createOrder: runs the checkout against the gateways and, only when every step
        succeeded, inserts one order row (PENDING, UNPAID, user 1) and then its one item row. */
    method CreateOrder(input: CreateOrderInput, gw: Gateways, receipt: Outcome<Option<string>>)
      returns (r: Result<Order, CheckoutError>, calls: seq<GatewayCall>)
      requires Valid()
      modifies this
      ensures Valid()
      ensures calls == Checkout(input, gw, receipt).calls
      ensures Checkout(input, gw, receipt).outcome.Failure? ==>
                && r == Failure(Checkout(input, gw, receipt).outcome.error)
                && orders == old(orders) && items == old(items)
                && nextOrderId == old(nextOrderId) && nextItemId == old(nextItemId)
      ensures Checkout(input, gw, receipt).outcome.Success? ==>
                var d := Checkout(input, gw, receipt).outcome.value;
                var row := NewOrderRow(old(nextOrderId), input, d);
                var item := NewItemRow(old(nextItemId), old(nextOrderId), input, d);
                && orders == old(orders) + [row]
                && items == old(items) + [item]
                && nextOrderId == old(nextOrderId) + 1 && nextItemId == old(nextItemId) + 1
                && r == Success(ToOrder(row, [item]))
    {
      // 1. product and stock
      calls := [FetchProduct(input.productId)];
      var fetched := gw.fetchProduct(input.productId);
      if fetched.Err? {
        return Failure(ProductServiceError), calls;
      }
      if fetched.value.None? {
        return Failure(ProductNotFound), calls;
      }
      var product := fetched.value.value;
      if product.stok < input.quantity {
        return Failure(StokTidakCukup(product.stok, input.quantity)), calls;
      }
      // 2. decrease stock
      calls := calls + [DecreaseStock(input.productId, input.quantity)];
      if gw.decreaseStock(input.productId, input.quantity).Err? {
        return Failure(GagalMengurangiStok), calls;
      }
      // 3. shipping quote and the requested method
      var totalBerat := TotalWeight(product, input.quantity);
      calls := calls + [QuoteShipping(KotaAsalId, input.kotaTujuanId, totalBerat)];
      var quoted := gw.fetchShippingOptions(KotaAsalId, input.kotaTujuanId, totalBerat);
      if quoted.Err? {
        return Failure(GagalMengambilOngkir), calls;
      }
      var selected := FindOption(quoted.value, input.metodePengiriman);
      if selected.None? {
        return Failure(MetodeTidakTersedia(input.metodePengiriman)), calls;
      }
      var realOngkir := selected.value.hargaOngkir;
      // 4. grand total and payment
      var grandTotal := GrandTotal(product, input.quantity, realOngkir);
      calls := calls + [RequestPayment(grandTotal)];
      var paid := gw.createTransaction(grandTotal);
      if paid.Err? {
        return Failure(GagalMembuatTransaksi), calls;
      }
      var vaNumber := VaOrPending(paid.value);
      // 5. persist: the order row, then its item row
      if receipt.Err? {
        return Failure(PersistFailed), calls;
      }
      var d := Draft(product, selected.value, grandTotal, vaNumber, receipt.value);
      var row := NewOrderRow(nextOrderId, input, d);
      orders := orders + [row];
      nextOrderId := nextOrderId + 1;
      var item := NewItemRow(nextItemId, row.id, input, d);
      items := items + [item];
      nextItemId := nextItemId + 1;
      r := Success(ToOrder(row, [item]));
    }

    /** updatePaymentStatus(vaNumber, status): false when no order carries the VA; otherwise
        every order with it becomes PROCESSED and PAID, whatever `status` says. */
    method UpdatePaymentStatus(vaNumber: string, status: string) returns (ok: bool)
      requires Valid()
      modifies this`orders
      ensures Valid()
      ensures ok <==> exists o | o in old(orders) :: o.vaNumber == vaNumber
      ensures orders == PayRows(old(orders), vaNumber)
      ensures !ok ==> orders == old(orders)
    {
      var found := FirstWithVa(orders, vaNumber);
      if found.None? {
        PayRowsUnknownVa(orders, vaNumber);
        return false;
      }
      forall k | 0 <= k < |orders| ensures PayRows(orders, vaNumber)[k].id == orders[k].id {
        PayRowsAt(orders, vaNumber, k);
      }
      orders := PayRows(orders, vaNumber);
      ok := true;
    }

    /** getOrderByVA */
    function GetOrderByVA(vaNumber: string): (r: Option<Order>)
      reads this
      ensures r.None? <==> forall o | o in orders :: o.vaNumber != vaNumber
      ensures r.Some? ==> r.value.nomorVA == vaNumber
      ensures r.Some? ==> exists i | 0 <= i < |orders| ::
                            && orders[i].vaNumber == vaNumber
                            && (forall j | 0 <= j < i :: orders[j].vaNumber != vaNumber)
                            && r.value == ToOrder(orders[i], ItemsOf(items, orders[i].id))
    {
      OrderByVa(orders, items, vaNumber)
    }

    /** getOrders: every order, newest first, each mapped with its first item. */
    method GetOrders() returns (result: seq<Order>)
      ensures |result| == |orders|
      ensures forall k | 0 <= k < |result| ::
                result[k] == ToOrder(orders[|orders| - 1 - k], ItemsOf(items, orders[|orders| - 1 - k].id))
    {
      var newestFirst := Reverse(orders);
      result := [];
      for n := 0 to |newestFirst|
        invariant |result| == n
        invariant forall k | 0 <= k < n ::
                    result[k] == ToOrder(orders[|orders| - 1 - k], ItemsOf(items, orders[|orders| - 1 - k].id))
      {
        var order := newestFirst[n];
        var its := ItemsOf(items, order.id);
        result := result + [ToOrder(order, its)];
      }
    }
  }

  /** The round trip of a checkout and the VA look-up: when the VA the new order got was not
      already in the table, getOrderByVA returns exactly the order createOrder returned. */
  lemma LookupAfterCreate(orders: seq<OrderRow>, items: seq<ItemRow>, row: OrderRow, item: ItemRow)
    requires forall o | o in orders :: o.vaNumber != row.vaNumber
    requires forall it | it in items :: it.orderId != row.id
    requires item.orderId == row.id
    ensures OrderByVa(orders + [row], items + [item], row.vaNumber) == Some(ToOrder(row, [item]))
  {
    var all := orders + [row];
    var found := FirstWithVa(all, row.vaNumber);
    assert found == Some(row) by {
      assert found.value in orders || found.value == row;
    }
    var its := ItemsOf(items + [item], row.id);
    assert its == [item] by {
      ItemsOfAppend(items, item, row.id);
    }
  }

  lemma {:induction false} ItemsOfAppend(items: seq<ItemRow>, item: ItemRow, orderId: nat)
    requires forall it | it in items :: it.orderId != orderId
    requires item.orderId == orderId
    ensures ItemsOf(items + [item], orderId) == [item]
  {
    if items != [] {
      assert (items + [item])[1..] == items[1..] + [item];
      ItemsOfAppend(items[1..], item, orderId);
    }
  }
}
