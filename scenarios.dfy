/** A worked checkout across two services: the seeded iPhone 15 bought once, with a quote
    whose requested option costs 10855 rupiah. */
module Scenarios {
  import opened Common
  import ProductService
  import opened OrderService

  /** What the order service reads from the product service for the first seeded product. */
  function SeededIphone(now: nat): (p: ProductInfo)
    ensures p == ProductInfo("iPhone 15", 15000000, 171, 50)
  {
    var seed := ProductService.SeedInputs(now)[0];
    ProductInfo(seed.namaProduk, seed.harga, seed.berat, seed.stok)
  }

  const Option: ShippingOption := ShippingOption("REG", 10855, "2-3 hari")

  /** Gateways that all succeed: the product service knows the iPhone, GoShip quotes one
      option and Dompet Sawit answers with a VA number. */
  function HappyGateways(now: nat): Gateways
  {
    Gateways(
      _ => Ok(Some(SeededIphone(now))),
      (_, _) => Ok(()),
      (_, _, _) => Ok([Option]),
      _ => Ok(PaymentData(Some("TRX-1"), Some("8808123"))))
  }

  function IphoneOrder(): CreateOrderInput
  {
    CreateOrderInput("1", 1, "Jl. Merdeka 1, Bandung", "2", "REG")
  }

  /** With the intended receipt the checkout quotes 171 grams, charges 15000000 + 10855 =
      15010855 and inserts an order of that total under the gateway's VA number, with the
      placeholder receipt "-". */
  lemma IphoneCheckoutTotal(now: nat)
    ensures var p := Checkout(IphoneOrder(), HappyGateways(now), ReceiptIntended);
            && p.calls == [FetchProduct("1"), DecreaseStock("1", 1), QuoteShipping(KotaAsalId, "2", 171),
                           RequestPayment(15010855)]
            && p.outcome.Success?
            && p.outcome.value.grandTotal == 15010855
            && NewOrderRow(1, IphoneOrder(), p.outcome.value).totalAmount == 15010855
            && NewOrderRow(1, IphoneOrder(), p.outcome.value).vaNumber == "8808123"
            && NewOrderRow(1, IphoneOrder(), p.outcome.value).shippingReceipt == Some("-")
  {
    var gw := HappyGateways(now);
    assert gw.fetchProduct("1") == Ok(Some(ProductInfo("iPhone 15", 15000000, 171, 50)));
    assert FindOption([Option], "REG") == Some(Option);
  }

  /** The same checkout as written: the stock is decreased and the payment requested, and
      then the insert fails, so no order exists for the money requested. */
  lemma IphoneCheckoutAsWritten(now: nat)
    ensures var p := Checkout(IphoneOrder(), HappyGateways(now), ReceiptAsWritten);
            && p.calls == [FetchProduct("1"), DecreaseStock("1", 1), QuoteShipping(KotaAsalId, "2", 171),
                           RequestPayment(15010855)]
            && p.outcome == Failure(PersistFailed)
  {
    var gw := HappyGateways(now);
    assert gw.fetchProduct("1") == Ok(Some(ProductInfo("iPhone 15", 15000000, 171, 50)));
    assert FindOption([Option], "REG") == Some(Option);
  }
}
