/** The product page: the quantity stepper and its number input, bounded by the stock;
    the buy guards; the quote escaping of the address placed in the order request; and the
    flags that enable the buy button. */
module ProductDetailPage {
  import opened Common

  /** The stepper's fallback bound when the stock reads as 0. */
  const FallbackMax: int := 999

  /** `product.stok || 999`: a stock of 0 is falsy, so the bound becomes 999. */
  function MaxQuantity(stok: int): (m: int)
    ensures stok != 0 ==> m == stok
    ensures stok == 0 ==> m == FallbackMax
  {
    if stok == 0 then FallbackMax else stok
  }

  /** A quantity the page accepts: at least 1 and at most the bound. */
  predicate Accepts(q: int, stok: int)
  {
    1 <= q <= MaxQuantity(stok)
  }

  /** What the page keeps: the initial 1, or an accepted quantity. */
  predicate QuantityOk(q: int, stok: int)
  {
    q == 1 || Accepts(q, stok)
  }

  /** handleQuantityChange: the new quantity, or the old one when the step leaves the range. */
  function Stepped(q: int, delta: int, stok: int): (r: int)
    ensures Accepts(q + delta, stok) ==> r == q + delta
    ensures !Accepts(q + delta, stok) ==> r == q
  {
    if q + delta >= 1 && q + delta <= MaxQuantity(stok) then q + delta else q
  }

  /** `parseInt(value) || 1`: NaN (None) and 0 both become 1. */
  function ParsedOrOne(parsed: Option<int>): (v: int)
    ensures v != 0
    ensures parsed.None? || parsed.value == 0 ==> v == 1
    ensures parsed.Some? && parsed.value != 0 ==> v == parsed.value
  {
    if parsed.None? || parsed.value == 0 then 1 else parsed.value
  }

  /** The number input's onChange: the parsed value when the page accepts it, else unchanged. */
  function Typed(q: int, parsed: Option<int>, stok: int): (r: int)
    ensures Accepts(ParsedOrOne(parsed), stok) ==> r == ParsedOrOne(parsed)
    ensures !Accepts(ParsedOrOne(parsed), stok) ==> r == q
  {
    var v := ParsedOrOne(parsed);
    if v >= 1 && v <= MaxQuantity(stok) then v else q
  }

  /** Neither the stepper nor the input ever leaves the range: starting from 1, the quantity
      is always 1 or inside `[1, stok || 999]`. */
  lemma QuantityStaysInRange(q: int, delta: int, parsed: Option<int>, stok: int)
    requires QuantityOk(q, stok)
    ensures QuantityOk(Stepped(q, delta, stok), stok)
    ensures QuantityOk(Typed(q, parsed, stok), stok)
    ensures Stepped(q, delta, stok) >= 1 && Typed(q, parsed, stok) >= 1
  {
  }

  /** Typing something unparsable selects 1 whenever the bound admits 1. */
  lemma UnparsableSelectsOne(q: int, stok: int)
    requires MaxQuantity(stok) >= 1
    ensures Typed(q, None, stok) == 1
  {
  }

  /** The number of double quotes in `s`. */
  function QuoteCount(s: string): nat
  {
    if s == [] then 0 else (if s[0] == '"' then 1 else 0) + QuoteCount(s[1..])
  }

  /** `alamat.replace(/"/g, '\\"')`: every double quote gets a backslash before it;
      backslashes already in the address are left as they are. The result is one character
      longer per quote, and no quote in it is left bare. */
  function EscapeQuotes(s: string): (r: string)
    ensures |r| == |s| + QuoteCount(s)
    ensures s == [] ==> r == []
    ensures s != [] ==> r != [] && r[0] != '"'
    ensures forall i | 0 <= i < |r| && r[i] == '"' :: 0 < i && r[i - 1] == '\\'
  {
    if s == [] then []
    else
      var head: string := if s[0] == '"' then ['\\', '"'] else [s[0]];
      var rest := EscapeQuotes(s[1..]);
      var r := head + rest;
      assert forall i | 0 <= i < |r| && r[i] == '"' :: 0 < i && r[i - 1] == '\\' by {
        forall i | 0 <= i < |r| && r[i] == '"' ensures 0 < i && r[i - 1] == '\\' {
          if i >= |head| {
            assert r[i] == rest[i - |head|];
            if i - |head| > 0 {
              assert r[i - 1] == rest[i - |head| - 1];
            }
          }
        }
      }
      r
  }

  /** Reads a backslash-quote pair back as a quote. */
  function UnescapeQuotes(s: string): (r: string)
    ensures |r| <= |s|
  {
    if s == [] then []
    else if |s| >= 2 && s[0] == '\\' && s[1] == '"' then ['"'] + UnescapeQuotes(s[2..])
    else [s[0]] + UnescapeQuotes(s[1..])
  }

  /** The escaping loses nothing: undoing it gives back the address, backslashes included. */
  lemma {:induction false} EscapeQuotesRoundTrip(s: string)
    ensures UnescapeQuotes(EscapeQuotes(s)) == s
  {
    if s != [] {
      var rest := EscapeQuotes(s[1..]);
      EscapeQuotesRoundTrip(s[1..]);
      if s[0] == '"' {
        assert EscapeQuotes(s) == ['\\', '"'] + rest;
        assert (['\\', '"'] + rest)[2..] == rest;
      } else {
        assert EscapeQuotes(s) == [s[0]] + rest;
        assert ([s[0]] + rest)[1..] == rest;
      }
      assert s == [s[0]] + s[1..];
    }
  }

  /** What handleBuy does: send the user to the login page, ask for an address, or send the
      createOrder request with the product id, the quantity and the escaped address. */
  datatype BuyAction =
    | RedirectToLogin                       // "Silakan login terlebih dahulu untuk membeli."
    | AddressRequired                       // "Mohon isi alamat pengiriman terlebih dahulu"
    | SendOrder(productId: string, quantity: int, alamatPengiriman: string)

  /** handleBuy's guards, in order: a user, then a non-blank address. */
  function BuyDecision(loggedIn: bool, productId: string, quantity: int, alamat: string): (a: BuyAction)
    ensures !loggedIn ==> a == RedirectToLogin
    ensures loggedIn && IsBlank(alamat) ==> a == AddressRequired
    ensures a.SendOrder? <==> loggedIn && !IsBlank(alamat)
    ensures a.SendOrder? ==> a == SendOrder(productId, quantity, EscapeQuotes(alamat))
  {
    if !loggedIn then RedirectToLogin
    else if IsBlank(alamat) then AddressRequired
    else SendOrder(productId, quantity, EscapeQuotes(alamat))
  }

  /** `alamatPengiriman.trim().length > 0`: the address holds some character that is not
      white space. */
  function IsFormValid(alamat: string): (b: bool)
    ensures b <==> !AllWhitespace(alamat)
    ensures b <==> !IsBlank(alamat)
  {
    BlankIffAllWhitespace(alamat);
    |Trim(alamat)| > 0
  }

  /** `product.stok > 0` */
  function IsStockAvailable(stok: int): (b: bool)
    ensures b <==> stok >= 1
  {
    stok > 0
  }

  /** The buy button is enabled exactly when the form is valid, no request is in flight and
      there is stock. */
  function BuyEnabled(alamat: string, isLoading: bool, stok: int): (b: bool)
    ensures b <==> !IsBlank(alamat) && !isLoading && stok >= 1
  {
    IsFormValid(alamat) && !isLoading && IsStockAvailable(stok)
  }

  /** A logged-in user gets a request sent exactly when the form is valid. */
  lemma FormValidIffRequestSent(productId: string, quantity: int, alamat: string)
    ensures BuyDecision(true, productId, quantity, alamat).SendOrder? <==> IsFormValid(alamat)
  {
  }

  /** An enabled buy button, pressed by a logged-in user with a quantity the page accepts,
      sends the order, and the stock covers that quantity: the order service's stock check
      passes for the stock the page shows. */
  lemma EnabledBuySendsCoveredQuantity(productId: string, q: int, alamat: string, isLoading: bool, stok: int)
    requires QuantityOk(q, stok)
    requires BuyEnabled(alamat, isLoading, stok)
    ensures BuyDecision(true, productId, q, alamat) == SendOrder(productId, q, EscapeQuotes(alamat))
    ensures 1 <= q <= stok
  {
  }

  /** With no stock the stepper's bound is 999, but the buy button stays disabled. */
  lemma NoStockDisablesBuy(alamat: string, isLoading: bool)
    ensures MaxQuantity(0) == FallbackMax
    ensures !BuyEnabled(alamat, isLoading, 0)
  {
  }

  /** The state of one product page. */
  class ProductPage {
    const productId: string
    const stok: int
    var quantity: int
    var alamatPengiriman: string
    var isLoading: bool

    ghost predicate Valid()
      reads this
    {
      QuantityOk(quantity, stok)
    }

    constructor (productId: string, stok: int)
      ensures Valid()
      ensures this.productId == productId && this.stok == stok
      ensures quantity == 1 && alamatPengiriman == "" && !isLoading
    {
      this.productId, this.stok := productId, stok;
      quantity, alamatPengiriman, isLoading := 1, "", false;
    }

    /** The address the map lookup writes into the read-only text area. */
    method SetAlamat(alamat: string)
      requires Valid()
      modifies this`alamatPengiriman
      ensures Valid() && alamatPengiriman == alamat
    {
      alamatPengiriman := alamat;
    }

    /** handleQuantityChange(delta) */
    method HandleQuantityChange(delta: int)
      requires Valid()
      modifies this`quantity
      ensures Valid()
      ensures quantity == Stepped(old(quantity), delta, stok)
    {
      var newQuantity := quantity + delta;
      if newQuantity >= 1 && newQuantity <= MaxQuantity(stok) {
        quantity := newQuantity;
      }
    }

    /** The number input's onChange, with `parseInt` of the typed text passed in. */
    method OnQuantityInput(parsed: Option<int>)
      requires Valid()
      modifies this`quantity
      ensures Valid()
      ensures quantity == Typed(old(quantity), parsed, stok)
    {
      var val := ParsedOrOne(parsed);
      var maxStock := MaxQuantity(stok);
      if val >= 1 && val <= maxStock {
        quantity := val;
      }
    }

    /** handleBuy up to the request: raises isLoading only when the request is sent. */
    method HandleBuy(loggedIn: bool) returns (a: BuyAction)
      requires Valid()
      modifies this`isLoading
      ensures Valid()
      ensures a == BuyDecision(loggedIn, productId, quantity, alamatPengiriman)
      ensures isLoading == (a.SendOrder? || old(isLoading))
    {
      if !loggedIn {
        return RedirectToLogin;
      }
      if IsBlank(alamatPengiriman) {
        return AddressRequired;
      }
      isLoading := true;
      a := SendOrder(productId, quantity, EscapeQuotes(alamatPengiriman));
    }

    /** The `finally` of handleBuy: whatever the response, isLoading drops. */
    method FinishBuy()
      requires Valid()
      modifies this`isLoading
      ensures Valid() && !isLoading
    {
      isLoading := false;
    }
  }
}
