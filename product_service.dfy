/** The product service: the `products` table, the SKU rule of addProduct, the English
    column names renamed to the Indonesian GraphQL fields, and the one-time seed. */
module ProductService {
  import opened Common

  /** A row of the `products` table. */
  datatype ProductRow = ProductRow(
    id: nat, sku: string, name: string, description: Option<string>, price: int,
    stockQuantity: int, weightInGrams: int, category: Option<string>)

  /** The GraphQL `Product`. */
  datatype Product = Product(
    id: string, namaProduk: string, harga: int, stok: int, berat: int,
    description: Option<string>, category: Option<string>)

  /** The GraphQL `ProductInput`. */
  datatype ProductInput = ProductInput(
    namaProduk: string, harga: int, stok: int, berat: int,
    description: Option<string>, category: Option<string>, sku: Option<string>)

  datatype ProductError =
    | SkuSudahTerdaftar   // "SKU sudah terdaftar. Silakan gunakan SKU lain."

  /** `s || null`: an absent or empty string becomes null. */
  function OrNull(s: Option<string>): (r: Option<string>)
    ensures r.Some? <==> s.Some? && s.value != ""
    ensures r.Some? ==> r == s
  {
    if s.Some? && s.value != "" then s else None
  }

  /** mapDbToGraphQL: name -> namaProduk, price -> harga, stock_quantity -> stok,
      weight_in_grams -> berat; an empty description or category reads as null. */
  function ToProduct(row: ProductRow): (p: Product)
    ensures p.id == NatToString(row.id)
    ensures p.namaProduk == row.name && p.harga == row.price
    ensures p.stok == row.stockQuantity && p.berat == row.weightInGrams
    ensures p.description == OrNull(row.description) && p.category == OrNull(row.category)
  {
    Product(NatToString(row.id), row.name, row.price, row.stockQuantity, row.weightInGrams,
            OrNull(row.description), OrNull(row.category))
  }

  /** `SKU-${Date.now()}` with the clock reading passed in. */
  function GeneratedSku(now: nat): (sku: string)
    ensures !IsBlank(sku)
  {
    var sku := "SKU-" + NatToString(now);
    BlankIffAllWhitespace(sku);
    assert !IsJsWhitespace(sku[0]);
    sku
  }

  /** The SKU addProduct inserts: the given one, unless it is missing, empty or only
      whitespace, in which case a generated one. A given SKU is kept untrimmed. */
  function EffectiveSku(given: Option<string>, now: nat): (sku: string)
    ensures !IsBlank(sku)
    ensures given.Some? && !IsBlank(given.value) ==> sku == given.value
    ensures given.None? || IsBlank(given.value) ==> sku == GeneratedSku(now)
  {
    if given.None? || given.value == "" || IsBlank(given.value) then GeneratedSku(now) else given.value
  }

  /** The row addProduct inserts under `id`. */
  function NewRow(id: nat, sku: string, input: ProductInput): ProductRow
  {
    ProductRow(id, sku, input.namaProduk, OrNull(input.description), input.harga,
               input.stok, input.berat, OrNull(input.category))
  }

  /** The mapping undoes the renaming of addProduct: what addProduct returns carries the
      input's name, price, stock and weight, and its description and category with an empty
      one read as null. */
  lemma AddedProductEchoesInput(id: nat, sku: string, input: ProductInput)
    ensures var p := ToProduct(NewRow(id, sku, input));
            && p.namaProduk == input.namaProduk && p.harga == input.harga
            && p.stok == input.stok && p.berat == input.berat
            && p.description == OrNull(input.description) && p.category == OrNull(input.category)
            && p.id == NatToString(id)
  {
  }

  predicate SkuTaken(rows: seq<ProductRow>, sku: string)
  {
    exists i | 0 <= i < |rows| :: rows[i].sku == sku
  }

  predicate SkusUnique(rows: seq<ProductRow>)
  {
    forall i, j | 0 <= i < j < |rows| :: rows[i].sku != rows[j].sku
  }

  /** `SELECT * FROM products WHERE id = ?` */
  function FindProduct(rows: seq<ProductRow>, id: int): (r: Option<ProductRow>)
    ensures r.None? <==> forall row | row in rows :: row.id != id
    ensures r.Some? ==> r.value in rows && r.value.id == id
  {
    if rows == [] then None
    else if rows[0].id == id then Some(rows[0])
    else FindProduct(rows[1..], id)
  }

  const IphoneDescription: string :=
    "iPhone 15 dengan chip A17 Pro, kamera 48MP, dan desain titanium premium."
  const MacbookDescription: string :=
    "Macbook Pro dengan chip M3 Pro, layar Liquid Retina XDR 14 inch, dan performa tinggi untuk profesional."
  const MouseDescription: string :=
    "Mouse wireless ergonomis dengan koneksi Bluetooth, baterai tahan lama, dan presisi tinggi."

  /** The SKU of the k-th seeded product: consecutive clock readings. */
  function SeedSku(now: nat, k: nat): string
  {
    "SKU-" + NatToString(now + k)
  }

  /** The three products inserted into an empty table. */
  function SeedInputs(now: nat): (inputs: seq<ProductInput>)
    ensures |inputs| == 3
    ensures forall k | 0 <= k < 3 :: inputs[k].sku == Some(SeedSku(now, k))
  {
    [ProductInput("iPhone 15", 15000000, 50, 171, Some(IphoneDescription), Some("HP"), Some(SeedSku(now, 0))),
     ProductInput("Macbook Pro", 25000000, 30, 1600, Some(MacbookDescription), Some("Komputer"), Some(SeedSku(now, 1))),
     ProductInput("Mouse Wireless", 250000, 100, 85, Some(MouseDescription), Some("Komputer"), Some(SeedSku(now, 2)))]
  }

  /** The seeded SKUs are pairwise different. */
  lemma SeedSkusDistinct(now: nat, k: nat, m: nat)
    requires k != m
    ensures SeedSku(now, k) != SeedSku(now, m)
  {
    var a, b := SeedSku(now, k), SeedSku(now, m);
    if a == b {
      assert NatToString(now + k) == a[4..] == b[4..] == NatToString(now + m);
      NatToStringInjective(now + k, now + m);
    }
  }

  /** Ids increase in insertion order and stay below the counter; the UNIQUE constraint
      keeps SKUs pairwise different. */
  ghost predicate TableValid(rows: seq<ProductRow>, nextId: nat)
  {
    && 1 <= nextId
    && (forall i, j | 0 <= i < j < |rows| :: rows[i].id < rows[j].id)
    && (forall i | 0 <= i < |rows| :: rows[i].id < nextId)
    && SkusUnique(rows)
  }

  /** Inserting a row under the counter with an untaken SKU keeps the table valid. */
  lemma InsertKeepsTableValid(rows: seq<ProductRow>, nextId: nat, sku: string, input: ProductInput)
    requires TableValid(rows, nextId) && !SkuTaken(rows, sku)
    ensures TableValid(rows + [NewRow(nextId, sku, input)], nextId + 1)
  {
    var rows' := rows + [NewRow(nextId, sku, input)];
    forall i, j | 0 <= i < j < |rows'| ensures rows'[i].sku != rows'[j].sku {
      if j == |rows| {
        assert rows'[i] == rows[i];
      }
    }
  }

  /** The `products` table and its AUTOINCREMENT counter. */
  class ProductStore {
    var rows: seq<ProductRow>
    var nextId: nat

    /** Ids increase in insertion order and stay below the counter; the UNIQUE constraint
        keeps SKUs pairwise different. */
    ghost predicate Valid()
      reads this
    {
      TableValid(rows, nextId)
    }

    constructor ()
      ensures Valid() && rows == [] && nextId == 1
    {
      rows, nextId := [], 1;
    }

    /** addProduct: inserts the product under the effective SKU and returns it mapped, or
        fails with "SKU sudah terdaftar" and inserts nothing when that SKU is taken. */
    method AddProduct(input: ProductInput, now: nat) returns (r: Result<Product, ProductError>)
      requires Valid()
      modifies this
      ensures Valid()
      ensures var sku := EffectiveSku(input.sku, now);
              if SkuTaken(old(rows), sku) then
                r == Failure(SkuSudahTerdaftar) && rows == old(rows) && nextId == old(nextId)
              else
                && rows == old(rows) + [NewRow(old(nextId), sku, input)]
                && nextId == old(nextId) + 1
                && r == Success(ToProduct(NewRow(old(nextId), sku, input)))
    {
      var sku := if input.sku.Some? then input.sku.value else "";
      if sku == "" || IsBlank(sku) {
        sku := GeneratedSku(now);
      }
      if SkuTaken(rows, sku) {
        return Failure(SkuSudahTerdaftar);
      }
      var row := NewRow(nextId, sku, input);
      InsertKeepsTableValid(rows, nextId, sku, input);
      rows := rows + [row];
      nextId := nextId + 1;
      r := Success(ToProduct(row));
    }

    /** initDatabase's seed: the three products, only when the table is empty. */
    method SeedIfEmpty(now: nat)
      requires Valid()
      modifies this
      ensures Valid()
      ensures old(rows) != [] ==> rows == old(rows) && nextId == old(nextId)
      ensures old(rows) == [] ==>
                && |rows| == 3 && nextId == old(nextId) + 3
                && forall k | 0 <= k < 3 ::
                     rows[k] == NewRow(old(nextId) + k, SeedInputs(now)[k].sku.value, SeedInputs(now)[k])
    {
      if rows != [] {
        return;
      }
      var seed := SeedInputs(now);
      var k := 0;
      while k < |seed|
        invariant 0 <= k <= |seed|
        invariant nextId == old(nextId) + k && |rows| == k
        invariant forall i | 0 <= i < k :: rows[i] == NewRow(old(nextId) + i, seed[i].sku.value, seed[i])
        invariant Valid()
      {
        forall i | 0 <= i < k
          ensures rows[i].sku != seed[k].sku.value
        {
          SeedSkusDistinct(now, i, k);
        }
        InsertKeepsTableValid(rows, nextId, seed[k].sku.value, seed[k]);
        rows := rows + [NewRow(nextId, seed[k].sku.value, seed[k])];
        nextId := nextId + 1;
        k := k + 1;
      }
    }

    /** getProduct: null for an unknown id. */
    function GetProduct(id: int): (r: Option<Product>)
      reads this
      ensures r.None? <==> forall row | row in rows :: row.id != id
      ensures r.Some? ==> exists row | row in rows :: row.id == id && r.value == ToProduct(row)
    {
      match FindProduct(rows, id)
      case None => None
      case Some(row) => Some(ToProduct(row))
    }

    /** getProducts: every product, newest first. */
    function GetProducts(): (r: seq<Product>)
      reads this
      ensures |r| == |rows|
      ensures forall k | 0 <= k < |r| :: r[k] == ToProduct(rows[|rows| - 1 - k])
    {
      var newestFirst := Reverse(rows);
      seq(|newestFirst|, k requires 0 <= k < |newestFirst| => ToProduct(newestFirst[k]))
    }
  }
}
