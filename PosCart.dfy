/**
 * The cashier screen's local cart: adding products (by click or by barcode),
 * changing and removing lines, the derived total and change, and the guards
 * that run before a checkout is sent to the remote service.
 */
module PosCart {
  import opened Wrappers
  import opened Backend
  import opened Pricing
  import Seqs
  import Text

  /** One cart entry: the product as it was when added, and how many units. */
  datatype CartLine = CartLine(product: Product, quantity: int)

  /** What a checkout sends: one add-to-cart call per line, in cart order, then the payment. */
  datatype CheckoutRequest = CheckoutRequest(items: seq<(int, int)>, paymentMethod: string, cashReceived: int)

  const Cash := "Tunai"

  const OutOfStockMessage := "Produk habis"
  const InsufficientStockMessage := "Stok tidak cukup"
  const ProductsNotLoadedMessage := "Produk belum dimuat"
  const EmptyCartMessage := "Keranjang kosong"
  const NoPaymentMethodMessage := "Pilih metode pembayaran"
  const UnderpaidMessage := "Uang yang dibayar kurang dari total"
  const CheckoutFailedMessage := "Checkout gagal. Silakan coba lagi."

  function SkuNotFoundMessage(sku: string): string { "SKU \"" + sku + "\" tidak ditemukan" }
  function ProductOutOfStockMessage(name: string): string { "Produk \"" + name + "\" habis" }
  function ProductInsufficientStockMessage(name: string): string { "Stok \"" + name + "\" tidak cukup" }

  // ---------------------------------------------------------------------------
  // Cart values
  // ---------------------------------------------------------------------------

  /** No two lines for the same product, and every line holds at least one unit. */
  predicate WellFormed(cart: seq<CartLine>)
  {
    && (forall i, j :: 0 <= i < j < |cart| ==> cart[i].product.id != cart[j].product.id)
    && (forall i :: 0 <= i < |cart| ==> cart[i].quantity >= 1)
  }

  /** Every line asks for no more than the stock of the product it holds. */
  predicate WithinStock(cart: seq<CartLine>)
  {
    forall i :: 0 <= i < |cart| ==> cart[i].quantity <= cart[i].product.stock
  }

  /** `cart.find(item => item.product.id === id)`. */
  function FindLine(cart: seq<CartLine>, id: int): (r: Option<CartLine>)
    ensures r.None? <==> forall i :: 0 <= i < |cart| ==> cart[i].product.id != id
    ensures r.Some? ==> r.value in cart && r.value.product.id == id
  {
    if cart == [] then None
    else if cart[0].product.id == id then Some(cart[0])
    else FindLine(cart[1..], id)
  }

  /** In a well-formed cart the line found for a product is the one at its position. */
  lemma {:induction false} FindLineAt(cart: seq<CartLine>, id: int, k: int)
    requires WellFormed(cart) && 0 <= k < |cart| && cart[k].product.id == id
    ensures FindLine(cart, id) == Some(cart[k])
  {
    if k > 0 {
      assert cart[0].product.id != id;
      FindLineAt(cart[1..], id, k - 1);
    }
  }

  /** The units of product `id` in the cart, zero when it has no line. */
  function QuantityInCart(cart: seq<CartLine>, id: int): int
  {
    match FindLine(cart, id)
    case Some(line) => line.quantity
    case None => 0
  }

  /** The stock allows one more unit of `product` on top of what the cart already holds. */
  predicate CanAdd(cart: seq<CartLine>, product: Product)
  {
    QuantityInCart(cart, product.id) + 1 <= product.stock
  }

  /** The cart with one more unit of `product`: its line bumped, or a new one-unit line at the end. */
  function AddOne(cart: seq<CartLine>, product: Product): (r: seq<CartLine>)
    ensures |cart| <= |r| <= |cart| + 1
    ensures forall i :: 0 <= i < |cart| && cart[i].product.id != product.id ==> r[i] == cart[i]
    ensures FindLine(cart, product.id).None? ==> r == cart + [CartLine(product, 1)]
    ensures WellFormed(cart) ==> WellFormed(r) && QuantityInCart(r, product.id) == QuantityInCart(cart, product.id) + 1
  {
    match FindLine(cart, product.id)
    case None =>
      var r := cart + [CartLine(product, 1)];
      assert WellFormed(cart) ==> WellFormed(r) && QuantityInCart(r, product.id) == 1 by {
        if WellFormed(cart) {
          AppendNewLine(cart, product);
        }
      }
      r
    case Some(line) =>
      var r := SetQuantity(cart, product.id, line.quantity + 1);
      assert WellFormed(cart) ==> WellFormed(r) && QuantityInCart(r, product.id) == line.quantity + 1 by {
        if WellFormed(cart) {
          BumpLine(cart, product.id, line);
        }
      }
      r
  }

  /**
   * Adding a product that already has a line, at `k`, in a well-formed cart
   * raises that line's quantity by exactly one, in place: no line is added,
   * the line keeps the product record it holds and every other line stays.
   */
  lemma {:induction false} AddOneAt(cart: seq<CartLine>, product: Product, k: int)
    requires WellFormed(cart) && 0 <= k < |cart| && cart[k].product.id == product.id
    ensures AddOne(cart, product) == cart[k := cart[k].(quantity := cart[k].quantity + 1)]
  {
    FindLineAt(cart, product.id, k);
    var r := SetQuantity(cart, product.id, cart[k].quantity + 1);
    assert r[k].product == cart[k].product && r[k].quantity == cart[k].quantity + 1;
    assert |AddOne(cart, product)| == |cart|;
    assert forall i :: 0 <= i < |cart| && i != k ==> AddOne(cart, product)[i] == cart[i];
    SameLines(AddOne(cart, product), cart[k := cart[k].(quantity := cart[k].quantity + 1)]);
  }

  /** Two carts with the same lines at every position are the same cart. */
  lemma SameLines(a: seq<CartLine>, b: seq<CartLine>)
    requires |a| == |b| && forall i :: 0 <= i < |a| ==> a[i] == b[i]
    ensures a == b
  {
  }

  /**
   * One more unit of a product the stock allows keeps every line within the
   * stock it records, provided the product's existing line records the same stock.
   */
  lemma AddOneWithinStock(cart: seq<CartLine>, product: Product)
    requires WellFormed(cart) && CanAdd(cart, product)
    ensures WithinStock(cart) &&
            (forall i :: 0 <= i < |cart| && cart[i].product.id == product.id ==> cart[i].product.stock == product.stock)
            ==> WithinStock(AddOne(cart, product))
  {
    if WithinStock(cart) &&
       (forall i :: 0 <= i < |cart| && cart[i].product.id == product.id ==> cart[i].product.stock == product.stock) {
      match FindLine(cart, product.id) {
        case None =>
          AppendWithinStock(cart, product);
        case Some(line) =>
          BumpWithinStock(cart, product, line);
      }
    }
  }

  lemma AppendWithinStock(cart: seq<CartLine>, product: Product)
    requires WithinStock(cart) && 1 <= product.stock
    ensures WithinStock(cart + [CartLine(product, 1)])
  {
    var r := cart + [CartLine(product, 1)];
    forall i | 0 <= i < |r| ensures r[i].quantity <= r[i].product.stock {
      if i < |cart| {
        assert r[i] == cart[i];
      }
    }
  }

  lemma BumpWithinStock(cart: seq<CartLine>, product: Product, line: CartLine)
    requires WellFormed(cart) && WithinStock(cart) && FindLine(cart, product.id) == Some(line)
    requires line.quantity + 1 <= product.stock
    requires forall i :: 0 <= i < |cart| && cart[i].product.id == product.id ==> cart[i].product.stock == product.stock
    ensures WithinStock(SetQuantity(cart, product.id, line.quantity + 1))
  {
    var r := SetQuantity(cart, product.id, line.quantity + 1);
    forall i | 0 <= i < |r| ensures r[i].quantity <= r[i].product.stock {
      assert r[i].product == cart[i].product;
    }
  }

  /** A product without a line, appended with one unit, keeps the cart well-formed and holds one unit. */
  lemma AppendNewLine(cart: seq<CartLine>, product: Product)
    requires WellFormed(cart) && FindLine(cart, product.id).None?
    ensures WellFormed(cart + [CartLine(product, 1)])
    ensures QuantityInCart(cart + [CartLine(product, 1)], product.id) == 1
  {
    FindLineLast(cart, product);
    var r := cart + [CartLine(product, 1)];
    forall i, j | 0 <= i < j < |r| ensures r[i].product.id != r[j].product.id {
      if j == |cart| {
        assert r[i] == cart[i];
      } else {
        assert r[i] == cart[i] && r[j] == cart[j];
      }
    }
  }

  /** Raising the quantity of a product's line by one keeps the cart well-formed and adds one unit. */
  lemma BumpLine(cart: seq<CartLine>, id: int, line: CartLine)
    requires WellFormed(cart) && FindLine(cart, id) == Some(line)
    ensures WellFormed(SetQuantity(cart, id, line.quantity + 1))
    ensures QuantityInCart(SetQuantity(cart, id, line.quantity + 1), id) == line.quantity + 1
  {
    var r := SetQuantity(cart, id, line.quantity + 1);
    var k := LineIndex(cart, id);
    FindLineAt(cart, id, k);
    assert WellFormed(r);
    FindLineAt(r, id, k);
  }

  /** `cart.map(item => item.product.id === id ? { ...item, quantity } : item)`. */
  function SetQuantity(cart: seq<CartLine>, id: int, quantity: int): (r: seq<CartLine>)
    ensures |r| == |cart|
    ensures forall i :: 0 <= i < |r| ==> r[i].product == cart[i].product
    ensures forall i :: 0 <= i < |r| ==>
              r[i].quantity == if cart[i].product.id == id then quantity else cart[i].quantity
  {
    if cart == [] then []
    else
      var line := if cart[0].product.id == id then cart[0].(quantity := quantity) else cart[0];
      [line] + SetQuantity(cart[1..], id, quantity)
  }

  /** The new form of one line under a change of `delta` units of product `id`; `None` drops it. */
  function Adjusted(line: CartLine, id: int, delta: int): Option<CartLine>
  {
    if line.product.id != id then Some(line)
    else
      var quantity := line.quantity + delta;
      if quantity <= 0 then None
      else if quantity > line.product.stock then Some(line)
      else Some(line.(quantity := quantity))
  }

  /** The products that have a line in `cart`. */
  ghost function Ids(cart: seq<CartLine>): set<int>
  {
    set i | 0 <= i < |cart| :: cart[i].product.id
  }

  /** A cart with a line in front: its products, and when it is well formed and within stock. */
  lemma LineCons(line: CartLine, rest: seq<CartLine>)
    ensures Ids([line] + rest) == {line.product.id} + Ids(rest)
    ensures WellFormed([line] + rest) <==> WellFormed(rest) && line.product.id !in Ids(rest) && line.quantity >= 1
    ensures WithinStock([line] + rest) <==> WithinStock(rest) && line.quantity <= line.product.stock
  {
    IdsCons(line, rest);
    WellFormedCons(line, rest);
    WithinStockCons(line, rest);
  }

  lemma WellFormedCons(line: CartLine, rest: seq<CartLine>)
    ensures WellFormed([line] + rest) <==> WellFormed(rest) && line.product.id !in Ids(rest) && line.quantity >= 1
  {
    var c := [line] + rest;
    if WellFormed(c) {
      forall i, j | 0 <= i < j < |rest| ensures rest[i].product.id != rest[j].product.id {
        assert c[i + 1] == rest[i] && c[j + 1] == rest[j];
      }
      forall i | 0 <= i < |rest| ensures rest[i].quantity >= 1 {
        assert c[i + 1] == rest[i];
      }
      forall i | 0 <= i < |rest| ensures rest[i].product.id != line.product.id {
        assert c[0] == line && c[i + 1] == rest[i];
      }
      assert c[0] == line;
    }
    if WellFormed(rest) && line.product.id !in Ids(rest) && line.quantity >= 1 {
      forall i, j | 0 <= i < j < |c| ensures c[i].product.id != c[j].product.id {
        assert c[j] == rest[j - 1];
        if i == 0 {
          assert rest[j - 1].product.id in Ids(rest);
        } else {
          assert c[i] == rest[i - 1];
        }
      }
      forall i | 0 <= i < |c| ensures c[i].quantity >= 1 {
        if i > 0 {
          assert c[i] == rest[i - 1];
        }
      }
    }
  }

  lemma WithinStockCons(line: CartLine, rest: seq<CartLine>)
    ensures WithinStock([line] + rest) <==> WithinStock(rest) && line.quantity <= line.product.stock
  {
    var c := [line] + rest;
    if WithinStock(c) {
      forall i | 0 <= i < |rest| ensures rest[i].quantity <= rest[i].product.stock {
        assert c[i + 1] == rest[i];
      }
      assert c[0] == line;
    }
    if WithinStock(rest) && line.quantity <= line.product.stock {
      forall i | 0 <= i < |c| ensures c[i].quantity <= c[i].product.stock {
        if i > 0 {
          assert c[i] == rest[i - 1];
        }
      }
    }
  }

  lemma {:induction false} IdsCons(line: CartLine, rest: seq<CartLine>)
    ensures Ids([line] + rest) == {line.product.id} + Ids(rest)
  {
    var c := [line] + rest;
    assert c[0] == line;
    forall x | x in Ids(rest) ensures x in Ids(c) {
      var i :| 0 <= i < |rest| && rest[i].product.id == x;
      assert c[i + 1] == rest[i];
    }
    forall x | x in Ids(c) ensures x == line.product.id || x in Ids(rest) {
      var i :| 0 <= i < |c| && c[i].product.id == x;
      if i > 0 { assert rest[i - 1] == c[i]; }
    }
  }

  /** The lines of `cart` adjusted one by one, dropping those that became empty (the `map` then `filter`). */
  function ChangeQuantity(cart: seq<CartLine>, id: int, delta: int): (r: seq<CartLine>)
    ensures |r| <= |cart|
    ensures Ids(r) <= Ids(cart)
    ensures WellFormed(cart) ==> WellFormed(r)
    ensures WithinStock(cart) ==> WithinStock(r)
  {
    if cart == [] then []
    else
      var rest := ChangeQuantity(cart[1..], id, delta);
      assert cart == [cart[0]] + cart[1..];
      LineCons(cart[0], cart[1..]);
      match Adjusted(cart[0], id, delta)
      case None => rest
      case Some(line) =>
        LineCons(line, rest);
        [line] + rest
  }

  /** Every line that is not for product `id`. */
  function OtherThan(id: int): CartLine -> bool
  {
    (line: CartLine) => line.product.id != id
  }

  /** `cart.filter(item => item.product.id !== id)`. */
  function RemoveLines(cart: seq<CartLine>, id: int): (r: seq<CartLine>)
    ensures forall i :: 0 <= i < |r| ==> r[i].product.id != id
    ensures WellFormed(cart) ==> WellFormed(r)
    ensures WithinStock(cart) ==> WithinStock(r)
  {
    var r := Seqs.Filter(cart, OtherThan(id));
    assert forall l :: l in r ==> l in cart && l.product.id != id;
    assert WellFormed(cart) ==> WellFormed(r) by {
      if WellFormed(cart) {
        forall i, j | 0 <= i < j < |r| ensures r[i].product.id != r[j].product.id {
          SubsequenceDistinctIds(r, cart, i, j);
        }
      }
    }
    r
  }

  /** Two positions of a subsequence of a well-formed cart hold different products. */
  lemma {:induction false} SubsequenceDistinctIds(r: seq<CartLine>, cart: seq<CartLine>, i: int, j: int)
    requires WellFormed(cart) && Seqs.IsSubsequence(r, cart) && 0 <= i < j < |r|
    ensures r[i].product.id != r[j].product.id
  {
    assert r != [] && cart != [];
    if r[0] == cart[0] {
      if i == 0 {
        assert r[j] in r[1..];
        Seqs.SubsequenceMember(r[1..], cart[1..], r[j]);
        var k :| 0 <= k < |cart[1..]| && cart[1..][k] == r[j];
        assert cart[k + 1] == r[j];
      } else {
        SubsequenceDistinctIds(r[1..], cart[1..], i - 1, j - 1);
      }
    } else {
      SubsequenceDistinctIds(r, cart[1..], i, j);
    }
  }

  /** The sum of the line totals, `reduce((sum, item) => sum + lineTotal, 0)`. */
  function CartTotal(cart: seq<CartLine>): int
  {
    if cart == [] then 0
    else CartTotal(cart[..|cart| - 1]) + CalculateLineTotal(cart[|cart| - 1].product, cart[|cart| - 1].quantity)
  }

  /** The total of two carts side by side is the sum of their totals. */
  lemma {:induction false} CartTotalAppend(a: seq<CartLine>, b: seq<CartLine>)
    ensures CartTotal(a + b) == CartTotal(a) + CartTotal(b)
  {
    if b == [] {
      assert a + b == a;
    } else {
      assert (a + b)[..|a + b| - 1] == a + b[..|b| - 1];
      CartTotalAppend(a, b[..|b| - 1]);
    }
  }

  /** The total of a cart is the total of each line, in whatever positions they are split. */
  lemma {:induction false} CartTotalSplit(cart: seq<CartLine>, k: int)
    requires 0 <= k < |cart|
    ensures CartTotal(cart) ==
            CartTotal(cart[..k]) + CalculateLineTotal(cart[k].product, cart[k].quantity) + CartTotal(cart[k + 1..])
  {
    assert cart == cart[..k] + [cart[k]] + cart[k + 1..];
    CartTotalAppend(cart[..k] + [cart[k]], cart[k + 1..]);
    CartTotalAppend(cart[..k], [cart[k]]);
    assert CartTotal([cart[k]]) == CalculateLineTotal(cart[k].product, cart[k].quantity) by {
      assert [cart[k]][..0] == [];
    }
  }

  /** A cart of non-negatively priced products has a non-negative total. */
  lemma {:induction false} CartTotalNonNegative(cart: seq<CartLine>)
    requires forall i :: 0 <= i < |cart| ==> cart[i].quantity >= 0 && cart[i].product.price >= 0
    requires forall i, j :: 0 <= i < |cart| && 0 <= j < |cart[i].product.tiers| ==> cart[i].product.tiers[j].totalPrice >= 0
    ensures CartTotal(cart) >= 0
  {
    if cart != [] {
      CartTotalNonNegative(cart[..|cart| - 1]);
      LineTotalNonNegative(cart[|cart| - 1].product, cart[|cart| - 1].quantity);
    }
  }

  /** The change shown to the cashier: nothing unless paying cash, never negative. */
  function ChangeAmount(paymentMethod: string, cashReceived: int, total: int): (r: int)
    ensures r >= 0
    ensures paymentMethod != Cash ==> r == 0
    ensures paymentMethod == Cash && cashReceived >= total ==> total + r == cashReceived
    ensures paymentMethod == Cash && cashReceived <= total ==> r == 0
  {
    if paymentMethod != Cash then 0
    else if cashReceived - total > 0 then cashReceived - total else 0
  }

  /** `products.find(p => p.sku && lower(p.sku) === lower(sku))`, with the case folding given as `lower`. */
  function FindBySku(products: seq<Product>, sku: string, lower: string -> string): (r: Option<Product>)
    ensures r.None? <==> forall i :: 0 <= i < |products| ==> !SkuMatches(products[i], sku, lower)
    ensures r.Some? ==> r.value in products && SkuMatches(r.value, sku, lower)
    ensures forall k :: FirstSkuMatch(products, sku, lower, k) ==> r == Some(products[k])
  {
    if products == [] then None
    else if SkuMatches(products[0], sku, lower) then Some(products[0])
    else
      var r := FindBySku(products[1..], sku, lower);
      assert forall k :: FirstSkuMatch(products, sku, lower, k) ==> FirstSkuMatch(products[1..], sku, lower, k - 1);
      r
  }

  /** `k` is the position of the first product whose SKU matches. */
  predicate FirstSkuMatch(products: seq<Product>, sku: string, lower: string -> string, k: int)
  {
    0 <= k < |products| && SkuMatches(products[k], sku, lower) &&
    forall j :: 0 <= j < k ==> !SkuMatches(products[j], sku, lower)
  }

  predicate SkuMatches(p: Product, sku: string, lower: string -> string)
  {
    p.sku.Some? && p.sku.value != "" && lower(p.sku.value) == lower(sku)
  }

  // ---------------------------------------------------------------------------
  // Positional facts about the updaters on a well-formed cart
  // ---------------------------------------------------------------------------

  /** Bumping the line of a product changes that line's quantity and nothing else. */
  lemma {:induction false} SetQuantityAt(cart: seq<CartLine>, k: int, quantity: int)
    requires WellFormed(cart) && 0 <= k < |cart|
    ensures SetQuantity(cart, cart[k].product.id, quantity) == cart[k := cart[k].(quantity := quantity)]
  {
  }

  /** Removing a product that has a line deletes exactly that line and keeps the others in order. */
  lemma {:induction false} RemoveLinesAt(cart: seq<CartLine>, k: int)
    requires WellFormed(cart) && 0 <= k < |cart|
    ensures RemoveLines(cart, cart[k].product.id) == cart[..k] + cart[k + 1..]
  {
    var id := cart[k].product.id;
    assert cart == cart[..k] + [cart[k]] + cart[k + 1..];
    Seqs.FilterAppend(cart[..k] + [cart[k]], cart[k + 1..], OtherThan(id));
    Seqs.FilterAppend(cart[..k], [cart[k]], OtherThan(id));
    Seqs.FilterAll(cart[..k], OtherThan(id));
    Seqs.FilterAll(cart[k + 1..], OtherThan(id));
    assert Seqs.Filter([cart[k]], OtherThan(id)) == [];
  }

  /** Removing a product that has no line leaves the cart as it is. */
  lemma {:induction false} RemoveLinesAbsent(cart: seq<CartLine>, id: int)
    requires forall i :: 0 <= i < |cart| ==> cart[i].product.id != id
    ensures RemoveLines(cart, id) == cart
  {
    Seqs.FilterAll(cart, OtherThan(id));
  }

  lemma {:induction false} ChangeQuantityAppend(a: seq<CartLine>, b: seq<CartLine>, id: int, delta: int)
    ensures ChangeQuantity(a + b, id, delta) == ChangeQuantity(a, id, delta) + ChangeQuantity(b, id, delta)
  {
    if a != [] {
      assert (a + b)[1..] == a[1..] + b;
      ChangeQuantityAppend(a[1..], b, id, delta);
    } else {
      assert a + b == b;
    }
  }

  /** Changing the quantity of a product without a line changes nothing. */
  lemma {:induction false} ChangeQuantityOthers(cart: seq<CartLine>, id: int, delta: int)
    requires forall i :: 0 <= i < |cart| ==> cart[i].product.id != id
    ensures ChangeQuantity(cart, id, delta) == cart
  {
    if cart != [] {
      ChangeQuantityOthers(cart[1..], id, delta);
    }
  }

  /**
   * Changing the quantity of the product at `k` by `delta` drops that line when
   * the new quantity is not positive, leaves it when the new quantity exceeds
   * its stock, and otherwise sets it; every other line stays where it was.
   */
  lemma {:induction false} ChangeQuantityAt(cart: seq<CartLine>, k: int, delta: int)
    requires WellFormed(cart) && 0 <= k < |cart|
    ensures var q := cart[k].quantity + delta;
      ChangeQuantity(cart, cart[k].product.id, delta) ==
        if q <= 0 then cart[..k] + cart[k + 1..]
        else if q > cart[k].product.stock then cart
        else cart[k := cart[k].(quantity := q)]
  {
    var id := cart[k].product.id;
    var pre, line, post := cart[..k], cart[k], cart[k + 1..];
    assert cart == pre + [line] + post;
    assert forall i :: 0 <= i < |pre| ==> pre[i].product.id != id by {
      assert forall i :: 0 <= i < |pre| ==> pre[i] == cart[i];
    }
    assert forall i :: 0 <= i < |post| ==> post[i].product.id != id by {
      assert forall i :: 0 <= i < |post| ==> post[i] == cart[k + 1 + i];
    }
    ChangeQuantitySplit(pre, line, post, delta);
    Reassemble(cart, k, delta);
  }

  /** Putting the adjusted line back between its neighbours. */
  lemma Reassemble(cart: seq<CartLine>, k: int, delta: int)
    requires 0 <= k < |cart|
    ensures var line, q := cart[k], cart[k].quantity + delta;
      cart[..k] + (match Adjusted(line, line.product.id, delta) case None => [] case Some(l) => [l]) + cart[k + 1..] ==
        if q <= 0 then cart[..k] + cart[k + 1..]
        else if q > line.product.stock then cart
        else cart[k := line.(quantity := q)]
  {
    var line, q := cart[k], cart[k].quantity + delta;
    if q <= 0 {
      assert cart[..k] + [] + cart[k + 1..] == cart[..k] + cart[k + 1..];
    } else if q > line.product.stock {
      assert cart[..k] + [line] + cart[k + 1..] == cart;
    } else {
      assert cart[..k] + [line.(quantity := q)] + cart[k + 1..] == cart[k := line.(quantity := q)];
    }
  }

  lemma {:induction false} ChangeQuantitySplit(pre: seq<CartLine>, line: CartLine, post: seq<CartLine>, delta: int)
    requires forall i :: 0 <= i < |pre| ==> pre[i].product.id != line.product.id
    requires forall i :: 0 <= i < |post| ==> post[i].product.id != line.product.id
    ensures ChangeQuantity(pre + [line] + post, line.product.id, delta) ==
            pre + (match Adjusted(line, line.product.id, delta) case None => [] case Some(l) => [l]) + post
  {
    var id := line.product.id;
    ChangeQuantityAppend(pre + [line], post, id, delta);
    ChangeQuantityAppend(pre, [line], id, delta);
    ChangeQuantityOthers(pre, id, delta);
    ChangeQuantityOthers(post, id, delta);
    ChangeQuantitySingle(line, id, delta);
  }

  lemma ChangeQuantitySingle(line: CartLine, id: int, delta: int)
    ensures ChangeQuantity([line], id, delta) == match Adjusted(line, id, delta) case None => [] case Some(l) => [l]
  {
    assert [line][1..] == [];
  }

  // ---------------------------------------------------------------------------
  // The screen state
  // ---------------------------------------------------------------------------

  class Cashier {
    var localCart: seq<CartLine>
    var checkoutError: string
    var paymentMethod: string
    var cashReceived: int
    var barcodeInput: string

    ghost predicate Valid()
      reads this
    {
      WellFormed(localCart)
    }

    constructor ()
      ensures Valid()
      ensures localCart == [] && checkoutError == "" && paymentMethod == Cash && cashReceived == 0 && barcodeInput == ""
    {
      localCart := [];
      checkoutError := "";
      paymentMethod := Cash;
      cashReceived := 0;
      barcodeInput := "";
    }

    /** The cart total shown on screen. */
    function Total(): int
      reads this
    {
      CartTotal(localCart)
    }

    /**
     * Adds one unit of `product`: refused when it is out of stock; a product
     * already in the cart gets one more unit if the stock allows it; a new
     * product is appended with one unit.
     */
    method AddToLocalCart(product: Product)
      requires Valid()
      modifies this
      ensures Valid()
      ensures paymentMethod == old(paymentMethod) && cashReceived == old(cashReceived) && barcodeInput == old(barcodeInput)
      ensures product.stock <= 0 ==> localCart == old(localCart) && checkoutError == OutOfStockMessage
      ensures product.stock > 0 ==> checkoutError == ""
      ensures localCart == if CanAdd(old(localCart), product) then AddOne(old(localCart), product) else old(localCart)
      ensures old(WithinStock(localCart)) &&
              (forall i :: 0 <= i < |old(localCart)| && old(localCart)[i].product.id == product.id ==>
                 old(localCart)[i].product.stock == product.stock)
              ==> WithinStock(localCart)
    {
      if product.stock <= 0 {
        checkoutError := OutOfStockMessage;
        return;
      }
      if CanAdd(localCart, product) {
        AddOneWithinStock(localCart, product);
        localCart := AddOne(localCart, product);
      } else {
        checkoutError := InsufficientStockMessage;
      }
      checkoutError := "";
    }

    /**
     * Enter on the barcode field: looks the trimmed input up by SKU and adds
     * the product, reporting a missing catalogue, an unknown SKU, an empty
     * stock or a stock the cart already uses up; the field is cleared whenever
     * a lookup was attempted.
     */
    method HandleBarcodeKeyDown(key: string, products: Option<seq<Product>>, lower: string -> string)
      requires Valid()
      modifies this
      ensures Valid()
      ensures paymentMethod == old(paymentMethod) && cashReceived == old(cashReceived)
      ensures !(key == "Enter" && Text.Trim(old(barcodeInput)) != "") ==>
                localCart == old(localCart) && checkoutError == old(checkoutError) && barcodeInput == old(barcodeInput)
      ensures key == "Enter" && Text.Trim(old(barcodeInput)) != "" ==> barcodeInput == ""
      ensures key == "Enter" && Text.Trim(old(barcodeInput)) != "" && products.None? ==>
                localCart == old(localCart) && checkoutError == ProductsNotLoadedMessage
      ensures key == "Enter" && Text.Trim(old(barcodeInput)) != "" && products.Some? ==>
        var sku := Text.Trim(old(barcodeInput));
        match FindBySku(products.value, sku, lower)
        case None => localCart == old(localCart) && checkoutError == SkuNotFoundMessage(sku)
        case Some(p) =>
          if p.stock <= 0 then localCart == old(localCart) && checkoutError == ProductOutOfStockMessage(p.name)
          else if QuantityInCart(old(localCart), p.id) + 1 > p.stock then
            localCart == old(localCart) && checkoutError == ProductInsufficientStockMessage(p.name)
          else
            localCart == AddOne(old(localCart), p) && checkoutError == ""
    {
      if !(key == "Enter" && Text.Trim(barcodeInput) != "") {
        return;
      }
      var sku := Text.Trim(barcodeInput);
      if products.None? {
        checkoutError := ProductsNotLoadedMessage;
        barcodeInput := "";
        return;
      }
      var found := FindBySku(products.value, sku, lower);
      if found.None? {
        checkoutError := SkuNotFoundMessage(sku);
        barcodeInput := "";
        return;
      }
      var product := found.value;
      if product.stock <= 0 {
        checkoutError := ProductOutOfStockMessage(product.name);
        barcodeInput := "";
        return;
      }
      var currentQty := QuantityInCart(localCart, product.id);
      if currentQty + 1 > product.stock {
        checkoutError := ProductInsufficientStockMessage(product.name);
        barcodeInput := "";
        return;
      }
      AddToLocalCart(product);
      barcodeInput := "";
      checkoutError := "";
    }

    /**
     * The +/- buttons: changes the quantity of product `productId` by `delta`,
     * dropping the line when it would reach zero and refusing to go past the
     * stock recorded in the line.
     */
    method UpdateQuantity(productId: int, delta: int)
      requires Valid()
      modifies this
      ensures Valid()
      ensures paymentMethod == old(paymentMethod) && cashReceived == old(cashReceived) && barcodeInput == old(barcodeInput)
      ensures localCart == ChangeQuantity(old(localCart), productId, delta)
      ensures WithinStock(old(localCart)) ==> WithinStock(localCart)
      ensures checkoutError ==
        match FindLine(old(localCart), productId)
        case None => old(checkoutError)
        case Some(line) =>
          if line.quantity + delta <= 0 then old(checkoutError)
          else if line.quantity + delta > line.product.stock then InsufficientStockMessage
          else ""
    {
      match FindLine(localCart, productId) {
        case Some(line) =>
          var newQty := line.quantity + delta;
          if newQty <= 0 {
          } else if newQty > line.product.stock {
            checkoutError := InsufficientStockMessage;
          } else {
            checkoutError := "";
          }
        case None =>
      }
      localCart := ChangeQuantity(localCart, productId, delta);
    }

    /** The trash button: removes every line of product `productId` and clears the error. */
    method RemoveFromCart(productId: int)
      requires Valid()
      modifies this
      ensures Valid()
      ensures paymentMethod == old(paymentMethod) && cashReceived == old(cashReceived) && barcodeInput == old(barcodeInput)
      ensures localCart == RemoveLines(old(localCart), productId)
      ensures checkoutError == ""
    {
      localCart := RemoveLines(localCart, productId);
      checkoutError := "";
    }

    /** The payment-method selector. */
    method SelectPaymentMethod(methodName: string)
      modifies this`paymentMethod
      ensures paymentMethod == methodName
    {
      paymentMethod := methodName;
    }

    /** The cash field, as the whole amount it parses to (0 when it does not parse). */
    method EnterCashReceived(amount: int)
      modifies this`cashReceived
      ensures cashReceived == amount
    {
      cashReceived := amount;
    }

    /**
     * Checkout: refused without any remote call for an empty cart, a missing
     * payment method, or cash short of the total; otherwise `attempted` is the
     * request the handler starts: every line in order, then the payment.
     * Which part of it reached the store before a failure is not recorded. `remoteFailure` is the message of a failed
     * remote call, if one failed. On success the cart is emptied and the
     * payment fields are reset.
     */
    method HandleCheckout(remoteFailure: Option<string>) returns (attempted: Option<CheckoutRequest>)
      requires Valid()
      modifies this
      ensures Valid()
      ensures barcodeInput == old(barcodeInput)
      ensures attempted.None? <==>
                old(localCart) == [] || old(paymentMethod) == "" ||
                (old(paymentMethod) == Cash && old(cashReceived) < CartTotal(old(localCart)))
      ensures old(localCart) == [] ==> checkoutError == EmptyCartMessage
      ensures old(localCart) != [] && old(paymentMethod) == "" ==> checkoutError == NoPaymentMethodMessage
      ensures old(localCart) != [] && old(paymentMethod) == Cash && old(cashReceived) < CartTotal(old(localCart)) ==>
                checkoutError == UnderpaidMessage
      ensures attempted.None? ==>
                localCart == old(localCart) && paymentMethod == old(paymentMethod) && cashReceived == old(cashReceived)
      ensures attempted.Some? ==>
                && |attempted.value.items| == |old(localCart)|
                && (forall i :: 0 <= i < |old(localCart)| ==>
                      attempted.value.items[i] == (old(localCart)[i].product.id, old(localCart)[i].quantity))
                && attempted.value.paymentMethod == old(paymentMethod)
                && attempted.value.cashReceived == (if old(paymentMethod) == Cash then old(cashReceived) else 0)
      ensures attempted.Some? && remoteFailure.None? ==>
                localCart == [] && paymentMethod == Cash && cashReceived == 0 && checkoutError == ""
      ensures attempted.Some? && remoteFailure.Some? ==>
                localCart == old(localCart) && paymentMethod == old(paymentMethod) && cashReceived == old(cashReceived) &&
                checkoutError == (if remoteFailure.value == "" then CheckoutFailedMessage else remoteFailure.value)
    {
      if |localCart| == 0 {
        checkoutError := EmptyCartMessage;
        return None;
      }
      if paymentMethod == "" {
        checkoutError := NoPaymentMethodMessage;
        return None;
      }
      if paymentMethod == Cash {
        if cashReceived < CartTotal(localCart) {
          checkoutError := UnderpaidMessage;
          return None;
        }
      }
      checkoutError := "";
      var cart := localCart;
      var items := seq(|cart|, i requires 0 <= i < |cart| => (cart[i].product.id, cart[i].quantity));
      var cashAmount := if paymentMethod == Cash then cashReceived else 0;
      attempted := Some(CheckoutRequest(items, paymentMethod, cashAmount));
      match remoteFailure
      case None =>
        localCart := [];
        paymentMethod := Cash;
        cashReceived := 0;
      case Some(message) =>
        checkoutError := if message == "" then CheckoutFailedMessage else message;
    }
  }

  lemma {:induction false} FindLineLast(cart: seq<CartLine>, product: Product)
    requires forall i :: 0 <= i < |cart| ==> cart[i].product.id != product.id
    ensures FindLine(cart + [CartLine(product, 1)], product.id) == Some(CartLine(product, 1))
  {
    if cart != [] {
      assert (cart + [CartLine(product, 1)])[1..] == cart[1..] + [CartLine(product, 1)];
      FindLineLast(cart[1..], product);
    }
  }

  /** The position of the line of product `id`, when there is one. */
  lemma {:induction false} LineIndex(cart: seq<CartLine>, id: int) returns (k: int)
    requires FindLine(cart, id).Some?
    ensures 0 <= k < |cart| && cart[k].product.id == id
  {
    var line := FindLine(cart, id).value;
    k :| 0 <= k < |cart| && cart[k] == line;
  }
}
