/**
 * The new-sale screen (`AddSaleScreen`): finding the client by CPF and
 * products by code, the cart, its totals in integer cents, and the payload
 * handed to the sale store when the sale is saved.
 */
module AddSale {
  import opened Common
  import Clients
  import Products
  import Sales

  /** A cart line (`CartItem`); `valorUnitario` is the product's sale price when the line was added. */
  datatype CartItem = CartItem(id: string, produtoId: string, quantidade: int, valorUnitario: int, produto: Products.Product)

  /** A line's amount: unit price times quantity. */
  function LineAmount(item: CartItem): int {
    item.valorUnitario * item.quantidade
  }

  /** `cart.reduce((total, item) => total + item.valorUnitario * item.quantidade, 0)`, folded from the left. */
  function CartTotal(cart: seq<CartItem>): (r: int)
    ensures cart == [] ==> r == 0
    ensures (forall k :: 0 <= k < |cart| ==> cart[k].valorUnitario >= 0 && cart[k].quantidade >= 0) ==> r >= 0
  {
    if cart == [] then 0 else CartTotal(cart[..|cart| - 1]) + LineAmount(cart[|cart| - 1])
  }

  /** The total of a cart made of two parts is the sum of their totals. */
  lemma {:induction false} CartTotalAppend(a: seq<CartItem>, b: seq<CartItem>)
    ensures CartTotal(a + b) == CartTotal(a) + CartTotal(b)
  {
    if b == [] {
      assert a + b == a;
    } else {
      assert (a + b)[..|a + b| - 1] == a + b[..|b| - 1];
      CartTotalAppend(a, b[..|b| - 1]);
    }
  }

  /** The total is the sum of the line amounts: 0 for an empty cart, and each line counts once. */
  lemma CartTotalOfLines(cart: seq<CartItem>, item: CartItem)
    ensures CartTotal([]) == 0
    ensures CartTotal(cart + [item]) == CartTotal(cart) + item.valorUnitario * item.quantidade
    ensures CartTotal([item] + cart) == item.valorUnitario * item.quantidade + CartTotal(cart)
  {
    assert (cart + [item])[..|cart + [item]| - 1] == cart;
    CartTotalAppend([item], cart);
    assert [item][..0] == [];
  }

  /** `n || 0` on a parsed number: NaN (absent) gives 0. */
  function OrZero(parsed: Option<int>): (r: int)
    ensures parsed.Some? ==> r == parsed.value
    ensures parsed.None? ==> r == 0
  {
    if parsed.Some? && parsed.value != 0 then parsed.value else 0
  }

  /** `parseInt(parcelas) || 1`: NaN (absent) and zero both give 1. */
  function ParcelasOrOne(parsed: Option<int>): (r: int)
    ensures r != 0
    ensures parsed.Some? && parsed.value != 0 ==> r == parsed.value
    ensures parsed.None? || parsed.value == 0 ==> r == 1
  {
    if parsed.Some? && parsed.value != 0 then parsed.value else 1
  }

  /** The remaining balance, `valorTotal - valorEntradaNum`, with no floor at zero. */
  function Remaining(total: int, entrada: int): (r: int)
    ensures r + entrada == total
  {
    total - entrada
  }

  /** A down payment larger than the total leaves a negative balance. */
  lemma RemainingCanBeNegative(total: int, entrada: int)
    requires entrada > total
    ensures Remaining(total, entrada) < 0
  {
  }

  /** The payload lines: one per cart line, in cart order, with product id, quantity and unit price. */
  function CartToItems(cart: seq<CartItem>): (r: seq<Sales.ItemInput>)
    ensures |r| == |cart|
    ensures forall i :: 0 <= i < |cart| ==>
              r[i].id == cart[i].id && r[i].produto == cart[i].produtoId
              && r[i].quantidade == cart[i].quantidade && r[i].valorUnitario == cart[i].valorUnitario
  {
    seq(|cart|, i requires 0 <= i < |cart| =>
      Sales.ItemInput(cart[i].id, cart[i].produtoId, cart[i].quantidade, cart[i].valorUnitario))
  }

  /** The total of payload lines, summed the same way. */
  function ItemsTotal(items: seq<Sales.ItemInput>): int {
    if items == [] then 0 else ItemsTotal(items[..|items| - 1]) + items[|items| - 1].valorUnitario * items[|items| - 1].quantidade
  }

  /** The payload lines add up to the cart total. */
  lemma {:induction false} ItemsTotalMatchesCart(cart: seq<CartItem>)
    ensures ItemsTotal(CartToItems(cart)) == CartTotal(cart)
  {
    if cart != [] {
      var front := cart[..|cart| - 1];
      assert CartToItems(cart)[..|cart| - 1] == CartToItems(front);
      ItemsTotalMatchesCart(front);
    }
  }

  class SaleForm {
    var cpfInput: string
    var foundClient: Option<Clients.Client>
    var cart: seq<CartItem>
    var codigoInput: string
    var foundProduct: Option<Products.Product>
    /** The quantity field as `parseInt` reads it (absent for NaN). */
    var currentQty: Option<int>
    var metodoPagamento: Sales.PaymentMethod
    var condicaoPagamento: Sales.PaymentCondition
    /** The instalments field as `parseInt` reads it (absent for NaN). */
    var parcelas: Option<int>
    /** The down-payment field as `parseFloat` reads it, in cents (absent for NaN). */
    var valorEntrada: Option<int>

    /** The screen as it opens: empty inputs, nothing found, empty cart, quantity "1", cash up front. */
    constructor ()
      ensures cpfInput == "" && foundClient.None? && cart == []
      ensures codigoInput == "" && foundProduct.None? && currentQty == Some(1)
      ensures metodoPagamento == Sales.Dinheiro && condicaoPagamento == Sales.AVista
      ensures parcelas == Some(1) && valorEntrada.None?
    {
      cpfInput := "";
      foundClient := None;
      cart := [];
      codigoInput := "";
      foundProduct := None;
      currentQty := Some(1);
      metodoPagamento := Sales.Dinheiro;
      condicaoPagamento := Sales.AVista;
      parcelas := Some(1);
      valorEntrada := None;
    }

    /** Searching with an empty CPF does nothing; otherwise the found client becomes the lookup's result (absent if none). */
    method SearchClient(store: Clients.ClientStore)
      modifies this`foundClient
      ensures foundClient == if cpfInput == "" then old(foundClient) else store.GetClientByCpf(cpfInput)
    {
      if cpfInput == "" {
        return;
      }
      foundClient := store.GetClientByCpf(cpfInput);
    }

    /** Searching with an empty code does nothing; otherwise the found product becomes the lookup's result (absent if none). */
    method SearchProduct(store: Products.ProductStore)
      modifies this`foundProduct
      ensures foundProduct == if codigoInput == "" then old(foundProduct) else store.GetProductByCodigo(codigoInput)
    {
      if codigoInput == "" {
        return;
      }
      foundProduct := store.GetProductByCodigo(codigoInput);
    }

    /**
     * Without a found product nothing changes. Otherwise exactly one line is
     * appended, snapshotting the product's current sale price, and the
     * quantity, found product and code inputs are reset. `lineId` stands for
     * the fresh `uuidv4()`.
     */
    method AddProductToCart(lineId: string)
      modifies this`cart, this`currentQty, this`foundProduct, this`codigoInput
      ensures old(foundProduct).None? ==>
                cart == old(cart) && currentQty == old(currentQty) && foundProduct.None? && codigoInput == old(codigoInput)
      ensures old(foundProduct).Some? ==>
                var p := old(foundProduct).value;
                && cart == old(cart) + [CartItem(lineId, p.id, OrZero(old(currentQty)), p.precoVenda, p)]
                && currentQty == Some(1) && foundProduct.None? && codigoInput == ""
      ensures CartTotal(cart) == CartTotal(old(cart)) + if old(foundProduct).Some? then LineAmount(cart[|cart| - 1]) else 0
    {
      if foundProduct.None? {
        return;
      }
      var product := foundProduct.value;
      var qty := OrZero(currentQty);
      var item := CartItem(lineId, product.id, qty, product.precoVenda, product);
      CartTotalOfLines(cart, item);
      cart := cart + [item];
      currentQty := Some(1);
      foundProduct := None;
      codigoInput := "";
    }

    /**
     * The payload `handleSaveSale` hands to the sale store, or absent when no
     * client has been found or the cart is empty. `paymentId` stands for the
     * fresh `uuidv4()` of the payment record.
     */
    method SaveSale(paymentId: string) returns (payload: Option<Sales.SaleInput>)
      ensures payload.None? <==> foundClient.None? || cart == []
      ensures payload.Some? ==>
                var p := payload.value;
                && p.cliente == foundClient.value.id
                && p.produtos == CartToItems(cart)
                && p.valorTotal == CartTotal(cart) == ItemsTotal(p.produtos)
                && p.status == "Concluído"
                && p.pagamento.id == Some(paymentId)
                && p.pagamento.valorEntrada == OrZero(valorEntrada)
                && p.pagamento.valorEntrada + p.pagamento.valorRestante == p.valorTotal
                && p.pagamento.metodoPagamento == metodoPagamento
                && p.pagamento.condicaoPagamento == condicaoPagamento
                && p.pagamento.parcelas == ParcelasOrOne(parcelas)
    {
      if foundClient.None? {
        return None;
      }
      if cart == [] {
        return None;
      }
      var items := CartToItems(cart);
      var total := CartTotal(cart);
      var entrada := OrZero(valorEntrada);
      ItemsTotalMatchesCart(cart);
      var pagamento := Sales.Payment(Some(paymentId), entrada, Remaining(total, entrada),
                                     metodoPagamento, condicaoPagamento, ParcelasOrOne(parcelas));
      payload := Some(Sales.SaleInput(foundClient.value.id, items, total, "Concluído", pagamento));
    }
  }
}
