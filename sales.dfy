/**
 * The sale store (`SalesProvider`). Unlike the other stores it never edits
 * its list after an add or a delete: it bumps a reload counter and the list is
 * reloaded from the server. The one local edit is the service-order status,
 * merged into the matching sale after the server confirms it.
 */
module Sales {
  import opened Common
  import Seqs
  import Clients
  import Products

  /** Payment methods (`METODOS_PAGAMENTO`). */
  datatype PaymentMethod = Dinheiro | Pix | CartaoDeDebito | CartaoDeCredito

  /** Payment conditions (`CONDICOES_PAGAMENTO`): up front or in instalments. */
  datatype PaymentCondition = AVista | APrazo

  /** A sale's own status. */
  datatype SaleStatus = Concluido | Pendente | Cancelado

  /** The payment sub-record (`Pagamento`); amounts are integer cents. */
  datatype Payment = Payment(
    id: Option<string>,
    valorEntrada: int,
    valorRestante: int,
    metodoPagamento: PaymentMethod,
    condicaoPagamento: PaymentCondition,
    parcelas: int)

  /** A sale's client as the server sends it: the bare id, the populated record, or null once the client is gone. */
  datatype ClientRef = ClientId(id: string) | Populated(client: Clients.Client) | NullClient

  /** A line's product: the bare id or the populated record. */
  datatype ProductRef = ProductId(id: string) | PopulatedProduct(product: Products.Product)

  /** A sale line (`ItemVenda`) with the unit price captured when the sale was made. */
  datatype SaleItem = SaleItem(id: Option<string>, produto: ProductRef, quantidade: int, valorUnitario: int)

  /** The service-order sub-record: its `status` and whatever other fields the server sent with it. */
  datatype ServiceOrder = ServiceOrder(status: string, otherFields: map<string, string>)

  /** The sale date after `new Date(...)`: a valid instant in milliseconds or an invalid date. */
  datatype SaleDate = InvalidDate | At(millis: int)

  /** A sale as the store holds it (`Venda`). */
  datatype Sale = Sale(
    id: string,
    cliente: ClientRef,
    produtos: seq<SaleItem>,
    valorTotal: int,
    dataVenda: SaleDate,
    status: SaleStatus,
    pagamento: Payment,
    ordemServico: Option<ServiceOrder>)

  /** A line of the payload that creates a sale (`ItemVendaInput`, plus the cart line's id the screen sends). */
  datatype ItemInput = ItemInput(id: string, produto: string, quantidade: int, valorUnitario: int)

  /** The payload that creates a sale (`VendaInput`). */
  datatype SaleInput = SaleInput(
    cliente: string,
    produtos: seq<ItemInput>,
    valorTotal: int,
    status: string,
    pagamento: Payment)

  /**
   * `{ ...sale, ordemServico: { ...sale.ordemServico, status } }`: sets the
   * service-order status and keeps every other field of the sale and of its
   * service order (an absent service order spreads as no fields).
   */
  function WithServiceOrderStatus(sale: Sale, status: string): (r: Sale)
    ensures r.ordemServico.Some? && r.ordemServico.value.status == status
    ensures r.ordemServico.value.otherFields == if sale.ordemServico.Some? then sale.ordemServico.value.otherFields else map[]
    ensures r.(ordemServico := sale.ordemServico) == sale
  {
    var kept := match sale.ordemServico
      case Some(os) => os.otherFields
      case None => map[];
    sale.(ordemServico := Some(ServiceOrder(status, kept)))
  }

  /** Setting the same status twice is setting it once. */
  lemma WithServiceOrderStatusIdempotent(sale: Sale, status: string)
    ensures WithServiceOrderStatus(WithServiceOrderStatus(sale, status), status) == WithServiceOrderStatus(sale, status)
  {
  }

  /** The last status set wins, and nothing of the earlier one survives. */
  lemma WithServiceOrderStatusLastWins(sale: Sale, first: string, second: string)
    ensures WithServiceOrderStatus(WithServiceOrderStatus(sale, first), second) == WithServiceOrderStatus(sale, second)
  {
  }

  /** Applies the merge to every sale with id `id` and leaves the others as they are. */
  function MergeStatusById(sales: seq<Sale>, id: string, status: string): (r: seq<Sale>)
    ensures |r| == |sales|
    ensures forall i :: 0 <= i < |sales| && sales[i].id != id ==> r[i] == sales[i]
    ensures forall i :: 0 <= i < |sales| && sales[i].id == id ==>
              r[i].id == id && r[i].ordemServico.Some? && r[i].ordemServico.value.status == status
              && r[i].ordemServico.value.otherFields ==
                   (if sales[i].ordemServico.Some? then sales[i].ordemServico.value.otherFields else map[])
              && r[i].(ordemServico := sales[i].ordemServico) == sales[i]
  {
    seq(|sales|, i requires 0 <= i < |sales| => if sales[i].id == id then WithServiceOrderStatus(sales[i], status) else sales[i])
  }

  class SalesStore {
    var sales: seq<Sale>
    var isLoading: bool
    /** Bumped after a confirmed add or delete; every change triggers a reload. */
    var refreshKey: nat

    /** A fresh provider: no sales yet, loading, counter at zero. */
    constructor ()
      ensures sales == [] && isLoading && refreshKey == 0
    {
      sales := [];
      isLoading := true;
      refreshKey := 0;
    }

    /** The start of a (re)load: the loading flag goes up. */
    method BeginReload()
      modifies this`isLoading
      ensures isLoading
    {
      isLoading := true;
    }

    /** The end of a (re)load: the server list replaces the sales; a failure keeps the previous list; loading ends. */
    method CompleteReload(response: Response<seq<Sale>>)
      modifies this`sales, this`isLoading
      ensures sales == (if response.Ok? then response.body else old(sales))
      ensures !isLoading
    {
      if response.Ok? {
        sales := response.body;
      }
      isLoading := false;
    }

    /** A confirmed add bumps the counter by one and does not insert locally; a failure changes nothing. */
    method AddSale(payload: SaleInput, response: Response<()>)
      modifies this`refreshKey
      ensures refreshKey == if response.Ok? then old(refreshKey) + 1 else old(refreshKey)
    {
      if response.Ok? {
        refreshKey := refreshKey + 1;
      }
    }

    /** The first sale whose id is `id`, or absent. */
    function GetSaleById(id: string): (r: Option<Sale>)
      reads this
      ensures r.None? <==> forall j :: 0 <= j < |sales| ==> sales[j].id != id
      ensures r.Some? ==> exists i :: 0 <= i < |sales| && sales[i] == r.value && r.value.id == id
                                      && forall j :: 0 <= j < i ==> sales[j].id != id
    {
      Seqs.Find(sales, (s: Sale) => s.id == id)
    }

    /** A confirmed delete bumps the counter by one and does not filter locally; a failure changes nothing. */
    method DeleteSale(id: string, response: Response<()>)
      modifies this`refreshKey
      ensures refreshKey == if response.Ok? then old(refreshKey) + 1 else old(refreshKey)
    {
      if response.Ok? {
        refreshKey := refreshKey + 1;
      }
    }

    /**
     * A confirmed service-order update merges the new status into the sales
     * with that id; a failure leaves the list as it was and is re-raised
     * (`succeeded` is false).
     */
    method UpdateSaleStatus(id: string, status: string, response: Response<()>) returns (succeeded: bool)
      modifies this`sales
      ensures succeeded == response.Ok?
      ensures sales == if response.Ok? then MergeStatusById(old(sales), id, status) else old(sales)
    {
      if response.Ok? {
        sales := MergeStatusById(sales, id, status);
      }
      succeeded := response.Ok?;
    }
  }
}
