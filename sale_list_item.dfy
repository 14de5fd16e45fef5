/**
 * What a sale's list entry shows: the client's name, the date (or a marker
 * for an invalid one), the total through a guarded currency formatter, and
 * the service-order status as a coloured badge.
 */
module SaleListItem {
  import opened Common
  import opened Display
  import Sales
  import Theme

  const ZeroReais := "R$ 0,00"
  const RemovedClient := "Cliente (Removido)"
  const PendingBadge := "Pendente"
  const InvalidDateLabel := "Data inválida"

  /** A JavaScript number holding an amount of money, in cents, or NaN. */
  datatype Number = NaN | Cents(cents: int)

  /** The argument of `formatCurrency`: undefined, null, a number, or a string (carried as what `parseFloat` makes of it). */
  datatype CurrencyValue = Undefined | Null | Num(n: Number) | Text(parsed: Number)

  /** A label that is either fixed text or an amount handed to the locale's currency format. */
  datatype Label = Literal(text: string) | Currency(cents: int) | LocaleDate(millis: int)

  /** `formatCurrency`'s guards: undefined, null and NaN show "R$ 0,00"; any other number is formatted. */
  function FormatCurrency(value: CurrencyValue): (r: Label)
    ensures r == Literal(ZeroReais) <==> value.Undefined? || value.Null? || value == Num(NaN) || value == Text(NaN)
    ensures value.Num? && value.n.Cents? ==> r == Currency(value.n.cents)
    ensures value.Text? && value.parsed.Cents? ==> r == Currency(value.parsed.cents)
  {
    match value
    case Undefined => Literal(ZeroReais)
    case Null => Literal(ZeroReais)
    case Num(n) => if n.NaN? then Literal(ZeroReais) else Currency(n.cents)
    case Text(parsed) => if parsed.NaN? then Literal(ZeroReais) else Currency(parsed.cents)
  }

  /** The `getStatusColor` switch on the service-order status (absent falls to the default grey). */
  function StatusColor(status: Option<string>): (r: Color)
    ensures status == Some("Entregue") <==> r == Success
    ensures status == Some("Disponível para Retirada") <==> r == Hex("#2563EB")
    ensures status == Some("Aguardando Laboratório") <==> r == Hex("#F59E0B")
    ensures r in {Success, Hex("#2563EB"), Hex("#F59E0B"), Hex("#64748B")}
  {
    match status
    case Some("Entregue") => Success
    case Some("Disponível para Retirada") => Hex("#2563EB")
    case Some("Aguardando Laboratório") => Hex("#F59E0B")
    case _ => Hex("#64748B")
  }

  /** In either palette, 'Entregue' renders as `undefined`; the other statuses get their fixed hex codes. */
  lemma DeliveredRendersUndefined(theme: string)
    requires theme == Theme.Light || theme == Theme.Dark
    ensures Render(StatusColor(Some("Entregue")), theme) == Rendered.Undefined
    ensures Render(StatusColor(Some("Aguardando Laboratório")), theme) == Shown("#F59E0B")
    ensures Render(StatusColor(None), theme) == Shown("#64748B")
  {
  }

  /** The status the entry's colour is computed from: `sale.ordemServico?.status`. */
  function ServiceOrderStatus(sale: Sales.Sale): (r: Option<string>)
    ensures r.Some? <==> sale.ordemServico.Some?
    ensures r.Some? ==> r.value == sale.ordemServico.value.status
  {
    match sale.ordemServico
    case Some(os) => Some(os.status)
    case None => None
  }

  /** The client's name when the server populated the client, otherwise "Cliente (Removido)" (a bare id included). */
  function ClientName(cliente: Sales.ClientRef): (r: string)
    ensures cliente.Populated? ==> r == cliente.client.fullName
    ensures !cliente.Populated? ==> r == RemovedClient
  {
    match cliente
    case Populated(c) => c.fullName
    case _ => RemovedClient
  }

  /** `sale.ordemServico?.status || 'Pendente'`: an absent or empty status shows "Pendente". */
  function BadgeText(ordemServico: Option<Sales.ServiceOrder>): (r: string)
    ensures r != ""
    ensures ordemServico.Some? && ordemServico.value.status != "" ==> r == ordemServico.value.status
    ensures ordemServico.None? || ordemServico.value.status == "" ==> r == PendingBadge
  {
    if ordemServico.Some? && ordemServico.value.status != "" then ordemServico.value.status else PendingBadge
  }

  /** The date shown: "Data inválida" for an invalid date, otherwise the locale's day and month. */
  function DateText(date: Sales.SaleDate): (r: Label)
    ensures date.InvalidDate? <==> r == Literal(InvalidDateLabel)
    ensures date.At? ==> r == LocaleDate(date.millis)
  {
    match date
    case InvalidDate => Literal(InvalidDateLabel)
    case At(ms) => LocaleDate(ms)
  }

  /** After a confirmed status update the badge shows the new status, when it is not empty. */
  lemma BadgeAfterStatusUpdate(sale: Sales.Sale, status: string)
    requires status != ""
    ensures BadgeText(Sales.WithServiceOrderStatus(sale, status).ordemServico) == status
  {
  }
}
