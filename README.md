# Optical-shop client data layer, modelled in Dafny

This project models the client-side data layer of a mobile app for an
optical shop. The app keeps clients, products, appointments and sales in
memory and keeps them in step with a REST API. The model also covers the
new-sale screen's cart and payment arithmetic, the small display rules of the
list entries, and the theme and session providers.

- `Common`: `Option` and `Response`. A `Response` is what a REST call reports to a
  store: `Ok(body)` with the server's record, or `Err`.
- `Seqs`: `Find` (the first element satisfying a predicate, as
  `Array.prototype.find`) and `Filter` (as `Array.prototype.filter`), with their
  lemmas.
- `Clients`, `Products`, `Appointments`, `Sales`: one class per store
  (`ClientStore`, `ProductStore`, `AppointmentStore`, `SalesStore`). Each class
  has a `seq` field and an `isLoading` flag; `SalesStore` also has a
  `refreshKey` counter. A write's outcome is a parameter. The list changes
  only when that outcome is `Ok`, exactly as the provider's `setX` call changes
  it. Lookups are functions that read the store.
- `AddSale`: the new-sale screen as a class `SaleForm`. It holds the search
  results, the cart and the payment fields. The functions beside it give the
  cart total, the remaining balance and the payload handed to the sale store.
- `ClientListItem`, `AppointmentListItem`, `SaleListItem`, `Display`: the list
  entries' display rules. These are phone formatting, client-name fallbacks,
  status colours and the palette lookup behind them, the padded day, the
  currency formatter's guards and the badge and date fallbacks.
- `Theme`, `Auth`: the theme provider and the session provider as classes. The
  storage reads and writes and the network replies they depend on are
  parameters.

Money is integer cents and instants are integer milliseconds. Text fields
that the app parses with `parseInt`/`parseFloat` are held as the number the
parse yields, and `None` stands for NaN. Fresh `uuidv4()` ids are parameters.
Without a provider above it, a screen sees the theme context's default value
`Theme.DefaultContext`: theme "light", still loading.

Some points of the code that a reader might expect to be otherwise:
- The remaining balance is `total - downPayment` with no floor at zero.
- An appointment update stores the server's record as it is. No local rule
  resets `madePurchase` when the status changes.
- The appointment statuses are Marcado, Confirmado, Concluído and Cancelado.
  There is no "No-show".
- A failed load keeps the list it had. At mount that list is empty. The sale
  store's later reloads keep the previous list on failure.
- The status colours `Colors[theme].success` and `Colors[theme].danger` name
  keys that the palette in `constants/theme.ts` does not define. They come out
  `undefined`, so a 'Confirmado' and a 'Cancelado' appointment get the same
  missing colour, and so does a delivered sale. `Display.Render` models the
  lookup.

## Model

| member | source | states |
|---|---|---|
| Seqs.FirstIndex | context/ClientsContext.tsx:82 | the index found holds the first element satisfying the predicate; absent only when none does |
| Seqs.Find | context/ClientsContext.tsx:81-83 | `find` returns the first element satisfying the predicate, and is absent exactly when none does |
| Seqs.Filter | context/ClientsContext.tsx:132-134 | `filter` keeps only elements satisfying the predicate, never more than the input |
| Seqs.FilterCount | context/ClientsContext.tsx:132-134 | `filter` keeps every occurrence of a satisfying element and none of the others |
| Seqs.FilterAppend | context/ClientsContext.tsx:132-134 | `filter` distributes over concatenation, so kept elements stay in order |
| Seqs.FilterMembership | context/ClientsContext.tsx:132-134 | an element is kept exactly when it occurs in the input and satisfies the predicate |
| Seqs.FilterKeepsAll | context/ClientsContext.tsx:132-134 | filtering when every element satisfies the predicate changes nothing |
| Seqs.FilterDropsAll | context/ClientsContext.tsx:132-134 | filtering when no element satisfies the predicate leaves nothing |
| Clients.StripCpf | context/ClientsContext.tsx:85 | no `.` or `-` is left after stripping a CPF |
| Clients.StripCpfAppend | context/ClientsContext.tsx:85-87 | stripping works piece by piece, keeping every other character in order |
| Clients.StripCpfIdempotent | context/ClientsContext.tsx:85-87 | a stripped CPF is its own normal form |
| Clients.StripCpfDropsPunctuation | context/ClientsContext.tsx:85 | appending a `.` or `-` does not change the key |
| Clients.FormattedCpfMatchesBare | context/ClientsContext.tsx:84-89 | "ddd.ddd.ddd-dd" and "ddddddddddd" normalise to the same key, e.g. "123.456.789-00" and "12345678900" |
| Clients.ClientStore.constructor | context/ClientsContext.tsx:42-43 | the store starts empty and loading |
| Clients.ClientStore.FetchClients | context/ClientsContext.tsx:46-61 | the load replaces the list on success, keeps it on failure, and always ends loading |
| Clients.ClientStore.AddClient | context/ClientsContext.tsx:64-78 | a confirmed add puts the server's client first, with the old list behind it in order; a failure changes nothing |
| Clients.ClientStore.GetClientById | context/ClientsContext.tsx:81-83 | returns the first client with that id; absent exactly when no client has it |
| Clients.ClientStore.GetClientByCpf | context/ClientsContext.tsx:84-89 | returns the first client whose stripped CPF equals the stripped query; a client without CPF never matches; absent exactly when none matches |
| Clients.ClientStore.UpdateClient | context/ClientsContext.tsx:94-118 | a confirmed update replaces every client with that id by the server's record; length, order and other entries are unchanged; a failure changes nothing |
| Clients.ClientStore.DeleteClient | context/ClientsContext.tsx:121-139 | a confirmed delete removes exactly the clients with that id, keeps the rest in order, and the id is then not found; a failure changes nothing |
| Products.LowerChar | context/ProductsContext.tsx:84 | an ASCII upper-case letter is lowered by 32 code points; every other character is unchanged |
| Products.ToLower | context/ProductsContext.tsx:84 | lower-casing keeps the length and leaves no upper-case ASCII letter |
| Products.ToLowerIdempotent | context/ProductsContext.tsx:84-88 | lower-casing twice equals lower-casing once |
| Products.ToLowerIgnoresCase | context/ProductsContext.tsx:83-90 | codes differing only in letter case, in either direction at each position, have the same key, e.g. "RB3025" and "rb3025" |
| Products.ProductStore.constructor | context/ProductsContext.tsx:38-39 | the store starts empty and loading |
| Products.ProductStore.FetchProducts | context/ProductsContext.tsx:42-58 | the load replaces the list on success, keeps it on failure, and always ends loading |
| Products.ProductStore.AddProduct | context/ProductsContext.tsx:61-75 | a confirmed add prepends the server's product and keeps the old order behind it; a failure changes nothing |
| Products.ProductStore.GetProductById | context/ProductsContext.tsx:78-80 | returns the first product with that id; absent exactly when none has it |
| Products.ProductStore.GetProductByCodigo | context/ProductsContext.tsx:83-90 | returns the first product whose lower-cased code equals the lower-cased query; absent exactly when none matches |
| Products.ProductStore.UpdateProduct | context/ProductsContext.tsx:95-111 | a confirmed update replaces the products with that id by the server's record; length and other entries are unchanged; a failure changes nothing |
| Products.ProductStore.DeleteProduct | context/ProductsContext.tsx:114-127 | a confirmed delete removes exactly the products with that id and keeps the rest in order; a failure changes nothing |
| Appointments.InsertByDate | context/AppointmentsContext.tsx:86 | insertion adds exactly the new appointment: a permutation of the old list plus it |
| Appointments.SortByDate | context/AppointmentsContext.tsx:86 | the sort is a permutation of its input |
| Appointments.InsertByDateSorted | context/AppointmentsContext.tsx:86 | inserting into a list sorted by date keeps it sorted |
| Appointments.SortByDateSorted | context/AppointmentsContext.tsx:86 | the sorted list is ascending by date |
| Appointments.InsertByDateStable | context/AppointmentsContext.tsx:86 | insertion puts the new appointment before all others with the same date |
| Appointments.SortByDateStable | context/AppointmentsContext.tsx:86 | the sort is stable: the appointments of any one date keep their relative order |
| Appointments.ReplaceById | context/AppointmentsContext.tsx:111 | every appointment with the id is replaced by the record; the others and the length are unchanged |
| Appointments.AppointmentStore.constructor | context/AppointmentsContext.tsx:45-46 | the store starts empty and loading |
| Appointments.AppointmentStore.FetchAppointments | context/AppointmentsContext.tsx:48-71 | the load keeps the server's order without sorting, keeps the list on failure, and always ends loading |
| Appointments.AppointmentStore.AddAppointment | context/AppointmentsContext.tsx:73-92 | a confirmed add gives a date-sorted, stable permutation of the old list plus the server's record; a failure changes nothing |
| Appointments.AppointmentStore.GetAppointmentById | context/AppointmentsContext.tsx:94-96 | returns the first appointment with that id; absent exactly when none has it |
| Appointments.AppointmentStore.UpdateAppointment | context/AppointmentsContext.tsx:98-118 | a confirmed update stores the server's record unchanged in place of the id, then re-sorts; the result is sorted and a permutation, with the same length; a failure changes nothing |
| Appointments.AppointmentStore.DeleteAppointment | context/AppointmentsContext.tsx:120-134 | a confirmed delete removes exactly the appointments with that id and keeps the order of the rest; a failure changes nothing |
| Sales.WithServiceOrderStatus | context/SalesContext.tsx:154-157 | the shallow merge sets the service-order status, keeps the order's other fields and keeps every other field of the sale |
| Sales.WithServiceOrderStatusIdempotent | context/SalesContext.tsx:154-157 | merging the same status twice equals merging it once |
| Sales.WithServiceOrderStatusLastWins | context/SalesContext.tsx:154-157 | of two merges in a row, only the last status counts |
| Sales.MergeStatusById | context/SalesContext.tsx:150-161 | only the sales with that id change; length and order are kept; those sales get the new status, keep the service order's other fields and keep all their own other fields |
| Sales.SalesStore.constructor | context/SalesContext.tsx:72-74 | the store starts empty, loading, with the counter at 0 |
| Sales.SalesStore.BeginReload | context/SalesContext.tsx:76-78 | a reload raises the loading flag first |
| Sales.SalesStore.CompleteReload | context/SalesContext.tsx:79-96 | the reload replaces the list on success, keeps the previous list on failure, and ends loading |
| Sales.SalesStore.AddSale | context/SalesContext.tsx:100-118 | a confirmed add increments `refreshKey` by one and never inserts locally; a failure changes nothing |
| Sales.SalesStore.GetSaleById | context/SalesContext.tsx:120-122 | returns the first sale with that id; absent exactly when none has it |
| Sales.SalesStore.DeleteSale | context/SalesContext.tsx:124-135 | a confirmed delete increments `refreshKey` by one and never filters locally; a failure changes nothing |
| Sales.SalesStore.UpdateSaleStatus | context/SalesContext.tsx:138-168 | a confirmed update merges the status into the matching sales only; a failure leaves the list unchanged and is re-raised |
| AddSale.CartTotalAppend | app/add-sale.tsx:89-91 | the total of two carts concatenated is the sum of their totals |
| AddSale.CartTotalOfLines | app/add-sale.tsx:89-91 | the total is 0 for an empty cart, and each line adds its price × quantity |
| AddSale.CartTotal | app/add-sale.tsx:89-91 | the `reduce` total is 0 for an empty cart and never negative when no price or quantity is |
| AddSale.OrZero | app/add-sale.tsx:73 | `n || 0` gives the parsed number, or 0 for NaN |
| AddSale.ParcelasOrOne | app/add-sale.tsx:117 | instalments default to 1 when the field reads NaN or 0 |
| AddSale.Remaining | app/add-sale.tsx:95-97 | the remaining balance plus the down payment is the total |
| AddSale.RemainingCanBeNegative | app/add-sale.tsx:95-97 | with no floor at zero, a down payment above the total leaves a negative balance |
| AddSale.CartToItems | app/add-sale.tsx:104-109 | payload lines map one-to-one, in cart order, carrying line id, product id, quantity and unit price |
| AddSale.ItemsTotalMatchesCart | app/add-sale.tsx:104-123 | the payload lines add up to the cart total |
| AddSale.SaleForm.constructor | app/add-sale.tsx:31-42 | the screen opens with empty searches, an empty cart, quantity 1, cash paid up front, 1 instalment and no down payment |
| AddSale.SaleForm.SearchClient | app/add-sale.tsx:49-58 | an empty CPF does nothing; otherwise the found client is the CPF lookup's result, or absent |
| AddSale.SaleForm.SearchProduct | app/add-sale.tsx:59-68 | an empty code does nothing; otherwise the found product is the code lookup's result, or absent |
| AddSale.SaleForm.AddProductToCart | app/add-sale.tsx:70-87 | with no product found nothing changes; otherwise one line is appended; it carries the product's id and the sale price at that moment; the inputs are reset and the total grows by that line |
| AddSale.SaleForm.SaveSale | app/add-sale.tsx:100-128 | no payload without a client or with an empty cart; otherwise the payload has the client id, lines one-to-one with the cart, the cart total, status 'Concluído', down payment plus remaining equal to the total, and instalments defaulting to 1 |
| ClientListItem.LeftmostRun | components/management/ClientListItem.tsx:20 | finds the leftmost position where eleven consecutive digits start, or absent when there is none |
| ClientListItem.Rewrite | components/management/ClientListItem.tsx:20 | the template '($1) $2-$3' is 15 characters: the groups of 2, 5 and 4 matched digits in their places between '(', ') ' and '-' |
| ClientListItem.FormatPhone | components/management/ClientListItem.tsx:18-20 | only the leftmost run of 11 digits is rewritten as "(DD) DDDDD-DDDD"; the text before and after it is kept; the output is 4 longer; without a run the phone is unchanged |
| ClientListItem.DigitsAppend | components/management/ClientListItem.tsx:20 | the digits of two joined strings are the digits of each, in order |
| ClientListItem.RewriteDigits | components/management/ClientListItem.tsx:20 | the replacement text carries exactly the eleven matched digits |
| ClientListItem.FormatPhoneKeepsDigits | components/management/ClientListItem.tsx:20 | formatting keeps the digit subsequence of the phone |
| ClientListItem.FormatPhoneElevenDigits | components/management/ClientListItem.tsx:20 | a phone of exactly eleven digits is rewritten as a whole into "(DD) DDDDD-DDDD" |
| ClientListItem.FormatPhoneOfGroups | components/management/ClientListItem.tsx:20 | eleven digits given as groups of 2, 5 and 4 become "(" + first + ") " + second + "-" + third |
| ClientListItem.FormatPhoneExample | components/management/ClientListItem.tsx:19-20 | "11999999999" becomes "(11) 99999-9999" |
| AppointmentListItem.ResolvedName | components/management/AppointmentListItem.tsx:21-23 | a non-empty client id resolves only through the store, to the name of the first client with that id, absent exactly when none has it; otherwise the legacy name is used |
| AppointmentListItem.LegacyNameIgnoredWithClientId | components/management/AppointmentListItem.tsx:21-23 | with a client id, the legacy name has no effect |
| AppointmentListItem.DisplayedName | components/management/AppointmentListItem.tsx:59 | an absent or empty name shows 'Cliente Desconhecido' |
| AppointmentListItem.StatusColor | components/management/AppointmentListItem.tsx:32-39 | 'Confirmado' gives the palette key `success`, 'Cancelado' `danger`, 'Concluído' #64748B, anything else the key `tint` |
| AppointmentListItem.StatusColorOfEnumeration | components/management/AppointmentListItem.tsx:32-41 | each status of the enumeration gets its colour; 'Marcado' gets the tint |
| AppointmentListItem.ConfirmedAndCancelledRenderAlike | components/management/AppointmentListItem.tsx:32-39 | in either palette 'Confirmado' and 'Cancelado' both come out `undefined`, while 'Concluído' and 'Marcado' get real colours |
| AppointmentListItem.DecimalString | components/management/AppointmentListItem.tsx:27 | `toString` gives decimal digits: one digit below 10, two from 10 to 99 |
| AppointmentListItem.DecimalStringValue | components/management/AppointmentListItem.tsx:27 | the digits read back as the number |
| AppointmentListItem.PadStart2 | components/management/AppointmentListItem.tsx:27 | `padStart(2, '0')` fills with zeros in front up to length two ("" gives "00") and leaves strings of length two or more unchanged |
| AppointmentListItem.DayLabel | components/management/AppointmentListItem.tsx:27 | the day shown is digits only, at least two of them, exactly two below 100 |
| AppointmentListItem.DayLabelTwoDigits | components/management/AppointmentListItem.tsx:27 | a day of the month shows as exactly two digits that read back as the day |
| SaleListItem.FormatCurrency | components/management/SaleListItem.tsx:16-29 | undefined, null and NaN (number or parsed string) give 'R$ 0,00', and only those; any other amount is formatted |
| SaleListItem.StatusColor | components/management/SaleListItem.tsx:42-49 | 'Entregue' gives the palette key `success`, 'Disponível para Retirada' #2563EB, 'Aguardando Laboratório' #F59E0B, anything else or absent #64748B |
| SaleListItem.DeliveredRendersUndefined | components/management/SaleListItem.tsx:42-49 | in either palette 'Entregue' comes out `undefined`, while the fixed hex statuses and the default keep their colours |
| SaleListItem.ClientName | components/management/SaleListItem.tsx:53-55 | a populated client shows its `fullName`; a bare id or null shows 'Cliente (Removido)' |
| SaleListItem.ServiceOrderStatus | components/management/SaleListItem.tsx:51 | `sale.ordemServico?.status`: present exactly when the service order is, and then its status |
| SaleListItem.BadgeText | components/management/SaleListItem.tsx:83 | the badge shows the service-order status, or 'Pendente' when it is absent or empty |
| SaleListItem.DateText | components/management/SaleListItem.tsx:34-37 | an invalid date shows 'Data inválida'; a valid one the locale date |
| SaleListItem.BadgeAfterStatusUpdate | components/management/SaleListItem.tsx:83 | after a status merge the badge shows the new non-empty status |
| Display.Render | constants/theme.ts:8-40 | a hex code is shown as is; in the 'light' and 'dark' palettes `tint` is #2563EB or #60A5FA and exactly `success` and `danger` are `undefined`; any other theme string throws on a key lookup |
| Theme.InitialTheme | context/ThemeContext.tsx:20-21 | the initial theme is 'dark' exactly when the system scheme is dark, else 'light' |
| Theme.LoadedTheme | context/ThemeContext.tsx:28-41 | a saved non-empty theme wins; otherwise a known system scheme; otherwise, or on a failed read, the theme is unchanged |
| Theme.Toggled | context/ThemeContext.tsx:44 | toggling gives 'dark' exactly from 'light', and 'light' otherwise |
| Theme.ToggleTwice | context/ThemeContext.tsx:44 | toggling twice restores the theme exactly when it is 'light' or 'dark' |
| Theme.ThemeProvider.constructor | context/ThemeContext.tsx:19-22 | the provider starts with the initial theme and loading |
| Theme.ThemeProvider.LoadTheme | context/ThemeContext.tsx:28-41 | loading applies the loaded theme and ends loading even when storage fails |
| Theme.ThemeProvider.ToggleTheme | context/ThemeContext.tsx:43-51 | toggling flips the theme in memory and returns it for saving; whatever error the save throws, the flip is not reverted |
| Auth.ErrorText | context/AuthContext.tsx:56-58 | the server's message, or the fallback when it is absent or empty |
| Auth.AuthSession.constructor | context/AuthContext.tsx:22-24 | the session starts logged out and loading |
| Auth.AuthSession.LoadStorageData | context/AuthContext.tsx:30-44 | the session is restored only when both stored values are present; the token is set before the user record is parsed, so a corrupt record restores the token alone; otherwise nothing changes; loading ends even if storage threw |
| Auth.AuthSession.SignIn | context/AuthContext.tsx:46-68 | a rejected login raises the server's message or 'Erro ao fazer login' and changes nothing; an accepted one sets token and user before saving them |
| Auth.AuthSession.Register | context/AuthContext.tsx:70-89 | registering never signs in; it resolves with the server's message or raises its message or 'Erro ao registrar' |
| Auth.AuthSession.SignOut | context/AuthContext.tsx:91-96 | signing out clears both user and token first; a failed delete of the stored values is raised, but the session stays cleared |

## Left out

- Network, JSON, secure storage, async storage, alerts and console logging. Each remote call or storage access is an input outcome. The request bodies (`clientData`, `productData`, the sale payload sent by `addSale`) do not affect local state and are not modelled beyond the payload's construction.
- Concurrency: two writes in flight at once and "last response wins". React rendering, effect re-runs and `useMemo` caching are also left out. The model runs one operation at a time, so a toggle reading a stale `theme` closure is not modelled.
- The reload that a bumped `refreshKey` triggers is the separate `BeginReload`/`CompleteReload` pair; the effect wiring between them is not modelled.
- `parseInt`/`parseFloat` with comma-to-dot, `toFixed`, `Intl.NumberFormat` and its `catch` fallback, and locale date/time formatting. Money is integer cents. A formatted amount or date is represented by the value handed to the formatter.
- `new Date(...)` conversion of ISO strings. Appointment dates are integer milliseconds, and sale dates are milliseconds or an invalid date.
- Products.LowerChar, Products.ToLower: model `toLowerCase` on ASCII letters only, not Unicode case mapping (so 'É' or 'Ç' is kept as it is).
- ClientListItem.FormatPhone: `\d` is taken as the ASCII digits 0-9, as JavaScript's `\d` is.
- The form screens other than the new-sale screen (client, product and appointment forms, login), the dashboard's derived views, UI components, styling and configuration are not part of this model. Of the palette, only the keys the list entries look up are modelled.
- Display.Render: the colours the app draws stay symbolic beyond the palette lookup; an `undefined` colour is recorded as such, not as what the renderer then paints.
- The validation comments in `handleAddProductToCart` and `handleSaveSale` have no code behind them. The model follows the code, so a quantity of 0 or NaN is added to the cart as 0.
- Uniqueness of ids is the server's job. The stores do not check it, so update and delete act on every entry with the id.
