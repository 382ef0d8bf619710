/** The quotation draft as a value, and the pure rules of the editor: line
    totals, the subtotal, the blank draft, adding and removing line items,
    editing one client field, and the test the save action applies. */
module Quotation {
  import JsText

  /** One row of the quotation. `total` is derived: quantity times price.
      Amounts are whole numbers of the smallest currency unit. */
  datatype LineItem = LineItem(description: string, quantity: int, price: int, total: int)

  datatype CompanyInfo = CompanyInfo(name: string, address: string, phone: string, email: string, pvt: string)

  datatype ClientInfo = ClientInfo(name: string, address: string, phone: string, email: string)

  /** The client fields the form edits. */
  datatype ClientField = Name | Address | Phone | Email

  /** The in-memory quotation being edited (the editor's form state). */
  datatype Draft = Draft(
    quotationNumber: string,
    date: string,
    companyInfo: CompanyInfo,
    clientInfo: ClientInfo,
    items: seq<LineItem>)

  /** What the save action sends: the draft plus its totals and a timestamp. */
  datatype Payload = Payload(
    quotationNumber: string,
    date: string,
    companyInfo: CompanyInfo,
    clientInfo: ClientInfo,
    items: seq<LineItem>,
    subtotal: int,
    grandTotal: int,
    createdAt: string)

  /** One keystroke in a row's description, quantity or price input. */
  datatype ItemEdit = SetDescription(text: string) | SetQuantity(quantity: int) | SetPrice(price: int)

  /** Why the save action refuses to send a draft. */
  datatype SaveError = MissingClientName | MissingItemDescription

  datatype SaveDecision = Rejected(reason: SaveError) | Send(payload: Payload)

  /** The issuing company; the form never changes it. */
  const Company := CompanyInfo(
    "Wimwa Tech General Supplies Limited",
    "P.O Box 273 -00206, Kiserian",
    "+254 712953780",
    "wimwatech@gmail.com",
    "PVT-Y2U9QXGP")

  const BlankClient := ClientInfo("", "", "", "")

  /** The row a new draft starts with and the add button appends. */
  const BlankItem := LineItem("", 1, 0, 0)

  /** The number of distinct random draws behind a quotation number. */
  const QuoteDraws := 10000

  /** A row's total from its quantity and price: never negative for
      non-negative inputs, zero when either is zero, and the price itself at
      the default quantity of one. */
  function CalculateTotal(quantity: int, price: int): (r: int)
    ensures quantity >= 0 && price >= 0 ==> r >= 0
    ensures quantity == 0 || price == 0 ==> r == 0
    ensures quantity == 1 ==> r == price
  {
    quantity * price
  }

  /** A row whose derived total is up to date. */
  predicate TotalIsCurrent(item: LineItem) {
    item.total == CalculateTotal(item.quantity, item.price)
  }

  predicate TotalsCurrent(items: seq<LineItem>) {
    forall i :: 0 <= i < |items| ==> TotalIsCurrent(items[i])
  }

  /** `after` is `before` with `edit` applied: the edited field takes the new
      value, a quantity or price change also recomputes the total from the
      row's new quantity and price, and a description change keeps the total. */
  predicate EditedAs(before: LineItem, after: LineItem, edit: ItemEdit) {
    match edit
    case SetDescription(text) => after == before.(description := text)
    case SetQuantity(q) => after == before.(quantity := q, total := CalculateTotal(q, before.price))
    case SetPrice(p) => after == before.(price := p, total := CalculateTotal(before.quantity, p))
  }

  /** The draft invariant: at least one row, and no stale row total. */
  predicate WellFormed(d: Draft) {
    |d.items| >= 1 && TotalsCurrent(d.items)
  }

  /** The label `Quote-<n>` for a random draw n in [0, 10000). */
  function QuoteNumber(draw: nat): (r: string)
    requires draw < QuoteDraws
    ensures |r| >= 7 && r[..6] == "Quote-"
    ensures forall i :: 6 <= i < |r| ==> JsText.IsDigit(r[i])
  {
    "Quote-" + JsText.DecimalString(draw)
  }

  /** Distinct draws give distinct quotation numbers. */
  lemma QuoteNumberInjective(m: nat, n: nat)
    requires m < QuoteDraws && n < QuoteDraws
    ensures QuoteNumber(m) == QuoteNumber(n) ==> m == n
  {
    if QuoteNumber(m) == QuoteNumber(n) {
      assert JsText.DecimalString(m) == QuoteNumber(m)[6..];
      JsText.DecimalStringInjective(m, n);
    }
  }

  /** The draft the form opens with and returns to on reset: the given number
      and date, the fixed company, a blank client and one blank row. */
  function InitialForm(quotationNumber: string, date: string): (d: Draft)
    ensures WellFormed(d) && |d.items| == 1
    ensures d.quotationNumber == quotationNumber && d.date == date
    ensures d.companyInfo == Company
    ensures d.clientInfo == BlankClient && d.items == [BlankItem]
    ensures Subtotal(d.items) == 0
    ensures JsText.IsBlank(d.clientInfo.name) && !HasDescribedItem(d.items)
  {
    Draft(quotationNumber, date, Company, BlankClient, [BlankItem])
  }

  /** The sum of the row totals, added up from the first row to the last
      starting from 0, as a left fold does. */
  function Subtotal(items: seq<LineItem>): (r: int)
    ensures (forall i :: 0 <= i < |items| ==> items[i].total >= 0) ==> r >= 0
  {
    if items == [] then 0 else Subtotal(items[..|items| - 1]) + items[|items| - 1].total
  }

  /** The subtotal of a concatenation is the sum of the subtotals. */
  lemma {:induction false} SubtotalAppend(a: seq<LineItem>, b: seq<LineItem>)
    ensures Subtotal(a + b) == Subtotal(a) + Subtotal(b)
  {
    if b != [] {
      assert (a + b)[..|a + b| - 1] == a + b[..|b| - 1];
      SubtotalAppend(a, b[..|b| - 1]);
    } else {
      assert a + b == a;
    }
  }

  /** Replacing one row changes the subtotal by the difference of its totals
      and by nothing else. */
  lemma SubtotalReplace(items: seq<LineItem>, index: int, item: LineItem)
    requires 0 <= index < |items|
    ensures Subtotal(items[index := item]) == Subtotal(items) - items[index].total + item.total
  {
    var before, after := items[..index], items[index + 1..];
    assert items == before + [items[index]] + after;
    assert items[index := item] == before + [item] + after;
    SubtotalAppend(before + [items[index]], after);
    SubtotalAppend(before + [item], after);
    SubtotalAppend(before, [items[index]]);
    SubtotalAppend(before, [item]);
  }

  /** The sum of quantity times price over the rows, from the source fields. */
  function LineSum(items: seq<LineItem>): int {
    if items == [] then 0 else LineSum(items[..|items| - 1]) + CalculateTotal(items[|items| - 1].quantity, items[|items| - 1].price)
  }

  /** With no stale row total, the subtotal equals the sum of quantity times
      price: the derived value agrees with the fields it is derived from. */
  lemma {:induction false} SubtotalOfCurrentTotals(items: seq<LineItem>)
    requires TotalsCurrent(items)
    ensures Subtotal(items) == LineSum(items)
  {
    if items != [] {
      SubtotalOfCurrentTotals(items[..|items| - 1]);
    }
  }

  /** The row list after the add button: one blank row appended, the others
      kept in order. */
  function AddBlankItem(items: seq<LineItem>): (r: seq<LineItem>)
    ensures |r| == |items| + 1 && r[..|items|] == items && r[|items|] == BlankItem
    ensures TotalsCurrent(items) ==> TotalsCurrent(r)
    ensures Subtotal(r) == Subtotal(items)
  {
    SubtotalAppend(items, [BlankItem]);
    items + [BlankItem]
  }

  /** `items.filter((_, i) => i !== index)`: every row except the one at
      position `index`, in order; a position outside the list removes nothing. */
  function FilterIndex(items: seq<LineItem>, index: int): (r: seq<LineItem>)
    ensures r == if 0 <= index < |items| then items[..index] + items[index + 1..] else items
  {
    if items == [] then []
    else
      var last := |items| - 1;
      var kept := FilterIndex(items[..last], index);
      if last == index then kept
      else
        assert items == items[..last] + [items[last]];
        kept + [items[last]]
  }

  /** The row list after the delete button on row `index`: nothing happens when
      a single row is left; otherwise that row goes and the rest keep order. */
  function RemoveItemAt(items: seq<LineItem>, index: int): (r: seq<LineItem>)
    ensures |items| <= 1 ==> r == items
    ensures |items| > 1 && 0 <= index < |items| ==> r == items[..index] + items[index + 1..]
    ensures |items| > 1 && !(0 <= index < |items|) ==> r == items
    ensures |items| >= 1 ==> |r| >= 1
  {
    if |items| > 1 then FilterIndex(items, index) else items
  }

  /** Removing a row keeps every remaining row total current. */
  lemma RemoveItemAtKeepsTotals(items: seq<LineItem>, index: int)
    requires TotalsCurrent(items)
    ensures TotalsCurrent(RemoveItemAt(items, index))
  {
  }

  /** Removing a row lowers the subtotal by exactly that row's total. */
  lemma RemoveItemAtSubtotal(items: seq<LineItem>, index: int)
    requires |items| > 1 && 0 <= index < |items|
    ensures Subtotal(RemoveItemAt(items, index)) == Subtotal(items) - items[index].total
  {
    var before, after := items[..index], items[index + 1..];
    SplitAround(items, index);
    SubtotalAppend(before + [items[index]], after);
    SubtotalAppend(before, [items[index]]);
    SubtotalAppend(before, after);
  }

  /** A list is the rows before a position, the row there, and the rows after. */
  lemma SplitAround(items: seq<LineItem>, index: int)
    requires 0 <= index < |items|
    ensures items == items[..index] + [items[index]] + items[index + 1..]
  {
  }

  /** The value of one client field. */
  function ClientFieldValue(c: ClientInfo, field: ClientField): string {
    match field
    case Name => c.name
    case Address => c.address
    case Phone => c.phone
    case Email => c.email
  }

  /** `{ ...clientInfo, [field]: value }`: the named field takes the new value
      and every other field keeps its own. */
  function WithClientField(c: ClientInfo, field: ClientField, value: string): (r: ClientInfo)
    ensures ClientFieldValue(r, field) == value
    ensures forall g :: g != field ==> ClientFieldValue(r, g) == ClientFieldValue(c, g)
  {
    match field
    case Name => c.(name := value)
    case Address => c.(address := value)
    case Phone => c.(phone := value)
    case Email => c.(email := value)
  }

  /** `items.some(item => item.description.trim() !== "")`. */
  function HasDescribedItem(items: seq<LineItem>): (r: bool)
    ensures r <==> exists i :: 0 <= i < |items| && !JsText.IsBlank(items[i].description)
  {
    if items == [] then false
    else
      var rest := HasDescribedItem(items[1..]);
      assert forall i :: 1 <= i < |items| ==> items[1..][i - 1] == items[i];
      JsText.Trim(items[0].description) != [] || rest
  }
}
