/** The editor's form state: one mutable cell holding the draft, replaced by
    each handler, as the form component's `formData` state is. */
module DraftEditor {
  import JsText
  import opened Quotation

  class QuotationEditor {
    var formData: Draft

    /** The draft keeps at least one row and no stale row total. */
    ghost predicate Valid()
      reads this
    {
      WellFormed(formData)
    }

    /** The form as it first opens, numbered by the random draw `draw`. */
    constructor (draw: nat, date: string)
      requires draw < QuoteDraws
      ensures formData == InitialForm(QuoteNumber(draw), date)
      ensures Valid()
    {
      formData := InitialForm(QuoteNumber(draw), date);
    }

    /** handleItemChange: writes one field of row `index`; a quantity or price
        write recomputes that row's total. Only that row changes. */
    method HandleItemChange(index: int, edit: ItemEdit)
      requires 0 <= index < |formData.items|
      modifies this
      ensures |formData.items| == |old(formData.items)|
      ensures EditedAs(old(formData.items[index]), formData.items[index], edit)
      ensures forall j :: 0 <= j < |formData.items| && j != index ==> formData.items[j] == old(formData.items[j])
      ensures formData == old(formData).(items := formData.items)
      ensures !edit.SetDescription? ==> TotalIsCurrent(formData.items[index])
      ensures Subtotal(formData.items)
        == old(Subtotal(formData.items)) - old(formData.items[index].total) + formData.items[index].total
      ensures old(Valid()) ==> Valid()
    {
      var newItems := formData.items;
      var item := newItems[index];
      match edit {
        case SetDescription(text) =>
          item := item.(description := text);
        case SetQuantity(q) =>
          item := item.(quantity := q);
        case SetPrice(p) =>
          item := item.(price := p);
      }
      if edit.SetQuantity? || edit.SetPrice? {
        item := item.(total := CalculateTotal(item.quantity, item.price));
      }
      SubtotalReplace(newItems, index, item);
      newItems := newItems[index := item];
      formData := formData.(items := newItems);
    }

    /** addItem: appends a blank row. */
    method AddItem()
      modifies this
      ensures formData == old(formData).(items := AddBlankItem(old(formData.items)))
      ensures old(Valid()) ==> Valid()
    {
      formData := formData.(items := AddBlankItem(formData.items));
    }

    /** removeItem: drops row `index` unless it is the only row left. */
    method RemoveItem(index: int)
      modifies this
      ensures formData == old(formData).(items := RemoveItemAt(old(formData.items), index))
      ensures old(Valid()) ==> Valid()
    {
      if |formData.items| > 1 {
        if Valid() {
          RemoveItemAtKeepsTotals(formData.items, index);
        }
        var newItems := FilterIndex(formData.items, index);
        formData := formData.(items := newItems);
      }
    }

    /** handleClientChange: writes one client field and nothing else. */
    method HandleClientChange(field: ClientField, value: string)
      modifies this
      ensures formData == old(formData).(clientInfo := WithClientField(old(formData.clientInfo), field, value))
      ensures old(Valid()) ==> Valid()
    {
      formData := formData.(clientInfo := WithClientField(formData.clientInfo, field, value));
    }

    /** resetForm: a blank form with a fresh number and date. */
    method ResetForm(draw: nat, date: string)
      requires draw < QuoteDraws
      modifies this
      ensures formData == InitialForm(QuoteNumber(draw), date)
      ensures Valid()
    {
      formData := InitialForm(QuoteNumber(draw), date);
    }

    /** The checks saveQuotation makes before it contacts the server, and the
        body it would post: a blank client name is refused first, then a draft
        with no described row; otherwise the draft goes out with subtotal and
        grand total both equal to the sum of the row totals. */
    method SaveQuotation(createdAt: string) returns (decision: SaveDecision)
      ensures decision == Rejected(MissingClientName) <==> JsText.IsBlank(formData.clientInfo.name)
      ensures decision == Rejected(MissingItemDescription)
        <==> !JsText.IsBlank(formData.clientInfo.name)
             && forall i :: 0 <= i < |formData.items| ==> JsText.IsBlank(formData.items[i].description)
      ensures decision.Send?
        <==> !JsText.IsBlank(formData.clientInfo.name)
             && exists i :: 0 <= i < |formData.items| && !JsText.IsBlank(formData.items[i].description)
      ensures decision.Send? ==>
        var p := decision.payload;
        && p.quotationNumber == formData.quotationNumber && p.date == formData.date
        && p.companyInfo == formData.companyInfo && p.clientInfo == formData.clientInfo
        && p.items == formData.items && p.createdAt == createdAt
        && p.subtotal == p.grandTotal == Subtotal(formData.items)
      ensures decision.Send? && Valid() ==> decision.payload.grandTotal == LineSum(formData.items)
    {
      if JsText.Trim(formData.clientInfo.name) == [] {
        return Rejected(MissingClientName);
      }
      var hasValidItems := HasDescribedItem(formData.items);
      if !hasValidItems {
        return Rejected(MissingItemDescription);
      }
      if Valid() {
        SubtotalOfCurrentTotals(formData.items);
      }
      decision := Send(Payload(
        formData.quotationNumber,
        formData.date,
        formData.companyInfo,
        formData.clientInfo,
        formData.items,
        Subtotal(formData.items),
        Subtotal(formData.items),
        createdAt));
    }
  }

  /** A session through the handlers alone: two rows of 3 at 1500 each give
      row totals of 4500 and a subtotal and grand total of 9000. */
  method ExampleSession(draw: nat, date: string)
    requires draw < QuoteDraws
  {
    var editor := new QuotationEditor(draw, date);
    editor.HandleClientChange(Name, "Acme Ltd");
    assert editor.formData.clientInfo.name[0] == 'A';
    editor.HandleItemChange(0, SetDescription("Laptop"));
    assert editor.formData.items[0].description[0] == 'L';
    editor.HandleItemChange(0, SetQuantity(3));
    editor.HandleItemChange(0, SetPrice(1500));
    assert editor.formData.items[0].total == 4500;
    assert Subtotal(editor.formData.items) == 4500;
    editor.AddItem();
    editor.HandleItemChange(1, SetQuantity(3));
    editor.HandleItemChange(1, SetPrice(1500));
    assert Subtotal(editor.formData.items) == 9000;
    editor.RemoveItem(5);
    assert |editor.formData.items| == 2 && Subtotal(editor.formData.items) == 9000;
    var decision := editor.SaveQuotation("2026-10-16T09:00:00Z");
    assert !JsText.IsBlank(editor.formData.clientInfo.name);
    assert !JsText.IsBlank(editor.formData.items[0].description);
    assert decision.Send? && decision.payload.grandTotal == 9000;
  }
}
