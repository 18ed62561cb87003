/** The create-list form (src/routes/lists/create.tsx): its field state, the
    derivation of rows from a template, and the validation done on submit. */
module ListForm {
  import opened Wrappers
  import opened Schema
  import Seqs
  import Text

  /** One editable row; `productId == ""` means no product is picked yet. */
  datatype FormItem = FormItem(productId: string, quantity: real, notes: string)

  /** The request the form submits to create a list. */
  datatype CreateListRequest = CreateListRequest(name: string, items: seq<ListItem>)

  /** Why a submission was refused (each shown as a toast, nothing sent). */
  datatype FormError = MissingName | NoItems | NoValidItems

  /** `parseInt(input) || 1` for the multiplier field: an unparsable input
      (`None`) and zero both give 1; any other integer, negative ones
      included, is kept. */
  function ParseMultiplier(parsed: Option<int>): (m: int)
    ensures m != 0
    ensures parsed.Some? && parsed.value != 0 ==> m == parsed.value
    ensures parsed.None? || parsed.value == 0 ==> m == 1
  {
    if parsed.Some? && parsed.value != 0 then parsed.value else 1
  }

  /** The rows `handleCreateFromTemplate` derives from a template's products:
      one per product, in template order, with the quantity scaled by the
      multiplier and empty notes. */
  function Derive(products: seq<TemplateProduct>, multiplier: int): (r: seq<FormItem>)
    ensures |r| == |products|
    ensures forall i :: 0 <= i < |r| ==> r[i].productId == products[i].productId
    ensures forall i :: 0 <= i < |r| ==> r[i].quantity == products[i].quantity * multiplier as real
    ensures forall i :: 0 <= i < |r| ==> r[i].notes == ""
  {
    seq(|products|, i requires 0 <= i < |products| =>
      FormItem(products[i].productId, products[i].quantity * multiplier as real, ""))
  }

  /** The first loaded template with the given `_id`. */
  function FindTemplate(templates: seq<Doc<Template>>, id: string): (r: Option<Template>)
    ensures r.Some? <==> exists i :: 0 <= i < |templates| && templates[i].id == id
    ensures r.Some? ==> exists i :: 0 <= i < |templates| && templates[i].id == id && templates[i].value == r.value
  {
    match Seqs.Find((d: Doc<Template>) => d.id == id, templates)
    case None => None
    case Some(d) => Some(d.value)
  }

  /** The submit filter `item.productId && item.quantity > 0`. */
  predicate IsValidRow(item: FormItem) {
    item.productId != "" && item.quantity > 0.0
  }

  /** A kept row as it is sent: same product, quantity and notes, unchecked. */
  function ToListItem(item: FormItem): ListItem {
    ListItem(item.productId, item.quantity, Some(item.notes), false)
  }

  /** `onSubmit`: refuses a blank name (after trimming), an empty row list,
      or rows none of which has a product and a positive quantity; otherwise
      sends the untrimmed name and exactly the valid rows, in order, each
      unchecked. */
  function SubmitList(name: string, items: seq<FormItem>): (r: Result<CreateListRequest, FormError>)
    ensures r == Failure(MissingName) <==> Text.Trim(name) == ""
    ensures r == Failure(NoItems) <==> Text.Trim(name) != "" && items == []
    ensures r == Failure(NoValidItems) <==>
      Text.Trim(name) != "" && items != [] && forall i :: 0 <= i < |items| ==> !IsValidRow(items[i])
    ensures r.Success? ==> r.value.name == name
    ensures r.Success? ==> |r.value.items| == |Seqs.Filter(IsValidRow, items)| > 0
    ensures r.Success? ==> forall k :: 0 <= k < |r.value.items| ==>
      var kept := Seqs.Filter(IsValidRow, items)[k];
      IsValidRow(kept) && r.value.items[k] == ListItem(kept.productId, kept.quantity, Some(kept.notes), false)
  {
    if Text.Trim(name) == "" then Failure(MissingName)
    else if items == [] then Failure(NoItems)
    else
      Seqs.FilterEmpty(IsValidRow, items);
      var valid := Seqs.Filter(IsValidRow, items);
      if valid == [] then
        Failure(NoValidItems)
      else
        assert valid[0] in valid;
        Success(CreateListRequest(name, seq(|valid|, k requires 0 <= k < |valid| => ToListItem(valid[k]))))
  }

  /** Deriving from a template whose rows all name a product with a positive
      quantity, with a positive multiplier, and submitting under a non-blank
      name sends one unchecked item per template product, in template order,
      with the quantity scaled and empty notes. */
  lemma SubmitDerived(name: string, products: seq<TemplateProduct>, multiplier: int)
    requires Text.Trim(name) != "" && products != [] && multiplier > 0
    requires forall i :: 0 <= i < |products| ==> products[i].productId != "" && products[i].quantity > 0.0
    ensures SubmitList(name, Derive(products, multiplier)).Success?
    ensures SubmitList(name, Derive(products, multiplier)).value.items ==
      seq(|products|, i requires 0 <= i < |products| =>
        ListItem(products[i].productId, products[i].quantity * multiplier as real, Some(""), false))
  {
    var rows := Derive(products, multiplier);
    forall i | 0 <= i < |rows| ensures IsValidRow(rows[i]) {
      assert rows[i].quantity == products[i].quantity * multiplier as real;
    }
    Seqs.FilterAll(IsValidRow, rows);
  }

  /** A negative multiplier (which the multiplier field lets through) turns
      every positive template quantity negative, so the derived rows are all
      dropped on submit and the list is refused. */
  lemma NegativeMultiplierRefused(name: string, products: seq<TemplateProduct>, multiplier: int)
    requires Text.Trim(name) != "" && products != [] && multiplier < 0
    requires forall i :: 0 <= i < |products| ==> products[i].quantity > 0.0
    ensures SubmitList(name, Derive(products, multiplier)) == Failure(NoValidItems)
  {
    var rows := Derive(products, multiplier);
    forall i | 0 <= i < |rows| ensures !IsValidRow(rows[i]) {
      assert rows[i].quantity == products[i].quantity * multiplier as real;
    }
    Seqs.FilterEmpty(IsValidRow, rows);
  }

  /** The form's state: the list name, the chosen template id (`""` for none),
      the multiplier and the editable rows. */
  class CreateListForm {
    var name: string
    var selectedTemplate: string
    var multiplier: int
    var items: seq<FormItem>

    /** The form's default values. */
    constructor ()
      ensures name == "" && selectedTemplate == "" && multiplier == 1 && items == []
    {
      name, selectedTemplate, multiplier, items := "", "", 1, [];
    }

    /** The name field. */
    method SetName(value: string)
      modifies this
      ensures name == value
      ensures selectedTemplate == old(selectedTemplate) && multiplier == old(multiplier) && items == old(items)
    {
      name := value;
    }

    /** The template select. */
    method SelectTemplate(id: string)
      modifies this
      ensures selectedTemplate == id
      ensures name == old(name) && multiplier == old(multiplier) && items == old(items)
    {
      selectedTemplate := id;
    }

    /** The multiplier field's change handler. */
    method SetMultiplier(parsed: Option<int>)
      modifies this
      ensures multiplier == ParseMultiplier(parsed)
      ensures name == old(name) && selectedTemplate == old(selectedTemplate) && items == old(items)
    {
      multiplier := ParseMultiplier(parsed);
    }

    /** `handleCreateFromTemplate`: with a template chosen, a non-empty name
        and the template among those loaded, replaces every row by the rows
        derived from it (no merging with the rows already there); otherwise
        changes nothing. */
    method ApplyTemplate(templates: seq<Doc<Template>>)
      modifies this
      ensures var t := FindTemplate(templates, old(selectedTemplate));
        items == if old(selectedTemplate) != "" && old(name) != "" && t.Some?
                 then Derive(t.value.products, old(multiplier)) else old(items)
      ensures name == old(name) && selectedTemplate == old(selectedTemplate) && multiplier == old(multiplier)
    {
      if selectedTemplate != "" && name != "" {
        var t := FindTemplate(templates, selectedTemplate);
        if t.Some? {
          items := Derive(t.value.products, multiplier);
        }
      }
    }

    /** `addProductToList`: appends an empty row with quantity 1. */
    method AddProduct()
      modifies this
      ensures items == old(items) + [FormItem("", 1.0, "")]
      ensures name == old(name) && selectedTemplate == old(selectedTemplate) && multiplier == old(multiplier)
    {
      items := items + [FormItem("", 1.0, "")];
    }

    /** The product select of row `i`. */
    method SetItemProduct(i: nat, productId: string)
      requires i < |items|
      modifies this
      ensures items == old(items)[i := old(items)[i].(productId := productId)]
      ensures name == old(name) && selectedTemplate == old(selectedTemplate) && multiplier == old(multiplier)
    {
      items := items[i := items[i].(productId := productId)];
    }

    /** The quantity field of row `i` (`parseFloat(input) || 0`). */
    method SetItemQuantity(i: nat, parsed: Option<real>)
      requires i < |items|
      modifies this
      ensures items == old(items)[i := old(items)[i].(quantity := Text.QuantityInput(parsed))]
      ensures name == old(name) && selectedTemplate == old(selectedTemplate) && multiplier == old(multiplier)
    {
      items := items[i := items[i].(quantity := Text.QuantityInput(parsed))];
    }

    /** The notes field of row `i`. */
    method SetItemNotes(i: nat, notes: string)
      requires i < |items|
      modifies this
      ensures items == old(items)[i := old(items)[i].(notes := notes)]
      ensures name == old(name) && selectedTemplate == old(selectedTemplate) && multiplier == old(multiplier)
    {
      items := items[i := items[i].(notes := notes)];
    }

    /** The remove button of row `i`: only that row goes, the others keep
        their order. */
    method RemoveItem(i: nat)
      requires i < |items|
      modifies this
      ensures |items| == |old(items)| - 1
      ensures forall j :: 0 <= j < i ==> items[j] == old(items)[j]
      ensures forall j :: i <= j < |items| ==> items[j] == old(items)[j + 1]
      ensures name == old(name) && selectedTemplate == old(selectedTemplate) && multiplier == old(multiplier)
    {
      items := items[..i] + items[i + 1..];
    }
  }
}
