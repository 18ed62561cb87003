/** The create-template form (src/routes/templates/create.tsx): its field
    state, the validation done on submit and the unit labels it shows. */
module TemplateForm {
  import opened Wrappers
  import opened Schema
  import Seqs
  import Text

  /** The form's type select: 'meal' or 'set'. */
  datatype FormType = FormMeal | FormSet

  /** The value the type select holds. */
  function FormTypeName(t: FormType): string {
    match t
    case FormMeal => "meal"
    case FormSet => "set"
  }

  /** One editable product row; `productId == ""` means none picked yet. */
  datatype ProductRow = ProductRow(productId: string, quantity: real)

  /** The request the form submits; `kind` is the select's value as is. */
  datatype CreateTemplateRequest = CreateTemplateRequest(
    name: string, description: string, kind: string, products: seq<TemplateProduct>)

  /** Why a submission was refused (each shown as a toast, nothing sent). */
  datatype FormError = MissingName | MissingDescription | NoProducts | NoValidProducts

  /** The submit filter `product.productId && product.quantity > 0`. */
  predicate IsValidRow(row: ProductRow) {
    row.productId != "" && row.quantity > 0.0
  }

  /** `onSubmit`: refuses a blank name, then a blank description (both after
      trimming), then an empty row list, then rows none of which is valid;
      otherwise sends name, description and type unchanged with exactly the
      valid rows, in order, reduced to (product, quantity). */
  function SubmitTemplate(name: string, description: string, kind: FormType, rows: seq<ProductRow>)
    : (r: Result<CreateTemplateRequest, FormError>)
    ensures r == Failure(MissingName) <==> Text.Trim(name) == ""
    ensures r == Failure(MissingDescription) <==> Text.Trim(name) != "" && Text.Trim(description) == ""
    ensures r == Failure(NoProducts) <==>
      Text.Trim(name) != "" && Text.Trim(description) != "" && rows == []
    ensures r == Failure(NoValidProducts) <==>
      Text.Trim(name) != "" && Text.Trim(description) != "" && rows != [] &&
      forall i :: 0 <= i < |rows| ==> !IsValidRow(rows[i])
    ensures r.Success? ==>
      r.value.name == name && r.value.description == description && r.value.kind == FormTypeName(kind)
    ensures r.Success? ==> |r.value.products| == |Seqs.Filter(IsValidRow, rows)| > 0
    ensures r.Success? ==> forall k :: 0 <= k < |r.value.products| ==>
      var kept := Seqs.Filter(IsValidRow, rows)[k];
      IsValidRow(kept) && r.value.products[k] == TemplateProduct(kept.productId, kept.quantity)
  {
    if Text.Trim(name) == "" then Failure(MissingName)
    else if Text.Trim(description) == "" then Failure(MissingDescription)
    else if rows == [] then Failure(NoProducts)
    else
      Seqs.FilterEmpty(IsValidRow, rows);
      var valid := Seqs.Filter(IsValidRow, rows);
      if valid == [] then
        Failure(NoValidProducts)
      else
        assert valid[0] in valid;
        Success(CreateTemplateRequest(name, description, FormTypeName(kind),
          seq(|valid|, k requires 0 <= k < |valid| => TemplateProduct(valid[k].productId, valid[k].quantity))))
  }

  /** The form's 'set' type is not one of the server's template types (the
      server calls it 'template'), so the server's argument validator refuses
      every request submitted with it, while 'meal' requests pass it. */
  lemma SetTypeNotAccepted(name: string, description: string, kind: FormType, rows: seq<ProductRow>)
    requires SubmitTemplate(name, description, kind, rows).Success?
    ensures var sent := SubmitTemplate(name, description, kind, rows).value.kind;
      ParseTemplateType(sent) == if kind == FormMeal then Some(Meal) else None
  {
  }

  /** The server template type each choice of the select stands for: a
      meal is 'meal' and a set is the server's generic 'template'. */
  function RequestType(t: FormType): (r: TemplateType)
    ensures t == FormMeal <==> r == Meal
    ensures t == FormSet <==> r == TemplateSet
  {
    match t
    case FormMeal => Meal
    case FormSet => TemplateSet
  }

  /** Sent under its server literal, every choice passes the server's
      validator and is read back as the type it stands for; a meal is sent
      under the literal the form already uses. */
  lemma RequestTypeAccepted(t: FormType)
    ensures ParseTemplateType(TemplateTypeName(RequestType(t))) == Some(RequestType(t))
    ensures t == FormMeal ==> TemplateTypeName(RequestType(t)) == FormTypeName(t)
  {
  }

  /** `getUnitLabel`: 'piece' is shown as 'szt.'; 'ml', 'g' and any other
      string are shown as they are. */
  function UnitLabel(unit: string): (r: string)
    ensures unit == "piece" ==> r == "szt."
    ensures unit != "piece" ==> r == unit
  {
    match unit
    case "ml" => "ml"
    case "g" => "g"
    case "piece" => "szt."
    case _ => unit
  }

  /** The three units get three different labels. */
  lemma UnitLabelsDistinct(u: Unit, v: Unit)
    requires UnitLabel(UnitName(u)) == UnitLabel(UnitName(v))
    ensures u == v
  {
  }

  /** The form's state: name, description, type and product rows. */
  class CreateTemplateForm {
    var name: string
    var description: string
    var kind: FormType
    var products: seq<ProductRow>

    /** The form's default values: blank, type 'meal', no rows. */
    constructor ()
      ensures name == "" && description == "" && kind == FormMeal && products == []
    {
      name, description, kind, products := "", "", FormMeal, [];
    }

    /** The name field. */
    method SetName(value: string)
      modifies this
      ensures name == value
      ensures description == old(description) && kind == old(kind) && products == old(products)
    {
      name := value;
    }

    /** The description field. */
    method SetDescription(value: string)
      modifies this
      ensures description == value
      ensures name == old(name) && kind == old(kind) && products == old(products)
    {
      description := value;
    }

    /** The type select. */
    method SetKind(value: FormType)
      modifies this
      ensures kind == value
      ensures name == old(name) && description == old(description) && products == old(products)
    {
      kind := value;
    }

    /** `addProductToTemplate`: appends an empty row with quantity 1. */
    method AddProduct()
      modifies this
      ensures products == old(products) + [ProductRow("", 1.0)]
      ensures name == old(name) && description == old(description) && kind == old(kind)
    {
      products := products + [ProductRow("", 1.0)];
    }

    /** The product select of row `i`. */
    method SetRowProduct(i: nat, productId: string)
      requires i < |products|
      modifies this
      ensures products == old(products)[i := old(products)[i].(productId := productId)]
      ensures name == old(name) && description == old(description) && kind == old(kind)
    {
      products := products[i := products[i].(productId := productId)];
    }

    /** The quantity field of row `i` (`parseFloat(input) || 0`). */
    method SetRowQuantity(i: nat, parsed: Option<real>)
      requires i < |products|
      modifies this
      ensures products == old(products)[i := old(products)[i].(quantity := Text.QuantityInput(parsed))]
      ensures name == old(name) && description == old(description) && kind == old(kind)
    {
      products := products[i := products[i].(quantity := Text.QuantityInput(parsed))];
    }

    /** The remove button of row `i`: only that row goes. */
    method RemoveProduct(i: nat)
      requires i < |products|
      modifies this
      ensures |products| == |old(products)| - 1
      ensures forall j :: 0 <= j < i ==> products[j] == old(products)[j]
      ensures forall j :: i <= j < |products| ==> products[j] == old(products)[j + 1]
      ensures name == old(name) && description == old(description) && kind == old(kind)
    {
      products := products[..i] + products[i + 1..];
    }
  }
}
