/** The document types of the database schema (convex/schema.ts) and the
    literal-union validators that guard their enumerated fields. */
module Schema {
  import opened Wrappers

  /** Document ids are opaque strings handed out by the database. */
  type UserId = string
  type ProductId = string
  type TemplateId = string
  type ListId = string

  /** A product's unit of measure: millilitres, grams or a piece count. */
  datatype Unit = Ml | G | Piece

  /** A template is a meal or a generic set (stored as 'template'). */
  datatype TemplateType = Meal | TemplateSet

  /** The lifecycle status of a shopping list. */
  datatype ListStatus = Draft | Ready | Completed

  /** A catalog product. */
  datatype Product = Product(name: string, unit: Unit)

  /** One (product, quantity) pair of a template. */
  datatype TemplateProduct = TemplateProduct(productId: ProductId, quantity: real)

  /** A template document, owned by `userId`. */
  datatype Template = Template(
    userId: UserId,
    name: string,
    description: string,
    kind: TemplateType,
    products: seq<TemplateProduct>,
    createdAt: int,
    updatedAt: int)

  /** One checklist row of a shopping list; `notes` is optional. */
  datatype ListItem = ListItem(productId: ProductId, quantity: real, notes: Option<string>, checked: bool)

  /** A shopping-list document, owned by `userId`. */
  datatype ShoppingList = ShoppingList(
    userId: UserId,
    name: string,
    status: ListStatus,
    items: seq<ListItem>,
    createdAt: int,
    updatedAt: int)

  /** A document together with its `_id`, as queries hand it to the client. */
  datatype Doc<+T> = Doc(id: string, value: T)

  /** The string literal stored for each unit. */
  function UnitName(u: Unit): string {
    match u
    case Ml => "ml"
    case G => "g"
    case Piece => "piece"
  }

  /** The `v.union(v.literal('ml'), v.literal('g'), v.literal('piece'))`
      validator: it accepts exactly the three unit literals. */
  function ParseUnit(s: string): (r: Option<Unit>)
    ensures r.Some? <==> s == "ml" || s == "g" || s == "piece"
    ensures r.Some? ==> UnitName(r.value) == s
  {
    if s == "ml" then Some(Ml)
    else if s == "g" then Some(G)
    else if s == "piece" then Some(Piece)
    else None
  }

  /** The string literal stored for each template type. */
  function TemplateTypeName(t: TemplateType): string {
    match t
    case Meal => "meal"
    case TemplateSet => "template"
  }

  /** The template-type validator: it accepts exactly 'meal' and 'template'. */
  function ParseTemplateType(s: string): (r: Option<TemplateType>)
    ensures r.Some? <==> s == "meal" || s == "template"
    ensures r.Some? ==> TemplateTypeName(r.value) == s
  {
    if s == "meal" then Some(Meal)
    else if s == "template" then Some(TemplateSet)
    else None
  }

  /** The string literal stored for each list status. */
  function StatusName(s: ListStatus): string {
    match s
    case Draft => "draft"
    case Ready => "ready"
    case Completed => "completed"
  }

  /** The list-status validator: it accepts exactly the three status literals. */
  function ParseStatus(s: string): (r: Option<ListStatus>)
    ensures r.Some? <==> s == "draft" || s == "ready" || s == "completed"
    ensures r.Some? ==> StatusName(r.value) == s
  {
    if s == "draft" then Some(Draft)
    else if s == "ready" then Some(Ready)
    else if s == "completed" then Some(Completed)
    else None
  }

  /** Every enumerated value is stored under a literal its validator reads
      back as that same value, so each field holds exactly one of its
      literals. */
  lemma LiteralsRoundTrip(u: Unit, t: TemplateType, s: ListStatus)
    ensures ParseUnit(UnitName(u)) == Some(u)
    ensures ParseTemplateType(TemplateTypeName(t)) == Some(t)
    ensures ParseStatus(StatusName(s)) == Some(s)
  {
  }
}
