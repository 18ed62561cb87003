# baskit, modelled in Dafny

baskit is a shopping-list web application. A signed-in user keeps meal and
set templates (products with quantities). From those the user builds
shopping lists: a list moves from `draft` to `ready` and, while shopping, to
`completed`. One list at a time is the user's active shopping session. This
project models the core of that application and proves properties about it:

- the server handlers for lists and templates (`convex/lists.ts`,
  `convex/templates.ts`) and the schema validators (`convex/schema.ts`);
- the two create forms (`src/routes/lists/create.tsx`,
  `src/routes/templates/create.tsx`);
- the list card's status-driven actions (`src/components/shopping-list.tsx`);
- the active-session tracker in its two implementations, the zustand store
  and the React provider (`src/components/shopping-store.ts`,
  `src/components/shopping-provider.tsx`);
- the three active-list views (`src/routes/shopping.tsx`,
  `src/routes/lists/current.tsx`, `src/components/current-list-card.tsx`);
- the product picker (`src/components/product-selector.tsx`);
- the avatar initials (`src/components/auth/nav-profile.tsx`).

Modules, one per file:

| module | file | models |
|---|---|---|
| `Wrappers` | wrappers.dfy | `Option`, `Result`, `Outcome` |
| `Seqs` | seqs.dfy | `filter`, `findIndex`, `find`, specified independently of their definitions |
| `Schema` | schema.dfy | document types and the literal-union validators |
| `Access` | access.dfy | handler errors and the caller / existence / ownership check order |
| `Lists` | lists.dfy | the list table as a class over a `map`, with its handlers |
| `Templates` | templates.dfy | the template table as a class over a `map`, with its handlers |
| `Text` | text.dfy | `trim`, `toLowerCase`, `includes`, `split(' ')`, `parseFloat(..) \|\| 0` |
| `ListForm` | list_form.dfy | the create-list form state, template derivation, submit validation |
| `TemplateForm` | template_form.dfy | the create-template form state, submit validation, unit labels |
| `ListCard` | list_card.dfy | dropdown actions per status, their requests, title links |
| `Session` | session.dfy | the session step function and the zustand store |
| `Provider` | provider.dfy | the React provider mirroring its state into browser storage |
| `ActiveList` | active_list.dfy | the shopping page, the current-list page and the dashboard card |
| `ProductSelector` | product_selector.dfy | search filtering and the add guard/reset |
| `Profile` | profile.dfy | `getInitials` |

The environment is made explicit:

- The signed-in user is an `Option<UserId>` parameter (`None` when signed out).
- `Date.now()` is a `now: int` parameter.
- The id the database assigns to an insert is a fresh `newId` parameter.
- The query results a component renders (lists, templates, products) are parameters.
- A storage call that throws is `accessible == false`; the provider swallows the exception.
- `parseInt`/`parseFloat` results are `Option` values (`None` for `NaN`).
- Quantities are `real`.
- Document ids are strings.

The model follows the code; in particular:

- Applying a template in the list form replaces the rows; it does not merge
  them with the rows already there (`ListForm.CreateListForm.ApplyTemplate`).
- The list handlers read and write a table named `lists`; the schema
  declares it as `shoppingLists`. The model has one list table.
- The template form's type select offers `'set'`, but the server only
  accepts `'meal'` and `'template'`. See Findings.
- No handler makes `updatedAt` strictly increase. The model only states
  `updatedAt == now`.
- The card's "start shopping" action only navigates; it does not start the
  session (`ListCard.Handle`).
- The active-list pages toggle an item by its position through an endpoint
  not in `convex/lists.ts`. The server's `setItemChecked` addresses an item
  by product instead. Both are modelled: `ActiveList.ToggleRequest` and
  `Lists.ListStore.SetItemChecked`.

## Model

| member | source | states |
|---|---|---|
| Schema.ParseUnit | convex/schema.ts:10 | accepts exactly 'ml', 'g', 'piece', and reads each back as the unit stored under it |
| Schema.ParseTemplateType | convex/schema.ts:17 | accepts exactly 'meal' and 'template', each read back as its type |
| Schema.ParseStatus | convex/schema.ts:31-35 | accepts exactly 'draft', 'ready', 'completed', each read back as its status |
| Schema.LiteralsRoundTrip | convex/schema.ts:10-35 | every unit, template type and status is stored under a literal its validator maps back to it |
| Access.MessagesDistinct | convex/lists.ts:89-100 | no two handler errors share a message |
| Access.Authorize | convex/lists.ts:54-59 | passes iff a caller is signed in and owns the existing document; otherwise "User not found", then the table's not-found error, then "User not authorized", in that order |
| Lists.Patched | convex/lists.ts:61-64 | exactly the supplied fields are replaced, whatever the status; owner and creation time are kept and `updatedAt` becomes now |
| Lists.PatchIdempotent | convex/lists.ts:61-64 | sending the same patch twice gives the same list as sending it once |
| Lists.CheckItem | convex/lists.ts:96-104 | `None` iff no item is for the product; otherwise same length, the first item for the product gets the flag and every other item is unchanged |
| Lists.CheckItemIdempotent | convex/lists.ts:96-104 | setting the same flag twice equals setting it once |
| Lists.CheckThenUncheckRestores | convex/lists.ts:96-104 | checking an unchecked item and then unchecking it restores the original items |
| Lists.ListStore.CreateList | convex/lists.ts:17-29 | fails with "User not found" and writes nothing when signed out; otherwise inserts exactly one draft list owned by the caller with the given name and items, stamped with now twice |
| Lists.ListStore.UpdateList | convex/lists.ts:51-64 | result is the authorization outcome; on failure nothing changes, on success only that list is replaced by its patch |
| Lists.ListStore.DeleteList | convex/lists.ts:70-78 | result is the authorization outcome; on success exactly that list is removed, otherwise nothing changes |
| Lists.ListStore.SetItemChecked | convex/lists.ts:88-109 | authorization errors first, then "Product not found" iff no item matches; on success only the first matching item's flag and `updatedAt` change |
| Lists.ListStore.OwnedBy | convex/lists.ts:119-122 | exactly the documents owned by the user, unmodified |
| Lists.ListStore.GetLists | convex/lists.ts:115-122 | "User not found" iff signed out; otherwise exactly the caller's lists, never another user's |
| Lists.ListStore.GetListById | convex/lists.ts:128-140 | succeeds iff signed in, the list exists and the caller owns it, yielding that list; errors are those of the authorization order |
| Templates.Replaced | convex/templates.ts:55-58 | every editable field is replaced; owner and creation time are kept and `updatedAt` becomes now |
| Templates.ReplaceForgetsEarlierEdit | convex/templates.ts:55-58 | two updates in a row equal the second alone |
| Templates.TemplateStore.CreateTemplate | convex/templates.ts:17-28 | fails when signed out; otherwise inserts exactly one template owned by the caller with the given fields, stamped with now twice |
| Templates.TemplateStore.UpdateTemplate | convex/templates.ts:45-58 | result is the authorization outcome; on success only that template is replaced, otherwise nothing changes |
| Templates.TemplateStore.DeleteTemplate | convex/templates.ts:64-72 | result is the authorization outcome; on success exactly that template is removed |
| Templates.TemplateStore.OwnedBy | convex/templates.ts:83-86 | exactly the templates owned by the user, unmodified |
| Templates.TemplateStore.GetTemplates | convex/templates.ts:78-86 | "User not found" iff signed out; otherwise exactly the caller's templates |
| Templates.TemplateStore.GetTemplateById | convex/templates.ts:92-101 | needs a caller; yields the template iff it exists and is the caller's, and null (not an error) for a missing or foreign one |
| Text.Trim | src/routes/lists/create.tsx:86 | empty iff the input is all whitespace; otherwise a contiguous piece of the input that starts and ends with non-whitespace, preceded by exactly the leading whitespace and followed only by whitespace |
| Text.Lower | src/components/product-selector.tsx:30 | same length, each character lower-cased (ASCII letters) and every other character kept |
| Text.ContainsEmpty | src/components/product-selector.tsx:30 | every string includes the empty string |
| Text.Split | src/components/auth/nav-profile.tsx:23 | at least one piece, no piece contains a space |
| Text.JoinSplit | src/components/auth/nav-profile.tsx:23 | joining the pieces with single spaces restores the input |
| Text.QuantityInput | src/routes/lists/create.tsx:298 | a parsed number is kept (0 stays 0); an unparsable input gives 0 |
| ListForm.ParseMultiplier | src/routes/lists/create.tsx:214-215 | never 0; an unparsable input or 0 gives 1; any other integer, negative included, is kept |
| ListForm.Derive | src/routes/lists/create.tsx:72-76 | one row per template product, in order, with the quantity times the multiplier and empty notes |
| ListForm.FindTemplate | src/routes/lists/create.tsx:70 | found iff some loaded template has the id, and then it is that template |
| ListForm.SubmitList | src/routes/lists/create.tsx:84-114 | each refusal iff its condition (blank trimmed name, then no rows, then no valid row); otherwise the untrimmed name and exactly the valid rows, in order, unchecked |
| ListForm.SubmitDerived | src/routes/lists/create.tsx:72-113 | rows derived from a template with positive quantities and a positive multiplier are all sent, as unchecked items with scaled quantities |
| ListForm.NegativeMultiplierRefused | src/routes/lists/create.tsx:97-104 | a negative multiplier makes every derived row invalid, so the submit is refused |
| ListForm.CreateListForm.constructor | src/routes/lists/create.tsx:51-58 | blank name, no template, multiplier 1, no rows |
| ListForm.CreateListForm.SetName | src/routes/lists/create.tsx:155-157 | sets the name, nothing else |
| ListForm.CreateListForm.SelectTemplate | src/routes/lists/create.tsx:174-181 | sets the chosen template, nothing else |
| ListForm.CreateListForm.SetMultiplier | src/routes/lists/create.tsx:202-215 | sets the multiplier to the parsed value or 1, nothing else |
| ListForm.CreateListForm.ApplyTemplate | src/routes/lists/create.tsx:65-82 | with a template chosen, a non-empty name and the template loaded, the rows become exactly the derived rows; otherwise nothing changes |
| ListForm.CreateListForm.AddProduct | src/routes/lists/create.tsx:124-130 | appends one empty row with quantity 1 |
| ListForm.CreateListForm.SetItemProduct | src/routes/lists/create.tsx:258-265 | only row i's product changes |
| ListForm.CreateListForm.SetItemQuantity | src/routes/lists/create.tsx:285-298 | only row i's quantity changes, to the parsed value or 0 |
| ListForm.CreateListForm.SetItemNotes | src/routes/lists/create.tsx:309-311 | only row i's notes change |
| ListForm.CreateListForm.RemoveItem | src/routes/lists/create.tsx:326 | only row i goes; the others keep their order |
| TemplateForm.SubmitTemplate | src/routes/templates/create.tsx:63-98 | each refusal iff its condition (blank name, blank description, no rows, no valid row, in that order); otherwise the fields unchanged and exactly the valid rows, in order |
| TemplateForm.SetTypeNotAccepted | src/routes/templates/create.tsx:90-93 | a submitted 'meal' passes the server's type validator and a submitted 'set' is refused by it |
| TemplateForm.RequestType | src/routes/templates/create.tsx:185-186 | meal maps to the server's meal type and set to its generic 'template' type, one to one |
| TemplateForm.RequestTypeAccepted | convex/templates.ts:9 | every choice, sent under its server literal, passes the validator as itself |
| TemplateForm.UnitLabel | src/routes/templates/create.tsx:112-123 | 'piece' shows as 'szt.', anything else as itself |
| TemplateForm.UnitLabelsDistinct | src/routes/templates/create.tsx:112-123 | the three units have three different labels |
| TemplateForm.CreateTemplateForm.constructor | src/routes/templates/create.tsx:49-56 | blank name and description, type meal, no rows |
| TemplateForm.CreateTemplateForm.SetName | src/routes/templates/create.tsx:151-153 | sets the name, nothing else |
| TemplateForm.CreateTemplateForm.SetDescription | src/routes/templates/create.tsx:195-197 | sets the description, nothing else |
| TemplateForm.CreateTemplateForm.SetKind | src/routes/templates/create.tsx:169-186 | sets the type, nothing else |
| TemplateForm.CreateTemplateForm.AddProduct | src/routes/templates/create.tsx:108-110 | appends one empty row with quantity 1 |
| TemplateForm.CreateTemplateForm.SetRowProduct | src/routes/templates/create.tsx:232-239 | only row i's product changes |
| TemplateForm.CreateTemplateForm.SetRowQuantity | src/routes/templates/create.tsx:259-271 | only row i's quantity changes, to the parsed value or 0 |
| TemplateForm.CreateTemplateForm.RemoveProduct | src/routes/templates/create.tsx:285 | only row i goes; the others keep their order |
| ListCard.DropdownItems | src/components/shopping-list.tsx:80-130 | each action is offered iff the status allows it; no action twice; delete comes last; nothing for an unknown status |
| ListCard.Handle | src/components/shopping-list.tsx:238-270 | mark-ready/mark-draft send a status-only update; a confirmed delete sends a delete; edit and start-shopping only navigate |
| ListCard.OfferedChangesFollowLifecycle | src/components/shopping-list.tsx:246-266 | every offered status change is draft to ready or ready to draft; none requests completed |
| ListCard.StatusChangeKeepsContent | src/components/shopping-list.tsx:246-251 | applied on the server, a card's status change keeps name, items, owner and creation time |
| ListCard.TitleOf | src/components/shopping-list.tsx:153-163 | editor link iff draft, shop link iff ready, plain name iff completed, nothing for an unknown status |
| Session.Step | src/components/shopping-store.ts:15-16 | start sets the id (no stacking); stop clears it |
| Session.RunAppend | src/components/shopping-store.ts:15-16 | running two action sequences in turn is running their concatenation |
| Session.RunLast | src/components/shopping-store.ts:15-16 | after any actions the session holds what the last one left |
| Session.StartStopRoundTrips | src/components/shopping-store.ts:15-16 | start then stop clears; stop then start sets; stopping twice is stopping once |
| Session.ShoppingStore.constructor | src/components/shopping-store.ts:14 | no active list |
| Session.ShoppingStore.StartShopping | src/components/shopping-store.ts:15 | the new id is the step of start |
| Session.ShoppingStore.StopShopping | src/components/shopping-store.ts:16 | the new id is the step of stop |
| Session.ShoppingStore.Persisted | src/components/shopping-store.ts:21 | only the current id is persisted |
| Provider.Synced | src/components/shopping-provider.tsx:35-45 | storage mirrors the state afterwards and no other key changes |
| Provider.Loaded | src/components/shopping-provider.tsx:24-33 | a saved id is loaded iff storage is reachable and the saved value is non-empty |
| Provider.ShoppingProvider.constructor | src/components/shopping-provider.tsx:21-22 | state null, storage as saved |
| Provider.ShoppingProvider.SyncStorage | src/components/shopping-provider.tsx:35-45 | state kept; storage synced when reachable, unchanged otherwise |
| Provider.ShoppingProvider.Mount | src/components/shopping-provider.tsx:24-45 | after both effects the state is the loaded id and storage mirrors it |
| Provider.ShoppingProvider.StartShopping | src/components/shopping-provider.tsx:50 | state becomes the id even if storage fails; storage is synced iff reachable and the state changed |
| Provider.ShoppingProvider.StopShopping | src/components/shopping-provider.tsx:51 | state cleared even if storage fails; storage is synced iff reachable and the state changed |
| Provider.MirrorPreserved | src/components/shopping-provider.tsx:35-51 | once storage mirrors the state, start and stop keep it mirrored |
| Provider.ReloadRestores | src/components/shopping-provider.tsx:24-33 | a reload over mirrored storage restores the active id |
| Provider.UseShopping | src/components/shopping-provider.tsx:63-69 | throws "useShopping must be used within ShoppingProvider" iff there is no provider; otherwise yields its value |
| ActiveList.CheckedCount | src/routes/shopping.tsx:105 | at most the item count; equal to it iff all are checked; 0 iff none is |
| ActiveList.CheckingRaisesCount | convex/lists.ts:96-104 | checking an unchecked item raises the checked count by exactly one |
| ActiveList.Progress | src/routes/shopping.tsx:107 | a percentage between 0 and 100; 0 for an empty list or nothing checked; 100 when all is checked |
| ActiveList.FindProduct | src/routes/shopping.tsx:157 | found iff some catalog product has the id, and then it has it |
| ActiveList.VisibleFrom | src/routes/shopping.tsx:156-158 | rows only for items whose product is known, in list order, each with its position in the whole list |
| ActiveList.VisibleComplete | src/routes/shopping.tsx:156-158 | every item with a known product gets a row |
| ActiveList.FindActive | src/routes/shopping.tsx:63 | a list is found only for a non-null id, and then it is a loaded list with that id; none iff no loaded list has it |
| ActiveList.PageOf | src/routes/shopping.tsx:63-107 | empty state iff no truthy id or no loaded list with it (identically src/routes/lists/current.tsx:63-85); otherwise that list with its item count, its checked count (`CheckedCount`), the progress percentage of those two (`Progress`), the rows rendered for it (`VisibleFrom` from position 0), and toggling iff not completed |
| ActiveList.ToggleRequest | src/routes/shopping.tsx:166-172 | no request for a completed list; otherwise the request names the list and the item's position in the whole list |
| ActiveList.FinishShopping | src/routes/shopping.tsx:121-124 | the session is cleared and the page shows its empty state |
| ActiveList.FinishCurrent | src/routes/lists/current.tsx:99-102 | the session is cleared, the stored key removed when reachable, and the page shows its empty state |
| ActiveList.CardQuery | src/components/current-list-card.tsx:14-17 | skips iff the id is null or empty; otherwise queries that id |
| ActiveList.CardOf | src/components/current-list-card.tsx:20-60 | empty card iff skipped or no list returned; otherwise that list with its item count, its checked count (`CheckedCount`) and the progress percentage of those two (`Progress`) |
| ProductSelector.FilterProducts | src/components/product-selector.tsx:29-31 | exactly the matching products, each as often as in the catalog |
| ProductSelector.FilterProductsOrder | src/components/product-selector.tsx:29-31 | results keep catalog order: filtering a concatenation concatenates the results, and a single product is kept iff it matches |
| ProductSelector.EmptyTermKeepsAll | src/components/product-selector.tsx:29-31 | an empty term keeps the whole catalog |
| ProductSelector.LowerIdempotent | src/components/product-selector.tsx:30 | lower-casing twice is lower-casing once |
| ProductSelector.SearchIgnoresCase | src/components/product-selector.tsx:29-31 | a term and its lower-case form show the same products |
| ProductSelector.LowerAppend | src/components/product-selector.tsx:30 | lower-casing distributes over concatenation |
| ProductSelector.ContainsPrefix | src/components/product-selector.tsx:30 | a text including a longer needle includes its prefix |
| ProductSelector.TypingNarrows | src/components/product-selector.tsx:29-31 | extending the term never adds products |
| ProductSelector.ProductPicker.constructor | src/components/product-selector.tsx:23-25 | empty term, nothing selected, quantity 1 |
| ProductSelector.ProductPicker.Results | src/components/product-selector.tsx:75-77 | nothing while the term is empty; otherwise the filtered products |
| ProductSelector.ProductPicker.AddDisabled | src/components/product-selector.tsx:119 | disabled iff the quantity is not positive |
| ProductSelector.ProductPicker.SetSearchTerm | src/components/product-selector.tsx:69 | sets the term, nothing else |
| ProductSelector.ProductPicker.Select | src/components/product-selector.tsx:85 | selects the product, nothing else |
| ProductSelector.ProductPicker.SetQuantity | src/components/product-selector.tsx:108 | sets the quantity to the parsed value or 0, nothing else |
| ProductSelector.ProductPicker.AddProduct | src/components/product-selector.tsx:33-40 | hands over (product, quantity) iff something is selected and the quantity is positive, then resets to the initial state; otherwise nothing changes |
| Profile.Words | src/components/auth/nav-profile.tsx:23 | every word is non-empty and space-free |
| Profile.SplitLength | src/components/auth/nav-profile.tsx:23 | one more piece than spaces |
| Profile.SplitLast | src/components/auth/nav-profile.tsx:23 | the last piece is the suffix after the last space, or the whole string without spaces |
| Profile.FirstPiece | src/components/auth/nav-profile.tsx:23 | a string starting with a non-space has a first piece starting with that character |
| Profile.WordsFirst | src/components/auth/nav-profile.tsx:23-25 | the first word starts with the first character |
| Profile.WordsSingle | src/components/auth/nav-profile.tsx:23-25 | a space-free string is its own only word |
| Profile.LastPiece | src/components/auth/nav-profile.tsx:23 | with a space and a non-space end, the last piece is non-empty and starts after the last space |
| Profile.WordsLast | src/components/auth/nav-profile.tsx:27 | with a space, there are two or more words and the last starts after the last space |
| Profile.WordsOfTrimmed | src/components/auth/nav-profile.tsx:23-27 | for a trimmed string: first word's first letter, two or more words iff a space, last word after the last space |
| Profile.TrimmedWords | src/components/auth/nav-profile.tsx:23 | the trimmed name has no word iff it is empty |
| Profile.InitialsAsWritten | src/components/auth/nav-profile.tsx:21-28 | '?' for an empty name; throws iff the name is non-empty but blank; otherwise equals the corrected initials |
| Profile.BlankNameThrows | src/components/auth/nav-profile.tsx:22-27 | a one-space name throws as written and gives '?' corrected |
| Profile.Initials | src/components/auth/nav-profile.tsx:21-28 | '?' for a blank name; otherwise one or two letters: the trimmed name's first character, plus, iff it has a space, the character after its last space |

## Left out

- Rendering, styling, badges, toasts, navigation targets after an action, and the status-colour and status-label helpers are not modelled: they decide how things look, not what state results.
- Authentication (`getAuthUserId`) is not modelled; the signed-in user is a parameter.
- Query results are maps, so the order in which `collect()` returns documents is not modelled.
- The endpoints under `api.products.*` that the pages call (`getAllShoppingLists`, `getAllProducts`, `getAllTemplates`, `createShoppingList`, `toggleItemChecked`, `getShoppingList`) are not in the modelled files. convex/products.ts is not part of this model. The pages are modelled over what those calls return and send.
- Floating-point arithmetic is not modelled: quantities, the multiplier product and the progress percentage are exact reals, and `NaN`/`Infinity` are absent.
- Text.Trim: the Unicode space separators (category Zs beyond U+00A0 and U+FEFF) are not treated as whitespace.
- Text.Lower: only ASCII letters are lower-cased; Unicode case mapping is not modelled.
- Profile.Initials: strings are sequences of characters, not UTF-16 code units, so a surrogate pair counts as one character.
- The zustand `persist` middleware's storage format, versioning and hydration are not modelled; only what it persists (`partialize`) is.
- Effects, re-renders and React StrictMode's doubled effects are not modelled: the provider's effects run once per state change, and mount as its fixed sequence.
- Autosave, debouncing and timers are not part of the modelled files.
- ListCard.Handle: the confirmation dialog in front of delete (src/components/shopping-list.tsx:68-78) is not modelled; the delete action starts after the user has confirmed, and a cancelled dialog sends nothing.
- Lists.ListStore.CreateList and Templates.TemplateStore.CreateTemplate: the database's id allocation is a `newId` parameter that must be fresh.

## Findings

| source | as written | input that shows it | evidently intended | confidence | as-written member | corrected member |
|---|---|---|---|---|---|---|
| src/components/auth/nav-profile.tsx:22-27 | only the empty name is special-cased; a non-empty name made only of whitespace trims to nothing, leaves no word, and `parts[0][0]` throws | name `" "` | '?' for any blank name | high, not executed | Profile.InitialsAsWritten (with Profile.BlankNameThrows) | Profile.Initials |
| src/routes/templates/create.tsx:185-186 | the type select sends `'set'`, which the server's validator (convex/templates.ts:9) does not accept, so a set template cannot be created | submitting the form with type 'set' | the set choice sent as the server's `'template'` type | high, not executed | TemplateForm.SetTypeNotAccepted (over TemplateForm.SubmitTemplate) | TemplateForm.RequestType (with TemplateForm.RequestTypeAccepted) |
