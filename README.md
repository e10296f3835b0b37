# Receipt content of the active-orders panel

This project models how the active-orders panel of a restaurant order system
derives the content it prints and shows for an order:

- the **category sections** of the kitchen copy and of the customer copy: the
  dish-category table is walked in its own order, each category gets the
  order's items of that category in their original order, and categories
  without items are dropped;
- the **order-number label** `ORDINE #…`: the last six characters of the
  order's identifier, upper-cased;
- the **payment label** of the customer copy: `Contanti` for cash, `POS`
  otherwise;
- the **summary line** on each order card: `<quantity>x <name>` per item,
  joined with `, `.

Receipts are structured values (a sequence of sections, each a heading and
its lines), not HTML. The dish-category table, defined in a shared schema
module that is not part of this model, is a parameter: a sequence of
`(key, title)` entries; properties that need it assume its keys are
distinct, as the keys of an object literal are. An order is its identifier,
its payment method and its line items; an item is a dish name, a category
key, a unit-price string and a quantity.

Modules: `Orders` (data), `Grouping` (category filter and sections),
`Labels` (order number, payment label), `Receipts` (the two copies),
`CardSummary` (the card line and a parser that reads it back).

## Model

| member | source | states |
|---|---|---|
| `Grouping.ItemsOfCategory` | client/src/components/active-orders.tsx:112 | an item is in the filtered list if and only if it is an item of the order whose category equals the key; the list is never longer than the order's items |
| `Grouping.ItemsOfCategoryCounts` | client/src/components/active-orders.tsx:112 | the filter keeps every occurrence: an item of the category appears as often as in the order, any other item not at all |
| `Grouping.ItemsOfCategoryKeepsOrder` | client/src/components/active-orders.tsx:117 | the items of a section are a subsequence of the order's items: their relative order is kept |
| `Grouping.Groups` | client/src/components/active-orders.tsx:111-124 | every section belongs to a table entry, holds at least one item, and holds exactly that category's items; there are at most as many sections as table entries (one per entry is `GroupKeysDistinct` and `PresentCategoriesInTableOrder`) |
| `Grouping.GroupsFollowTable` | client/src/components/active-orders.tsx:111-113 | the section headings are exactly the table entries that some item belongs to, in table order (an independent reference definition) |
| `Grouping.PresentCategoriesInTableOrder` | client/src/components/active-orders.tsx:111 | those headings form a subsequence of the table: sections never appear out of table order |
| `Grouping.PresentCategoriesMembers` | client/src/components/active-orders.tsx:113 | an entry is a heading if and only if it is in the table and some item has its key; an entry without items produces nothing |
| `Grouping.HeadingsIgnoreItemOrder` | client/src/components/active-orders.tsx:228-230 | reordering the items of an order leaves the sequence of headings unchanged |
| `Grouping.GroupKeysDistinct` | client/src/components/active-orders.tsx:111 | with distinct table keys, no two sections share a key |
| `Grouping.KnownItemInExactlyOneGroup` | client/src/components/active-orders.tsx:111-112 | an item whose category is a table key is printed in one section and only one |
| `Grouping.UnknownItemInNoGroup` | client/src/components/active-orders.tsx:228-229 | an item whose category is not a table key is printed in no section |
| `Grouping.GroupsPartitionKnownItems` | client/src/components/active-orders.tsx:111-124 | the printed items are, as a multiset, exactly the items with a known category, so their number equals the number of such items |
| `Receipts.Kitchen` | client/src/components/active-orders.tsx:110-131 | the kitchen copy has one section per non-empty category, no empty section, and the order-number label `OrderNumber` of the id, at most six characters |
| `Receipts.Customer` | client/src/components/active-orders.tsx:227-262 | the customer copy has one section per non-empty category, no empty section, the payment label `PaymentLabel` of the method (`Contanti` exactly for cash), and the order-number label `OrderNumber` of the id, at most six characters |
| `Receipts.KitchenLines` | client/src/components/active-orders.tsx:117-122 | one kitchen line per item, in order, line j carrying item j's dish name and quantity |
| `Receipts.KitchenSections` | client/src/components/active-orders.tsx:115-122 | one kitchen section per group, in order, section i headed by group i's title and holding exactly the kitchen lines of group i's items |
| `Receipts.CustomerLines` | client/src/components/active-orders.tsx:234-242 | one customer line per item, in order, line j carrying item j's dish name, quantity and unit price |
| `Receipts.CustomerSections` | client/src/components/active-orders.tsx:232-243 | one customer section per group, in order, section i headed by group i's title and holding exactly the customer lines of group i's items, each with its dish name, quantity and unit price |
| `Receipts.KitchenSectionAt` | client/src/components/active-orders.tsx:115-122 | kitchen section i has the title of group i and one line per item of group i, dish and quantity, in order |
| `Receipts.KitchenSectionContents` | client/src/components/active-orders.tsx:115-122 | section i of the kitchen copy carries its table entry's title and lists that category's items, dish and quantity, in order |
| `Receipts.CustomerSectionContents` | client/src/components/active-orders.tsx:232-243 | section i of the customer copy carries its table entry's title and lists that category's items, dish, quantity and unit price, in order |
| `Receipts.KitchenPrintsKnownItems` | client/src/components/active-orders.tsx:117-122 | the kitchen copy prints one line per item with a known category |
| `Receipts.CustomerPrintsKnownItems` | client/src/components/active-orders.tsx:228-243 | the customer copy prints one line per item with a known category |
| `Receipts.SectionsWithoutPrices` | client/src/components/active-orders.tsx:232-243 | for any sections, dropping the prices from the customer lines gives exactly the kitchen lines, heading by heading |
| `Receipts.SameStructure` | client/src/components/active-orders.tsx:228-244 | with prices dropped, the customer copy has the same headings, dishes and quantities as the kitchen copy, and both carry the same order number |
| `Labels.SliceFrom` | client/src/components/active-orders.tsx:129 | `slice(start)` returns a suffix; a negative start yields the last min(length, -start) characters |
| `Labels.UpperChar` | client/src/components/active-orders.tsx:129 | ASCII lower-case letters map to the matching upper-case letter; every other character is unchanged |
| `Labels.Upper` | client/src/components/active-orders.tsx:129 | upper-casing keeps the length, maps each character by `UpperChar`, and leaves no ASCII lower-case letter |
| `Labels.OrderNumber` | client/src/components/active-orders.tsx:129 | the label has min(6, length of id) characters, each the upper-cased counterpart of the matching character of the id's tail, and no ASCII lower-case letter |
| `Labels.ShortIdPrintedWhole` | client/src/components/active-orders.tsx:261 | an id of at most six characters is printed whole, upper-cased |
| `Labels.OrderNumberOfSuffix` | client/src/components/active-orders.tsx:261 | ids with the same last six characters get the same label |
| `Labels.PaymentLabel` | client/src/components/active-orders.tsx:254 | the label is `Contanti` if and only if the method is exactly `cash`, and `POS` for every other value |
| `CardSummary.NatToDecimal` | client/src/components/active-orders.tsx:333 | a quantity is written as at least one decimal digit, with no leading zero (canonical decimal, as JavaScript writes integers) |
| `CardSummary.IntToDecimal` | client/src/components/active-orders.tsx:333 | a written quantity is non-empty and contains neither `,` nor `x` |
| `CardSummary.IntRoundTrip` | client/src/components/active-orders.tsx:333 | reading a written quantity back gives the quantity; the reader accepts only canonical decimal (no leading zero, no `-0`) |
| `CardSummary.CanonicalDecimal` | client/src/components/active-orders.tsx:333 | digits without a leading zero are exactly what is written for their value |
| `CardSummary.ParseIntOnlyWritten` | client/src/components/active-orders.tsx:333 | the only text read back as a quantity n is the text written for n, so with `IntRoundTrip` the written form of each quantity is unique |
| `CardSummary.Entry` | client/src/components/active-orders.tsx:333 | an entry has at least three characters and contains a comma only if the dish name does |
| `CardSummary.EntryRoundTrip` | client/src/components/active-orders.tsx:333 | an entry `<qty>x <name>` reads back as the item's quantity and name |
| `CardSummary.Join` | client/src/components/active-orders.tsx:333 | a join of at least one part starts with the first part |
| `CardSummary.JoinLength` | client/src/components/active-orders.tsx:333 | a join is as long as its parts together plus one separator between each pair of neighbours |
| `CardSummary.JoinAppend` | client/src/components/active-orders.tsx:333 | joining two non-empty lists one after the other is joining each with one separator between them |
| `CardSummary.Summary` | client/src/components/active-orders.tsx:333 | the card line (the items mapped by `Entries` to one entry each, then joined) is empty if and only if the order has no items, and otherwise starts with the first item's entry |
| `CardSummary.SummaryOne` | client/src/components/active-orders.tsx:333 | the summary of a single item is that item's entry; with `SummaryAppend` this fixes the line for every item list, commas included |
| `CardSummary.SummaryAppend` | client/src/components/active-orders.tsx:333 | the summary of `a + b` is the summary of `a`, `, `, and the summary of `b`: entries follow item order |
| `CardSummary.SummaryRoundTrip` | client/src/components/active-orders.tsx:333 | when no dish name contains a comma, the summary reads back as every item's quantity and name, in order |

## Left out

- Polling of active orders every five seconds and the completion request with its notifications: network I/O and UI framework state; the status change belongs to the backend.
- Opening a window, writing the document, printing and closing it: browser side effects.
- Line amounts and the order total (`parseFloat`, multiplication, `toFixed(2)`): floating point; the customer line carries its item's unit-price string unchanged (`CustomerSections`, `CustomerSectionContents`) and no amount is computed.
- Dates and times formatted for the Italian locale: locale library calls.
- Header fields that are copied into the markup unchanged (table number, customer name, covers) and all HTML, CSS and card layout: presentation only.
- `Labels.UpperChar` and `Labels.Upper`: model `toUpperCase` for ASCII only; other characters are kept as they are, although JavaScript upper-cases them by full Unicode rules (which can also change the length, as for `ß`).
- `Labels.SliceFrom`: counts Unicode scalar values, while JavaScript counts UTF-16 code units; they differ only for characters outside the Basic Multilingual Plane.
- `Grouping.Groups`: the table is walked in sequence order; the reordering JavaScript applies to integer-like keys in `Object.entries` is not modelled.
- `CardSummary.IntToDecimal`: quantities are unbounded integers written in plain decimal; JavaScript numbers are doubles, so fractional and non-finite values, integers above 2^53 (which a double cannot hold exactly) and integers of magnitude 10^21 or more (which JavaScript writes in exponent form, such as `1e+21`) are not modelled.
- `CardSummary.SummaryRoundTrip`: holds only when no dish name contains a comma; with commas in names the summary line is ambiguous, which the source accepts as display text.
- client/src/components/receipt-templates.tsx: static markup with sample data and no logic.
