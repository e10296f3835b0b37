/** The content of the two printed receipts, as structured values instead of
    HTML: the kitchen copy (dish name and quantity per line) and the customer
    copy (the same lines with the unit price, plus the payment label). Both
    end with the order-number label. */
module Receipts {
  import opened Orders
  import opened Grouping
  import opened Labels

  /** A line of the kitchen copy: the dish name and `x<quantity>`. */
  datatype KitchenLine = KitchenLine(name: string, quantity: int)

  /** A line of the customer copy: the dish name, `x<quantity>` and the
      price the line amount is computed from. */
  datatype CustomerLine = CustomerLine(name: string, quantity: int, price: string)

  /** A category heading and the lines printed under it. */
  datatype Section<L> = Section(title: string, lines: seq<L>)

  datatype KitchenReceipt = KitchenReceipt(sections: seq<Section<KitchenLine>>, orderNumber: string)

  datatype CustomerReceipt = CustomerReceipt(sections: seq<Section<CustomerLine>>, payment: string, orderNumber: string)

  /** The kitchen lines of some items, one per item, in order. */
  function KitchenLines(items: seq<Item>): (r: seq<KitchenLine>)
    ensures |r| == |items|
    ensures forall j :: 0 <= j < |r| ==> r[j] == KitchenLine(items[j].name, items[j].quantity)
    decreases |items|
  {
    if items == [] then [] else [KitchenLine(items[0].name, items[0].quantity)] + KitchenLines(items[1..])
  }

  /** The customer lines of some items, one per item, in order. */
  function CustomerLines(items: seq<Item>): (r: seq<CustomerLine>)
    ensures |r| == |items|
    ensures forall j :: 0 <= j < |r| ==> r[j] == CustomerLine(items[j].name, items[j].quantity, items[j].price)
    decreases |items|
  {
    if items == [] then [] else [CustomerLine(items[0].name, items[0].quantity, items[0].price)] + CustomerLines(items[1..])
  }

  /** One kitchen section per group, in group order, with the kitchen lines
      (name and quantity) of that group's items. */
  function KitchenSections(groups: seq<Group>): (r: seq<Section<KitchenLine>>)
    ensures |r| == |groups|
    ensures forall i :: 0 <= i < |r| ==> r[i].title == groups[i].category.title && |r[i].lines| == |groups[i].items|
    ensures forall i :: 0 <= i < |r| ==> r[i].lines == KitchenLines(groups[i].items)
    decreases |groups|
  {
    if groups == [] then []
    else [Section(groups[0].category.title, KitchenLines(groups[0].items))] + KitchenSections(groups[1..])
  }

  /** One customer section per group, in group order, with the customer
      lines (name, quantity and unit price) of that group's items. */
  function CustomerSections(groups: seq<Group>): (r: seq<Section<CustomerLine>>)
    ensures |r| == |groups|
    ensures forall i :: 0 <= i < |r| ==> r[i].title == groups[i].category.title && |r[i].lines| == |groups[i].items|
    ensures forall i :: 0 <= i < |r| ==> r[i].lines == CustomerLines(groups[i].items)
    decreases |groups|
  {
    if groups == [] then []
    else [Section(groups[0].category.title, CustomerLines(groups[0].items))] + CustomerSections(groups[1..])
  }

  /** `printKitchenReceipt`: the sections of the order, then the order number. */
  function Kitchen(order: Order, table: seq<Category>): (r: KitchenReceipt)
    ensures |r.sections| == |Groups(table, order.items)|
    ensures forall s :: s in r.sections ==> s.lines != []
    ensures r.orderNumber == OrderNumber(order.id) && |r.orderNumber| <= 6
  {
    KitchenReceipt(KitchenSections(Groups(table, order.items)), OrderNumber(order.id))
  }

  /** `printCustomerReceipt`: the sections of the order, the payment label,
      then the order number. */
  function Customer(order: Order, table: seq<Category>): (r: CustomerReceipt)
    ensures |r.sections| == |Groups(table, order.items)|
    ensures forall s :: s in r.sections ==> s.lines != []
    ensures r.payment == PaymentLabel(order.paymentMethod)
    ensures r.payment == "Contanti" <==> order.paymentMethod == "cash"
    ensures r.orderNumber == OrderNumber(order.id) && |r.orderNumber| <= 6
  {
    CustomerReceipt(CustomerSections(Groups(table, order.items)), PaymentLabel(order.paymentMethod), OrderNumber(order.id))
  }

  /** Customer lines without their prices. */
  function LinesWithoutPrices(lines: seq<CustomerLine>): seq<KitchenLine>
    decreases |lines|
  {
    if lines == [] then [] else [KitchenLine(lines[0].name, lines[0].quantity)] + LinesWithoutPrices(lines[1..])
  }

  /** The customer copy's sections without prices. */
  function WithoutPrices(sections: seq<Section<CustomerLine>>): seq<Section<KitchenLine>>
    decreases |sections|
  {
    if sections == [] then []
    else [Section(sections[0].title, LinesWithoutPrices(sections[0].lines))] + WithoutPrices(sections[1..])
  }

  lemma {:induction false} CustomerLinesWithoutPrices(items: seq<Item>)
    ensures LinesWithoutPrices(CustomerLines(items)) == KitchenLines(items)
    decreases |items|
  {
    if items != [] {
      CustomerLinesWithoutPrices(items[1..]);
    }
  }

  /** Section by section, the customer lines without prices are the kitchen lines. */
  lemma {:induction false} SectionsWithoutPrices(groups: seq<Group>)
    ensures WithoutPrices(CustomerSections(groups)) == KitchenSections(groups)
    decreases |groups|
  {
    if groups != [] {
      SectionsWithoutPrices(groups[1..]);
      CustomerLinesWithoutPrices(groups[0].items);
    }
  }

  /** The kitchen and the customer copy list the same headings and the same
      dishes and quantities, in the same order, under the same number. */
  lemma SameStructure(order: Order, table: seq<Category>)
    ensures WithoutPrices(Customer(order, table).sections) == Kitchen(order, table).sections
    ensures Customer(order, table).orderNumber == Kitchen(order, table).orderNumber
  {
    SectionsWithoutPrices(Groups(table, order.items));
  }

  /** Every line printed on a receipt, section after section. */
  function LinesOf<L>(sections: seq<Section<L>>): seq<L>
    decreases |sections|
  {
    if sections == [] then [] else sections[0].lines + LinesOf(sections[1..])
  }

  lemma {:induction false} KitchenLinesAppend(a: seq<Item>, b: seq<Item>)
    ensures KitchenLines(a + b) == KitchenLines(a) + KitchenLines(b)
    decreases |a|
  {
    if a == [] {
      assert a + b == b;
    } else {
      assert (a + b)[1..] == a[1..] + b;
      KitchenLinesAppend(a[1..], b);
    }
  }

  lemma {:induction false} LinesOfGroups(groups: seq<Group>)
    ensures LinesOf(KitchenSections(groups)) == KitchenLines(Flatten(groups))
    decreases |groups|
  {
    if groups != [] {
      LinesOfGroups(groups[1..]);
      KitchenLinesAppend(groups[0].items, Flatten(groups[1..]));
    }
  }

  /** The kitchen copy prints one line per item whose category is in the
      table, and no other line. */
  lemma KitchenPrintsKnownItems(order: Order, table: seq<Category>)
    requires DistinctKeys(table)
    ensures |LinesOf(Kitchen(order, table).sections)| == |KnownItems(table, order.items)|
  {
    LinesOfGroups(Groups(table, order.items));
    GroupsPartitionKnownItems(table, order.items);
  }

  /** The customer sections hold one line per item of the groups. */
  lemma {:induction false} CustomerLineCount(groups: seq<Group>)
    ensures |LinesOf(CustomerSections(groups))| == |Flatten(groups)|
    decreases |groups|
  {
    if groups != [] {
      CustomerLineCount(groups[1..]);
      assert CustomerSections(groups)[1..] == CustomerSections(groups[1..]);
    }
  }

  /** The customer copy, too, prints one line per item whose category is in
      the table, and no other line. */
  lemma CustomerPrintsKnownItems(order: Order, table: seq<Category>)
    requires DistinctKeys(table)
    ensures |LinesOf(Customer(order, table).sections)| == |KnownItems(table, order.items)|
  {
    CustomerLineCount(Groups(table, order.items));
    GroupsPartitionKnownItems(table, order.items);
  }

  /** Section `i` of the kitchen copy lists the kitchen lines of group `i`. */
  lemma {:induction false} KitchenSectionAt(groups: seq<Group>, i: nat)
    requires i < |groups|
    ensures KitchenSections(groups)[i] == Section(groups[i].category.title, KitchenLines(groups[i].items))
    decreases i
  {
    if i > 0 {
      KitchenSectionAt(groups[1..], i - 1);
    }
  }

  /** Section `i` of the kitchen copy is headed by the title of its table
      entry and lists that category's items, dish and quantity, in order. */
  lemma KitchenSectionContents(order: Order, table: seq<Category>, i: nat)
    requires i < |Kitchen(order, table).sections|
    ensures var g := Groups(table, order.items)[i];
      && Kitchen(order, table).sections[i].title == g.category.title
      && g.category in table
      && Kitchen(order, table).sections[i].lines == KitchenLines(ItemsOfCategory(order.items, g.category.key))
  {
    var g := Groups(table, order.items);
    assert g[i] in g;
    KitchenSectionAt(g, i);
  }

  /** Section `i` of the customer copy is headed by the title of its table
      entry and lists that category's items with their unit prices, in order. */
  lemma CustomerSectionContents(order: Order, table: seq<Category>, i: nat)
    requires i < |Customer(order, table).sections|
    ensures var g := Groups(table, order.items)[i];
      && Customer(order, table).sections[i].title == g.category.title
      && g.category in table
      && Customer(order, table).sections[i].lines == CustomerLines(ItemsOfCategory(order.items, g.category.key))
  {
    var g := Groups(table, order.items);
    assert g[i] in g;
  }
}
