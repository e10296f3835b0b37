/** The data the receipt builders read: an order with its line items, and the
    table of dish categories (key and printed title) that the receipts walk. */
module Orders {

  datatype Option<+T> = None | Some(value: T)

  /** One line item of an order: the dish's name, its category key, the unit
      price exactly as the backend sends it (a decimal string), and how many. */
  datatype Item = Item(name: string, category: string, price: string, quantity: int)

  /** The projection of an order that the receipt content depends on. */
  datatype Order = Order(id: string, paymentMethod: string, items: seq<Item>)

  /** One entry of the dish-category table: its key and the title printed as
      the section heading. */
  datatype Category = Category(key: string, title: string)

  /** The category table lists every key once (it comes from an object literal). */
  ghost predicate DistinctKeys(table: seq<Category>) {
    forall i, j :: 0 <= i < j < |table| ==> table[i].key != table[j].key
  }

  /** `key` is one of the table's keys. */
  predicate HasKey(table: seq<Category>, key: string) {
    exists i :: 0 <= i < |table| && table[i].key == key
  }

  /** `a` is `b` with some elements (possibly none) removed: every element of
      `a` occurs in `b`, in the same relative order. */
  ghost predicate IsSubsequence<T>(a: seq<T>, b: seq<T>)
    decreases |b|
  {
    if a == [] then true
    else if b == [] then false
    else (a[0] == b[0] && IsSubsequence(a[1..], b[1..])) || IsSubsequence(a, b[1..])
  }
}
