/** Grouping of an order's line items by dish category, as both receipt
    builders do it: walk the category table in its own order, keep the items
    of each category in the order they have in the order, and drop the
    categories that have no items. */
module Grouping {
  import opened Orders

  /** The items of the order that belong to category `key`, in their original
      order (the `filter` on `item.dish.category === categoryKey`). */
  function ItemsOfCategory(items: seq<Item>, key: string): (r: seq<Item>)
    ensures |r| <= |items|
    ensures forall x :: x in r <==> x in items && x.category == key
    decreases |items|
  {
    if items == [] then []
    else if items[0].category == key then [items[0]] + ItemsOfCategory(items[1..], key)
    else ItemsOfCategory(items[1..], key)
  }

  /** One printed category section before formatting: the table entry and
      the items filed under it. */
  datatype Group = Group(category: Category, items: seq<Item>)

  /** The sections of a receipt, one per table entry that has items. */
  function Groups(table: seq<Category>, items: seq<Item>): (r: seq<Group>)
    ensures |r| <= |table|
    ensures forall g :: g in r ==> g.category in table && g.items != []
    ensures forall g :: g in r ==> g.items == ItemsOfCategory(items, g.category.key)
    decreases |table|
  {
    if table == [] then []
    else
      var here := ItemsOfCategory(items, table[0].key);
      var rest := Groups(table[1..], items);
      if here == [] then rest else [Group(table[0], here)] + rest
  }

  /** The table entries of the sections, in section order. */
  function CategoriesOf(groups: seq<Group>): seq<Category> {
    seq(|groups|, i requires 0 <= i < |groups| => groups[i].category)
  }

  /** All printed items, section after section. */
  function Flatten(groups: seq<Group>): seq<Item>
    decreases |groups|
  {
    if groups == [] then [] else groups[0].items + Flatten(groups[1..])
  }

  /** The items whose category is a key of the table, in their original order. */
  function KnownItems(table: seq<Category>, items: seq<Item>): seq<Item>
    decreases |items|
  {
    if items == [] then []
    else if HasKey(table, items[0].category) then [items[0]] + KnownItems(table, items[1..])
    else KnownItems(table, items[1..])
  }

  /** Reference definition of which headings a receipt shows: the table
      entries, in table order, that some item of the order belongs to. */
  ghost function PresentCategories(table: seq<Category>, items: seq<Item>): seq<Category>
    decreases |table|
  {
    if table == [] then []
    else
      (if exists x :: x in items && x.category == table[0].key then [table[0]] else [])
      + PresentCategories(table[1..], items)
  }

  /** Within a section the items keep the relative order they have in the order. */
  lemma {:induction false} ItemsOfCategoryKeepsOrder(items: seq<Item>, key: string)
    ensures IsSubsequence(ItemsOfCategory(items, key), items)
    decreases |items|
  {
    if items != [] {
      ItemsOfCategoryKeepsOrder(items[1..], key);
      var r := ItemsOfCategory(items, key);
      if items[0].category != key && r != [] {
        assert IsSubsequence(r, items[1..]);
      }
    }
  }

  /** The filter keeps every occurrence: an item of the category appears in
      the section as often as in the order, any other item not at all. */
  lemma {:induction false} ItemsOfCategoryCounts(items: seq<Item>, key: string, x: Item)
    ensures multiset(ItemsOfCategory(items, key))[x] == if x.category == key then multiset(items)[x] else 0
    decreases |items|
  {
    if items != [] {
      ItemsOfCategoryCounts(items[1..], key, x);
      assert items == [items[0]] + items[1..];
    }
  }

  /** The section headings are exactly the table entries that have items, in
      table order. */
  lemma {:induction false} GroupsFollowTable(table: seq<Category>, items: seq<Item>)
    ensures CategoriesOf(Groups(table, items)) == PresentCategories(table, items)
    decreases |table|
  {
    if table != [] {
      GroupsFollowTable(table[1..], items);
      var here := ItemsOfCategory(items, table[0].key);
      var rest := Groups(table[1..], items);
      if here == [] {
        NoItemsNotPresent(table, items);
      } else {
        assert here[0] in here;
        CategoriesOfCons(Group(table[0], here), rest);
      }
    }
  }

  lemma NoItemsNotPresent(table: seq<Category>, items: seq<Item>)
    requires table != [] && ItemsOfCategory(items, table[0].key) == []
    ensures PresentCategories(table, items) == PresentCategories(table[1..], items)
  {
    assert !exists x :: x in items && x.category == table[0].key;
  }

  lemma CategoriesOfCons(g: Group, rest: seq<Group>)
    ensures CategoriesOf([g] + rest) == [g.category] + CategoriesOf(rest)
  {
  }

  /** The headings that are shown are a subsequence of the table: sections
      never appear out of table order. */
  lemma {:induction false} PresentCategoriesInTableOrder(table: seq<Category>, items: seq<Item>)
    ensures IsSubsequence(PresentCategories(table, items), table)
    decreases |table|
  {
    if table != [] {
      PresentCategoriesInTableOrder(table[1..], items);
      var p := PresentCategories(table, items);
      if !(exists x :: x in items && x.category == table[0].key) && p != [] {
        assert p == PresentCategories(table[1..], items);
        assert IsSubsequence(p, table[1..]);
      }
    }
  }

  /** A table entry is a heading exactly when it is in the table and some item
      of the order has its key. */
  lemma {:induction false} PresentCategoriesMembers(table: seq<Category>, items: seq<Item>, c: Category)
    ensures c in PresentCategories(table, items) <==> c in table && exists x :: x in items && x.category == c.key
    decreases |table|
  {
    if table != [] {
      PresentCategoriesMembers(table[1..], items, c);
      assert c in table <==> c == table[0] || c in table[1..];
    }
  }

  /** Section order is the table's order whatever the order of the items:
      reordering the items of an order leaves the headings unchanged. */
  lemma {:induction false} HeadingsIgnoreItemOrder(table: seq<Category>, a: seq<Item>, b: seq<Item>)
    requires multiset(a) == multiset(b)
    ensures CategoriesOf(Groups(table, a)) == CategoriesOf(Groups(table, b))
  {
    GroupsFollowTable(table, a);
    GroupsFollowTable(table, b);
    PresentCategoriesAgree(table, a, b);
  }

  lemma {:induction false} PresentCategoriesAgree(table: seq<Category>, a: seq<Item>, b: seq<Item>)
    requires multiset(a) == multiset(b)
    ensures PresentCategories(table, a) == PresentCategories(table, b)
    decreases |table|
  {
    if table != [] {
      PresentCategoriesAgree(table[1..], a, b);
      forall x ensures x in a <==> x in b {
        assert x in a <==> x in multiset(a);
        assert x in b <==> x in multiset(b);
      }
    }
  }

  /** Dropping the first entry of a table with distinct keys leaves a table
      with distinct keys that lacks the first key. */
  lemma TailOfDistinct(table: seq<Category>)
    requires DistinctKeys(table) && table != []
    ensures DistinctKeys(table[1..]) && !HasKey(table[1..], table[0].key)
  {
    var tail := table[1..];
    forall i, j | 0 <= i < j < |tail| ensures tail[i].key != tail[j].key {
      assert tail[i] == table[i + 1] && tail[j] == table[j + 1];
    }
    forall k | 0 <= k < |tail| ensures tail[k].key != table[0].key {
      assert tail[k] == table[k + 1];
    }
  }

  /** With distinct table keys, no two sections share a category key. */
  lemma {:induction false} GroupKeysDistinct(table: seq<Category>, items: seq<Item>)
    requires DistinctKeys(table)
    ensures DistinctKeys(CategoriesOf(Groups(table, items)))
    decreases |table|
  {
    if table != [] {
      var tail := table[1..];
      TailOfDistinct(table);
      GroupKeysDistinct(tail, items);
      var here := ItemsOfCategory(items, table[0].key);
      var rest := Groups(tail, items);
      if here != [] {
        var cs := CategoriesOf([Group(table[0], here)] + rest);
        var tailCs := CategoriesOf(rest);
        assert cs == [table[0]] + tailCs;
        forall j | 0 <= j < |tailCs| ensures tailCs[j].key != table[0].key {
          assert rest[j] in rest;
          var k :| 0 <= k < |tail| && tail[k] == rest[j].category;
        }
      }
    }
  }

  /** An item whose category is a key of the table is printed in exactly one
      section. */
  lemma KnownItemInExactlyOneGroup(table: seq<Category>, items: seq<Item>, x: Item)
    requires DistinctKeys(table)
    requires x in items && HasKey(table, x.category)
    ensures exists i :: 0 <= i < |Groups(table, items)| && x in Groups(table, items)[i].items
    ensures forall i, j ::
      (0 <= i < |Groups(table, items)| && 0 <= j < |Groups(table, items)| &&
       x in Groups(table, items)[i].items && x in Groups(table, items)[j].items) ==> i == j
  {
    var g := Groups(table, items);
    var k :| 0 <= k < |table| && table[k].key == x.category;
    GroupsFollowTable(table, items);
    PresentCategoriesMembers(table, items, table[k]);
    assert table[k] in CategoriesOf(g);
    var i :| 0 <= i < |g| && CategoriesOf(g)[i] == table[k];
    assert g[i] in g;
    assert x in g[i].items;
    GroupKeysDistinct(table, items);
    forall i, j | 0 <= i < |g| && 0 <= j < |g| && x in g[i].items && x in g[j].items ensures i == j {
      assert g[i] in g && g[j] in g;
      assert CategoriesOf(g)[i].key == x.category == CategoriesOf(g)[j].key;
    }
  }

  /** An item whose category is not a key of the table is not printed. */
  lemma UnknownItemInNoGroup(table: seq<Category>, items: seq<Item>, x: Item)
    requires !HasKey(table, x.category)
    ensures forall g :: g in Groups(table, items) ==> x !in g.items
  {
    forall g | g in Groups(table, items) ensures x !in g.items {
      var k :| 0 <= k < |table| && table[k] == g.category;
    }
  }

  /** Printed items are exactly the items with a known category, each as
      often as it occurs in the order. */
  lemma {:induction false} GroupsPartitionKnownItems(table: seq<Category>, items: seq<Item>)
    requires DistinctKeys(table)
    ensures multiset(Flatten(Groups(table, items))) == multiset(KnownItems(table, items))
    ensures |Flatten(Groups(table, items))| == |KnownItems(table, items)|
    decreases |table|
  {
    if table == [] {
      NoKnownItemsWithoutTable(table, items);
    } else {
      var tail := table[1..];
      TailOfDistinct(table);
      GroupsPartitionKnownItems(tail, items);
      KnownItemsSplit(table, items);
      var here := ItemsOfCategory(items, table[0].key);
      var rest := Groups(tail, items);
      if here != [] {
        assert ([Group(table[0], here)] + rest)[1..] == rest;
      }
    }
    assert |Flatten(Groups(table, items))| == |multiset(Flatten(Groups(table, items)))|;
  }

  lemma {:induction false} NoKnownItemsWithoutTable(table: seq<Category>, items: seq<Item>)
    requires table == []
    ensures KnownItems(table, items) == []
    decreases |items|
  {
    if items != [] {
      NoKnownItemsWithoutTable(table, items[1..]);
    }
  }

  /** The known items of a table split into those of its first key and those
      of the remaining keys. */
  lemma {:induction false} KnownItemsSplit(table: seq<Category>, items: seq<Item>)
    requires table != [] && !HasKey(table[1..], table[0].key)
    ensures multiset(KnownItems(table, items))
         == multiset(ItemsOfCategory(items, table[0].key)) + multiset(KnownItems(table[1..], items))
    decreases |items|
  {
    if items != [] {
      KnownItemsSplit(table, items[1..]);
      var c := items[0].category;
      assert HasKey(table, c) <==> c == table[0].key || HasKey(table[1..], c) by {
        if HasKey(table, c) && c != table[0].key {
          var k :| 0 <= k < |table| && table[k].key == c;
          assert table[1..][k - 1].key == c;
        }
        if HasKey(table[1..], c) {
          var k :| 0 <= k < |table[1..]| && table[1..][k].key == c;
          assert table[k + 1].key == c;
        }
        if c == table[0].key {
          assert table[0].key == c;
        }
      }
    }
  }
}
