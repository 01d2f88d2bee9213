/** The Menus page: the menu catalog with search and category facets, and the cost calculator
    that keeps a selection of items with quantities and their running total. */
module Menus {
  import opened Wrappers
  import opened Text
  import opened Lists
  import opened Entities

  /** One row of the cost calculator: `{ ...item, quantity }`. */
  datatype Selection = Selection(item: MenuItem, quantity: int)

  function Category(m: MenuItem): string {
    m.category
  }

  /** The loaded catalog, `result.sort((a, b) => a.category.localeCompare(b.category))`:
      a permutation of the store's list, ascending by category, and items of one category
      keep the store's order. */
  function SortMenu(items: seq<MenuItem>): (r: seq<MenuItem>)
    ensures multiset(r) == multiset(items)
    ensures SortedBy(r, Category, LexLe)
    ensures forall c :: WithKey(r, Category, c) == WithKey(items, Category, c)
  {
    LexLeTotalPreorder();
    SortBySorted(items, Category, LexLe);
    TotalPreorderReflexive(LexLe);
    forall c ensures WithKey(SortBy(items, Category, LexLe), Category, c) == WithKey(items, Category, c) {
      SortByStable(items, Category, LexLe, c);
    }
    SortBy(items, Category, LexLe)
  }

  /** The search test for an already lower-cased `term`: name, description or category. */
  predicate MatchesSearch(item: MenuItem, term: string) {
    Includes(Lower(item.name), term) || Includes(Lower(item.description), term) ||
    Includes(Lower(item.category), term)
  }

  function SearchTest(term: string): MenuItem -> bool {
    (item: MenuItem) => MatchesSearch(item, term)
  }

  function FacetTest(activeFilters: seq<string>): MenuItem -> bool {
    (item: MenuItem) => item.category in activeFilters
  }

  /** The two criteria of the filter: an empty search term or an empty facet set lets every
      item through. */
  predicate Shows(item: MenuItem, searchTerm: string, activeFilters: seq<string>) {
    (searchTerm != "" ==> MatchesSearch(item, Lower(searchTerm))) &&
    (activeFilters != [] ==> item.category in activeFilters)
  }

  /** What `filterMenuItems` shows: the items that pass the search (when the term is not empty)
      and whose category is active (when some category is), in catalog order. */
  function MenuView(items: seq<MenuItem>, searchTerm: string, activeFilters: seq<string>): (r: seq<MenuItem>)
    ensures IsSubsequence(r, items)
    ensures forall i :: 0 <= i < |r| ==>
      r[i] in items && Shows(r[i], searchTerm, activeFilters)
    ensures forall i :: 0 <= i < |items| && Shows(items[i], searchTerm, activeFilters) ==>
      items[i] in r
    ensures searchTerm == "" && activeFilters == [] ==> r == items
  {
    var searched := FilterWhen(searchTerm != "", items, SearchTest(Lower(searchTerm)));
    var r := FilterWhen(activeFilters != [], searched, FacetTest(activeFilters));
    SubsequenceTransitive(r, searched, items);
    r
  }

  /** The filter keeps every copy of an item that passes it and no copy of one that does not. */
  lemma MenuViewCounts(items: seq<MenuItem>, searchTerm: string, activeFilters: seq<string>, x: MenuItem)
    ensures multiset(MenuView(items, searchTerm, activeFilters))[x] ==
      if Shows(x, searchTerm, activeFilters) then multiset(items)[x] else 0
  {
    var searched := FilterWhen(searchTerm != "", items, SearchTest(Lower(searchTerm)));
    FilterWhenMultiplicity(searchTerm != "", items, SearchTest(Lower(searchTerm)), x);
    FilterWhenMultiplicity(activeFilters != [], searched, FacetTest(activeFilters), x);
  }

  /** Filtering keeps the catalog's category order. */
  lemma MenuViewSorted(items: seq<MenuItem>, searchTerm: string, activeFilters: seq<string>)
    requires SortedBy(items, Category, LexLe)
    ensures SortedBy(MenuView(items, searchTerm, activeFilters), Category, LexLe)
  {
    var searched := FilterWhen(searchTerm != "", items, SearchTest(Lower(searchTerm)));
    if searchTerm != "" {
      FilterSorted(items, SearchTest(Lower(searchTerm)), Category, LexLe);
    }
    if activeFilters != [] {
      FilterSorted(searched, FacetTest(activeFilters), Category, LexLe);
    }
  }

  // ---------------------------------------------------------------------------------------------
  // The cost calculator

  predicate UniqueIds(sel: seq<Selection>) {
    forall i, j :: 0 <= i < j < |sel| ==> sel[i].item.Id != sel[j].item.Id
  }

  predicate IsSelected(sel: seq<Selection>, id: int) {
    exists i :: 0 <= i < |sel| && sel[i].item.Id == id
  }

  function OtherId(id: int): Selection -> bool {
    (s: Selection) => s.item.Id != id
  }

  /** `prev.filter(selected => selected.Id !== id)`. */
  function Deselect(sel: seq<Selection>, id: int): (r: seq<Selection>)
    ensures IsSubsequence(r, sel)
    ensures !IsSelected(r, id)
    ensures forall i :: 0 <= i < |sel| && sel[i].item.Id != id ==> sel[i] in r
    ensures UniqueIds(sel) ==> UniqueIds(r)
  {
    FilterIsSubsequence(sel, OtherId(id));
    FilterKeepsUniqueIds(sel, OtherId(id));
    Filter(sel, OtherId(id))
  }

  lemma {:induction false} FilterKeepsUniqueIds(sel: seq<Selection>, p: Selection -> bool)
    ensures UniqueIds(sel) ==> UniqueIds(Filter(sel, p))
  {
    if sel != [] && UniqueIds(sel) {
      var tail := sel[1..];
      assert UniqueIds(tail) by {
        forall i, j | 0 <= i < j < |tail| ensures tail[i].item.Id != tail[j].item.Id {
          assert tail[i] == sel[i + 1] && tail[j] == sel[j + 1];
        }
      }
      FilterKeepsUniqueIds(tail, p);
      var ft := Filter(tail, p);
      forall j | 0 <= j < |ft| ensures ft[j].item.Id != sel[0].item.Id {
        assert ft[j] in tail;
        var k :| 0 <= k < |tail| && tail[k] == ft[j];
        assert tail[k] == sel[k + 1];
      }
    }
  }

  /** `handleItemSelect`: a selected item is removed; an unselected one is appended with
      quantity 1. */
  function SelectItem(sel: seq<Selection>, item: MenuItem): (r: seq<Selection>)
    ensures IsSelected(sel, item.Id) ==> r == Deselect(sel, item.Id) && !IsSelected(r, item.Id)
    ensures !IsSelected(sel, item.Id) ==> r == sel + [Selection(item, 1)]
    ensures UniqueIds(sel) ==> UniqueIds(r)
  {
    if IsSelected(sel, item.Id) then Deselect(sel, item.Id)
    else sel + [Selection(item, 1)]
  }

  /** `prev.map(item => item.Id === id ? { ...item, quantity } : item)`. */
  function SetQuantity(sel: seq<Selection>, id: int, quantity: int): (r: seq<Selection>)
    ensures |r| == |sel|
    ensures forall i :: 0 <= i < |sel| ==> r[i].item == sel[i].item
    ensures forall i :: 0 <= i < |sel| ==> r[i].quantity == if sel[i].item.Id == id then quantity else sel[i].quantity
  {
    if sel == [] then []
    else
      var head := if sel[0].item.Id == id then sel[0].(quantity := quantity) else sel[0];
      [head] + SetQuantity(sel[1..], id, quantity)
  }

  /** `handleQuantityChange`: a quantity of 0 or less removes the item, a positive one sets its
      quantity. */
  function ChangeQuantity(sel: seq<Selection>, id: int, quantity: int): (r: seq<Selection>)
    ensures quantity <= 0 ==> r == Deselect(sel, id)
    ensures quantity > 0 ==> |r| == |sel| && forall i :: 0 <= i < |sel| ==>
      r[i].item == sel[i].item &&
      r[i].quantity == (if sel[i].item.Id == id then quantity else sel[i].quantity)
    ensures UniqueIds(sel) ==> UniqueIds(r)
  {
    if quantity <= 0 then Deselect(sel, id) else SetQuantity(sel, id, quantity)
  }

  function LineCost(s: Selection): int {
    s.item.price * s.quantity
  }

  /** `selectedItems.reduce((sum, item) => sum + item.price * item.quantity, 0)`. */
  function TotalCost(sel: seq<Selection>): int {
    Sum(sel, LineCost)
  }

  /** Selecting a new item adds its price to the total. */
  lemma SelectNewCost(sel: seq<Selection>, item: MenuItem)
    requires !IsSelected(sel, item.Id)
    ensures TotalCost(SelectItem(sel, item)) == TotalCost(sel) + item.price
  {
    SumAppend(sel, [Selection(item, 1)], LineCost);
    assert Sum([Selection(item, 1)], LineCost) == LineCost(Selection(item, 1)) + Sum([Selection(item, 1)][1..], LineCost);
  }

  /** Removing a selected item subtracts its line from the total. */
  lemma {:induction false} DeselectCost(sel: seq<Selection>, k: int)
    requires UniqueIds(sel) && 0 <= k < |sel|
    ensures TotalCost(Deselect(sel, sel[k].item.Id)) == TotalCost(sel) - LineCost(sel[k])
  {
    var id := sel[k].item.Id;
    var tail := sel[1..];
    assert UniqueIds(tail) by {
      forall i, j | 0 <= i < j < |tail| ensures tail[i].item.Id != tail[j].item.Id {
        assert tail[i] == sel[i + 1] && tail[j] == sel[j + 1];
      }
    }
    if k == 0 {
      forall i | 0 <= i < |tail| ensures OtherId(id)(tail[i]) {
        assert tail[i] == sel[i + 1];
      }
      FilterKeepsAll(tail, OtherId(id));
    } else {
      assert tail[k - 1] == sel[k];
      DeselectCost(tail, k - 1);
    }
  }

  /** Setting the quantity of a selected item changes the total by its price times the change. */
  lemma {:induction false} SetQuantityCost(sel: seq<Selection>, k: int, quantity: int)
    requires UniqueIds(sel) && 0 <= k < |sel|
    ensures TotalCost(SetQuantity(sel, sel[k].item.Id, quantity)) ==
      TotalCost(sel) + sel[k].item.price * (quantity - sel[k].quantity)
  {
    var id := sel[k].item.Id;
    var tail := sel[1..];
    assert UniqueIds(tail) by {
      forall i, j | 0 <= i < j < |tail| ensures tail[i].item.Id != tail[j].item.Id {
        assert tail[i] == sel[i + 1] && tail[j] == sel[j + 1];
      }
    }
    var r := SetQuantity(sel, id, quantity);
    var rt := SetQuantity(tail, id, quantity);
    assert r == [r[0]] + rt;
    assert TotalCost(r) == LineCost(r[0]) + TotalCost(rt);
    assert TotalCost(sel) == LineCost(sel[0]) + TotalCost(tail);
    if k == 0 {
      forall i | 0 <= i < |tail| ensures rt[i] == tail[i] {
        assert tail[i] == sel[i + 1];
      }
      assert rt == tail;
      assert LineCost(r[0]) == sel[0].item.price * quantity;
      assert LineCost(r[0]) == LineCost(sel[0]) + sel[0].item.price * (quantity - sel[0].quantity);
    } else {
      assert tail[k - 1] == sel[k];
      assert r[0] == sel[0] by {
        assert sel[0].item.Id != sel[k].item.Id;
      }
      SetQuantityCost(tail, k - 1, quantity);
    }
  }

  /** The page's state. `filteredMenuItems` and `totalCost` are derived by effects that re-run
      whenever what they depend on changes; each handler below ends by re-running them. */
  class MenusPage {
    var menuItems: seq<MenuItem>
    var filteredMenuItems: seq<MenuItem>
    var error: Option<string>
    var searchTerm: string
    var activeFilters: seq<string>
    var selectedItems: seq<Selection>
    var totalCost: int

    ghost predicate Valid()
      reads this
    {
      filteredMenuItems == MenuView(menuItems, searchTerm, activeFilters) &&
      UniqueIds(selectedItems) &&
      totalCost == TotalCost(selectedItems)
    }

    constructor ()
      ensures Valid()
      ensures menuItems == [] && filteredMenuItems == [] && error == None
      ensures searchTerm == "" && activeFilters == [] && selectedItems == [] && totalCost == 0
    {
      menuItems, filteredMenuItems, error := [], [], None;
      searchTerm, activeFilters, selectedItems, totalCost := "", [], [], 0;
    }

    /** The `filterMenuItems` effect. */
    method FilterMenuItems()
      modifies this`filteredMenuItems
      ensures filteredMenuItems == MenuView(menuItems, searchTerm, activeFilters)
    {
      var filtered := menuItems;
      if searchTerm != "" {
        var term := Lower(searchTerm);
        filtered := Filter(filtered, SearchTest(term));
      }
      if |activeFilters| > 0 {
        filtered := Filter(filtered, FacetTest(activeFilters));
      }
      filteredMenuItems := filtered;
    }

    /** The `calculateTotalCost` effect. */
    method CalculateTotalCost()
      modifies this`totalCost
      ensures totalCost == TotalCost(selectedItems)
    {
      totalCost := TotalCost(selectedItems);
    }

    /** `loadMenuItems`, given what `menuItemService.getAll` returned or threw. */
    method LoadMenuItems(fetched: Result<seq<MenuItem>>)
      requires Valid()
      modifies this`menuItems, this`error, this`filteredMenuItems
      ensures Valid()
      ensures fetched.Ok? ==> menuItems == SortMenu(fetched.value) && error == None
      ensures fetched.Err? ==> menuItems == old(menuItems)
      ensures fetched.Err? ==> error == Some(if fetched.message == "" then "Failed to load menu items" else fetched.message)
      ensures searchTerm == old(searchTerm) && activeFilters == old(activeFilters)
      ensures selectedItems == old(selectedItems)
    {
      if fetched.Ok? {
        menuItems, error := SortMenu(fetched.value), None;
      } else {
        error := Some(if fetched.message == "" then "Failed to load menu items" else fetched.message);
      }
      FilterMenuItems();
    }

    /** The search box's `onSearchChange`. */
    method SetSearchTerm(term: string)
      requires Valid()
      modifies this`searchTerm, this`filteredMenuItems
      ensures Valid()
      ensures searchTerm == term
      ensures menuItems == old(menuItems) && activeFilters == old(activeFilters)
      ensures selectedItems == old(selectedItems) && error == old(error)
    {
      searchTerm := term;
      FilterMenuItems();
    }

    /** `handleFilterChange`. */
    method HandleFilterChange(filterValue: string)
      requires Valid()
      modifies this`activeFilters, this`filteredMenuItems
      ensures Valid()
      ensures activeFilters == Toggle(old(activeFilters), filterValue)
      ensures menuItems == old(menuItems) && searchTerm == old(searchTerm)
      ensures selectedItems == old(selectedItems) && error == old(error)
    {
      activeFilters := Toggle(activeFilters, filterValue);
      FilterMenuItems();
    }

    /** `handleItemSelect`. */
    method HandleItemSelect(item: MenuItem)
      requires Valid()
      modifies this`selectedItems, this`totalCost
      ensures Valid()
      ensures selectedItems == SelectItem(old(selectedItems), item)
      ensures menuItems == old(menuItems) && searchTerm == old(searchTerm)
      ensures activeFilters == old(activeFilters) && filteredMenuItems == old(filteredMenuItems)
      ensures error == old(error)
    {
      selectedItems := SelectItem(selectedItems, item);
      CalculateTotalCost();
    }

    /** `handleQuantityChange`. */
    method HandleQuantityChange(itemId: int, quantity: int)
      requires Valid()
      modifies this`selectedItems, this`totalCost
      ensures Valid()
      ensures selectedItems == ChangeQuantity(old(selectedItems), itemId, quantity)
      ensures menuItems == old(menuItems) && searchTerm == old(searchTerm)
      ensures activeFilters == old(activeFilters) && filteredMenuItems == old(filteredMenuItems)
      ensures error == old(error)
    {
      selectedItems := ChangeQuantity(selectedItems, itemId, quantity);
      CalculateTotalCost();
    }

    /** The calculator's "Clear All" button. */
    method ClearAll()
      requires Valid()
      modifies this`selectedItems, this`totalCost
      ensures Valid()
      ensures selectedItems == [] && totalCost == 0
      ensures menuItems == old(menuItems) && searchTerm == old(searchTerm)
      ensures activeFilters == old(activeFilters) && filteredMenuItems == old(filteredMenuItems)
      ensures error == old(error)
    {
      selectedItems := [];
      CalculateTotalCost();
    }
  }
}
