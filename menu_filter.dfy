/**
 * The menu filter buttons of script.js: pressing a button with `data-filter`
 * hides every menu item whose `data-category` differs, except that the filter
 * `all` shows everything. A missing attribute is JavaScript's `undefined`,
 * which `===` equates only with another `undefined`.
 */
module MenuFilter {
  import opened Wrappers

  const ShowAll: string := "all"

  /** `filter === 'all' || item.dataset.category === filter`. */
  predicate Visible(filter: Option<string>, category: Option<string>)
    ensures category == filter ==> Visible(filter, category)
  {
    filter == Some(ShowAll) || category == filter
  }

  /** The `all` button shows every menu item. */
  lemma AllShowsEverything(category: Option<string>)
    ensures Visible(Some(ShowAll), category)
  {
  }

  /** Any other button shows exactly the items of its category. */
  lemma CategoryShowsOnlyItsItems(c: string, category: Option<string>)
    requires c != ShowAll
    ensures Visible(Some(c), category) <==> category == Some(c)
  {
  }

  /** A button without `data-filter` shows exactly the items without `data-category`. */
  lemma MissingFilterShowsUncategorised(category: Option<string>)
    ensures Visible(None, category) <==> category.None?
  {
  }

  /**
   * The click handler's loop over the menu items: `hidden[j]` is whether item `j`
   * carries the `filter-hidden` class afterwards, for every item at once.
   */
  method ApplyFilter(hidden: array<bool>, categories: seq<Option<string>>, filter: Option<string>)
    requires hidden.Length == |categories|
    modifies hidden
    ensures forall j :: 0 <= j < hidden.Length ==> hidden[j] == !Visible(filter, categories[j])
  {
    var j := 0;
    while j < hidden.Length
      invariant 0 <= j <= hidden.Length
      invariant forall m :: 0 <= m < j ==> hidden[m] == !Visible(filter, categories[m])
    {
      if filter == Some(ShowAll) || categories[j] == filter {
        hidden[j] := false;
      } else {
        hidden[j] := true;
      }
      j := j + 1;
    }
  }
}
