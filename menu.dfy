/**
 * The menu section (src/components/Menu.jsx).
 *
 * The widget holds the selected filter, one of "all", "food" and "drink"
 * (initially "all"), and shows a grid of cards derived from a fixed list of
 * menu items: all of them, or exactly those whose type equals the selected
 * key, in their original order.
 */
module Menu {
  import opened Wrappers

  // ---------------------------------------------------------------------------
  // Filter keys and buttons
  // ---------------------------------------------------------------------------

  /** The three filter keys. */
  datatype Category = All | Food | Drink

  /** The string a category stands for in the widget's state and in the items' `type`. */
  function Key(c: Category): string
  {
    match c
    case All => "all"
    case Food => "food"
    case Drink => "drink"
  }

  /** The category a key string names, if any: the inverse of Key. */
  function CategoryOfKey(k: string): (r: Option<Category>)
    ensures r.Some? ==> Key(r.value) == k
    ensures r.None? <==> forall c: Category :: Key(c) != k
  {
    if k == "all" then Some(All)
    else if k == "food" then Some(Food)
    else if k == "drink" then Some(Drink)
    else assert Key(All) != k && Key(Food) != k && Key(Drink) != k; None
  }

  /** Key and CategoryOfKey are inverse: distinct categories have distinct keys. */
  lemma KeyRoundTrip(c: Category)
    ensures CategoryOfKey(Key(c)) == Some(c)
  {
  }

  datatype ButtonIcon = HeartIcon | UtensilsIcon | CoffeeIcon

  /** An entry of `filterButtons`: its key, its `label` (here `caption`) and its icon. */
  datatype FilterButton = FilterButton(key: string, caption: string, icon: ButtonIcon)

  /** The `filterButtons` list, in the order the buttons are drawn. */
  function FilterButtons(): seq<FilterButton>
  {
    [
      FilterButton("all", "All Favorites", HeartIcon),
      FilterButton("food", "Food", UtensilsIcon),
      FilterButton("drink", "Drinks", CoffeeIcon)
    ]
  }

  /** A button is drawn highlighted when `filter === key`. */
  predicate IsActive(b: FilterButton, filter: Category)
  {
    b.key == Key(filter)
  }

  /** Where the button of a category sits in the row. */
  function ButtonIndex(c: Category): (i: nat)
    ensures i < |FilterButtons()| && FilterButtons()[i].key == Key(c)
  {
    match c
    case All => 0
    case Food => 1
    case Drink => 2
  }

  /**
   * Every button hands `setFilter` one of the three keys, each key has exactly
   * one button, so for any selection exactly one button is highlighted.
   */
  lemma ButtonsMatchCategories(filter: Category)
    ensures forall i :: 0 <= i < |FilterButtons()| ==> CategoryOfKey(FilterButtons()[i].key).Some?
    ensures forall i :: 0 <= i < |FilterButtons()| ==>
              (IsActive(FilterButtons()[i], filter) <==> i == ButtonIndex(filter))
  {
  }

  // ---------------------------------------------------------------------------
  // Menu items
  // ---------------------------------------------------------------------------

  /** One entry of `menuItems`; `kind` is the item's `type` key. */
  datatype MenuItem = MenuItem(
    name: string,
    desc: string,
    price: string,
    img: string,
    kind: string,
    featured: bool)

  /** The seven items of the menu. */
  function MenuItems(): seq<MenuItem>
  {
    [
      MenuItem("Avocado Toast",
        "Artisan sourdough with cherry tomatoes & creamy feta cheese", "€5.90",
        "https://i.pinimg.com/736x/06/b7/60/"
          + "06b760a4faa9d509ca29781101c48d73.jpg", "food", true),
      MenuItem("Shakshuka",
        "Perfectly poached eggs in our signature spicy tomato sauce", "€6.50",
        "https://i.pinimg.com/736x/03/50/3d/"
          + "03503de53f6b35245a88aa176a8fe13b.jpg", "food", false),
      MenuItem("Oat Latte",
        "Rich espresso with creamy oat milk, perfectly balanced", "€3.20",
        "https://images.unsplash.com/photo-1509042239860-f550ce710b93"
          + "?auto=format&fit=crop&w=400&q=80", "drink", true),
      MenuItem("Granola Bowl",
        "House-made granola with Greek yogurt, seasonal fruit & honey", "€4.80",
        "https://i.pinimg.com/736x/bb/b4/ff/"
          + "bbb4ffb986448c7fe83159aba14170f7.jpg", "food", false),
      MenuItem("Pancake Stack",
        "Fluffy pancakes with maple syrup, fresh berries & whipped cream", "€5.50",
        "https://i.pinimg.com/736x/18/bc/d8/"
          + "18bcd81675c38986d31cf6977dd5833b.jpg", "food", true),
      MenuItem("Espresso",
        "Bold and rich single shot, expertly extracted", "€2.50",
        "https://i.pinimg.com/736x/85/85/11/"
          + "85851111fca1556b7a272dd4d7df2943.jpg", "drink", false),
      MenuItem("Matcha Latte",
        "Premium ceremonial matcha with silky oat milk", "€3.80",
        "https://i.pinimg.com/736x/f3/35/3d/"
          + "f3353da22218a4de90629ea801d6d0ff.jpg", "drink", false)
    ]
  }

  /** Every item's type is "food" or "drink". */
  predicate WellKinded(items: seq<MenuItem>)
  {
    forall i :: 0 <= i < |items| ==> items[i].kind == "food" || items[i].kind == "drink"
  }

  // ---------------------------------------------------------------------------
  // The filter
  // ---------------------------------------------------------------------------

  /** a is b with some elements left out, the rest in their order. */
  predicate IsSubsequence<T(==)>(a: seq<T>, b: seq<T>)
    decreases |b|
  {
    if a == [] then true
    else if b == [] then false
    else if a[0] == b[0] then IsSubsequence(a[1..], b[1..])
    else IsSubsequence(a, b[1..])
  }

  /** Every sequence is a subsequence of itself. */
  lemma {:induction false} SubsequenceReflexive<T>(s: seq<T>)
    ensures IsSubsequence(s, s)
    decreases |s|
  {
    if s != [] {
      SubsequenceReflexive(s[1..]);
    }
  }

  /** How many items have the given type. */
  function CountKind(items: seq<MenuItem>, kind: string): (k: nat)
    ensures k <= |items|
    decreases |items|
  {
    if items == [] then 0
    else (if items[0].kind == kind then 1 else 0) + CountKind(items[1..], kind)
  }

  /**
   * `items.filter((item) => item.type === kind)`: the items of that type, in
   * their order, and as many of them as the list has.
   */
  function KeepKind(items: seq<MenuItem>, kind: string): (r: seq<MenuItem>)
    ensures forall i :: 0 <= i < |r| ==> r[i].kind == kind
    ensures IsSubsequence(r, items)
    ensures |r| == CountKind(items, kind)
    decreases |items|
  {
    if items == [] then []
    else if items[0].kind == kind then [items[0]] + KeepKind(items[1..], kind)
    else KeepKind(items[1..], kind)
  }

  /** `filteredItems`: the items the grid shows for a selection. */
  function Visible(items: seq<MenuItem>, filter: Category): (r: seq<MenuItem>)
    ensures IsSubsequence(r, items)
    ensures filter == All ==> r == items
    ensures filter != All ==> forall i :: 0 <= i < |r| ==> r[i].kind == Key(filter)
    ensures filter != All ==> |r| == CountKind(items, Key(filter))
  {
    if filter == All then SubsequenceReflexive(items); items else KeepKind(items, Key(filter))
  }

  /** A subsequence made only of items of one type has at most as many items as the list has of that type. */
  lemma {:induction false} SubsequenceCountBound(s: seq<MenuItem>, items: seq<MenuItem>, kind: string)
    requires IsSubsequence(s, items)
    requires forall i :: 0 <= i < |s| ==> s[i].kind == kind
    ensures |s| <= CountKind(items, kind)
    decreases |items|
  {
    if s != [] && items != [] {
      if s[0] == items[0] {
        SubsequenceCountBound(s[1..], items[1..], kind);
      } else {
        SubsequenceCountBound(s, items[1..], kind);
      }
    }
  }

  /**
   * The filter is the only order-preserving selection of items of one type
   * that misses none of them: any such selection equals KeepKind.
   */
  lemma {:induction false} KeepKindUnique(s: seq<MenuItem>, items: seq<MenuItem>, kind: string)
    requires IsSubsequence(s, items)
    requires forall i :: 0 <= i < |s| ==> s[i].kind == kind
    requires |s| == CountKind(items, kind)
    ensures s == KeepKind(items, kind)
    decreases |items|
  {
    if items == [] {
    } else if items[0].kind == kind {
      if s != [] && s[0] == items[0] {
        KeepKindUnique(s[1..], items[1..], kind);
        assert s == [s[0]] + s[1..];
      } else {
        // s would have to fit, with one item too many, into the rest of the list
        if s != [] {
          SubsequenceCountBound(s, items[1..], kind);
        }
        assert false;
      }
    } else {
      if s != [] {
        assert s[0] != items[0];
      }
      KeepKindUnique(s, items[1..], kind);
    }
  }

  /** Of every item value, the filter keeps all its copies if it has the type and none otherwise. */
  lemma {:induction false} KeepKindMultiset(items: seq<MenuItem>, kind: string)
    ensures forall x :: multiset(KeepKind(items, kind))[x] == if x.kind == kind then multiset(items)[x] else 0
    decreases |items|
  {
    if items != [] {
      KeepKindMultiset(items[1..], kind);
      assert items == [items[0]] + items[1..];
    }
  }

  /**
   * When every item is food or drink, the food view and the drink view split
   * the menu: together they hold each item exactly once, and no item is in both.
   */
  lemma {:induction false} FoodDrinkPartition(items: seq<MenuItem>)
    requires WellKinded(items)
    ensures |Visible(items, Food)| + |Visible(items, Drink)| == |items|
    ensures multiset(Visible(items, Food)) + multiset(Visible(items, Drink)) == multiset(items)
    ensures forall x :: x in Visible(items, Food) ==> x !in Visible(items, Drink)
    decreases |items|
  {
    if items != [] {
      assert WellKinded(items[1..]) by {
        assert forall i :: 0 <= i < |items[1..]| ==> items[1..][i] == items[i + 1];
      }
      FoodDrinkPartition(items[1..]);
      assert items == [items[0]] + items[1..];
    }
  }

  /** Every built-in item is food or drink, so the built-in menu splits into its food and drink views. */
  lemma FixedMenuSplits()
    ensures |MenuItems()| == 7 && WellKinded(MenuItems())
    ensures |Visible(MenuItems(), Food)| + |Visible(MenuItems(), Drink)| == |MenuItems()|
  {
    var ms := MenuItems();
    assert ms[0].kind == "food" && ms[1].kind == "food" && ms[2].kind == "drink";
    assert ms[3].kind == "food" && ms[4].kind == "food";
    assert ms[5].kind == "drink" && ms[6].kind == "drink";
    FoodDrinkPartition(ms);
  }

  /** Items tagged food, drink, food, drink: the drink view is the second and the fourth, in that order. */
  lemma AlternatingMenuScenario(a: MenuItem, b: MenuItem, c: MenuItem, d: MenuItem)
    requires a.kind == "food" && b.kind == "drink" && c.kind == "food" && d.kind == "drink"
    ensures Visible([a, b, c, d], Drink) == [b, d]
    ensures Visible([a, b, c, d], Food) == [a, c]
    ensures Visible([a, b, c, d], All) == [a, b, c, d]
  {
    assert [a, b, c, d][1..] == [b, c, d];
    assert [b, c, d][1..] == [c, d];
    assert [c, d][1..] == [d];
    assert [d][1..] == [];
    assert KeepKind([d], "drink") == [d] && KeepKind([d], "food") == [];
    assert KeepKind([c, d], "drink") == [d] && KeepKind([c, d], "food") == [c];
    assert KeepKind([b, c, d], "drink") == [b, d] && KeepKind([b, c, d], "food") == [c];
  }

  // ---------------------------------------------------------------------------
  // The cards of the grid
  // ---------------------------------------------------------------------------

  /** What a card draws besides its text: the featured star and the type badge. */
  datatype Card = Card(name: string, desc: string, price: string, img: string, featuredBadge: bool, typeBadge: string)

  const DrinkBadge: string := "\U{2615} Drink"
  const FoodBadge: string := "\U{1F37D}\U{FE0F} Food"

  /** The type badge: the drink label exactly for `type === "drink"`, the food label for anything else. */
  function TypeBadge(item: MenuItem): (badge: string)
    ensures badge == DrinkBadge <==> item.kind == "drink"
    ensures badge == FoodBadge <==> item.kind != "drink"
  {
    if item.kind == "drink" then DrinkBadge else FoodBadge
  }

  /** The card drawn for one item: its name, description, price and image, its featured star and its type badge. */
  function RenderCard(item: MenuItem): Card
  {
    Card(item.name, item.desc, item.price, item.img, item.featured, TypeBadge(item))
  }

  /**
   * The grid for a selection: one card per visible item, in order; a card has
   * the featured star exactly when its item is featured.
   */
  function Grid(items: seq<MenuItem>, filter: Category): (cards: seq<Card>)
    ensures |cards| == |Visible(items, filter)|
    ensures forall i :: 0 <= i < |cards| ==>
              && cards[i].name == Visible(items, filter)[i].name
              && (cards[i].featuredBadge <==> Visible(items, filter)[i].featured)
              && (cards[i].typeBadge == DrinkBadge <==> Visible(items, filter)[i].kind == "drink")
              && (cards[i].typeBadge == FoodBadge <==> Visible(items, filter)[i].kind != "drink")
    ensures forall i :: 0 <= i < |cards| ==> cards[i] == RenderCard(Visible(items, filter)[i])
  {
    var v := Visible(items, filter);
    seq(|v|, i requires 0 <= i < |v| => RenderCard(v[i]))
  }

  // ---------------------------------------------------------------------------
  // The widget's state
  // ---------------------------------------------------------------------------

  class MenuWidget {
    const menuItems: seq<MenuItem>
    var filter: Category

    constructor (items: seq<MenuItem>)
      ensures menuItems == items && filter == All
    {
      menuItems := items;
      filter := All;
    }

    /** `setFilter(key)`, called by the button of that key. The items are never touched. */
    method SetFilter(c: Category)
      modifies this
      ensures filter == c
    {
      filter := c;
    }

    /** `filteredItems` for the current selection. */
    function FilteredItems(): (r: seq<MenuItem>)
      reads this
      ensures IsSubsequence(r, menuItems)
      ensures filter == All ==> r == menuItems
      ensures filter != All ==> forall i :: 0 <= i < |r| ==> r[i].kind == Key(filter)
      ensures filter != All ==> |r| == CountKind(menuItems, Key(filter))
    {
      Visible(menuItems, filter)
    }
  }

  /** The food, drink, food, drink scenario, driven through the widget. */
  method WidgetScenario(a: MenuItem, b: MenuItem, c: MenuItem, d: MenuItem)
    requires a.kind == "food" && b.kind == "drink" && c.kind == "food" && d.kind == "drink"
  {
    var w := new MenuWidget([a, b, c, d]);
    assert w.FilteredItems() == [a, b, c, d];
    w.SetFilter(Drink);
    AlternatingMenuScenario(a, b, c, d);
    assert w.FilteredItems() == [b, d];
    assert w.menuItems == [a, b, c, d];
  }
}
