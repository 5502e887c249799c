/** The project filter (script.js:216-243): a click on a filter button makes
    it the only active button and shows exactly the grid cards its filter
    value selects. */
module Filter {
  import opened Dataset

  /** The show/hide test of script.js:235: the filter is "all" or equals the
      card's category under `===` (two missing attributes are equal). */
  function Shows(filterValue: Attr, category: Attr): (r: bool)
    ensures filterValue == Present("all") ==> r
    ensures filterValue != Present("all") ==> (r <==> category == filterValue)
  {
    filterValue == Present("all") || filterValue == category
  }

  /** The "all" filter shows every card. */
  lemma AllShowsEvery(category: Attr)
    ensures Shows(Present("all"), category)
  {
  }

  /** Any other filter value shows a card exactly when the card's category
      is that value. */
  lemma CategoryShowsOnlyItsCards(value: string, category: Attr)
    requires value != "all"
    ensures Shows(Present(value), category) <==> category == Present(value)
  {
  }

  /** How many flags are set. */
  function CountTrue(flags: seq<bool>): nat {
    if flags == [] then 0 else (if flags[0] then 1 else 0) + CountTrue(flags[1..])
  }

  /** Flags set at exactly one position number one. */
  lemma {:induction false} OneHotCount(flags: seq<bool>, b: int)
    requires 0 <= b < |flags|
    requires forall j :: 0 <= j < |flags| ==> flags[j] == (j == b)
    ensures CountTrue(flags) == 1
  {
    if b == 0 {
      NoneSetCount(flags[1..]);
    } else {
      OneHotCount(flags[1..], b - 1);
    }
  }

  /** Flags none of which is set number zero. */
  lemma {:induction false} NoneSetCount(flags: seq<bool>)
    requires forall j :: 0 <= j < |flags| ==> !flags[j]
    ensures CountTrue(flags) == 0
  {
    if flags != [] {
      NoneSetCount(flags[1..]);
    }
  }

  /** The number of cards a filter shows. */
  function ShownCount(filterValue: Attr, categories: seq<Attr>): nat {
    if categories == [] then 0
    else (if Shows(filterValue, categories[0]) then 1 else 0) + ShownCount(filterValue, categories[1..])
  }

  /** "all" shows the whole grid. */
  lemma {:induction false} AllShowsWholeGrid(categories: seq<Attr>)
    ensures ShownCount(Present("all"), categories) == |categories|
  {
    if categories != [] {
      AllShowsWholeGrid(categories[1..]);
    }
  }

  /** Display flags that follow a filter card by card show as many cards as
      the filter selects. */
  lemma {:induction false} ShownFlagsCount(flags: seq<bool>, filterValue: Attr, categories: seq<Attr>)
    requires |flags| == |categories|
    requires forall i :: 0 <= i < |flags| ==> flags[i] == Shows(filterValue, categories[i])
    ensures CountTrue(flags) == ShownCount(filterValue, categories)
  {
    if flags != [] {
      ShownFlagsCount(flags[1..], filterValue, categories[1..]);
    }
  }

  class FilterBar {
    /** Each filter button's `data-filter`. */
    const filters: seq<Attr>
    /** Each grid card's `data-category`. */
    const categories: seq<Attr>
    /** Whether each button's class list holds `active`. */
    const active: array<bool>
    /** Whether each grid card is displayed (`block`) or not (`none`). */
    const shown: array<bool>

    ghost predicate Valid()
      reads this
    {
      active.Length == |filters| && shown.Length == |categories| && active != shown
    }

    /** The buttons and grid cards as the page's markup has them. */
    constructor (filters: seq<Attr>, categories: seq<Attr>, active: seq<bool>, shown: seq<bool>)
      requires |active| == |filters| && |shown| == |categories|
      ensures Valid()
      ensures this.filters == filters && this.categories == categories
      ensures this.active[..] == active && this.shown[..] == shown
      ensures fresh(this.active) && fresh(this.shown)
    {
      this.filters := filters;
      this.categories := categories;
      this.active := new bool[|active|](j requires 0 <= j < |active| => active[j]);
      this.shown := new bool[|shown|](i requires 0 <= i < |shown| => shown[i]);
    }

    /** The click handler of button `b` (script.js:224-241). */
    method Click(b: nat)
      requires Valid() && b < |filters|
      modifies active, shown
      ensures Valid()
      ensures forall j :: 0 <= j < active.Length ==> active[j] == (j == b)
      ensures CountTrue(active[..]) == 1
      ensures forall i :: 0 <= i < shown.Length ==> shown[i] == Shows(filters[b], categories[i])
      ensures CountTrue(shown[..]) == ShownCount(filters[b], categories)
    {
      var filterValue := filters[b];

      var j := 0;
      while j < active.Length
        invariant 0 <= j <= active.Length
        invariant forall m :: 0 <= m < j ==> !active[m]
        modifies active
      {
        active[j] := false;
        j := j + 1;
      }
      active[b] := true;

      var i := 0;
      while i < shown.Length
        invariant 0 <= i <= shown.Length
        invariant forall m :: 0 <= m < i ==> shown[m] == Shows(filterValue, categories[m])
        modifies shown
      {
        shown[i] := Shows(filterValue, categories[i]);
        i := i + 1;
      }
      OneHotCount(active[..], b);
      ShownFlagsCount(shown[..], filterValue, categories);
    }
  }
}
