/**
 * Cart aggregation: one frame's detected labels become an ordered list of
 * priced line items (one per distinct label, in first-seen order) and a total.
 */
module Cart {

  datatype Option<T> = None | Some(value: T)

  /** One row of the cart: the "ITEM NAME", "QUANTITY" and "AMOUNT" of a label. */
  datatype LineItem = LineItem(name: string, quantity: nat, amount: nat)

  /** The shop's static price table, label to unit price in rupees. */
  const PRICES: map<string, nat> := map[
    "amrutanjan" := 48,
    "aqua_lens_cleaner" := 150,
    "ayush_jaggery_powder" := 60,
    "Bourbon_biscuit" := 25,
    "custard_powder" := 40,
    "dettol_cool_max" := 70,
    "dove_soap" := 80,
    "dove_soap_pack_3" := 155,
    "Dru_tablets" := 390,
    "Eucalyptus_oil" := 45,
    "fevi_stick" := 50,
    "fogg_deodrant" := 225,
    "good_night_liquid" := 90,
    "gopuram_turmeric_powder" := 25,
    "Iodex" := 170,
    "KS_deodrant" := 370,
    "lion_honey" := 270,
    "maggi_noodles" := 14,
    "mdh_garam_masala" := 105,
    "Milk_Biscuit" := 35,
    "moms_magic_biscuit" := 35,
    "mtr_bisebelebath_powder" := 155,
    "mtr_hing" := 47,
    "mtr_vangibath_powder" := 80,
    "neosprin" := 132,
    "Nice_biscuit" := 25,
    "oreo_biscuit" := 30,
    "parachute_oil" := 10,
    "pepsodent_complete_care" := 140,
    "Ponds-S_Talcum_Powder" := 380,
    "surf_excel_liquid" := 102,
    "Vaseline" := 50,
    "Vicks_vapour_Rub" := 170,
    "vivel_alovera_soap" := 60,
    "vanish" := 78
  ]

  /** The unit price of a label; a label missing from the table costs 0. */
  function PriceOf(prices: map<string, nat>, tag: string): nat
  {
    if tag in prices then prices[tag] else 0
  }

  predicate Distinct(s: seq<string>)
  {
    forall i, j :: 0 <= i < j < |s| ==> s[i] != s[j]
  }

  /**
   * The distinct labels of a frame, each at the place it is first detected.
   * This is the reference order of the line items.
   */
  function FirstSeen(labels: seq<string>): (r: seq<string>)
    ensures forall x :: x in r <==> x in labels
    ensures Distinct(r)
    decreases |labels|
  {
    if labels == [] then []
    else
      var earlier := labels[..|labels| - 1];
      var last := labels[|labels| - 1];
      assert labels == earlier + [last];
      var seen := FirstSeen(earlier);
      if last in seen then seen else seen + [last]
  }

  /** The position of the first detection of `x`. */
  function FirstIndex(s: seq<string>, x: string): (k: nat)
    requires x in s
    ensures k < |s| && s[k] == x
    ensures forall j :: 0 <= j < k ==> s[j] != x
  {
    if s[0] == x then 0 else 1 + FirstIndex(s[1..], x)
  }

  function Sum(xs: seq<nat>): nat
  {
    if xs == [] then 0 else Sum(xs[..|xs| - 1]) + xs[|xs| - 1]
  }

  function Names(items: seq<LineItem>): (r: seq<string>)
  {
    seq(|items|, i requires 0 <= i < |items| => items[i].name)
  }

  function Quantities(items: seq<LineItem>): (r: seq<nat>)
  {
    seq(|items|, i requires 0 <= i < |items| => items[i].quantity)
  }

  function Amounts(items: seq<LineItem>): (r: seq<nat>)
  {
    seq(|items|, i requires 0 <= i < |items| => items[i].amount)
  }

  /** The unit price of every detection, in detection order. */
  function UnitPrices(labels: seq<string>, prices: map<string, nat>): (r: seq<nat>)
  {
    seq(|labels|, i requires 0 <= i < |labels| => PriceOf(prices, labels[i]))
  }

  /**
   * `items` is the cart built from `labels`: one line per distinct label in
   * first-seen order, whose quantity is the number of detections of that label
   * and whose amount is that quantity times the label's unit price.
   */
  ghost predicate IsAggregation(items: seq<LineItem>, labels: seq<string>, prices: map<string, nat>)
  {
    && Names(items) == FirstSeen(labels)
    && forall i :: 0 <= i < |items| ==>
         && items[i].quantity == multiset(labels)[items[i].name]
         && items[i].amount == items[i].quantity * PriceOf(prices, items[i].name)
  }

  /** The state of the aggregation loop after `labels` have been processed. */
  ghost predicate Built(items: seq<LineItem>, labels: seq<string>, prices: map<string, nat>)
  {
    && IsAggregation(items, labels, prices)
    && Sum(Quantities(items)) == |labels|
    && Sum(Amounts(items)) == Sum(UnitPrices(labels, prices))
  }

  /** The linear search for an existing line item with the given name. */
  method FindItem(items: seq<LineItem>, name: string) returns (found: Option<nat>)
    ensures found.Some? ==> found.value < |items| && items[found.value].name == name
    ensures found.Some? ==> forall j :: 0 <= j < found.value ==> items[j].name != name
    ensures found.None? <==> name !in Names(items)
  {
    var i := 0;
    while i < |items|
      invariant 0 <= i <= |items|
      invariant forall j :: 0 <= j < i ==> items[j].name != name
    {
      if items[i].name == name {
        assert Names(items)[i] == name;
        return Some(i);
      }
      i := i + 1;
    }
    assert forall j :: 0 <= j < |items| ==> Names(items)[j] != name;
    found := None;
  }

  /**
   * Adds one detection to the cart: a label that already has a line bumps
   * that line's quantity by one and its amount by the unit price, in place;
   * a new label appends a line with quantity 1.
   */
  method AddDetection(items: seq<LineItem>, tag: string, prices: map<string, nat>, ghost done: seq<string>)
    returns (updated: seq<LineItem>)
    requires Built(items, done, prices)
    ensures Built(updated, done + [tag], prices)
  {
    var price := PriceOf(prices, tag);
    var found := FindItem(items, tag);
    match found {
      case Some(i) =>
        BumpStep(items, done, prices, tag, i);
        updated := items[i := LineItem(tag, items[i].quantity + 1, items[i].amount + price)];
      case None =>
        AppendStep(items, done, prices, tag);
        updated := items + [LineItem(tag, 1, price)];
    }
  }

  /**
   * Builds the cart of one frame from a fresh empty list: a repeated label
   * bumps its line's quantity and amount in place, a new label appends a line
   * with quantity 1; the total is the sum of the line amounts.
   */
  method Aggregate(labels: seq<string>, prices: map<string, nat>) returns (items: seq<LineItem>, total: nat)
    ensures IsAggregation(items, labels, prices)
    ensures Sum(Quantities(items)) == |labels|
    ensures total == Sum(Amounts(items))
    ensures total == Sum(UnitPrices(labels, prices))
  {
    items := [];
    var k := 0;
    while k < |labels|
      invariant 0 <= k <= |labels|
      invariant Built(items, labels[..k], prices)
    {
      assert labels[..k + 1] == labels[..k] + [labels[k]];
      items := AddDetection(items, labels[k], prices, labels[..k]);
      k := k + 1;
    }
    assert labels[..k] == labels;
    total := Sum(Amounts(items));
  }

  /** Detecting a label that already has a line bumps that line by one unit. */
  lemma BumpStep(items: seq<LineItem>, labels: seq<string>, prices: map<string, nat>, tag: string, i: nat)
    requires Built(items, labels, prices)
    requires i < |items| && items[i].name == tag
    ensures Built(items[i := LineItem(tag, items[i].quantity + 1, items[i].amount + PriceOf(prices, tag))], labels + [tag], prices)
  {
    var price := PriceOf(prices, tag);
    var bumped := items[i := LineItem(tag, items[i].quantity + 1, items[i].amount + price)];
    var next := labels + [tag];
    BumpKeepsAggregation(items, labels, prices, tag, i);
    assert Quantities(bumped) == Quantities(items)[i := items[i].quantity + 1];
    assert Amounts(bumped) == Amounts(items)[i := items[i].amount + price];
    SumUpdate(Quantities(items), i, items[i].quantity + 1);
    SumUpdate(Amounts(items), i, items[i].amount + price);
    assert UnitPrices(next, prices) == UnitPrices(labels, prices) + [price];
    assert UnitPrices(next, prices)[..|labels|] == UnitPrices(labels, prices);
  }

  lemma BumpKeepsAggregation(items: seq<LineItem>, labels: seq<string>, prices: map<string, nat>, tag: string, i: nat)
    requires IsAggregation(items, labels, prices)
    requires i < |items| && items[i].name == tag
    ensures IsAggregation(items[i := LineItem(tag, items[i].quantity + 1, items[i].amount + PriceOf(prices, tag))], labels + [tag], prices)
  {
    var price := PriceOf(prices, tag);
    var bumped := items[i := LineItem(tag, items[i].quantity + 1, items[i].amount + price)];
    var next := labels + [tag];
    assert next[..|labels|] == labels;
    assert Names(items)[i] == tag;
    assert FirstSeen(next) == FirstSeen(labels);
    assert multiset(next) == multiset(labels) + multiset{tag};
    assert Names(bumped) == Names(items);
    forall j | 0 <= j < |bumped|
      ensures bumped[j].quantity == multiset(next)[bumped[j].name]
      ensures bumped[j].amount == bumped[j].quantity * PriceOf(prices, bumped[j].name)
    {
      if j != i {
        assert bumped[j].name == Names(items)[j] != Names(items)[i] == tag;
      } else {
        var q := items[i].quantity;
        assert items[i].amount == q * price;
        assert (q + 1) * price == q * price + price;
      }
    }
  }

  /** Detecting a label without a line appends a line holding one unit. */
  lemma AppendStep(items: seq<LineItem>, labels: seq<string>, prices: map<string, nat>, tag: string)
    requires Built(items, labels, prices)
    requires tag !in Names(items)
    ensures Built(items + [LineItem(tag, 1, PriceOf(prices, tag))], labels + [tag], prices)
  {
    var price := PriceOf(prices, tag);
    var appended := items + [LineItem(tag, 1, price)];
    var next := labels + [tag];
    assert next[..|labels|] == labels;
    assert FirstSeen(next) == FirstSeen(labels) + [tag];
    assert multiset(next) == multiset(labels) + multiset{tag};
    assert tag !in labels;
    assert Names(appended) == Names(items) + [tag];
    forall j | 0 <= j < |items|
      ensures appended[j].name != tag
    {
      assert appended[j].name == Names(items)[j];
    }
    assert Quantities(appended) == Quantities(items) + [1];
    assert Amounts(appended) == Amounts(items) + [price];
    assert Quantities(appended)[..|items|] == Quantities(items);
    assert Amounts(appended)[..|items|] == Amounts(items);
    assert UnitPrices(next, prices) == UnitPrices(labels, prices) + [price];
    assert UnitPrices(next, prices)[..|labels|] == UnitPrices(labels, prices);
  }

  /** Changing one entry changes the sum by exactly the difference. */
  lemma {:induction false} SumUpdate(xs: seq<nat>, i: nat, v: nat)
    requires i < |xs|
    ensures Sum(xs[i := v]) == Sum(xs) - xs[i] + v
  {
    var n := |xs|;
    if i == n - 1 {
      assert xs[i := v][..n - 1] == xs[..n - 1];
    } else {
      assert xs[i := v][..n - 1] == xs[..n - 1][i := v];
      SumUpdate(xs[..n - 1], i, v);
    }
  }

  lemma {:induction false} FirstIndexAppend(s: seq<string>, x: string, y: string)
    requires y in s
    ensures FirstIndex(s + [x], y) == FirstIndex(s, y)
  {
    var k := FirstIndex(s, y);
    var k' := FirstIndex(s + [x], y);
    assert (s + [x])[k] == y;
    assert k' <= k;
    assert s[k'] == (s + [x])[k'];
  }

  /**
   * Line items come in first-detection order: for two line items, the first
   * one's label was detected before the second one's was.
   */
  lemma {:induction false} FirstSeenOrder(labels: seq<string>)
    ensures forall i, j :: 0 <= i < j < |FirstSeen(labels)| ==>
              FirstIndex(labels, FirstSeen(labels)[i]) < FirstIndex(labels, FirstSeen(labels)[j])
  {
    if labels != [] {
      var earlier := labels[..|labels| - 1];
      var last := labels[|labels| - 1];
      assert labels == earlier + [last];
      FirstSeenOrder(earlier);
      var seen := FirstSeen(earlier);
      forall y | y in seen
        ensures FirstIndex(labels, y) == FirstIndex(earlier, y) < |earlier|
      {
        FirstIndexAppend(earlier, last, y);
      }
      if last !in seen {
        var k := FirstIndex(labels, last);
        assert forall j :: 0 <= j < |earlier| ==> labels[j] == earlier[j];
        assert k == |earlier|;
      }
    }
  }

  /** The cart of a frame is determined by the frame alone. */
  lemma AggregationUnique(a: seq<LineItem>, b: seq<LineItem>, labels: seq<string>, prices: map<string, nat>)
    requires IsAggregation(a, labels, prices) && IsAggregation(b, labels, prices)
    ensures a == b
  {
    assert |a| == |Names(a)| == |Names(b)| == |b|;
    forall i | 0 <= i < |a|
      ensures a[i] == b[i]
    {
      assert a[i].name == Names(a)[i] == Names(b)[i] == b[i].name;
    }
  }

  /** Every detected label has exactly one line item, and every line item was detected. */
  lemma AggregationCoversLabels(items: seq<LineItem>, labels: seq<string>, prices: map<string, nat>, x: string)
    requires IsAggregation(items, labels, prices)
    ensures x in labels <==> exists i :: 0 <= i < |items| && items[i].name == x
    ensures forall i, j :: 0 <= i < j < |items| ==> items[i].name != items[j].name
  {
    if x in labels {
      assert x in Names(items);
      var i :| 0 <= i < |items| && Names(items)[i] == x;
      assert items[i].name == x;
    }
    forall i | 0 <= i < |items|
      ensures items[i].name in labels
    {
      assert items[i].name == Names(items)[i];
    }
    forall i, j | 0 <= i < j < |items|
      ensures items[i].name != items[j].name
    {
      assert Names(items)[i] == items[i].name && Names(items)[j] == items[j].name;
    }
  }

  /** Every line item holds at least one detection. */
  lemma QuantitiesPositive(items: seq<LineItem>, labels: seq<string>, prices: map<string, nat>)
    requires IsAggregation(items, labels, prices)
    ensures forall i :: 0 <= i < |items| ==> items[i].quantity >= 1
  {
    forall i | 0 <= i < |items|
      ensures items[i].quantity >= 1
    {
      assert items[i].name == Names(items)[i];
      assert items[i].name in FirstSeen(labels);
    }
  }

  /**
   * A label missing from the price table still yields a line item, with
   * amount 0, and raises no error.
   */
  lemma UnknownLabelPricedZero(items: seq<LineItem>, labels: seq<string>, prices: map<string, nat>, x: string)
    requires IsAggregation(items, labels, prices)
    requires x in labels && x !in prices
    ensures exists i :: 0 <= i < |items| && items[i].name == x && items[i].amount == 0
  {
  }

  /**
   * Every entry of the shop's table is priced above zero, so with that table
   * a line's amount is 0 exactly when its label is not in the table.
   */
  lemma ZeroAmountIffUnknown(items: seq<LineItem>, labels: seq<string>)
    requires IsAggregation(items, labels, PRICES)
    ensures forall i :: 0 <= i < |items| ==> (items[i].amount == 0 <==> items[i].name !in PRICES)
  {
    QuantitiesPositive(items, labels, PRICES);
    CatalogPricesPositive();
  }

  /** Every entry of the shop's table has a positive price. */
  lemma CatalogPricesPositive()
    ensures forall x :: x in PRICES ==> PRICES[x] > 0
  {
  }

  /** An empty frame gives an empty cart with total 0. */
  lemma EmptyFrame(items: seq<LineItem>, prices: map<string, nat>)
    ensures IsAggregation(items, [], prices) <==> items == []
    ensures Sum(Amounts([])) == 0
  {
  }

  /**
   * The price lookup of one detection: with the shop's table a label is
   * priced 0 exactly when it is missing from the table, and otherwise at its
   * table entry.
   */
  lemma CatalogLookup(tag: string)
    ensures PriceOf(PRICES, tag) == 0 <==> tag !in PRICES
    ensures tag in PRICES ==> PriceOf(PRICES, tag) == PRICES[tag]
  {
  }

  /** Aggregating [A, A, B] with prices {A: 10, B: 5} gives A x2 = 20 and B x1 = 5, total 25. */
  lemma RepeatedLabelExample(items: seq<LineItem>)
    ensures IsAggregation(items, ["A", "A", "B"], map["A" := 10, "B" := 5])
            <==> items == [LineItem("A", 2, 20), LineItem("B", 1, 5)]
    ensures Sum(Amounts([LineItem("A", 2, 20), LineItem("B", 1, 5)])) == 25
  {
    var labels := ["A", "A", "B"];
    var prices := map["A" := 10, "B" := 5];
    var expected := [LineItem("A", 2, 20), LineItem("B", 1, 5)];
    RepeatedLabelFirstSeen();
    assert multiset(labels) == multiset{"A", "A", "B"};
    assert Names(expected) == ["A", "B"];
    assert IsAggregation(expected, labels, prices);
    if IsAggregation(items, labels, prices) {
      AggregationUnique(items, expected, labels, prices);
    }
    assert Amounts(expected) == [20, 5];
    assert Amounts(expected)[..1] == [20] && [20][..0] == [];
  }

  lemma RepeatedLabelFirstSeen()
    ensures FirstSeen(["A", "A", "B"]) == ["A", "B"]
  {
    var labels := ["A", "A", "B"];
    assert labels[..2] == ["A", "A"] && labels[..2][..1] == ["A"] && ["A"][..0] == [];
    assert FirstSeen(["A"]) == ["A"];
    assert FirstSeen(["A", "A"]) == ["A"];
  }

  /** Aggregating [B, A, B] lists B before A. */
  lemma FirstSeenOrderExample()
    ensures FirstSeen(["B", "A", "B"]) == ["B", "A"]
  {
    var labels := ["B", "A", "B"];
    assert labels[..2] == ["B", "A"] && labels[..2][..1] == ["B"] && ["B"][..0] == [];
    assert FirstSeen(["B"]) == ["B"];
    assert FirstSeen(["B", "A"]) == ["B", "A"];
  }
}
