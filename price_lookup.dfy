/** The price lookup of the verdict page: `getPrice` finds the first cost
    record whose item name contains a label fragment, ignoring case, and
    reads its cost as a number, with 0 for a missing record or a cost that
    does not read as a number. */
module PriceLookup {
  import opened Wrappers
  import opened Text
  import opened Numbers

  /** One row of a city's cost table: an item label and its cost text. */
  datatype CostRecord = CostRecord(item: string, cost: string)

  /** `c.item.toLowerCase().includes(namePart.toLowerCase())`. */
  predicate Matches(rec: CostRecord, fragment: string)
  {
    Includes(Lower(rec.item), Lower(fragment))
  }

  /** `costs.find(...)`, as the index of the record it returns. */
  function FindFirst(costs: seq<CostRecord>, fragment: string): (r: Option<nat>)
    ensures r.Some? ==> r.value < |costs|
  {
    if costs == [] then None
    else if Matches(costs[0], fragment) then Some(0)
    else match FindFirst(costs[1..], fragment)
      case None => None
      case Some(i) => Some(i + 1)
  }

  /** `find` returns the first matching record, and nothing only when no
      record matches. */
  lemma {:induction false} FindFirstIsFirst(costs: seq<CostRecord>, fragment: string)
    ensures var r := FindFirst(costs, fragment);
      && (r.Some? ==> Matches(costs[r.value], fragment))
      && (r.Some? ==> forall j :: 0 <= j < r.value ==> !Matches(costs[j], fragment))
      && (r.None? ==> forall j :: 0 <= j < |costs| ==> !Matches(costs[j], fragment))
  {
    if costs != [] && !Matches(costs[0], fragment) {
      FindFirstIsFirst(costs[1..], fragment);
      var r := FindFirst(costs, fragment);
      if r.Some? {
        assert forall j :: 1 <= j < r.value ==> costs[j] == costs[1..][j - 1];
      } else {
        assert forall j :: 1 <= j < |costs| ==> costs[j] == costs[1..][j - 1];
      }
    }
  }

  /** The characters `/[^0-9.]/g` does not remove. */
  const PriceChars: set<char> := {'0', '1', '2', '3', '4', '5', '6', '7', '8', '9', '.'}

  /** Cleaning leaves only digits and points. */
  lemma CleanIsNumeral(cost: string)
    ensures IsNumeral(Retain(cost, PriceChars))
  {
    var r := Retain(cost, PriceChars);
    assert forall i :: 0 <= i < |r| ==> r[i] in PriceChars;
  }

  /** `parseFloat(cost.replace(/[^0-9.]/g, '')) || 0`: never negative, 0
      when the cleaned text is NaN, the number it reads otherwise. */
  function CostValue(cost: string): (v: real)
    ensures v >= 0.0
  {
    CleanIsNumeral(cost);
    match ParseFloat(Retain(cost, PriceChars))
    case None => 0.0
    case Some(x) => x
  }

  /** An empty cost reads as 0. */
  lemma EmptyCostIsZero()
    ensures CostValue("") == 0.0
  {
    assert Retain("", PriceChars) == "";
    assert LeadingDigits("") == "";
  }

  /** `getPrice(namePart)` over the records `costs`: the `find` walks the
      records in order and the first match supplies the cost. */
  function GetPrice(costs: seq<CostRecord>, fragment: string): (price: real)
    ensures price >= 0.0
  {
    if costs == [] then 0.0
    else if Matches(costs[0], fragment) then CostValue(costs[0].cost)
    else GetPrice(costs[1..], fragment)
  }

  /** The price is the cost of the record `find` returns, and 0 when it
      returns nothing. */
  lemma {:induction false} GetPriceIsFind(costs: seq<CostRecord>, fragment: string)
    ensures GetPrice(costs, fragment)
         == match FindFirst(costs, fragment)
            case None => 0.0
            case Some(i) => CostValue(costs[i].cost)
  {
    if costs != [] && !Matches(costs[0], fragment) {
      GetPriceIsFind(costs[1..], fragment);
    }
  }

  /** The first matching record decides the price, whatever comes after it. */
  lemma GetPriceFirstMatch(costs: seq<CostRecord>, fragment: string, i: nat)
    requires i < |costs| && Matches(costs[i], fragment)
    requires forall j :: 0 <= j < i ==> !Matches(costs[j], fragment)
    ensures GetPrice(costs, fragment) == CostValue(costs[i].cost)
  {
    FindFirstIsFirst(costs, fragment);
    GetPriceIsFind(costs, fragment);
    var r := FindFirst(costs, fragment);
    assert r.Some? && r.value == i;
  }

  /** Records after a match are never consulted: appending records to a
      table that already has a match leaves the price unchanged. */
  lemma {:induction false} GetPriceIgnoresLater(costs: seq<CostRecord>, more: seq<CostRecord>, fragment: string)
    requires exists i :: 0 <= i < |costs| && Matches(costs[i], fragment)
    ensures GetPrice(costs + more, fragment) == GetPrice(costs, fragment)
  {
    var all := costs + more;
    assert all[0] == costs[0];
    if !Matches(costs[0], fragment) {
      var i :| 0 <= i < |costs| && Matches(costs[i], fragment);
      assert costs[1..][i - 1] == costs[i];
      assert all[1..] == costs[1..] + more;
      GetPriceIgnoresLater(costs[1..], more, fragment);
    }
  }

  /** With no matching record the price is 0. */
  lemma GetPriceMiss(costs: seq<CostRecord>, fragment: string)
    requires forall j :: 0 <= j < |costs| ==> !Matches(costs[j], fragment)
    ensures GetPrice(costs, fragment) == 0.0
  {
    FindFirstIsFirst(costs, fragment);
    GetPriceIsFind(costs, fragment);
  }

  /** The case of the fragment does not matter. */
  lemma GetPriceIgnoresCase(costs: seq<CostRecord>, fragment: string)
    ensures GetPrice(costs, fragment) == GetPrice(costs, Lower(fragment))
  {
    LowerIdempotent(fragment);
    assert forall rec :: Matches(rec, fragment) == Matches(rec, Lower(fragment));
    FindFirstSameMatches(costs, fragment, Lower(fragment));
    GetPriceIsFind(costs, fragment);
    GetPriceIsFind(costs, Lower(fragment));
  }

  /** Two fragments that match the same records find the same record. */
  lemma {:induction false} FindFirstSameMatches(costs: seq<CostRecord>, f: string, g: string)
    requires forall j :: 0 <= j < |costs| ==> Matches(costs[j], f) == Matches(costs[j], g)
    ensures FindFirst(costs, f) == FindFirst(costs, g)
  {
    if costs != [] {
      FindFirstSameMatches(costs[1..], f, g);
    }
  }

  /** A cost shown with a currency sign and a thousands separator reads as
      its amount: `"$1,234.56"` is 1234.56. */
  lemma CostValueOfDollars()
    ensures CostValue("$1,234.56") == 1234.56
  {
    CleanDollars();
    ParseAmount();
  }

  lemma CleanDollars()
    ensures Retain("$1,234.56", PriceChars) == "1234.56"
  {
    assert "$1,234.56" == "$1," + "234.56";
    RetainAppend("$1,", "234.56", PriceChars);
    RetainFixed("234.56", PriceChars);
    assert Retain("$1,", PriceChars) == "1" by {
      assert "$1,"[1..] == "1,";
      assert "1,"[1..] == ",";
    }
    assert "1" + "234.56" == "1234.56";
  }

  lemma ParseAmount()
    ensures IsNumeral("1234.56") && ParseFloat("1234.56") == Some(1234.56)
  {
    NaturalOf1234();
    FractionOf56();
    ParseFloatPrefix("1234", "56", "");
    assert "1234" + "." + "56" + "" == "1234.56";
  }

  lemma NaturalOf1234()
    ensures AllDigits("1234") && Natural("1234") == 1234
  {
    assert "1234"[..3] == "123";
    assert "123"[..2] == "12";
    assert "12"[..1] == "1";
    assert "1"[..0] == "";
  }

  lemma FractionOf56()
    ensures AllDigits("56") && Fraction("56") == 0.56
  {
    assert "56"[1..] == "6";
    assert "6"[1..] == "";
  }
}
