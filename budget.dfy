/** The budget verdict of the page: the prices of a fixed monthly basket are
    looked up in a city's cost table and summed into housing, food and
    transport costs; the salary minus their total is the surplus or deficit,
    and an ordered list of suggestions, each good, neutral or bad, is
    derived from it. */
module Budget {
  import opened PriceLookup

  // ---------------------------------------------------------------------------
  // The label fragments looked up, as the page spells them
  // ---------------------------------------------------------------------------

  const RentCentreLabel := "Apartment (1 bedroom) in City Centre"
  const UtilitiesLabel := "Basic (Electricity, Heating, Cooling, Water, Garbage)"
  const InternetLabel := "Internet (60 Mbps or More, Unlimited Data, Cable/ADSL)"
  const PassLabel := "Monthly Pass"
  const MilkLabel := "Milk (regular), (1 liter)"
  const BreadLabel := "Loaf of Fresh White Bread (500g)"
  const RiceLabel := "Rice (white), (1kg)"
  const EggsLabel := "Eggs (regular) (12)"
  const CheeseLabel := "Local Cheese (1kg)"
  const ChickenLabel := "Chicken Fillets (1kg)"
  const BeefLabel := "Beef Round (1kg)"
  const ApplesLabel := "Apples"
  const BananaLabel := "Banana"
  const OrangesLabel := "Oranges"
  const TomatoLabel := "Tomato"
  const PotatoLabel := "Potato"
  const OnionLabel := "Onion"
  const MealLabel := "Meal, Inexpensive Restaurant"
  const RentOutsideLabel := "Apartment (1 bedroom) Outside of Centre"

  // ---------------------------------------------------------------------------
  // The basket and its categories
  // ---------------------------------------------------------------------------

  /** The unit prices looked up for one city, one per label above. */
  datatype Basket = Basket(
    rent: real, utilities: real, internet: real, pass: real,
    milk: real, bread: real, rice: real, eggs: real, cheese: real,
    chicken: real, beef: real, apples: real, banana: real, oranges: real,
    tomato: real, potato: real, onion: real, meal: real, rentOutside: real)

  predicate NonNegative(b: Basket)
  {
    && b.rent >= 0.0 && b.utilities >= 0.0 && b.internet >= 0.0 && b.pass >= 0.0
    && b.milk >= 0.0 && b.bread >= 0.0 && b.rice >= 0.0 && b.eggs >= 0.0
    && b.cheese >= 0.0 && b.chicken >= 0.0 && b.beef >= 0.0 && b.apples >= 0.0
    && b.banana >= 0.0 && b.oranges >= 0.0 && b.tomato >= 0.0 && b.potato >= 0.0
    && b.onion >= 0.0 && b.meal >= 0.0 && b.rentOutside >= 0.0
  }

  /** Every price of the basket looked up in `costs`; none is negative. */
  function Lookups(costs: seq<CostRecord>): (b: Basket)
    ensures NonNegative(b)
  {
    Basket(
      GetPrice(costs, RentCentreLabel), GetPrice(costs, UtilitiesLabel),
      GetPrice(costs, InternetLabel), GetPrice(costs, PassLabel),
      GetPrice(costs, MilkLabel), GetPrice(costs, BreadLabel),
      GetPrice(costs, RiceLabel), GetPrice(costs, EggsLabel),
      GetPrice(costs, CheeseLabel), GetPrice(costs, ChickenLabel),
      GetPrice(costs, BeefLabel), GetPrice(costs, ApplesLabel),
      GetPrice(costs, BananaLabel), GetPrice(costs, OrangesLabel),
      GetPrice(costs, TomatoLabel), GetPrice(costs, PotatoLabel),
      GetPrice(costs, OnionLabel), GetPrice(costs, MealLabel),
      GetPrice(costs, RentOutsideLabel))
  }

  /** Rent in the centre, utilities and internet. */
  function Housing(b: Basket): real
  {
    b.rent + b.utilities + b.internet
  }

  function Transport(b: Basket): real
  {
    b.pass
  }

  /** Four inexpensive restaurant meals a month. */
  function DiningOut(b: Basket): real
  {
    b.meal * 4.0
  }

  /** A one-person monthly grocery basket plus dining out. */
  function Food(b: Basket): real
  {
    b.milk * 4.0 + b.bread * 2.0 + b.rice * 1.0 + b.eggs * 1.0 + b.cheese * 0.5
    + b.chicken * 2.0 + b.beef * 0.5 + (b.apples + b.banana + b.oranges) * 1.0
    + (b.tomato + b.potato + b.onion) * 1.0 + DiningOut(b)
  }

  /** What renting outside the centre would save; negative when outside is
      dearer. */
  function RentSavings(b: Basket): real
  {
    b.rent - b.rentOutside
  }

  /** The monthly category costs, with the two figures the deficit advice
      needs besides them. */
  datatype Categories = Categories(
    housing: real, food: real, transport: real, diningOut: real, rentSavings: real)

  function CategoriesOf(b: Basket): Categories
  {
    Categories(Housing(b), Food(b), Transport(b), DiningOut(b), RentSavings(b))
  }

  function Total(c: Categories): real
  {
    c.housing + c.food + c.transport
  }

  /** Prices that are never negative give categories that are never
      negative; dining out is part of food and the total covers each
      category. Only the rent saving can be negative. */
  lemma CategoriesNonNegative(b: Basket)
    requires NonNegative(b)
    ensures var c := CategoriesOf(b);
      && c.housing >= 0.0 && c.transport >= 0.0 && c.food >= c.diningOut >= 0.0
      && Total(c) >= c.housing && Total(c) >= c.food && Total(c) >= c.transport
  {
  }

  /** `part` as a percentage of the salary. */
  function Ratio(part: real, salary: real): real
    requires salary > 0.0
  {
    (part / salary) * 100.0
  }

  /** A share of the salary is above 30% exactly when ten times the part
      exceeds three times the salary. */
  lemma {:induction false} RatioAbove30(part: real, salary: real)
    requires salary > 0.0
    ensures Ratio(part, salary) > 30.0 <==> part * 10.0 > salary * 3.0
  {
    var q := part / salary;
    assert part == q * salary;
    if q * 100.0 > 30.0 {
      assert q > 0.3;
      assert q * salary > 0.3 * salary;
    } else {
      assert q <= 0.3;
      assert q * salary <= 0.3 * salary;
    }
  }

  // ---------------------------------------------------------------------------
  // Suggestions and the verdict
  // ---------------------------------------------------------------------------

  datatype Severity = Good | Neutral | Bad

  /** Which advice a suggestion gives; its text is left to the page. */
  datatype Kind =
    | Savings       // share of the salary left over
    | HousingShare  // housing as a share of the salary
    | Deficit       // the monthly shortfall
    | MoveOut       // rent outside the centre
    | CookMore      // stop dining out
    | WalkBike      // drop the monthly pass
    | SurvivalMode  // all three levers together close the gap
    | Critical      // all three levers together do not close the gap
    | FoodShare     // food as a share of the salary

  /** A suggestion: its kind, its severity and the figure it shows. */
  datatype Suggestion = Suggestion(kind: Kind, severity: Severity, figure: real)

  datatype Summary = Sustainable | InDeficit

  datatype Verdict = Verdict(
    housing: real, food: real, transport: real, total: real, diff: real,
    summary: Summary, suggestions: seq<Suggestion>)

  function Abs(x: real): real { if x < 0.0 then -x else x }

  // The rules, each giving at most one suggestion, in the order they fire.

  function SavingsRule(salary: real, diff: real): Suggestion
    requires salary > 0.0
  {
    Suggestion(Savings, Good, Ratio(diff, salary))
  }

  function HousingRule(salary: real, c: Categories): Suggestion
    requires salary > 0.0
  {
    var share := Ratio(c.housing, salary);
    Suggestion(HousingShare, if share > 30.0 then Neutral else Good, share)
  }

  function DeficitRule(diff: real): Suggestion
  {
    Suggestion(Deficit, Bad, Abs(diff))
  }

  function MoveOutRule(diff: real, c: Categories): seq<Suggestion>
  {
    if c.rentSavings > 0.0 then
      [Suggestion(MoveOut, if diff + c.rentSavings > 0.0 then Good else Neutral, c.rentSavings)]
    else []
  }

  function CookRule(diff: real, c: Categories): seq<Suggestion>
  {
    if c.diningOut > 0.0 then
      [Suggestion(CookMore, if diff + c.diningOut > 0.0 then Good else Neutral, c.diningOut)]
    else []
  }

  function WalkRule(c: Categories): seq<Suggestion>
  {
    if c.transport > 0.0 then [Suggestion(WalkBike, Neutral, c.transport)] else []
  }

  /** What is left with every lever pulled; a negative rent saving counts too. */
  function SurvivalDiff(diff: real, c: Categories): real
  {
    diff + c.rentSavings + c.diningOut + c.transport
  }

  function SurvivalRule(diff: real, c: Categories): Suggestion
  {
    var left := SurvivalDiff(diff, c);
    if left > 0.0 then Suggestion(SurvivalMode, Good, left)
    else Suggestion(Critical, Bad, Abs(left))
  }

  function FoodRule(salary: real, c: Categories): seq<Suggestion>
    requires salary > 0.0
  {
    var share := Ratio(c.food, salary);
    if share > 30.0 then [Suggestion(FoodShare, Neutral, share)] else []
  }

  function SurplusAdvice(salary: real, c: Categories): seq<Suggestion>
    requires salary > 0.0
  {
    [SavingsRule(salary, salary - Total(c)), HousingRule(salary, c)]
  }

  function DeficitAdvice(diff: real, c: Categories): seq<Suggestion>
  {
    [DeficitRule(diff)] + MoveOutRule(diff, c) + CookRule(diff, c) + WalkRule(c)
    + [SurvivalRule(diff, c)]
  }

  /** The suggestions, as a fixed pipeline of rules: the surplus rules or the
      deficit rules, then the food rule. */
  function Suggestions(salary: real, c: Categories): seq<Suggestion>
    requires salary > 0.0
  {
    var diff := salary - Total(c);
    (if diff >= 0.0 then SurplusAdvice(salary, c) else DeficitAdvice(diff, c))
    + FoodRule(salary, c)
  }

  /** The verdict for a salary and the category costs. */
  function Advise(salary: real, c: Categories): Verdict
    requires salary > 0.0
  {
    var diff := salary - Total(c);
    Verdict(c.housing, c.food, c.transport, Total(c), diff,
            if diff < 0.0 then InDeficit else Sustainable, Suggestions(salary, c))
  }

  /** The verdict for a salary and a city's cost table. */
  function Evaluate(costs: seq<CostRecord>, salary: real): Verdict
    requires salary > 0.0
  {
    Advise(salary, CategoriesOf(Lookups(costs)))
  }

  // ---------------------------------------------------------------------------
  // What the verdict promises
  // ---------------------------------------------------------------------------

  /** Where a kind stands in the emission order: deficit advice follows the
      order deficit, move out, cook, walk, survival check; the food share
      always comes last. */
  function Rank(k: Kind): nat
  {
    match k
    case Savings => 0
    case HousingShare => 1
    case Deficit => 2
    case MoveOut => 3
    case CookMore => 4
    case WalkBike => 5
    case SurvivalMode => 6
    case Critical => 6
    case FoodShare => 7
  }

  /** Each suggestion comes strictly after those of lower rank, so no kind
      appears twice and the order never changes. */
  predicate InPriorityOrder(s: seq<Suggestion>)
  {
    forall i, j :: 0 <= i < j < |s| ==> Rank(s[i].kind) < Rank(s[j].kind)
  }

  predicate Has(s: seq<Suggestion>, k: Kind)
  {
    exists i :: 0 <= i < |s| && s[i].kind == k
  }

  lemma HasConcat(a: seq<Suggestion>, b: seq<Suggestion>, k: Kind)
    ensures Has(a + b, k) <==> Has(a, k) || Has(b, k)
  {
    if Has(a + b, k) {
      var i :| 0 <= i < |a + b| && (a + b)[i].kind == k;
      if i >= |a| {
        assert b[i - |a|].kind == k;
      }
    }
    if Has(b, k) {
      var i :| 0 <= i < |b| && b[i].kind == k;
      assert (a + b)[i + |a|].kind == k;
    }
    if Has(a, k) {
      var i :| 0 <= i < |a| && a[i].kind == k;
      assert (a + b)[i].kind == k;
    }
  }

  lemma HasIn(a: seq<Suggestion>, b: seq<Suggestion>, c: seq<Suggestion>, d: seq<Suggestion>,
              e: seq<Suggestion>, f: seq<Suggestion>, k: Kind)
    ensures Has(a + b + c + d + e + f, k)
        <==> Has(a, k) || Has(b, k) || Has(c, k) || Has(d, k) || Has(e, k) || Has(f, k)
  {
    HasConcat(a, b, k);
    HasConcat(a + b, c, k);
    HasConcat(a + b + c, d, k);
    HasConcat(a + b + c + d, e, k);
    HasConcat(a + b + c + d + e, f, k);
  }

  /** Two ordered runs, the first ranked below `r` and the second at or
      above it, make an ordered run. */
  lemma OrderConcat(a: seq<Suggestion>, b: seq<Suggestion>, r: nat)
    requires InPriorityOrder(a) && InPriorityOrder(b)
    requires forall i :: 0 <= i < |a| ==> Rank(a[i].kind) < r
    requires forall j :: 0 <= j < |b| ==> Rank(b[j].kind) >= r
    ensures InPriorityOrder(a + b)
  {
    var s := a + b;
    forall i, j | 0 <= i < j < |s| ensures Rank(s[i].kind) < Rank(s[j].kind) {
      if j < |a| {
        assert s[i] == a[i] && s[j] == a[j];
      } else if i >= |a| {
        assert s[i] == b[i - |a|] && s[j] == b[j - |a|];
      } else {
        assert s[i] == a[i] && s[j] == b[j - |a|];
      }
    }
  }

  /** The figures of the verdict: the total is the sum of the categories,
      `diff` is the salary minus the total, and the summary reports a
      deficit exactly when `diff` is negative. */
  lemma VerdictSummary(salary: real, c: Categories)
    requires salary > 0.0
    ensures var v := Advise(salary, c);
      && v.total == v.housing + v.food + v.transport
      && v.diff == salary - v.total
      && (v.summary == InDeficit <==> v.diff < 0.0)
  {
  }

  /** With a surplus the advice is the savings share, as a good suggestion,
      then the housing share, neutral exactly when housing takes more than
      30% of the salary; nothing else comes before the food share. */
  lemma SurplusVerdict(salary: real, c: Categories)
    requires salary > 0.0 && salary - Total(c) >= 0.0
    ensures var s := Advise(salary, c).suggestions;
      && 2 <= |s| <= 3
      && s[0] == Suggestion(Savings, Good, Ratio(salary - Total(c), salary))
      && s[1].kind == HousingShare && s[1].figure == Ratio(c.housing, salary)
      && (s[1].severity == Neutral <==> Ratio(c.housing, salary) > 30.0)
      && (s[1].severity == Good <==> Ratio(c.housing, salary) <= 30.0)
      && (|s| == 3 ==> s[2].kind == FoodShare)
  {
  }

  /** The severity the deficit advice gives each kind of suggestion. */
  predicate DeficitSeverity(sg: Suggestion, diff: real, c: Categories)
  {
    match sg.kind
    case Deficit => sg.severity == Bad
    case MoveOut => sg.severity == (if diff + c.rentSavings > 0.0 then Good else Neutral)
    case CookMore => sg.severity == (if diff + c.diningOut > 0.0 then Good else Neutral)
    case WalkBike => sg.severity == Neutral
    case SurvivalMode => sg.severity == Good
    case Critical => sg.severity == Bad
    case FoodShare => sg.severity == Neutral
    case Savings => false
    case HousingShare => false
  }

  /** The deficit advice in its fixed order: the deficit itself, bad; the
      move-out advice only when renting outside saves money, good exactly
      when that saving alone ends the deficit; the cooking advice only when
      there is dining out, good exactly when cutting it ends the deficit;
      the walking advice, always neutral, only when there is a pass; and
      last exactly one survival check, good when all three levers together
      leave money over and bad otherwise. No surplus advice appears. */
  lemma DeficitVerdict(salary: real, c: Categories)
    requires salary > 0.0 && salary - Total(c) < 0.0
    ensures var s := Advise(salary, c).suggestions; var diff := salary - Total(c);
      && s[0] == Suggestion(Deficit, Bad, -diff)
      && InPriorityOrder(s)
      && (Has(s, MoveOut) <==> c.rentSavings > 0.0)
      && (Has(s, CookMore) <==> c.diningOut > 0.0)
      && (Has(s, WalkBike) <==> c.transport > 0.0)
      && (Has(s, SurvivalMode) <==> SurvivalDiff(diff, c) > 0.0)
      && (Has(s, Critical) <==> SurvivalDiff(diff, c) <= 0.0)
      && (forall i :: 0 <= i < |s| ==> DeficitSeverity(s[i], diff, c))
  {
    var diff := salary - Total(c);
    var s := Advise(salary, c).suggestions;
    assert s == DeficitAdvice(diff, c) + FoodRule(salary, c);
    DeficitOrder(salary, c);
    DeficitPresence(salary, c);
    DeficitSeverities(salary, c);
  }

  lemma DeficitOrder(salary: real, c: Categories)
    requires salary > 0.0
    ensures InPriorityOrder(DeficitAdvice(salary - Total(c), c) + FoodRule(salary, c))
  {
    var diff := salary - Total(c);
    var m, k, w := MoveOutRule(diff, c), CookRule(diff, c), WalkRule(c);
    var d, last := [DeficitRule(diff)], [SurvivalRule(diff, c)];
    OrderConcat(d, m, 3);
    OrderConcat(d + m, k, 4);
    OrderConcat(d + m + k, w, 5);
    OrderConcat(d + m + k + w, last, 6);
    OrderConcat(d + m + k + w + last, FoodRule(salary, c), 7);
  }

  lemma DeficitPresence(salary: real, c: Categories)
    requires salary > 0.0
    ensures var s := DeficitAdvice(salary - Total(c), c) + FoodRule(salary, c);
      var diff := salary - Total(c);
      && (Has(s, MoveOut) <==> c.rentSavings > 0.0)
      && (Has(s, CookMore) <==> c.diningOut > 0.0)
      && (Has(s, WalkBike) <==> c.transport > 0.0)
      && (Has(s, SurvivalMode) <==> SurvivalDiff(diff, c) > 0.0)
      && (Has(s, Critical) <==> SurvivalDiff(diff, c) <= 0.0)
  {
    var diff := salary - Total(c);
    var m, k, w := MoveOutRule(diff, c), CookRule(diff, c), WalkRule(c);
    var d, last, food := [DeficitRule(diff)], [SurvivalRule(diff, c)], FoodRule(salary, c);
    HasIn(d, m, k, w, last, food, MoveOut);
    HasIn(d, m, k, w, last, food, CookMore);
    HasIn(d, m, k, w, last, food, WalkBike);
    HasIn(d, m, k, w, last, food, SurvivalMode);
    HasIn(d, m, k, w, last, food, Critical);
    assert last[0].kind == SurvivalRule(diff, c).kind;
    if c.rentSavings > 0.0 { assert m[0].kind == MoveOut; }
    if c.diningOut > 0.0 { assert k[0].kind == CookMore; }
    if c.transport > 0.0 { assert w[0].kind == WalkBike; }
  }

  lemma DeficitSeverities(salary: real, c: Categories)
    requires salary > 0.0
    ensures var s := DeficitAdvice(salary - Total(c), c) + FoodRule(salary, c);
      forall i :: 0 <= i < |s| ==> DeficitSeverity(s[i], salary - Total(c), c)
  {
    var diff := salary - Total(c);
    var s := DeficitAdvice(diff, c) + FoodRule(salary, c);
    forall i | 0 <= i < |s| ensures DeficitSeverity(s[i], diff, c) {
      assert s[i] in s;
    }
  }

  /** The food share is appended, neutral and last, exactly when food takes
      more than 30% of the salary, in surplus and deficit alike. */
  lemma FoodVerdict(salary: real, c: Categories)
    requires salary > 0.0
    ensures var s := Advise(salary, c).suggestions;
      && (Has(s, FoodShare) <==> c.food * 10.0 > salary * 3.0)
      && (Has(s, FoodShare) ==> s[|s| - 1] == Suggestion(FoodShare, Neutral, Ratio(c.food, salary)))
  {
    var diff := salary - Total(c);
    var branch := if diff >= 0.0 then SurplusAdvice(salary, c) else DeficitAdvice(diff, c);
    var s := Advise(salary, c).suggestions;
    assert s == branch + FoodRule(salary, c);
    HasConcat(branch, FoodRule(salary, c), FoodShare);
    assert !Has(branch, FoodShare);
    RatioAbove30(c.food, salary);
    if c.food * 10.0 > salary * 3.0 {
      assert s[|s| - 1] == FoodRule(salary, c)[0];
    }
  }

  /** With no food cost at all, as when no grocery or restaurant item is
      found, the food share never appears, whatever the salary. */
  lemma NoFoodNoFoodShare(salary: real, c: Categories)
    requires salary > 0.0 && c.food == 0.0
    ensures !Has(Advise(salary, c).suggestions, FoodShare)
  {
    FoodVerdict(salary, c);
  }

  /** Every amount derived from a cost table is non-negative. */
  lemma EvaluateNonNegative(costs: seq<CostRecord>, salary: real)
    requires salary > 0.0
    ensures var v := Evaluate(costs, salary);
      v.housing >= 0.0 && v.food >= 0.0 && v.transport >= 0.0 && v.total >= 0.0
  {
    CategoriesNonNegative(Lookups(costs));
  }

  /** An empty cost table costs nothing: the whole salary is saved and
      housing takes none of it. */
  lemma EmptyTableVerdict(costs: seq<CostRecord>, salary: real)
    requires salary > 0.0 && costs == []
    ensures Evaluate(costs, salary) == Verdict(0.0, 0.0, 0.0, 0.0, salary, Sustainable,
                                               [Suggestion(Savings, Good, 100.0),
                                                Suggestion(HousingShare, Good, 0.0)])
  {
    var b := Lookups(costs);
    NoPrices(costs, b);
    assert CategoriesOf(b) == Categories(0.0, 0.0, 0.0, 0.0, 0.0);
    NothingToPay(salary);
  }

  lemma NoPrices(costs: seq<CostRecord>, b: Basket)
    requires costs == [] && b == Lookups(costs)
    ensures b == Basket(0.0, 0.0, 0.0, 0.0, 0.0, 0.0, 0.0, 0.0, 0.0, 0.0,
                        0.0, 0.0, 0.0, 0.0, 0.0, 0.0, 0.0, 0.0, 0.0)
  {
    forall fragment: string ensures GetPrice(costs, fragment) == 0.0 {
      GetPriceMiss(costs, fragment);
    }
  }

  lemma NothingToPay(salary: real)
    requires salary > 0.0
    ensures Advise(salary, Categories(0.0, 0.0, 0.0, 0.0, 0.0))
         == Verdict(0.0, 0.0, 0.0, 0.0, salary, Sustainable,
                    [Suggestion(Savings, Good, 100.0), Suggestion(HousingShare, Good, 0.0)])
  {
    assert Ratio(salary, salary) == 100.0;
    assert Ratio(0.0, salary) == 0.0;
  }

  /** The severity a suggestion of kind `k` gets for this salary, whichever
      branch emits it. */
  function SeverityOf(salary: real, c: Categories, k: Kind): Severity
    requires salary > 0.0
  {
    var diff := salary - Total(c);
    match k
    case Savings => Good
    case HousingShare => if Ratio(c.housing, salary) > 30.0 then Neutral else Good
    case Deficit => Bad
    case MoveOut => if diff + c.rentSavings > 0.0 then Good else Neutral
    case CookMore => if diff + c.diningOut > 0.0 then Good else Neutral
    case WalkBike => Neutral
    case SurvivalMode => Good
    case Critical => Bad
    case FoodShare => Neutral
  }

  /** Every suggestion of the verdict has the severity `SeverityOf` gives its
      kind. */
  lemma SeveritiesOf(salary: real, c: Categories)
    requires salary > 0.0
    ensures var s := Advise(salary, c).suggestions;
      forall i :: 0 <= i < |s| ==> s[i].severity == SeverityOf(salary, c, s[i].kind)
  {
    var s := Advise(salary, c).suggestions;
    if salary - Total(c) >= 0.0 {
      SurplusVerdict(salary, c);
      FoodVerdict(salary, c);
      assert |s| == 3 ==> Has(s, FoodShare);
    } else {
      DeficitVerdict(salary, c);
    }
  }

  /** A kind whose severity is good stays good on a higher salary. */
  lemma SeverityOfRaise(salary: real, raised: real, c: Categories, k: Kind)
    requires 0.0 < salary <= raised
    requires SeverityOf(salary, c, k) == Good
    ensures SeverityOf(raised, c, k) == Good
  {
    if k == HousingShare {
      RatioAbove30(c.housing, salary);
      RatioAbove30(c.housing, raised);
    }
  }

  /** The survival check appears exactly in deficit, as `SurvivalMode` when
      all three levers leave money over and as `Critical` otherwise. */
  lemma SurvivalCheck(salary: real, c: Categories)
    requires salary > 0.0
    ensures var s := Advise(salary, c).suggestions; var diff := salary - Total(c);
      && (Has(s, SurvivalMode) <==> diff < 0.0 && SurvivalDiff(diff, c) > 0.0)
      && (Has(s, Critical) <==> diff < 0.0 && SurvivalDiff(diff, c) <= 0.0)
  {
    var s := Advise(salary, c).suggestions;
    if salary - Total(c) >= 0.0 {
      SurplusVerdict(salary, c);
      assert forall i :: 0 <= i < |s| ==> s[i].kind != SurvivalMode && s[i].kind != Critical;
    } else {
      DeficitVerdict(salary, c);
    }
  }

  /** Every suggestion of kind `k` in `s` is good. */
  predicate AllGood(s: seq<Suggestion>, k: Kind)
  {
    forall i :: 0 <= i < |s| && s[i].kind == k ==> s[i].severity == Good
  }

  /** A raise never lowers `diff`, a sustainable budget stays sustainable, a
      suggestion that was good stays good wherever it appears, and a good
      survival check never turns critical. */
  lemma RaiseNeverHurts(salary: real, raised: real, c: Categories)
    requires 0.0 < salary <= raised
    ensures Advise(raised, c).diff >= Advise(salary, c).diff
    ensures Advise(salary, c).summary == Sustainable ==> Advise(raised, c).summary == Sustainable
    ensures forall k :: Has(Advise(salary, c).suggestions, k) && AllGood(Advise(salary, c).suggestions, k)
                        ==> AllGood(Advise(raised, c).suggestions, k)
    ensures Has(Advise(salary, c).suggestions, SurvivalMode) ==> !Has(Advise(raised, c).suggestions, Critical)
  {
    var s1, s2 := Advise(salary, c).suggestions, Advise(raised, c).suggestions;
    SeveritiesOf(salary, c);
    SeveritiesOf(raised, c);
    forall k | Has(s1, k) && AllGood(s1, k) ensures AllGood(s2, k) {
      var i :| 0 <= i < |s1| && s1[i].kind == k;
      SeverityOfRaise(salary, raised, c, k);
    }
    SurvivalCheck(salary, c);
    SurvivalCheck(raised, c);
  }

  /** Salary 5000 against costs of 3000: 2000 left, a 40% savings share,
      and the housing share follows. */
  lemma SurplusScenario(c: Categories)
    requires Total(c) == 3000.0
    ensures var v := Advise(5000.0, c);
      && v.diff == 2000.0
      && v.suggestions[0] == Suggestion(Savings, Good, 40.0)
      && v.suggestions[1].kind == HousingShare
  {
    SurplusVerdict(5000.0, c);
  }

  /** Salary 2000 against costs of 2500, with 400 of rent saving, 200 of
      dining out and 100 of transport: the levers together leave 200, so the
      survival check is good and shows 200. */
  lemma FullRecoveryScenario(c: Categories)
    requires Total(c) == 2500.0 && c.rentSavings == 400.0 && c.diningOut == 200.0
    requires c.transport == 100.0
    ensures var s := Advise(2000.0, c).suggestions;
      && s[..5] == [Suggestion(Deficit, Bad, 500.0), Suggestion(MoveOut, Neutral, 400.0),
                    Suggestion(CookMore, Neutral, 200.0), Suggestion(WalkBike, Neutral, 100.0),
                    Suggestion(SurvivalMode, Good, 200.0)]
      && !Has(s, Critical)
  {
    DeficitVerdict(2000.0, c);
  }

  /** The same deficit with nothing to save on rent, dining or transport:
      the survival check is critical and shows the full 500 shortfall. */
  lemma NoRecoveryScenario(c: Categories)
    requires Total(c) == 2500.0 && c.rentSavings == 0.0 && c.diningOut == 0.0
    requires c.transport == 0.0
    ensures var s := Advise(2000.0, c).suggestions;
      && s[..2] == [Suggestion(Deficit, Bad, 500.0), Suggestion(Critical, Bad, 500.0)]
      && !Has(s, MoveOut) && !Has(s, CookMore) && !Has(s, WalkBike) && !Has(s, SurvivalMode)
  {
    DeficitVerdict(2000.0, c);
  }

  // ---------------------------------------------------------------------------
  // The page's computation, step by step
  // ---------------------------------------------------------------------------

  /** The category costs as the page accumulates them: the looked-up prices
      times their monthly quantities, summed into the housing, food and
      transport accumulators. Also returns the centre rent and the dining-out
      cost, which the deficit advice reuses. */
  method Categorize(costs: seq<CostRecord>) returns (rent: real, housingCost: real, foodCost: real,
                                                    transportCost: real, diningOut: real)
    ensures housingCost == Housing(Lookups(costs)) && foodCost == Food(Lookups(costs))
    ensures transportCost == Transport(Lookups(costs)) && diningOut == DiningOut(Lookups(costs))
    ensures rent == Lookups(costs).rent
  {
    ghost var b := Lookups(costs);
    housingCost := 0.0;
    foodCost := 0.0;
    transportCost := 0.0;

    rent := GetPrice(costs, RentCentreLabel);
    var utilities := GetPrice(costs, UtilitiesLabel);
    var internet := GetPrice(costs, InternetLabel);
    housingCost := rent + utilities + internet;

    var transport := GetPrice(costs, PassLabel);
    transportCost := transport;

    var milk := GetPrice(costs, MilkLabel) * 4.0;
    var bread := GetPrice(costs, BreadLabel) * 2.0;
    var rice := GetPrice(costs, RiceLabel) * 1.0;
    var eggs := GetPrice(costs, EggsLabel) * 1.0;
    var cheese := GetPrice(costs, CheeseLabel) * 0.5;
    var chicken := GetPrice(costs, ChickenLabel) * 2.0;
    var beef := GetPrice(costs, BeefLabel) * 0.5;
    var fruits := (GetPrice(costs, ApplesLabel) + GetPrice(costs, BananaLabel) + GetPrice(costs, OrangesLabel)) * 1.0;
    var veg := (GetPrice(costs, TomatoLabel) + GetPrice(costs, PotatoLabel) + GetPrice(costs, OnionLabel)) * 1.0;
    diningOut := GetPrice(costs, MealLabel) * 4.0;
    foodCost := milk + bread + rice + eggs + cheese + chicken + beef + fruits + veg + diningOut;
    assert housingCost == Housing(b);
    assert foodCost == Food(b);
  }

  /** The suggestions as the page emits them, appended one by one: the
      surplus or deficit advice, then the food share. The rent outside the
      centre is looked up only on the deficit path. */
  method AddSuggestions(costs: seq<CostRecord>, salary: real, rent: real, housingCost: real,
                        foodCost: real, transportCost: real, diningOut: real, diff: real)
    returns (suggestions: seq<Suggestion>)
    requires salary > 0.0 && diff == salary - (housingCost + foodCost + transportCost)
    ensures suggestions == Suggestions(salary, Categories(housingCost, foodCost, transportCost, diningOut,
                                                         rent - GetPrice(costs, RentOutsideLabel)))
  {
    ghost var c := Categories(housingCost, foodCost, transportCost, diningOut,
                              rent - GetPrice(costs, RentOutsideLabel));
    assert Total(c) == housingCost + foodCost + transportCost;
    suggestions := [];
    if diff >= 0.0 {
      var savingsRatio := (diff / salary) * 100.0;
      assert savingsRatio == Ratio(salary - Total(c), salary);
      suggestions := suggestions + [Suggestion(Savings, Good, savingsRatio)];
      var housingRatio := (housingCost / salary) * 100.0;
      assert housingRatio == Ratio(c.housing, salary);
      if housingRatio > 30.0 {
        suggestions := suggestions + [Suggestion(HousingShare, Neutral, housingRatio)];
      } else {
        suggestions := suggestions + [Suggestion(HousingShare, Good, housingRatio)];
      }
      assert suggestions == SurplusAdvice(salary, c);
    } else {
      suggestions := AddDeficitAdvice(costs, rent, housingCost, foodCost, transportCost, diningOut, diff);
    }

    var foodRatio := (foodCost / salary) * 100.0;
    if foodRatio > 30.0 {
      suggestions := suggestions + [Suggestion(FoodShare, Neutral, foodRatio)];
    }
  }

  /** The accumulators, with the saving from the rent outside the centre,
      are the categories of the looked-up basket. */
  lemma CategoriesFromPrices(costs: seq<CostRecord>, rent: real, housingCost: real, foodCost: real,
                             transportCost: real, diningOut: real)
    requires housingCost == Housing(Lookups(costs)) && foodCost == Food(Lookups(costs))
    requires transportCost == Transport(Lookups(costs)) && diningOut == DiningOut(Lookups(costs))
    requires rent == Lookups(costs).rent
    ensures CategoriesOf(Lookups(costs))
         == Categories(housingCost, foodCost, transportCost, diningOut, rent - GetPrice(costs, RentOutsideLabel))
  {
  }

  /** The deficit branch: the shortfall, then each lever that applies, then
      the survival check. The rent outside the centre is looked up here. */
  method AddDeficitAdvice(costs: seq<CostRecord>, rent: real, housingCost: real, foodCost: real,
                          transportCost: real, diningOut: real, diff: real)
    returns (advice: seq<Suggestion>)
    ensures advice == DeficitAdvice(diff, Categories(housingCost, foodCost, transportCost, diningOut,
                                                     rent - GetPrice(costs, RentOutsideLabel)))
  {
    ghost var c := Categories(housingCost, foodCost, transportCost, diningOut,
                              rent - GetPrice(costs, RentOutsideLabel));
    advice := [Suggestion(Deficit, Bad, Abs(diff))];
    var rentOutside := GetPrice(costs, RentOutsideLabel);
    var rentSavings := rent - rentOutside;
    assert rentSavings == c.rentSavings;
    if rentSavings > 0.0 {
      var newDiff := diff + rentSavings;
      if newDiff > 0.0 {
        advice := advice + [Suggestion(MoveOut, Good, rentSavings)];
      } else {
        advice := advice + [Suggestion(MoveOut, Neutral, rentSavings)];
      }
    }
    assert advice == [DeficitRule(diff)] + MoveOutRule(diff, c);
    if diningOut > 0.0 {
      var newDiff := diff + diningOut;
      if newDiff > 0.0 {
        advice := advice + [Suggestion(CookMore, Good, diningOut)];
      } else {
        advice := advice + [Suggestion(CookMore, Neutral, diningOut)];
      }
    }
    assert advice == [DeficitRule(diff)] + MoveOutRule(diff, c) + CookRule(diff, c);
    if transportCost > 0.0 {
      advice := advice + [Suggestion(WalkBike, Neutral, transportCost)];
    }
    assert advice == [DeficitRule(diff)] + MoveOutRule(diff, c) + CookRule(diff, c) + WalkRule(c);
    var survivalDiff := diff + rentSavings + diningOut + transportCost;
    if survivalDiff > 0.0 {
      advice := advice + [Suggestion(SurvivalMode, Good, survivalDiff)];
    } else {
      advice := advice + [Suggestion(Critical, Bad, Abs(survivalDiff))];
    }
    assert advice == DeficitAdvice(diff, c);
  }

  /** The verdict as the page computes it: the category accumulators, the
      surplus or deficit with its summary, and the suggestions. */
  method Render(costs: seq<CostRecord>, salary: real) returns (v: Verdict)
    requires salary > 0.0
    ensures v == Evaluate(costs, salary)
  {
    var rent, housingCost, foodCost, transportCost, diningOut := Categorize(costs);
    var total := housingCost + foodCost + transportCost;
    var diff := salary - total;
    var summary := if diff < 0.0 then InDeficit else Sustainable;
    CategoriesFromPrices(costs, rent, housingCost, foodCost, transportCost, diningOut);
    var suggestions := AddSuggestions(costs, salary, rent, housingCost, foodCost, transportCost,
                                      diningOut, diff);
    v := Verdict(housingCost, foodCost, transportCost, total, diff, summary, suggestions);
  }
}
