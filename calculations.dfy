/** The bill calculation engine of src/utils/calculations.ts: lookup tables,
    the per-appliance energy and cost formula, totals, percentage shares and the
    per-category rollup. */
module Calculations {
  import opened Types
  import opened Grouping
  import opened Tables

  const NationalAverage: string := "National Average"
  const HeatingAndCooling: string := "Heating & Cooling"
  const OtherCategory: string := "Other"

  /** Price per kWh by region. */
  const RegionalRates: Table<real> :=
    Entry("California", 0.23,
    Entry("New York", 0.20,
    Entry("Texas", 0.12,
    Entry("Florida", 0.13,
    Entry("Illinois", 0.13,
    Entry("Pennsylvania", 0.14,
    Entry("Ohio", 0.13,
    Entry("Georgia", 0.12,
    Entry("North Carolina", 0.12,
    Entry("Michigan", 0.16,
    Entry("National Average", 0.16,
    Empty)))))))))))

  /** The rate of the "National Average" entry, which unlisted regions get. */
  const NationalAverageRate: real := 0.16

  const PeakMultiplier: real := 1.5
  const OffPeakMultiplier: real := 0.8
  const StandardMultiplier: real := 1.0

  /** The time-of-use rate multiplier for an assumed mix of 30% peak, 40%
      standard and 30% off-peak usage. */
  const TimeOfUseBlend: real := 0.3 * PeakMultiplier + 0.4 * StandardMultiplier + 0.3 * OffPeakMultiplier

  const CategoryColors: Table<string> :=
    Entry("Heating & Cooling", "#EF4444",
    Entry("Kitchen", "#F97316",
    Entry("Lighting", "#EAB308",
    Entry("Electronics", "#3B82F6",
    Entry("Laundry", "#8B5CF6",
    Entry("Water Heating", "#06B6D4",
    Entry("Other", "#6B7280",
    Empty)))))))

  /** The color of the "Other" entry, which unlisted categories get. */
  const OtherColor: string := "#6B7280"

  /** Energy multipliers looked up by exact appliance name. */
  const ApplianceEfficiencyFactors: Table<real> :=
    Entry("Refrigerator", 0.85,
    Entry("Air Conditioner", 1.2,
    Entry("Water Heater", 1.1,
    Entry("Washing Machine", 0.9,
    Entry("Dryer", 1.0,
    Entry("Dishwasher", 0.8,
    Entry("Television", 0.7,
    Entry("Computer", 0.9,
    Entry("Laptop", 0.6,
    Entry("LED Light Bulb", 0.2,
    Entry("Microwave", 1.0,
    Entry("Oven", 1.1,
    Empty))))))))))))

  function SeasonalMultiplier(season: Season): real {
    match season
    case Summer => 1.3
    case Winter => 1.2
    case Spring => 0.9
    case Fall => 0.9
  }

  function HomeEfficiencyFactor(rating: EfficiencyRating): real {
    match rating
    case Poor => 1.3
    case Average => 1.0
    case Good => 0.85
    case Excellent => 0.7
  }

  /** The regional rate, falling back to the national average. */
  function BaseRate(region: string): (r: real)
  {
    LookupOr(RegionalRates, region, NationalAverageRate)
  }

  /** The price charged per kWh: the regional rate, blended when time-of-use is on. */
  function EffectiveRate(settings: BillSettings): (r: real)
  {
    if settings.useTimeOfUse then BaseRate(settings.region) * TimeOfUseBlend
    else BaseRate(settings.region)
  }

  /** The appliance-name efficiency factor; a name outside the table gets 1.0. */
  function NameFactor(name: string): (f: real)
  {
    LookupOr(ApplianceEfficiencyFactors, name, 1.0)
  }

  /** The chart color of a category; an unknown category gets the "Other" color. */
  function CategoryColor(category: string): (color: string)
  {
    LookupOr(CategoryColors, category, OtherColor)
  }

  /** Unadjusted monthly energy: watts times hours per day times days, in kWh. */
  function BaseKwh(a: Appliance): real {
    a.wattage * a.hoursPerDay * a.daysPerMonth / 1000.0
  }

  /** Monthly energy after the exact-name and home-efficiency factors. */
  function UnseasonedKwh(a: Appliance, rating: EfficiencyRating): real {
    BaseKwh(a) * NameFactor(a.name) * HomeEfficiencyFactor(rating)
  }

  /** The seasonal adjustment, which only "Heating & Cooling" appliances get. */
  function SeasonAdjusted(category: string, season: Season, kwh: real): real {
    if category == HeatingAndCooling then kwh * SeasonalMultiplier(season) else kwh
  }

  /** Monthly energy after the name, home-efficiency and season factors. */
  function AdjustedKwh(a: Appliance, settings: BillSettings): real {
    SeasonAdjusted(a.category, settings.season, UnseasonedKwh(a, settings.efficiencyRating))
  }

  /** The breakdown entry of one appliance priced at `rate`, before
      percentages are filled in. */
  function UsageOf(a: Appliance, settings: BillSettings, rate: real): ApplianceUsage {
    var kwh := AdjustedKwh(a, settings);
    ApplianceUsage(a, kwh, kwh * rate, 0.0)
  }

  /** `appliances.map(...)` with the rate computed once beforehand: one entry
      per appliance, in input order. */
  function Usages(appliances: seq<Appliance>, settings: BillSettings, rate: real): (r: seq<ApplianceUsage>)
    ensures |r| == |appliances|
    decreases |appliances|
  {
    if appliances == [] then []
    else [UsageOf(appliances[0], settings, rate)] + Usages(appliances[1..], settings, rate)
  }

  /** A share of the total in percent, 0 when the total is not positive. */
  function Percent(part: real, total: real): real {
    if total > 0.0 then part / total * 100.0 else 0.0
  }

  /** The entries with their percentages filled in as shares of `total`. */
  function WithPercentages(usages: seq<ApplianceUsage>, total: real): (r: seq<ApplianceUsage>)
    ensures |r| == |usages|
    decreases |usages|
  {
    if usages == [] then []
    else [usages[0].(percentage := Percent(usages[0].monthlyKwh, total))] + WithPercentages(usages[1..], total)
  }

  /** The rollup entry of category `c` over the breakdown `bd`. */
  function CategoryEntry(c: string, bd: seq<ApplianceUsage>, total: real): CategoryUsage {
    var kwh := KeySum(bd, UsageCategory, c, UsageKwh);
    CategoryUsage(c, kwh, KeySum(bd, UsageCategory, c, UsageCost), Percent(kwh, total), CategoryColor(c))
  }

  /** The rollup entries of the categories `cats`, in that order. */
  function Rollup(cats: seq<string>, bd: seq<ApplianceUsage>, total: real): (r: seq<CategoryUsage>)
    ensures |r| == |cats|
    decreases |cats|
  {
    if cats == [] then []
    else Rollup(cats[..|cats| - 1], bd, total) + [CategoryEntry(cats[|cats| - 1], bd, total)]
  }

  /** The rollup holds the entry of each category of `cats`, at its position. */
  lemma {:induction false} RollupEntries(cats: seq<string>, bd: seq<ApplianceUsage>, total: real)
    ensures forall i :: 0 <= i < |cats| ==> Rollup(cats, bd, total)[i] == CategoryEntry(cats[i], bd, total)
    decreases |cats|
  {
    if cats != [] {
      RollupEntries(cats[..|cats| - 1], bd, total);
    }
  }

  /** The whole calculation as a value: what `calculateBill` returns. */
  function Bill(appliances: seq<Appliance>, settings: BillSettings): BillCalculation {
    BillFrom(Usages(appliances, settings, EffectiveRate(settings)))
  }

  /** Everything `calculateBill` does after the per-appliance map: totals,
      percentages and the category rollup of the entries `raw`. */
  function BillFrom(raw: seq<ApplianceUsage>): BillCalculation {
    var totalKwh := Total(raw, UsageKwh);
    var monthlyBill := Total(raw, UsageCost);
    var bd := WithPercentages(raw, totalKwh);
    BillCalculation(totalKwh, monthlyBill, monthlyBill * 12.0, totalKwh / 30.0,
                    bd, Rollup(Keys(bd, UsageCategory), bd, totalKwh))
  }

  /** `Object.entries(categoryTotals).map(...)`: an entry per key in insertion order. */
  function EntriesOf(order: seq<string>, totals: map<string, (real, real)>, total: real): (r: seq<CategoryUsage>)
    requires forall c :: c in order ==> c in totals
    ensures |r| == |order|
    decreases |order|
  {
    if order == [] then []
    else
      var c := order[|order| - 1];
      EntriesOf(order[..|order| - 1], totals, total)
        + [CategoryUsage(c, totals[c].0, totals[c].1, Percent(totals[c].0, total), CategoryColor(c))]
  }

  lemma {:induction false} EntriesAreRollup(order: seq<string>, totals: map<string, (real, real)>, bd: seq<ApplianceUsage>, total: real)
    requires forall c :: c in order ==> c in totals
    requires forall c :: c in totals ==>
      totals[c] == (KeySum(bd, UsageCategory, c, UsageKwh), KeySum(bd, UsageCategory, c, UsageCost))
    ensures EntriesOf(order, totals, total) == Rollup(order, bd, total)
    decreases |order|
  {
    if order != [] {
      EntriesAreRollup(order[..|order| - 1], totals, bd, total);
    }
  }

  /** The loop state of the category accumulation after it has seen `items`:
      `order` holds the keys in insertion order and `totals` the running sums. */
  ghost predicate Accumulated(order: seq<string>, totals: map<string, (real, real)>, items: seq<ApplianceUsage>) {
    && order == Keys(items, UsageCategory)
    && (forall c :: c in totals <==> c in order)
    && (forall c :: c in totals ==>
         totals[c] == (KeySum(items, UsageCategory, c, UsageKwh), KeySum(items, UsageCategory, c, UsageCost)))
  }

  /** Appending an item changes only its own category's running sums. */
  lemma SumsSnoc(items: seq<ApplianceUsage>, item: ApplianceUsage)
    ensures forall x ::
      KeySum(items + [item], UsageCategory, x, UsageKwh)
      == KeySum(items, UsageCategory, x, UsageKwh) + (if item.appliance.category == x then item.monthlyKwh else 0.0)
    ensures forall x ::
      KeySum(items + [item], UsageCategory, x, UsageCost)
      == KeySum(items, UsageCategory, x, UsageCost) + (if item.appliance.category == x then item.monthlyCost else 0.0)
  {
    forall x
      ensures KeySum(items + [item], UsageCategory, x, UsageKwh)
        == KeySum(items, UsageCategory, x, UsageKwh) + (if item.appliance.category == x then item.monthlyKwh else 0.0)
      ensures KeySum(items + [item], UsageCategory, x, UsageCost)
        == KeySum(items, UsageCategory, x, UsageCost) + (if item.appliance.category == x then item.monthlyCost else 0.0)
    {
      KeySumSnoc(items, UsageCategory, x, UsageKwh, item);
      KeySumSnoc(items, UsageCategory, x, UsageCost, item);
    }
  }

  /** One iteration of the accumulation loop for a category already seen keeps `Accumulated`. */
  lemma AccumulateSeen(order: seq<string>, totals: map<string, (real, real)>, items: seq<ApplianceUsage>, item: ApplianceUsage)
    requires Accumulated(order, totals, items)
    requires item.appliance.category in totals
    ensures var c := item.appliance.category;
      Accumulated(order, totals[c := (totals[c].0 + item.monthlyKwh, totals[c].1 + item.monthlyCost)], items + [item])
  {
    KeysSnoc(items, UsageCategory, item);
    SumsSnoc(items, item);
  }

  /** One iteration of the accumulation loop for a new category keeps `Accumulated`. */
  lemma AccumulateNew(order: seq<string>, totals: map<string, (real, real)>, items: seq<ApplianceUsage>, item: ApplianceUsage)
    requires Accumulated(order, totals, items)
    requires item.appliance.category !in totals
    ensures var c := item.appliance.category;
      Accumulated(order + [c], totals[c := (0.0 + item.monthlyKwh, 0.0 + item.monthlyCost)], items + [item])
  {
    var c := item.appliance.category;
    KeysSnoc(items, UsageCategory, item);
    AbsentKey(items, UsageCategory, c, UsageKwh);
    AbsentKey(items, UsageCategory, c, UsageCost);
    SumsSnoc(items, item);
  }

  /** The category accumulation loop of calculateBill. */
  method AccumulateCategories(breakdown: seq<ApplianceUsage>) returns (order: seq<string>, totals: map<string, (real, real)>)
    ensures Accumulated(order, totals, breakdown)
  {
    order := [];
    totals := map[];
    var j := 0;
    while j < |breakdown|
      invariant 0 <= j <= |breakdown|
      invariant Accumulated(order, totals, breakdown[..j])
    {
      var item := breakdown[j];
      var category := item.appliance.category;
      PrefixExtends(breakdown, j);
      if category in totals {
        AccumulateSeen(order, totals, breakdown[..j], item);
      } else {
        AccumulateNew(order, totals, breakdown[..j], item);
        totals := totals[category := (0.0, 0.0)];
        order := order + [category];
      }
      totals := totals[category := (totals[category].0 + item.monthlyKwh, totals[category].1 + item.monthlyCost)];
      j := j + 1;
    }
    assert breakdown[..j] == breakdown;
  }

  /** The percentage pass of calculateBill, updating the entries one by one. */
  method FillPercentages(raw: seq<ApplianceUsage>, totalKwh: real) returns (breakdown: seq<ApplianceUsage>)
    ensures breakdown == WithPercentages(raw, totalKwh)
  {
    breakdown := raw;
    var i := 0;
    while i < |breakdown|
      invariant 0 <= i <= |breakdown| == |raw|
      invariant forall k :: 0 <= k < i ==> breakdown[k] == raw[k].(percentage := Percent(raw[k].monthlyKwh, totalKwh))
      invariant forall k :: i <= k < |breakdown| ==> breakdown[k] == raw[k]
    {
      breakdown := breakdown[i := breakdown[i].(percentage := Percent(breakdown[i].monthlyKwh, totalKwh))];
      i := i + 1;
    }
    PercentagesKeepEntries(raw, totalKwh);
  }

  /** calculateBill: the per-appliance map, the totals, the percentage pass and
      the category accumulation. */
  method CalculateBill(appliances: seq<Appliance>, settings: BillSettings) returns (r: BillCalculation)
    ensures r == Bill(appliances, settings)
  {
    var rate := EffectiveRate(settings);
    var raw := Usages(appliances, settings, rate);
    var totalKwh := Total(raw, UsageKwh);
    var monthlyBill := Total(raw, UsageCost);
    var breakdown := FillPercentages(raw, totalKwh);
    var order, totals := AccumulateCategories(breakdown);
    EntriesAreRollup(order, totals, breakdown, totalKwh);
    var categoryBreakdown := EntriesOf(order, totals, totalKwh);
    r := BillCalculation(totalKwh, monthlyBill, monthlyBill * 12.0, totalKwh / 30.0,
                         breakdown, categoryBreakdown);
  }

  /** getAverageUsage: typical wattage and daily hours for a known appliance name. */
  const AverageUsageTable: Table<(real, real)> :=
    Entry("Refrigerator", (150.0, 24.0),
    Entry("Air Conditioner", (3500.0, 8.0),
    Entry("Water Heater", (4000.0, 3.0),
    Entry("Washing Machine", (1000.0, 1.0),
    Entry("Dryer", (3000.0, 1.0),
    Entry("Dishwasher", (1800.0, 1.0),
    Entry("Television", (100.0, 5.0),
    Entry("Computer", (300.0, 8.0),
    Entry("Laptop", (65.0, 8.0),
    Entry("LED Light Bulb", (10.0, 6.0),
    Entry("Microwave", (1200.0, 0.5),
    Entry("Oven", (2400.0, 1.0),
    Empty))))))))))))

  /** The (wattage, hoursPerDay) typical of `name`, or (100, 4) for a name outside the table. */
  function AverageUsage(name: string): (r: (real, real))
  {
    LookupOr(AverageUsageTable, name, (100.0, 4.0))
  }




  // ---------------------------------------------------------------------
  // The tables

  /** The fallbacks are the table's own "National Average" rate and "Other" color. */
  lemma FallbacksAreTableEntries()
    ensures Lookup(RegionalRates, NationalAverage) == Some(NationalAverageRate)
    ensures Lookup(CategoryColors, OtherCategory) == Some(OtherColor)
  {
  }

  /** A listed region gets its own rate, any other region the national average
      0.16, and every rate is positive. */
  lemma BaseRateSpec(region: string)
    ensures region in Names(RegionalRates) ==> HasEntry(RegionalRates, region, BaseRate(region))
    ensures region !in Names(RegionalRates) ==> BaseRate(region) == 0.16
    ensures BaseRate(region) > 0.0
  {
    LookupSpec(RegionalRates, region);
    LookupFinds(RegionalRates, region);
    LookupKeeps(RegionalRates, region, v => v > 0.0);
  }

  /** The 30/40/30 blend of the peak, standard and off-peak multipliers is 1.09. */
  lemma TimeOfUseBlendValue()
    ensures TimeOfUseBlend == 1.09
  {
  }

  /** Time-of-use pricing charges exactly 1.09 times the regional rate; either
      way the rate is positive. */
  lemma EffectiveRateSpec(settings: BillSettings)
    ensures settings.useTimeOfUse ==> EffectiveRate(settings) == BaseRate(settings.region) * 1.09
    ensures !settings.useTimeOfUse ==> EffectiveRate(settings) == BaseRate(settings.region)
    ensures EffectiveRate(settings) > 0.0
  {
    BaseRateSpec(settings.region);
    TimeOfUseBlendValue();
  }

  /** A listed appliance name gets its own factor, any other name 1.0. */
  lemma NameFactorSpec(name: string)
    ensures name in Names(ApplianceEfficiencyFactors) ==> HasEntry(ApplianceEfficiencyFactors, name, NameFactor(name))
    ensures name !in Names(ApplianceEfficiencyFactors) ==> NameFactor(name) == 1.0
  {
    LookupSpec(ApplianceEfficiencyFactors, name);
    LookupFinds(ApplianceEfficiencyFactors, name);
  }

  /** Every name factor is positive. */
  lemma NameFactorPositive(name: string)
    ensures NameFactor(name) > 0.0
  {
    LookupKeeps(ApplianceEfficiencyFactors, name, v => v > 0.0);
  }

  /** A listed category gets its own color, any other category the "Other" color #6B7280. */
  lemma CategoryColorSpec(category: string)
    ensures category in Names(CategoryColors) ==> HasEntry(CategoryColors, category, CategoryColor(category))
    ensures category !in Names(CategoryColors) ==> CategoryColor(category) == "#6B7280"
  {
    LookupSpec(CategoryColors, category);
    LookupFinds(CategoryColors, category);
  }

  /** A listed name gets its table entry, any other name (100 W, 4 h); both figures are positive. */
  lemma AverageUsageSpec(name: string)
    ensures name in Names(AverageUsageTable) ==> HasEntry(AverageUsageTable, name, AverageUsage(name))
    ensures name !in Names(AverageUsageTable) ==> AverageUsage(name) == (100.0, 4.0)
    ensures AverageUsage(name).0 > 0.0 && AverageUsage(name).1 > 0.0
  {
    LookupSpec(AverageUsageTable, name);
    LookupFinds(AverageUsageTable, name);
    LookupKeeps(AverageUsageTable, name, (v: (real, real)) => v.0 > 0.0 && v.1 > 0.0);
  }

  /** The usage table and the efficiency table list the same appliance names. */
  lemma AverageUsageNamesAreFactorNames()
    ensures Names(AverageUsageTable) == Names(ApplianceEfficiencyFactors)
  {
  }

  /** The quick-add "Television (LED)" misses the "Television" factor and gets 1.0. */
  lemma TelevisionLedHasNoFactor()
    ensures NameFactor("Television (LED)") == 1.0
    ensures NameFactor("Television") == 0.7
  {
  }

  // ---------------------------------------------------------------------
  // One appliance

  /** Products of equal factors are equal (stated once so that proofs need not
      rediscover it after the factors are unfolded). */
  lemma ProductsAgree(x: real, y: real, x': real, y': real)
    requires x == x' && y == y'
    ensures x * y == x' * y'
  {
  }

  /** (x * y) * c == x * (y * c). */
  lemma Reassociate(x: real, y: real, c: real)
    ensures x * (y * c) == (x * y) * c
  {
  }

  /** The adjusted energy is the base energy times the name factor and the home
      factor, and for "Heating & Cooling" also the season's multiplier. */
  lemma AdjustedKwhFormula(a: Appliance, settings: BillSettings)
    ensures a.category == HeatingAndCooling ==>
      AdjustedKwh(a, settings)
      == BaseKwh(a) * NameFactor(a.name) * HomeEfficiencyFactor(settings.efficiencyRating) * SeasonalMultiplier(settings.season)
    ensures a.category != HeatingAndCooling ==>
      AdjustedKwh(a, settings) == BaseKwh(a) * NameFactor(a.name) * HomeEfficiencyFactor(settings.efficiencyRating)
  {
  }

  /** Outside "Heating & Cooling" the adjusted energy does not depend on the season. */
  lemma SeasonKeepsAdjustedKwh(a: Appliance, settings: BillSettings, season: Season)
    requires a.category != HeatingAndCooling
    ensures AdjustedKwh(a, settings.(season := season)) == AdjustedKwh(a, settings)
  {
  }

  /** The rate does not depend on the season. */
  lemma SeasonKeepsRate(settings: BillSettings, season: Season)
    ensures EffectiveRate(settings.(season := season)) == EffectiveRate(settings)
  {
  }

  /** The season only touches "Heating & Cooling": any other appliance has the
      same energy and cost in every season. */
  lemma SeasonOnlyAffectsHeatingAndCooling(a: Appliance, settings: BillSettings, season: Season)
    requires a.category != HeatingAndCooling
    ensures UsageOf(a, settings.(season := season), EffectiveRate(settings.(season := season)))
         == UsageOf(a, settings, EffectiveRate(settings))
  {
    SeasonKeepsAdjustedKwh(a, settings, season);
    SeasonKeepsRate(settings, season);
  }

  /** The energy does not depend on the time-of-use switch. */
  lemma TimeOfUseKeepsAdjustedKwh(a: Appliance, settings: BillSettings, on: bool)
    ensures AdjustedKwh(a, settings.(useTimeOfUse := on)) == AdjustedKwh(a, settings)
  {
  }

  /** Switching time-of-use on multiplies the rate by 1.09. */
  lemma TimeOfUseScalesRate(settings: BillSettings)
    ensures EffectiveRate(settings.(useTimeOfUse := true)) == EffectiveRate(settings.(useTimeOfUse := false)) * 1.09
  {
    EffectiveRateSpec(settings.(useTimeOfUse := true));
    EffectiveRateSpec(settings.(useTimeOfUse := false));
  }

  /** Appliances with non-negative wattage, hours and days have non-negative energy. */
  lemma NonNegativeEnergy(a: Appliance, settings: BillSettings)
    requires a.wattage >= 0.0 && a.hoursPerDay >= 0.0 && a.daysPerMonth >= 0.0
    ensures AdjustedKwh(a, settings) >= 0.0
  {
    NonNegativeBase(a);
    NonNegativeUnseasoned(a, settings.efficiencyRating);
    NonNegativeProduct(UnseasonedKwh(a, settings.efficiencyRating), SeasonalMultiplier(settings.season));
  }

  lemma NonNegativeBase(a: Appliance)
    requires a.wattage >= 0.0 && a.hoursPerDay >= 0.0 && a.daysPerMonth >= 0.0
    ensures BaseKwh(a) >= 0.0
  {
    NonNegativeProduct(a.wattage, a.hoursPerDay);
    NonNegativeProduct(a.wattage * a.hoursPerDay, a.daysPerMonth);
  }

  lemma NonNegativeUnseasoned(a: Appliance, rating: EfficiencyRating)
    requires BaseKwh(a) >= 0.0
    ensures UnseasonedKwh(a, rating) >= 0.0
  {
    NameFactorPositive(a.name);
    NonNegativeProduct(BaseKwh(a), NameFactor(a.name));
    NonNegativeProduct(BaseKwh(a) * NameFactor(a.name), HomeEfficiencyFactor(rating));
  }

  lemma NonNegativeProduct(x: real, y: real)
    requires x >= 0.0 && y >= 0.0
    ensures x * y >= 0.0
  {
  }

  // ---------------------------------------------------------------------
  // The per-appliance map

  /** Every entry's cost is its energy times `rate`. */
  predicate AtRate(raw: seq<ApplianceUsage>, rate: real) {
    forall i :: 0 <= i < |raw| ==> raw[i].monthlyCost == raw[i].monthlyKwh * rate
  }

  /** The per-appliance map yields exactly one entry per appliance, in input
      order, holding the appliance and its adjusted energy. */
  lemma {:induction false} UsagesEntries(appliances: seq<Appliance>, settings: BillSettings, rate: real)
    ensures |Usages(appliances, settings, rate)| == |appliances|
    ensures forall i :: 0 <= i < |appliances| ==>
      && Usages(appliances, settings, rate)[i].appliance == appliances[i]
      && Usages(appliances, settings, rate)[i].monthlyKwh == AdjustedKwh(appliances[i], settings)
    decreases |appliances|
  {
    if appliances != [] {
      UsagesEntries(appliances[1..], settings, rate);
    }
  }

  /** The per-appliance map prices every entry at the one rate. */
  lemma {:induction false} UsagesAtOneRate(appliances: seq<Appliance>, settings: BillSettings, rate: real)
    ensures AtRate(Usages(appliances, settings, rate), rate)
    decreases |appliances|
  {
    if appliances != [] {
      var head := UsageOf(appliances[0], settings, rate);
      var rest := Usages(appliances[1..], settings, rate);
      UsagesAtOneRate(appliances[1..], settings, rate);
      assert head.monthlyCost == head.monthlyKwh * rate;
      assert Usages(appliances, settings, rate) == [head] + rest;
    }
  }

  /** Entry by entry, `a` has the energy of `b` and `c` times its cost. */
  predicate ScaledCosts(a: seq<ApplianceUsage>, b: seq<ApplianceUsage>, c: real) {
    && |a| == |b|
    && forall i :: 0 <= i < |a| ==> a[i].monthlyKwh == b[i].monthlyKwh && a[i].monthlyCost == b[i].monthlyCost * c
  }

  /** Two rates give per-appliance maps with the same energies. */
  lemma {:induction false} UsagesSameEnergy(appliances: seq<Appliance>, settings: BillSettings, rate: real, rate': real)
    ensures forall i :: 0 <= i < |appliances| ==>
      Usages(appliances, settings, rate)[i].monthlyKwh == Usages(appliances, settings, rate')[i].monthlyKwh
    decreases |appliances|
  {
    if appliances != [] {
      UsagesSameEnergy(appliances[1..], settings, rate, rate');
    }
  }

  /** Entries of equal energies priced at `rate * c` and at `rate` have costs scaled by `c`. */
  lemma AtScaledRate(a: seq<ApplianceUsage>, b: seq<ApplianceUsage>, rate: real, c: real)
    requires |a| == |b|
    requires forall i :: 0 <= i < |a| ==> a[i].monthlyKwh == b[i].monthlyKwh
    requires AtRate(a, rate * c) && AtRate(b, rate)
    ensures ScaledCosts(a, b, c)
  {
    forall i | 0 <= i < |a| ensures a[i].monthlyCost == b[i].monthlyCost * c {
      Reassociate(b[i].monthlyKwh, rate, c);
    }
  }

  /** Pricing at `c` times the rate gives the same energies and `c` times the costs. */
  lemma UsagesScaledRate(appliances: seq<Appliance>, settings: BillSettings, rate: real, c: real)
    ensures ScaledCosts(Usages(appliances, settings, rate * c), Usages(appliances, settings, rate), c)
  {
    UsagesSameEnergy(appliances, settings, rate * c, rate);
    UsagesAtOneRate(appliances, settings, rate * c);
    UsagesAtOneRate(appliances, settings, rate);
    AtScaledRate(Usages(appliances, settings, rate * c), Usages(appliances, settings, rate), rate, c);
  }

  /** The per-appliance map does not depend on the time-of-use switch, only on the rate. */
  lemma {:induction false} UsagesIgnoreTimeOfUse(appliances: seq<Appliance>, settings: BillSettings, on: bool, rate: real)
    ensures Usages(appliances, settings.(useTimeOfUse := on), rate) == Usages(appliances, settings, rate)
    decreases |appliances|
  {
    if appliances != [] {
      UsagesIgnoreTimeOfUse(appliances[1..], settings, on, rate);
      TimeOfUseKeepsAdjustedKwh(appliances[0], settings, on);
      assert UsageOf(appliances[0], settings.(useTimeOfUse := on), rate) == UsageOf(appliances[0], settings, rate);
    }
  }

  // ---------------------------------------------------------------------
  // Totals, percentages and the category rollup of any entries

  /** A positive-total percentage is the part scaled by 100 / total. */
  lemma PercentAsScale(part: real, total: real)
    requires total > 0.0
    ensures Percent(part, total) == part * (100.0 / total)
  {
  }

  /** A positive total scaled by 100 / total is 100. */
  lemma ScaleBack(total: real)
    requires total > 0.0
    ensures total * (100.0 / total) == 100.0
  {
  }

  /** A part of a positive total, no larger than it, is between 0 and 100 percent of it. */
  lemma PercentBounds(part: real, total: real)
    requires 0.0 <= part <= total && total > 0.0
    ensures 0.0 <= Percent(part, total) <= 100.0
  {
    assert part / total <= 1.0;
  }

  /** Filling in percentages keeps every entry's appliance, energy and cost, and
      sets its percentage to its share of `total`. */
  lemma {:induction false} PercentagesKeepEntries(raw: seq<ApplianceUsage>, total: real)
    ensures forall i :: 0 <= i < |raw| ==>
      WithPercentages(raw, total)[i] == raw[i].(percentage := Percent(raw[i].monthlyKwh, total))
    decreases |raw|
  {
    if raw != [] {
      PercentagesKeepEntries(raw[1..], total);
    }
  }

  /** The breakdown keeps the entries of the per-appliance map, in order, with
      only their percentages filled in. */
  lemma BillFromBreakdown(raw: seq<ApplianceUsage>)
    ensures |BillFrom(raw).applianceBreakdown| == |raw|
    ensures forall i :: 0 <= i < |raw| ==>
      && BillFrom(raw).applianceBreakdown[i].appliance == raw[i].appliance
      && BillFrom(raw).applianceBreakdown[i].monthlyKwh == raw[i].monthlyKwh
      && BillFrom(raw).applianceBreakdown[i].monthlyCost == raw[i].monthlyCost
  {
    PercentagesKeepEntries(raw, Total(raw, UsageKwh));
  }

  /** The totals are the sums over the breakdown, which keeps the entries' energy
      and cost; the yearly bill is twelve months and the daily average a 30-day month. */
  lemma {:induction false} BillFromTotals(raw: seq<ApplianceUsage>)
    ensures BillFrom(raw).totalKwh == Total(raw, UsageKwh) == Total(BillFrom(raw).applianceBreakdown, UsageKwh)
    ensures BillFrom(raw).monthlyBill == Total(raw, UsageCost) == Total(BillFrom(raw).applianceBreakdown, UsageCost)
    ensures BillFrom(raw).yearlyBill == BillFrom(raw).monthlyBill * 12.0
    ensures BillFrom(raw).dailyAverage == BillFrom(raw).totalKwh / 30.0
  {
    var bd := WithPercentages(raw, Total(raw, UsageKwh));
    PercentagesKeepEntries(raw, Total(raw, UsageKwh));
    TotalPointwise(bd, UsageKwh, raw, UsageKwh);
    TotalPointwise(bd, UsageCost, raw, UsageCost);
  }

  /** Entries all priced at one rate give a bill equal to the total energy times that rate. */
  lemma {:induction false} BillFromFlatRate(raw: seq<ApplianceUsage>, rate: real)
    requires AtRate(raw, rate)
    ensures BillFrom(raw).monthlyBill == BillFrom(raw).totalKwh * rate
  {
    assert Total(raw, UsageCost) == Total(raw, UsageKwh) * rate by {
      forall i | 0 <= i < |raw| ensures UsageCost(raw[i]) == UsageKwh(raw[i]) * rate { }
      TotalScales(raw, UsageCost, UsageKwh, rate);
    }
  }

  /** Entries with the same energies and 1.09 times the costs give the same total
      energy and 1.09 times the bill. */
  lemma BillFromScaledTotals(a: seq<ApplianceUsage>, b: seq<ApplianceUsage>)
    requires ScaledCosts(a, b, 1.09)
    ensures BillFrom(a).totalKwh == BillFrom(b).totalKwh
    ensures BillFrom(a).monthlyBill == BillFrom(b).monthlyBill * 1.09
  {
    ScaledTotals(a, b, 1.09);
  }

  /** Scaling the costs of the entries scales the costs of the breakdown alike. */
  lemma BillFromScaledBreakdown(a: seq<ApplianceUsage>, b: seq<ApplianceUsage>, c: real)
    requires ScaledCosts(a, b, c)
    ensures ScaledCosts(BillFrom(a).applianceBreakdown, BillFrom(b).applianceBreakdown, c)
  {
    BillFromBreakdown(a);
    BillFromBreakdown(b);
  }

  /** Filling in percentages keeps the rate of every entry. */
  lemma PercentagesKeepRate(raw: seq<ApplianceUsage>, total: real, rate: real)
    requires AtRate(raw, rate)
    ensures AtRate(WithPercentages(raw, total), rate)
  {
    PercentagesKeepEntries(raw, total);
  }

  /** Entries priced at one rate keep that rate in the breakdown. */
  lemma BillFromKeepsRate(raw: seq<ApplianceUsage>, rate: real)
    requires AtRate(raw, rate)
    ensures AtRate(BillFrom(raw).applianceBreakdown, rate)
  {
    PercentagesKeepRate(raw, Total(raw, UsageKwh), rate);
  }

  /** Entries with the same energies and `c` times the costs have the same energy
      total and `c` times the cost total. */
  lemma {:induction false} ScaledTotals(a: seq<ApplianceUsage>, b: seq<ApplianceUsage>, c: real)
    requires ScaledCosts(a, b, c)
    ensures Total(a, UsageKwh) == Total(b, UsageKwh)
    ensures Total(a, UsageCost) == Total(b, UsageCost) * c
    decreases |a|
  {
    if a != [] {
      var n := |a| - 1;
      assert ScaledCosts(a[..n], b[..n], c);
      ScaledTotals(a[..n], b[..n], c);
      Distribute(Total(b[..n], UsageCost), b[n].monthlyCost, c);
    }
  }

  /** No entries: zero totals and empty breakdowns. */
  lemma BillFromEmpty()
    ensures BillFrom([]) == BillCalculation(0.0, 0.0, 0.0, 0.0, [], [])
  {
  }

  /** Each rollup entry's percentage is its share of `total`. */
  lemma RollupShares(cats: seq<string>, bd: seq<ApplianceUsage>, total: real)
    ensures forall i :: 0 <= i < |cats| ==>
      Rollup(cats, bd, total)[i].percentage == Percent(Rollup(cats, bd, total)[i].monthlyKwh, total)
  {
    RollupEntries(cats, bd, total);
  }

  /** Every percentage, appliance and category alike, is the entry's share of the total energy. */
  lemma BillFromShares(raw: seq<ApplianceUsage>)
    ensures forall i :: 0 <= i < |BillFrom(raw).applianceBreakdown| ==>
      BillFrom(raw).applianceBreakdown[i].percentage
      == Percent(BillFrom(raw).applianceBreakdown[i].monthlyKwh, BillFrom(raw).totalKwh)
    ensures forall i :: 0 <= i < |BillFrom(raw).categoryBreakdown| ==>
      BillFrom(raw).categoryBreakdown[i].percentage
      == Percent(BillFrom(raw).categoryBreakdown[i].monthlyKwh, BillFrom(raw).totalKwh)
  {
    var r := BillFrom(raw);
    var bd := r.applianceBreakdown;
    PercentagesKeepEntries(raw, r.totalKwh);
    assert r.categoryBreakdown == Rollup(Keys(bd, UsageCategory), bd, r.totalKwh);
    RollupShares(Keys(bd, UsageCategory), bd, r.totalKwh);
  }

  /** With no energy at all every percentage is 0, appliance and category alike. */
  lemma {:induction false} BillFromNoEnergy(raw: seq<ApplianceUsage>)
    requires BillFrom(raw).totalKwh <= 0.0
    ensures forall i :: 0 <= i < |BillFrom(raw).applianceBreakdown| ==> BillFrom(raw).applianceBreakdown[i].percentage == 0.0
    ensures forall i :: 0 <= i < |BillFrom(raw).categoryBreakdown| ==> BillFrom(raw).categoryBreakdown[i].percentage == 0.0
  {
    BillFromShares(raw);
  }

  /** Entries whose percentages are shares of a positive total equal to their
      energy sum have percentages adding up to 100. */
  lemma {:induction false} UsageSharesSum(bd: seq<ApplianceUsage>, total: real)
    requires total > 0.0 && Total(bd, UsageKwh) == total
    requires forall i :: 0 <= i < |bd| ==> bd[i].percentage == Percent(bd[i].monthlyKwh, total)
    ensures Total(bd, UsagePercentage) == 100.0
  {
    forall i | 0 <= i < |bd| ensures UsagePercentage(bd[i]) == UsageKwh(bd[i]) * (100.0 / total) {
      PercentAsScale(bd[i].monthlyKwh, total);
    }
    TotalScales(bd, UsagePercentage, UsageKwh, 100.0 / total);
    ScaleBack(total);
  }

  /** With positive total energy the appliance percentages are the energy shares and add up to 100. */
  lemma {:induction false} BillFromPercentages(raw: seq<ApplianceUsage>)
    requires BillFrom(raw).totalKwh > 0.0
    ensures forall i :: 0 <= i < |BillFrom(raw).applianceBreakdown| ==>
      BillFrom(raw).applianceBreakdown[i].percentage
      == BillFrom(raw).applianceBreakdown[i].monthlyKwh / BillFrom(raw).totalKwh * 100.0
    ensures Total(BillFrom(raw).applianceBreakdown, UsagePercentage) == 100.0
  {
    var r := BillFrom(raw);
    BillFromShares(raw);
    BillFromTotals(raw);
    UsageSharesSum(r.applianceBreakdown, r.totalKwh);
  }

  /** Entries of non-negative energy get percentages in [0, 100]. */
  lemma {:induction false} BillFromPercentageBounds(raw: seq<ApplianceUsage>)
    requires forall i :: 0 <= i < |raw| ==> raw[i].monthlyKwh >= 0.0
    ensures forall i :: 0 <= i < |BillFrom(raw).applianceBreakdown| ==>
      0.0 <= BillFrom(raw).applianceBreakdown[i].percentage <= 100.0
  {
    var r := BillFrom(raw);
    var bd := r.applianceBreakdown;
    BillFromShares(raw);
    BillFromBreakdown(raw);
    if r.totalKwh > 0.0 {
      BillFromTotals(raw);
      forall i | 0 <= i < |bd| ensures 0.0 <= bd[i].percentage <= 100.0 {
        TotalBoundsEach(bd, UsageKwh, i);
        PercentBounds(bd[i].monthlyKwh, r.totalKwh);
      }
    }
  }

  /** The category rollup has one entry per distinct category, in order of first
      appearance, holding the category's energy and cost sums and its table color. */
  lemma {:induction false} BillFromCategories(raw: seq<ApplianceUsage>)
    ensures |BillFrom(raw).categoryBreakdown| == |Keys(raw, UsageCategory)|
    ensures forall i :: 0 <= i < |Keys(raw, UsageCategory)| ==>
      && BillFrom(raw).categoryBreakdown[i].category == Keys(raw, UsageCategory)[i]
      && BillFrom(raw).categoryBreakdown[i].monthlyKwh == KeySum(raw, UsageCategory, Keys(raw, UsageCategory)[i], UsageKwh)
      && BillFrom(raw).categoryBreakdown[i].monthlyCost == KeySum(raw, UsageCategory, Keys(raw, UsageCategory)[i], UsageCost)
      && BillFrom(raw).categoryBreakdown[i].color == CategoryColor(Keys(raw, UsageCategory)[i])
  {
    var r := BillFrom(raw);
    var bd := r.applianceBreakdown;
    PercentagesKeepEntries(raw, r.totalKwh);
    RollupEntries(Keys(bd, UsageCategory), bd, r.totalKwh);
    KeysPointwise(bd, raw, UsageCategory, UsageCategory);
    forall c
      ensures KeySum(bd, UsageCategory, c, UsageKwh) == KeySum(raw, UsageCategory, c, UsageKwh)
      ensures KeySum(bd, UsageCategory, c, UsageCost) == KeySum(raw, UsageCategory, c, UsageCost)
    {
      KeySumPointwise(bd, raw, UsageCategory, UsageCategory, c, UsageKwh, UsageKwh);
      KeySumPointwise(bd, raw, UsageCategory, UsageCategory, c, UsageCost, UsageCost);
    }
  }

  /** The rollup of the categories `cats` sums to the per-key sums over `cats`. */
  lemma {:induction false} RollupTotals(cats: seq<string>, bd: seq<ApplianceUsage>, total: real)
    ensures Total(Rollup(cats, bd, total), CategoryKwh) == SumOverKeys(cats, bd, UsageCategory, UsageKwh)
    ensures Total(Rollup(cats, bd, total), CategoryCost) == SumOverKeys(cats, bd, UsageCategory, UsageCost)
    decreases |cats|
  {
    if cats != [] {
      var r := Rollup(cats, bd, total);
      var init := cats[..|cats| - 1];
      RollupTotals(init, bd, total);
      assert r[..|r| - 1] == Rollup(init, bd, total);
    }
  }

  /** The category sums add up to the bill's totals. */
  lemma {:induction false} BillFromCategoryTotals(raw: seq<ApplianceUsage>)
    ensures Total(BillFrom(raw).categoryBreakdown, CategoryKwh) == BillFrom(raw).totalKwh
    ensures Total(BillFrom(raw).categoryBreakdown, CategoryCost) == BillFrom(raw).monthlyBill
  {
    var r := BillFrom(raw);
    var bd := r.applianceBreakdown;
    RollupTotals(Keys(bd, UsageCategory), bd, r.totalKwh);
    KeySumsAddUp(bd, UsageCategory, UsageKwh);
    KeySumsAddUp(bd, UsageCategory, UsageCost);
    BillFromTotals(raw);
  }

  /** Category entries whose percentages are shares of a positive total equal to
      their energy sum have percentages adding up to 100. */
  lemma {:induction false} CategorySharesSum(cb: seq<CategoryUsage>, total: real)
    requires total > 0.0 && Total(cb, CategoryKwh) == total
    requires forall i :: 0 <= i < |cb| ==> cb[i].percentage == Percent(cb[i].monthlyKwh, total)
    ensures Total(cb, CategoryPercentage) == 100.0
  {
    forall i | 0 <= i < |cb| ensures CategoryPercentage(cb[i]) == CategoryKwh(cb[i]) * (100.0 / total) {
      PercentAsScale(cb[i].monthlyKwh, total);
    }
    TotalScales(cb, CategoryPercentage, CategoryKwh, 100.0 / total);
    ScaleBack(total);
  }

  /** With positive total energy the category percentages add up to 100. */
  lemma {:induction false} BillFromCategoryPercentages(raw: seq<ApplianceUsage>)
    requires BillFrom(raw).totalKwh > 0.0
    ensures Total(BillFrom(raw).categoryBreakdown, CategoryPercentage) == 100.0
  {
    var r := BillFrom(raw);
    BillFromShares(raw);
    BillFromCategoryTotals(raw);
    CategorySharesSum(r.categoryBreakdown, r.totalKwh);
  }

  // ---------------------------------------------------------------------
  // calculateBill on appliances and settings

  /** Each breakdown entry holds its own appliance, its adjusted energy and that
      energy times the rate; the entries follow the input order. */
  lemma BreakdownEntries(appliances: seq<Appliance>, settings: BillSettings)
    ensures |Bill(appliances, settings).applianceBreakdown| == |appliances|
    ensures forall i :: 0 <= i < |appliances| ==>
      && Bill(appliances, settings).applianceBreakdown[i].appliance == appliances[i]
      && Bill(appliances, settings).applianceBreakdown[i].monthlyKwh == AdjustedKwh(appliances[i], settings)
  {
    UsagesEntries(appliances, settings, EffectiveRate(settings));
    BillFromBreakdown(Usages(appliances, settings, EffectiveRate(settings)));
  }

  /** Each breakdown entry costs its energy times the effective rate. */
  lemma BreakdownAtRate(appliances: seq<Appliance>, settings: BillSettings)
    ensures AtRate(Bill(appliances, settings).applianceBreakdown, EffectiveRate(settings))
  {
    UsagesAtOneRate(appliances, settings, EffectiveRate(settings));
    BillFromKeepsRate(Usages(appliances, settings, EffectiveRate(settings)), EffectiveRate(settings));
  }

  /** One rate applies to every appliance, so the bill is the total energy times that rate. */
  lemma BillIsEnergyTimesRate(appliances: seq<Appliance>, settings: BillSettings)
    ensures Bill(appliances, settings).monthlyBill == Bill(appliances, settings).totalKwh * EffectiveRate(settings)
  {
    UsagesAtOneRate(appliances, settings, EffectiveRate(settings));
    BillFromFlatRate(Usages(appliances, settings, EffectiveRate(settings)), EffectiveRate(settings));
  }

  /** No appliances: zero totals and empty breakdowns. */
  lemma EmptyBillIsZero(settings: BillSettings)
    ensures Bill([], settings) == BillCalculation(0.0, 0.0, 0.0, 0.0, [], [])
  {
    BillFromEmpty();
  }

  /** For non-negative inputs each appliance percentage lies in [0, 100]. */
  lemma AppliancePercentageBounds(appliances: seq<Appliance>, settings: BillSettings)
    requires forall i :: 0 <= i < |appliances| ==>
      appliances[i].wattage >= 0.0 && appliances[i].hoursPerDay >= 0.0 && appliances[i].daysPerMonth >= 0.0
    ensures forall i :: 0 <= i < |Bill(appliances, settings).applianceBreakdown| ==>
      0.0 <= Bill(appliances, settings).applianceBreakdown[i].percentage <= 100.0
  {
    var raw := Usages(appliances, settings, EffectiveRate(settings));
    UsagesEntries(appliances, settings, EffectiveRate(settings));
    forall i | 0 <= i < |raw| ensures raw[i].monthlyKwh >= 0.0 {
      NonNegativeEnergy(appliances[i], settings);
    }
    BillFromPercentageBounds(raw);
  }

  /** The bills with time-of-use on and off, priced from the same appliances. */
  lemma TimeOfUseUsages(appliances: seq<Appliance>, settings: BillSettings)
    ensures ScaledCosts(Usages(appliances, settings.(useTimeOfUse := true), EffectiveRate(settings.(useTimeOfUse := true))),
                        Usages(appliances, settings.(useTimeOfUse := false), EffectiveRate(settings.(useTimeOfUse := false))), 1.09)
  {
    var on, off := settings.(useTimeOfUse := true), settings.(useTimeOfUse := false);
    var rate := EffectiveRate(off);
    TimeOfUseScalesRate(settings);
    assert on == off.(useTimeOfUse := true);
    UsagesIgnoreTimeOfUse(appliances, off, true, rate * 1.09);
    UsagesScaledRate(appliances, off, rate, 1.09);
  }

  /** Switching time-of-use on multiplies the bill by exactly 1.09 and leaves the energy unchanged. */
  lemma TimeOfUseScalesBill(appliances: seq<Appliance>, settings: BillSettings)
    ensures Bill(appliances, settings.(useTimeOfUse := true)).totalKwh
         == Bill(appliances, settings.(useTimeOfUse := false)).totalKwh
    ensures Bill(appliances, settings.(useTimeOfUse := true)).monthlyBill
         == Bill(appliances, settings.(useTimeOfUse := false)).monthlyBill * 1.09
  {
    var on, off := settings.(useTimeOfUse := true), settings.(useTimeOfUse := false);
    TimeOfUseUsages(appliances, settings);
    BillFromScaledTotals(Usages(appliances, on, EffectiveRate(on)), Usages(appliances, off, EffectiveRate(off)));
  }

  /** Switching time-of-use on keeps every appliance's energy and multiplies its cost by exactly 1.09. */
  lemma TimeOfUseScalesBreakdown(appliances: seq<Appliance>, settings: BillSettings)
    ensures ScaledCosts(Bill(appliances, settings.(useTimeOfUse := true)).applianceBreakdown,
                        Bill(appliances, settings.(useTimeOfUse := false)).applianceBreakdown, 1.09)
  {
    var on, off := settings.(useTimeOfUse := true), settings.(useTimeOfUse := false);
    TimeOfUseUsages(appliances, settings);
    BillFromScaledBreakdown(Usages(appliances, on, EffectiveRate(on)), Usages(appliances, off, EffectiveRate(off)), 1.09);
  }

  /** Worked example: a 100 W appliance used 10 hours a day for 30 days in Texas
      with average home efficiency uses 30 kWh and costs $3.60. */
  lemma TexasExample()
    ensures Bill([Appliance("1", "Lamp", "Lighting", 100.0, 10.0, 30.0)],
                 BillSettings("Texas", false, Summer, Medium, Average)).totalKwh == 30.0
    ensures Bill([Appliance("1", "Lamp", "Lighting", 100.0, 10.0, 30.0)],
                 BillSettings("Texas", false, Summer, Medium, Average)).monthlyBill == 3.6
  {
    var a := Appliance("1", "Lamp", "Lighting", 100.0, 10.0, 30.0);
    var s := BillSettings("Texas", false, Summer, Medium, Average);
    var raw := Usages([a], s, EffectiveRate(s));
    assert raw == [UsageOf(a, s, EffectiveRate(s))];
    assert raw[..0] == [];
    assert BaseKwh(a) == 30.0;
    assert NameFactor(a.name) == 1.0;
    assert UnseasonedKwh(a, s.efficiencyRating) == 30.0 * 1.0 * 1.0;
    assert AdjustedKwh(a, s) == 30.0;
    assert EffectiveRate(s) == 0.12;
  }
}
