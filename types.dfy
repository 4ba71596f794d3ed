/** The records of the bill estimator (src/types/index.ts), as immutable values.
    Numbers are reals, dates are millisecond timestamps. */
module Types {

  datatype Option<+T> = None | Some(value: T)

  /** A household appliance as entered in the appliance form. */
  datatype Appliance = Appliance(
    id: string,
    name: string,
    category: string,
    wattage: real,
    hoursPerDay: real,
    daysPerMonth: real)

  /** The energy and cost of one appliance in a bill. */
  datatype ApplianceUsage = ApplianceUsage(
    appliance: Appliance,
    monthlyKwh: real,
    monthlyCost: real,
    percentage: real)

  /** The energy and cost of one appliance category in a bill. */
  datatype CategoryUsage = CategoryUsage(
    category: string,
    monthlyKwh: real,
    monthlyCost: real,
    percentage: real,
    color: string)

  datatype BillCalculation = BillCalculation(
    totalKwh: real,
    monthlyBill: real,
    yearlyBill: real,
    dailyAverage: real,
    applianceBreakdown: seq<ApplianceUsage>,
    categoryBreakdown: seq<CategoryUsage>)

  datatype Season = Spring | Summer | Fall | Winter
  datatype HomeSize = Small | Medium | Large
  datatype EfficiencyRating = Poor | Average | Good | Excellent

  datatype BillSettings = BillSettings(
    region: string,
    useTimeOfUse: bool,
    season: Season,
    homeSize: HomeSize,
    efficiencyRating: EfficiencyRating)

  /** A named, dated snapshot of a calculation; dates are millisecond timestamps. */
  datatype SavedBill = SavedBill(
    id: string,
    name: string,
    month: string,
    year: int,
    appliances: seq<Appliance>,
    settings: BillSettings,
    calculation: BillCalculation,
    createdAt: int,
    updatedAt: int)

  /** The signed-in user kept by the app. */
  datatype User = User(email: string, name: string)

  // Field selectors as named functions, so that the grouping and summing
  // functions of module Grouping can be applied to them.
  function UsageKwh(u: ApplianceUsage): real { u.monthlyKwh }
  function UsageCost(u: ApplianceUsage): real { u.monthlyCost }
  function UsagePercentage(u: ApplianceUsage): real { u.percentage }
  function UsageCategory(u: ApplianceUsage): string { u.appliance.category }
  function CategoryKwh(c: CategoryUsage): real { c.monthlyKwh }
  function CategoryCost(c: CategoryUsage): real { c.monthlyCost }
  function CategoryPercentage(c: CategoryUsage): real { c.percentage }
  function CategoryName(c: CategoryUsage): string { c.category }
  function BillMonthly(b: SavedBill): real { b.calculation.monthlyBill }
  function BillYearly(b: SavedBill): real { b.calculation.yearlyBill }
  function BillKwh(b: SavedBill): real { b.calculation.totalKwh }
}
