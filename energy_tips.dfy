/** The savings tips (src/components/EnergyTips.tsx): a fixed table of eight
    tips, re-ordered so that the tips about categories the bill contains, and
    the Electronics tips, come first. */
module EnergyTips {
  import opened Types
  import opened Lists

  /** A tip without its description, which only the card displays (see
      Description). */
  datatype EnergyTip = EnergyTip(
    title: string,
    potentialSavings: string,
    difficulty: string,
    category: string)

  /** The entries of ENERGY_TIPS, by position. */
  const LedBulbs: EnergyTip := EnergyTip("Switch to LED Light Bulbs", "$75-200/year", "Easy", "Lighting")
  const UnplugElectronics: EnergyTip := EnergyTip("Unplug Electronics When Not in Use", "$50-100/year", "Easy", "Electronics")
  const ProgrammableThermostat: EnergyTip := EnergyTip("Use a Programmable Thermostat", "$180-300/year", "Medium", "Heating & Cooling")
  const ColdWash: EnergyTip := EnergyTip("Wash Clothes in Cold Water", "$60-120/year", "Easy", "Laundry")
  const SealAirLeaks: EnergyTip := EnergyTip("Seal Air Leaks", "$200-400/year", "Medium", "Heating & Cooling")
  const EfficientAppliances: EnergyTip := EnergyTip("Use Energy-Efficient Appliances", "$300-600/year", "Hard", "Kitchen")
  const WaterHeaterTemperature: EnergyTip := EnergyTip("Lower Water Heater Temperature", "$50-100/year", "Easy", "Water Heating")
  const PowerStrips: EnergyTip := EnergyTip("Use Power Strips", "$25-75/year", "Easy", "Electronics")

  function Tip(i: nat): EnergyTip
    requires i < 8
  {
    if i == 0 then LedBulbs
    else if i == 1 then UnplugElectronics
    else if i == 2 then ProgrammableThermostat
    else if i == 3 then ColdWash
    else if i == 4 then SealAirLeaks
    else if i == 5 then EfficientAppliances
    else if i == 6 then WaterHeaterTemperature
    else PowerStrips
  }

  /** The description shown on the card of tip `i`. */
  function Description(i: nat): string
    requires i < 8
  {
    if i == 0 then "Replace incandescent bulbs with LED bulbs to reduce lighting costs by up to 80%. LEDs last 25 times longer and use significantly less energy."
    else if i == 1 then "Electronics continue to draw power even when turned off. Unplug chargers, TVs, and other devices to eliminate phantom loads."
    else if i == 2 then "Set your thermostat to automatically adjust temperature when you're away. This can reduce heating and cooling costs by 10-15%."
    else if i == 3 then "About 90% of washing machine energy goes to heating water. Use cold water settings to significantly reduce energy consumption."
    else if i == 4 then "Use weatherstripping and caulk to seal gaps around windows and doors. This prevents conditioned air from escaping."
    else if i == 5 then "When replacing appliances, choose ENERGY STAR certified models. They use 10-50% less energy than standard models."
    else if i == 6 then "Set your water heater to 120°F (49°C) instead of the default 140°F (60°C). You won't notice the difference but will save energy."
    else "Connect multiple devices to power strips and turn them off when not in use. This makes it easy to eliminate standby power consumption."
  }

  /** ENERGY_TIPS. */
  const Tips: seq<EnergyTip> := [LedBulbs, UnplugElectronics, ProgrammableThermostat, ColdWash, SealAirLeaks, EfficientAppliances, WaterHeaterTemperature, PowerStrips]

  /** getDifficultyColor: green, yellow and red for the three difficulties,
      gray for anything else. */
  function DifficultyColor(difficulty: string): string {
    if difficulty == "Easy" then "text-green-600 bg-green-100"
    else if difficulty == "Medium" then "text-yellow-600 bg-yellow-100"
    else if difficulty == "Hard" then "text-red-600 bg-red-100"
    else "text-gray-600 bg-gray-100"
  }

  const Gray: string := "text-gray-600 bg-gray-100"

  /** The three difficulties get three different colours, and everything
      else the gray default. */
  lemma DifficultyColorSpec(difficulty: string)
    ensures DifficultyColor(difficulty) == Gray <==> difficulty !in ["Easy", "Medium", "Hard"]
    ensures DifficultyColor("Easy") != DifficultyColor("Medium") && DifficultyColor("Medium") != DifficultyColor("Hard")
    ensures DifficultyColor("Hard") != DifficultyColor("Easy")
  {
  }

  /** The category names of the calculation's category breakdown. */
  function UserCategories(billData: BillCalculation): (cats: seq<string>)
    ensures |cats| == |billData.categoryBreakdown|
    ensures forall i :: 0 <= i < |cats| ==> cats[i] == billData.categoryBreakdown[i].category
  {
    seq(|billData.categoryBreakdown|, i requires 0 <= i < |billData.categoryBreakdown| => billData.categoryBreakdown[i].category)
  }

  /** A tip goes first when the user has its category, and always when it is
      about Electronics. */
  predicate Relevant(cats: seq<string>, tip: EnergyTip) {
    tip.category in cats || tip.category == "Electronics"
  }

  function RelevantFilter(cats: seq<string>): EnergyTip -> bool {
    (tip: EnergyTip) => Relevant(cats, tip)
  }

  /** The relevant tips of `tips`, then the others (`!includes && !==
      "Electronics"` is the negation of the relevance test). */
  function Reorder(tips: seq<EnergyTip>, cats: seq<string>): seq<EnergyTip> {
    Partition(tips, RelevantFilter(cats))
  }

  /** getRelevantTips: without a calculation the table as it is; otherwise
      the table reordered by the calculation's categories. */
  function RelevantTips(billData: Option<BillCalculation>): seq<EnergyTip> {
    if billData.None? then Tips else Reorder(Tips, UserCategories(billData.value))
  }

  /** How many tips of `tips` come first. */
  function RelevantCount(tips: seq<EnergyTip>, cats: seq<string>): nat {
    |Filter(tips, RelevantFilter(cats))|
  }

  /** The reordering is a stable partition: the same tips with the same
      multiplicities, the relevant ones exactly at the front, and both groups
      in the table's order. */
  lemma ReorderPartition(tips: seq<EnergyTip>, cats: seq<string>)
    ensures multiset(Reorder(tips, cats)) == multiset(tips)
    ensures |Reorder(tips, cats)| == |tips|
    ensures RelevantCount(tips, cats) <= |tips|
    ensures forall i :: 0 <= i < |tips| ==>
              (Relevant(cats, Reorder(tips, cats)[i]) <==> i < RelevantCount(tips, cats))
    ensures IsSubsequence(Reorder(tips, cats)[..RelevantCount(tips, cats)], tips)
    ensures IsSubsequence(Reorder(tips, cats)[RelevantCount(tips, cats)..], tips)
  {
    PartitionSpec(tips, RelevantFilter(cats));
  }

  /** Without a calculation nothing moves. */
  lemma NoCalculationKeepsOrder()
    ensures RelevantTips(None) == Tips
  {
  }

  /** Every tip of the table has one of the three difficulties, so none is
      shown in the gray default. */
  lemma TipsHaveKnownDifficulty(i: nat)
    requires i < 8
    ensures Tip(i).difficulty == "Easy" || Tip(i).difficulty == "Medium" || Tip(i).difficulty == "Hard"
    ensures DifficultyColor(Tip(i).difficulty) != Gray
  {
  }

  /** A relevant tip of the table, such as any Electronics tip, is among the
      first group. */
  lemma RelevantTipFirst(tips: seq<EnergyTip>, cats: seq<string>, t: EnergyTip)
    requires t in tips && Relevant(cats, t)
    ensures RelevantCount(tips, cats) <= |Reorder(tips, cats)|
    ensures t in Reorder(tips, cats)[..RelevantCount(tips, cats)]
  {
    FilterMembers(tips, RelevantFilter(cats));
    PartitionSpec(tips, RelevantFilter(cats));
    assert Reorder(tips, cats)[..RelevantCount(tips, cats)] == Filter(tips, RelevantFilter(cats));
  }

  /** With a calculation, both Electronics tips are among the first group,
      whatever the calculation's categories. */
  lemma ElectronicsTipsFirst(billData: BillCalculation)
    ensures RelevantCount(Tips, UserCategories(billData)) <= |RelevantTips(Some(billData))|
    ensures Tip(1) in RelevantTips(Some(billData))[..RelevantCount(Tips, UserCategories(billData))]
    ensures Tip(7) in RelevantTips(Some(billData))[..RelevantCount(Tips, UserCategories(billData))]
  {
    assert Tip(1) in Tips && Tip(7) in Tips;
    RelevantTipFirst(Tips, UserCategories(billData), Tip(1));
    RelevantTipFirst(Tips, UserCategories(billData), Tip(7));
  }
}
