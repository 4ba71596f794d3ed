/** The settings panel (src/components/BillSettings.tsx): the region list with
    the rates it displays, and the update of one setting at a time. */
module SettingsPanel {
  import opened Types
  import opened Tables
  import Calculations

  /** REGIONS, in the order of the drop-down. */
  const Regions: seq<string> := [
    "National Average", "California", "New York", "Texas", "Florida", "Illinois",
    "Pennsylvania", "Ohio", "Georgia", "North Carolina", "Michigan"
  ]

  /** REGIONAL_RATES, the panel's own copy of the price table. */
  const PanelRates: Table<real> :=
    Entry("California", 0.23,
    Entry("New York", 0.20,
    Entry("Texas", 0.12,
    Entry("Florida", 0.13,
    Entry("Illinois", 0.13,
    Entry("Pennsylvania", 0.14,
    Entry("Ohio", 0.13,
    Entry("Georgia", 0.12,
    Entry("North Carolina", 0.12,
    Entry("Michigan", 0.16,
    Entry("National Average", 0.16,
    Empty)))))))))))

  /** The rate shown for a region, in the drop-down and under "Current Rate":
      the table's entry, or 0.16 when there is none. */
  function DisplayedRate(region: string): real {
    LookupOr(PanelRates, region, 0.16)
  }

  /** The panel's copy of the table is the engine's table, entry for entry. */
  lemma PanelRatesAreTheEngineRates()
    ensures PanelRates == Calculations.RegionalRates
  {
  }

  /** Every region of the drop-down has an entry of its own, and the table
      lists no other region. */
  lemma RegionsHaveRates()
    ensures forall r :: r in Regions ==> r in Names(PanelRates)
    ensures forall r :: r in Names(PanelRates) ==> r in Regions
    ensures |Regions| == |Names(PanelRates)| == 11
  {
  }

  /** The displayed rate is the engine's base rate for every region, listed
      or not, and the engine charges 1.09 times it under time-of-use. */
  lemma DisplayedRateIsBaseRate(settings: BillSettings)
    ensures DisplayedRate(settings.region) == Calculations.BaseRate(settings.region)
    ensures settings.useTimeOfUse ==> Calculations.EffectiveRate(settings) == DisplayedRate(settings.region) * 1.09
    ensures !settings.useTimeOfUse ==> Calculations.EffectiveRate(settings) == DisplayedRate(settings.region)
    ensures settings.region !in Names(PanelRates) ==> DisplayedRate(settings.region) == 0.16
  {
    PanelRatesAreTheEngineRates();
    Calculations.BaseRateSpec(settings.region);
    Calculations.EffectiveRateSpec(settings);
    LookupSpec(PanelRates, settings.region);
  }

  /** The value one control of the panel sets (`updateSetting(key, value)`). */
  datatype Change =
    | SetRegion(region: string)
    | SetTimeOfUse(useTimeOfUse: bool)
    | SetSeason(season: Season)
    | SetHomeSize(homeSize: HomeSize)
    | SetEfficiency(efficiencyRating: EfficiencyRating)

  /** `{ ...settings, [key]: value }`. */
  function UpdateSetting(settings: BillSettings, change: Change): BillSettings {
    match change
    case SetRegion(r) => settings.(region := r)
    case SetTimeOfUse(t) => settings.(useTimeOfUse := t)
    case SetSeason(s) => settings.(season := s)
    case SetHomeSize(h) => settings.(homeSize := h)
    case SetEfficiency(e) => settings.(efficiencyRating := e)
  }

  /** Which of the five fields a change names. */
  function Field(change: Change): nat {
    match change
    case SetRegion(_) => 0
    case SetTimeOfUse(_) => 1
    case SetSeason(_) => 2
    case SetHomeSize(_) => 3
    case SetEfficiency(_) => 4
  }

  /** The settings as a record of five fields, by position. */
  predicate SameField(a: BillSettings, b: BillSettings, field: nat) {
    match field
    case 0 => a.region == b.region
    case 1 => a.useTimeOfUse == b.useTimeOfUse
    case 2 => a.season == b.season
    case 3 => a.homeSize == b.homeSize
    case _ => a.efficiencyRating == b.efficiencyRating
  }

  /** The change applies: the update keeps every field it does not name, and
      a second update of the same field overrides the first. */
  lemma UpdateSettingSpec(settings: BillSettings, change: Change)
    ensures forall f :: 0 <= f < 5 && f != Field(change) ==> SameField(UpdateSetting(settings, change), settings, f)
    ensures UpdateSetting(UpdateSetting(settings, change), change) == UpdateSetting(settings, change)
    ensures change.SetRegion? ==> UpdateSetting(settings, change).region == change.region
    ensures change.SetTimeOfUse? ==> UpdateSetting(settings, change).useTimeOfUse == change.useTimeOfUse
    ensures change.SetSeason? ==> UpdateSetting(settings, change).season == change.season
    ensures change.SetHomeSize? ==> UpdateSetting(settings, change).homeSize == change.homeSize
    ensures change.SetEfficiency? ==> UpdateSetting(settings, change).efficiencyRating == change.efficiencyRating
  {
  }

  /** Changes to different fields commute, and of two changes to the same
      field the later one wins. */
  lemma UpdatesCompose(settings: BillSettings, c1: Change, c2: Change)
    ensures Field(c1) != Field(c2) ==>
              UpdateSetting(UpdateSetting(settings, c1), c2) == UpdateSetting(UpdateSetting(settings, c2), c1)
    ensures Field(c1) == Field(c2) ==>
              UpdateSetting(UpdateSetting(settings, c1), c2) == UpdateSetting(settings, c2)
  {
  }

  /** Only a change of region or of time-of-use can change the engine's rate. */
  lemma RateDependsOnRegionAndTimeOfUse(settings: BillSettings, change: Change)
    requires change.SetSeason? || change.SetHomeSize? || change.SetEfficiency?
    ensures Calculations.EffectiveRate(UpdateSetting(settings, change)) == Calculations.EffectiveRate(settings)
  {
  }
}
