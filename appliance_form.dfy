/** The appliance form (src/components/ApplianceForm.tsx): the quick-add
    presets, the category list, and the form's state (whether it is open,
    which appliance it edits, and the values entered), whose handlers call
    the appliance-list handlers of the app. */
module ApplianceForm {
  import opened Types
  import opened Lists
  import App
  import Calculations

  /** The five fields the form edits (an appliance without its id). */
  datatype FormData = FormData(
    name: string,
    category: string,
    wattage: real,
    hoursPerDay: real,
    daysPerMonth: real)

  /** The values a fresh form holds. */
  const DefaultForm: FormData := FormData("", "Electronics", 100.0, 1.0, 30.0)

  /** CATEGORIES, in the order of the drop-down. */
  const Categories: seq<string> :=
    ["Heating & Cooling", "Kitchen", "Lighting", "Electronics", "Laundry", "Water Heating", "Other"]

  /** The entries of COMMON_APPLIANCES, by position. */
  function Common(i: nat): FormData
    requires i < 8
  {
    if i == 0 then FormData("Refrigerator", "Kitchen", 150.0, 24.0, 30.0)
    else if i == 1 then FormData("Air Conditioner", "Heating & Cooling", 3500.0, 8.0, 30.0)
    else if i == 2 then FormData("LED Light Bulb", "Lighting", 10.0, 6.0, 30.0)
    else if i == 3 then FormData("Television (LED)", "Electronics", 100.0, 5.0, 30.0)
    else if i == 4 then FormData("Laptop", "Electronics", 65.0, 8.0, 30.0)
    else if i == 5 then FormData("Washing Machine", "Laundry", 1000.0, 1.0, 10.0)
    else if i == 6 then FormData("Water Heater", "Water Heating", 4000.0, 3.0, 30.0)
    else FormData("Microwave", "Kitchen", 1200.0, 0.5, 25.0)
  }

  /** The bounds the form's number inputs impose: at least 1 W, between 0 and
      24 hours a day, between 1 and 31 days a month. */
  predicate WithinFormLimits(f: FormData) {
    f.wattage >= 1.0 && 0.0 <= f.hoursPerDay <= 24.0 && 1.0 <= f.daysPerMonth <= 31.0
  }

  /** The appliance the form's values describe, under a given id. */
  function ApplianceOf(f: FormData, id: string): (a: Appliance)
    ensures FormOf(a) == f && a.id == id
  {
    Appliance(id, f.name, f.category, f.wattage, f.hoursPerDay, f.daysPerMonth)
  }

  /** The five fields handleEdit copies from an appliance. */
  function FormOf(a: Appliance): FormData {
    FormData(a.name, a.category, a.wattage, a.hoursPerDay, a.daysPerMonth)
  }

  /** formData as the partial appliance handed to updateAppliance: all five
      fields, and no id. */
  function PatchOf(f: FormData): (p: App.Patch)
    ensures p.id.None?
  {
    App.Patch(None, Some(f.name), Some(f.category), Some(f.wattage), Some(f.hoursPerDay), Some(f.daysPerMonth))
  }

  /** Editing an appliance and submitting unchanged values gives the appliance
      back; submitting other values changes exactly the five fields. */
  lemma PatchOfSpec(a: Appliance, f: FormData)
    ensures App.Patched(a, PatchOf(FormOf(a))) == a
    ensures App.Patched(a, PatchOf(f)) == ApplianceOf(f, a.id)
  {
  }

  /** Every preset and the fresh form lie within the form's limits, and every
      preset's category is one of the drop-down's. */
  lemma PresetsAreValid(i: nat)
    requires i < 8
    ensures Common(i).category in Categories
    ensures WithinFormLimits(Common(i))
    ensures WithinFormLimits(DefaultForm) && DefaultForm.category in Categories
  {
  }

  /** The form's limits are enough for the engine: an appliance entered
      within them uses no negative energy, whatever the settings. */
  lemma FormLimitsKeepEnergyNonNegative(f: FormData, id: string, settings: BillSettings)
    requires WithinFormLimits(f)
    ensures Calculations.AdjustedKwh(ApplianceOf(f, id), settings) >= 0.0
  {
    Calculations.NonNegativeEnergy(ApplianceOf(f, id), settings);
  }

  /** The ids of a list of appliances, in order. */
  function Ids(apps: seq<Appliance>): (ids: seq<string>)
    ensures |ids| == |apps|
    ensures forall i :: 0 <= i < |apps| ==> ids[i] == apps[i].id
  {
    seq(|apps|, i requires 0 <= i < |apps| => apps[i].id)
  }

  /** The list after `onRemoveAppliance(id)` for each of `ids` in turn. */
  function RemoveEach(apps: seq<Appliance>, ids: seq<string>): seq<Appliance>
    decreases |ids|
  {
    if ids == [] then apps
    else App.WithoutAppliance(RemoveEach(apps, ids[..|ids| - 1]), ids[|ids| - 1])
  }

  function IdNotIn(ids: seq<string>): Appliance -> bool {
    (a: Appliance) => a.id !in ids
  }

  /** Removing two filters in a row is filtering by both. */
  lemma {:induction false} FilterThenRemove(apps: seq<Appliance>, ids: seq<string>, id: string)
    ensures App.WithoutAppliance(Filter(apps, IdNotIn(ids)), id) == Filter(apps, IdNotIn(ids + [id]))
    decreases |apps|
  {
    if apps != [] {
      FilterThenRemove(apps[1..], ids, id);
    }
  }

  /** The removals one at a time keep exactly the appliances whose id is not
      among those removed, in their order. */
  lemma {:induction false} RemoveEachKeepsOthers(apps: seq<Appliance>, ids: seq<string>)
    ensures RemoveEach(apps, ids) == Filter(apps, IdNotIn(ids))
    decreases |ids|
  {
    if ids == [] {
      FilterKeepsAll(apps, IdNotIn(ids));
    } else {
      var init := ids[..|ids| - 1];
      RemoveEachKeepsOthers(apps, init);
      FilterThenRemove(apps, init, ids[|ids| - 1]);
      assert init + [ids[|ids| - 1]] == ids;
    }
  }

  /** Removing the id of every listed appliance empties the list. */
  lemma RemovingAllIdsEmpties(apps: seq<Appliance>)
    ensures RemoveEach(apps, Ids(apps)) == []
  {
    RemoveEachKeepsOthers(apps, Ids(apps));
    forall i | 0 <= i < |apps| ensures !IdNotIn(Ids(apps))(apps[i]) {
      assert Ids(apps)[i] == apps[i].id;
    }
    FilterDropsAll(apps, IdNotIn(Ids(apps)));
  }

  /** The form component's state. */
  class FormView {
    var showForm: bool
    var editingId: Option<string>
    var formData: FormData

    /** The initial state: closed, editing nothing, default values. */
    constructor ()
      ensures !showForm && editingId == None && formData == DefaultForm
    {
      showForm := false;
      editingId := None;
      formData := DefaultForm;
    }

    /** Whether the form edits an appliance: `if (editingId)` is false for
        null and for the empty string. */
    predicate Editing()
      reads this
    {
      editingId.Some? && editingId.value != ""
    }

    /** resetForm: default values, closed, editing nothing. */
    method ResetForm()
      modifies this
      ensures !showForm && editingId == None && formData == DefaultForm
    {
      formData := DefaultForm;
      showForm := false;
      editingId := None;
    }

    /** handleEdit: the form opens on the appliance's values and edits it. */
    method HandleEdit(a: Appliance)
      modifies this
      ensures formData == FormOf(a) && editingId == Some(a.id) && showForm
      ensures Editing() <==> a.id != ""
    {
      formData := FormOf(a);
      editingId := Some(a.id);
      showForm := true;
    }

    /** handleSubmit: update the appliance being edited with the values
        entered, or add them as a new appliance under the id `now` (the clock
        reading, which addAppliance also uses); then reset. */
    method HandleSubmit(app: App.AppState, now: string)
      modifies this, app
      ensures old(Editing()) ==>
                app.State() == old(app.State()).(appliances := App.UpdatedAppliances(old(app.appliances), old(editingId).value, PatchOf(old(formData))))
      ensures !old(Editing()) ==>
                app.State() == old(app.State()).(appliances := App.WithAppliance(old(app.appliances), ApplianceOf(old(formData), now), now))
      ensures !showForm && editingId == None && formData == DefaultForm
    {
      if Editing() {
        app.UpdateAppliance(editingId.value, PatchOf(formData));
        editingId := None;
      } else {
        app.AddAppliance(ApplianceOf(formData, now), now);
      }
      ResetForm();
    }

    /** addCommonAppliance: preset `i` is added under the id `now`; the form
        is not touched. */
    method AddCommonAppliance(app: App.AppState, i: nat, now: string)
      requires i < 8
      modifies app
      ensures app.State() == old(app.State()).(appliances := App.WithAppliance(old(app.appliances), ApplianceOf(Common(i), now), now))
    {
      app.AddAppliance(ApplianceOf(Common(i), now), now);
    }

    /** handleResetAllAppliances: nothing without appliances or without the
        user's confirmation; otherwise every listed appliance is removed, one
        id at a time, which empties the list, and an open form is reset. */
    method HandleResetAllAppliances(app: App.AppState, confirmed: bool)
      modifies this, app
      ensures old(app.appliances) == [] || !confirmed ==>
                app.State() == old(app.State()) && showForm == old(showForm)
                && editingId == old(editingId) && formData == old(formData)
      ensures old(app.appliances) != [] && confirmed ==>
                app.State() == old(app.State()).(appliances := [])
      ensures old(app.appliances) != [] && confirmed && old(showForm) ==>
                !showForm && editingId == None && formData == DefaultForm
      ensures old(app.appliances) != [] && confirmed && !old(showForm) ==>
                showForm == old(showForm) && editingId == old(editingId) && formData == old(formData)
    {
      if |app.appliances| == 0 {
        return;
      }
      if confirmed {
        var appliances := app.appliances;
        var ids := Ids(appliances);
        var i := 0;
        while i < |ids|
          invariant 0 <= i <= |ids|
          invariant app.State() == old(app.State()).(appliances := RemoveEach(appliances, ids[..i]))
          invariant showForm == old(showForm) && editingId == old(editingId) && formData == old(formData)
        {
          app.RemoveAppliance(ids[i]);
          assert ids[..i + 1][..i] == ids[..i];
          i := i + 1;
        }
        assert ids[..i] == ids;
        RemovingAllIdsEmpties(appliances);
        if showForm {
          ResetForm();
        }
      }
    }
  }
}
