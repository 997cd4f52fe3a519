/** The farm screen: a list of farms, a five-field form, the index of the farm
    being edited, and an effect that writes the whole list under "fincas"
    whenever the list changes. */
module Fincas {
  import opened Collection
  import opened Records
  import opened Storage

  /** The save guard: no field of the form may be the empty string. */
  predicate Complete(f: Finca) {
    f.fincaName != "" && f.owner != "" && f.description != "" && f.area != "" && f.areaUnit != ""
  }

  /** The form as it starts and as a successful save leaves it. */
  const BlankForm: Finca := Finca("", "", "", "", "")

  class FincaComponent {
    const storage: KeyValueStore
    var fincas: seq<Finca>
    var fincaName: string
    var owner: string
    var description: string
    var area: string
    var areaUnit: string
    var editingIndex: Option<nat>

    /** The record the form fields describe. */
    function Form(): Finca
      reads this
    {
      Finca(fincaName, owner, description, area, areaUnit)
    }

    /** The save-on-change effect keeps the stored list equal to the list on screen. */
    ghost predicate Synced()
      reads this, storage
    {
      FincasKey in storage.data && storage.data[FincasKey] == FincaList(fincas)
    }

    /** Mounting the screen: the stored list is loaded and the save effect
        writes the list back, so the store and the screen agree. */
    constructor (storage: KeyValueStore)
      modifies storage
      ensures this.storage == storage
      ensures fincas == LoadFincas(old(storage.data))
      ensures Form() == BlankForm && editingIndex == None
      ensures storage.data == old(storage.data)[FincasKey := FincaList(fincas)]
      ensures Synced()
    {
      this.storage := storage;
      fincas := LoadFincas(storage.data);
      fincaName, owner, description, area, areaUnit := "", "", "", "", "";
      editingIndex := None;
      new;
      storage.SetItem(FincasKey, FincaList(fincas));
    }

    /** `handleSaveFinca`. An incomplete form changes nothing. Otherwise the
        form's record is appended, or assigned at the edited position, the edit
        ends, the form is cleared, and the new list is stored. */
    method Save()
      requires Synced()
      requires editingIndex.Some? ==> editingIndex.value < |fincas|
      modifies this, storage
      ensures Synced()
      ensures !Complete(old(Form())) ==> unchanged(this) && unchanged(storage)
      ensures Complete(old(Form())) ==>
        && fincas == Upsert(old(fincas), old(editingIndex), old(Form()))
        && editingIndex == None
        && Form() == BlankForm
        && storage.data == old(storage.data)[FincasKey := FincaList(fincas)]
    {
      var newFinca := Form();
      if !Complete(newFinca) {
        return;
      }
      fincas := Upsert(fincas, editingIndex, newFinca);
      editingIndex := None;
      fincaName, owner, description, area, areaUnit := "", "", "", "", "";
      storage.SetItem(FincasKey, FincaList(fincas));
    }

    /** `handleDeleteFinca`: the position is filtered out (no change when it is
        out of range) and the new list is stored. The form and `editingIndex`
        are left as they were. */
    method Delete(index: int)
      requires Synced()
      modifies this, storage
      ensures Synced()
      ensures fincas == RemoveAt(old(fincas), index)
      ensures Form() == old(Form()) && editingIndex == old(editingIndex)
      ensures storage.data == old(storage.data)[FincasKey := FincaList(fincas)]
    {
      fincas := RemoveAt(fincas, index);
      storage.SetItem(FincasKey, FincaList(fincas));
    }

    /** `handleEditFinca`: the farm at a rendered row is loaded into the form
        and becomes the one being edited; the list is untouched. */
    method Edit(index: int)
      requires 0 <= index < |fincas|
      modifies this
      ensures fincas == old(fincas)
      ensures Form() == fincas[index] && editingIndex == Some(index)
    {
      var finca := fincas[index];
      fincaName, owner, description, area, areaUnit := finca.fincaName, finca.owner, finca.description, finca.area, finca.areaUnit;
      editingIndex := Some(index);
    }
  }

  /** Editing a row and saving straight away leaves the list as it was: either
      the loaded record is complete and is written back where it came from, or
      the guard refuses the save and the edit stays open. */
  method EditThenSave(screen: FincaComponent, index: int)
    requires screen.Synced() && 0 <= index < |screen.fincas|
    modifies screen, screen.storage
    ensures screen.Synced()
    ensures screen.fincas == old(screen.fincas)
    ensures screen.editingIndex == if Complete(old(screen.fincas[index])) then None else Some(index)
  {
    screen.Edit(index);
    UpsertOwnElement(screen.fincas, index);
    screen.Save();
  }
}
