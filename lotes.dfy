/** The plot screen: a list of plots, a five-field form whose unit starts at
    "m2", the index of the plot being edited, and the farm list for the farm
    picker. This screen writes "lotes" itself after each save and delete; it
    has no save-on-change effect. */
module Lotes {
  import opened Collection
  import opened Records
  import opened Storage

  /** The unit the form starts with and returns to after a save. */
  const DefaultUnit: string := "m2"

  /** The save guard: no field of the form may be the empty string. */
  predicate Complete(l: Lote) {
    l.nombre != "" && l.area != "" && l.unidadMedida != "" && l.ubicacion != "" && l.fincaSeleccionada != ""
  }

  /** The form as it starts and as a successful save leaves it. */
  const BlankForm: Lote := Lote("", "", DefaultUnit, "", "")

  class AgregarLote {
    const storage: KeyValueStore
    var lotes: seq<Lote>
    var fincas: seq<Finca>
    var nombre: string
    var area: string
    var unidadMedida: string
    var ubicacion: string
    var fincaSeleccionada: string
    var editingIndex: Option<nat>

    /** The record the form fields describe. */
    function Form(): Lote
      reads this
    {
      Lote(nombre, area, unidadMedida, ubicacion, fincaSeleccionada)
    }

    /** Mounting the screen loads the farms, then the plots, in one attempt:
        when the stored farms do not parse, the error ends the attempt and the
        plots stay empty too. Nothing is written. */
    constructor (storage: KeyValueStore)
      ensures this.storage == storage
      ensures fincas == LoadFincas(storage.data)
      ensures lotes == if FincasUnreadable(storage.data) then [] else LoadLotes(storage.data)
      ensures Form() == BlankForm && editingIndex == None
    {
      this.storage := storage;
      fincas := LoadFincas(storage.data);
      lotes := if FincasUnreadable(storage.data) then [] else LoadLotes(storage.data);
      nombre, area, unidadMedida, ubicacion, fincaSeleccionada := "", "", DefaultUnit, "", "";
      editingIndex := None;
    }

    /** `handleAgregarLote`. An incomplete form changes nothing. Otherwise the
        form's record is appended, or assigned at the edited position, the edit
        ends, the new list is stored under "lotes", and the form is cleared
        with the unit back at "m2". */
    method Save()
      requires editingIndex.Some? ==> editingIndex.value < |lotes|
      modifies this, storage
      ensures !Complete(old(Form())) ==> unchanged(this) && unchanged(storage)
      ensures Complete(old(Form())) ==>
        && lotes == Upsert(old(lotes), old(editingIndex), old(Form()))
        && editingIndex == None
        && Form() == BlankForm
        && storage.data == old(storage.data)[LotesKey := LoteList(lotes)]
      ensures fincas == old(fincas)
    {
      var newLote := Form();
      if !Complete(newLote) {
        return;
      }
      lotes := Upsert(lotes, editingIndex, newLote);
      editingIndex := None;
      storage.SetItem(LotesKey, LoteList(lotes));
      nombre, area, unidadMedida, ubicacion, fincaSeleccionada := "", "", DefaultUnit, "", "";
    }

    /** `handleEditLote`: the plot at a rendered row is loaded into the form
        and becomes the one being edited; nothing is written. */
    method Edit(index: int)
      requires 0 <= index < |lotes|
      modifies this
      ensures lotes == old(lotes) && fincas == old(fincas)
      ensures Form() == lotes[index] && editingIndex == Some(index)
    {
      var lote := lotes[index];
      nombre, area, unidadMedida, ubicacion, fincaSeleccionada := lote.nombre, lote.area, lote.unidadMedida, lote.ubicacion, lote.fincaSeleccionada;
      editingIndex := Some(index);
    }

    /** `handleDeleteLote`: the position is filtered out (no change when it is
        out of range) and the new list is stored under "lotes". The form and
        `editingIndex` are left as they were. */
    method Delete(index: int)
      modifies this, storage
      ensures lotes == RemoveAt(old(lotes), index) && fincas == old(fincas)
      ensures Form() == old(Form()) && editingIndex == old(editingIndex)
      ensures storage.data == old(storage.data)[LotesKey := LoteList(lotes)]
    {
      lotes := RemoveAt(lotes, index);
      storage.SetItem(LotesKey, LoteList(lotes));
    }
  }

  /** Editing a row and saving straight away leaves the list as it was. */
  method EditThenSave(screen: AgregarLote, index: int)
    requires 0 <= index < |screen.lotes|
    modifies screen, screen.storage
    ensures screen.lotes == old(screen.lotes)
    ensures screen.editingIndex == if Complete(old(screen.lotes[index])) then None else Some(index)
  {
    screen.Edit(index);
    UpsertOwnElement(screen.lotes, index);
    screen.Save();
  }
}
