/** The rice-variety screen: a list of varieties, a name and a description in
    the form, the index of the variety being edited, and an effect that writes
    the whole list under "variedades" whenever it changes. */
module Variedades {
  import opened Collection
  import opened Records
  import opened Storage

  /** The save guard: neither field may be the empty string. */
  predicate Complete(v: Variedad) {
    v.variedadName != "" && v.descripcion != ""
  }

  /** The form as it starts and as a successful save leaves it. */
  const BlankForm: Variedad := Variedad("", "")

  class VariedadesArroz {
    const storage: KeyValueStore
    var variedades: seq<Variedad>
    var variedadName: string
    var descripcion: string
    var editingIndex: Option<nat>

    /** The record the form fields describe. */
    function Form(): Variedad
      reads this
    {
      Variedad(variedadName, descripcion)
    }

    /** The save-on-change effect keeps the stored list equal to the list on screen. */
    ghost predicate Synced()
      reads this, storage
    {
      VariedadesKey in storage.data && storage.data[VariedadesKey] == VariedadList(variedades)
    }

    /** Mounting the screen: the stored list is loaded and the save effect
        writes the list back. */
    constructor (storage: KeyValueStore)
      modifies storage
      ensures this.storage == storage
      ensures variedades == LoadVariedades(old(storage.data))
      ensures Form() == BlankForm && editingIndex == None
      ensures storage.data == old(storage.data)[VariedadesKey := VariedadList(variedades)]
      ensures Synced()
    {
      this.storage := storage;
      variedades := LoadVariedades(storage.data);
      variedadName, descripcion := "", "";
      editingIndex := None;
      new;
      storage.SetItem(VariedadesKey, VariedadList(variedades));
    }

    /** `handleAgregarVariedad`. An incomplete form changes nothing. Otherwise
        `{variedadName, descripcion}` is appended, or assigned at the edited
        position, the edit ends, the form is cleared, and the new list is
        stored. */
    method Save()
      requires Synced()
      requires editingIndex.Some? ==> editingIndex.value < |variedades|
      modifies this, storage
      ensures Synced()
      ensures !Complete(old(Form())) ==> unchanged(this) && unchanged(storage)
      ensures Complete(old(Form())) ==>
        && variedades == Upsert(old(variedades), old(editingIndex), old(Form()))
        && editingIndex == None
        && Form() == BlankForm
        && storage.data == old(storage.data)[VariedadesKey := VariedadList(variedades)]
    {
      var newVariedad := Form();
      if !Complete(newVariedad) {
        return;
      }
      variedades := Upsert(variedades, editingIndex, newVariedad);
      editingIndex := None;
      variedadName, descripcion := "", "";
      storage.SetItem(VariedadesKey, VariedadList(variedades));
    }

    /** `handleEditVariedad`: the variety at a rendered row is loaded into the
        form and becomes the one being edited. */
    method Edit(index: int)
      requires 0 <= index < |variedades|
      modifies this
      ensures variedades == old(variedades)
      ensures Form() == variedades[index] && editingIndex == Some(index)
    {
      var variedad := variedades[index];
      variedadName, descripcion := variedad.variedadName, variedad.descripcion;
      editingIndex := Some(index);
    }

    /** `handleDeleteVariedad`: the position is filtered out (no change when it
        is out of range) and the new list is stored. The form and
        `editingIndex` are left as they were. */
    method Delete(index: int)
      requires Synced()
      modifies this, storage
      ensures Synced()
      ensures variedades == RemoveAt(old(variedades), index)
      ensures Form() == old(Form()) && editingIndex == old(editingIndex)
      ensures storage.data == old(storage.data)[VariedadesKey := VariedadList(variedades)]
    {
      variedades := RemoveAt(variedades, index);
      storage.SetItem(VariedadesKey, VariedadList(variedades));
    }
  }

  /** Editing a row and saving straight away leaves the list as it was. */
  method EditThenSave(screen: VariedadesArroz, index: int)
    requires screen.Synced() && 0 <= index < |screen.variedades|
    modifies screen, screen.storage
    ensures screen.Synced()
    ensures screen.variedades == old(screen.variedades)
    ensures screen.editingIndex == if Complete(old(screen.variedades[index])) then None else Some(index)
  {
    screen.Edit(index);
    UpsertOwnElement(screen.variedades, index);
    screen.Save();
  }
}
