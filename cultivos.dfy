/** The crop screen: a list of crops, a six-field form (rice type, start date,
    area, unit, farm and plot), the index of the crop being edited, and the
    farms and plots loaded for the two pickers. The plot picker offers only
    the plots of the selected farm. This screen writes "cultivos" itself after
    each save and delete; it has no save-on-change effect. */
module Cultivos {
  import opened Collection
  import opened Records
  import opened Storage

  /** `lotes.filter((lote) => lote.fincaSeleccionada === finca)`: the plots
      whose farm name equals `finca` exactly, in their original order. */
  function FilterByFarm(lotes: seq<Lote>, finca: string): (r: seq<Lote>)
    ensures |r| <= |lotes|
    ensures forall k :: 0 <= k < |r| ==> r[k].fincaSeleccionada == finca
    ensures forall l :: l in r <==> l in lotes && l.fincaSeleccionada == finca
  {
    if lotes == [] then []
    else
      var rest := FilterByFarm(lotes[1..], finca);
      assert lotes == [lotes[0]] + lotes[1..];
      if lotes[0].fincaSeleccionada == finca then [lotes[0]] + rest else rest
  }

  /** Each plot of the selected farm is offered as many times as it occurs in
      the list, and no other plot is offered at all. */
  lemma {:induction false} FilterByFarmCounts(lotes: seq<Lote>, finca: string, l: Lote)
    ensures multiset(FilterByFarm(lotes, finca))[l] == if l.fincaSeleccionada == finca then multiset(lotes)[l] else 0
  {
    if lotes != [] {
      assert lotes == [lotes[0]] + lotes[1..];
      FilterByFarmCounts(lotes[1..], finca, l);
    }
  }

  /** The filter keeps the order of the plots: filtering a concatenation is
      the concatenation of the filtered parts. */
  lemma {:induction false} FilterByFarmAppend(a: seq<Lote>, b: seq<Lote>, finca: string)
    ensures FilterByFarm(a + b, finca) == FilterByFarm(a, finca) + FilterByFarm(b, finca)
  {
    if a == [] {
      assert a + b == b;
    } else {
      assert (a + b)[1..] == a[1..] + b;
      FilterByFarmAppend(a[1..], b, finca);
    }
  }

  /** Filtering by the farm of a plot, after appending that plot, shows it as
      the last plot offered. */
  lemma FilterByFarmAppendOne(lotes: seq<Lote>, lote: Lote)
    ensures FilterByFarm(lotes + [lote], lote.fincaSeleccionada) == FilterByFarm(lotes, lote.fincaSeleccionada) + [lote]
  {
    FilterByFarmAppend(lotes, [lote], lote.fincaSeleccionada);
    assert [lote][1..] == [];
  }

  /** The save guard: no field of the form may be the empty string. The start
      date is not checked; the date picker always holds a date. */
  predicate Complete(c: Cultivo) {
    c.tipoArroz != "" && c.area != "" && c.unidadMedida != "" && c.fincaSeleccionada != "" && c.loteSeleccionado != ""
  }

  /** The form as it starts and as a successful save leaves it: every text
      field empty, the date back at the current day. */
  function BlankForm(today: string): Cultivo {
    Cultivo("", today, "", "", "", "")
  }

  class AgregarCultivo {
    const storage: KeyValueStore
    var cultivos: seq<Cultivo>
    var fincas: seq<Finca>
    var lotes: seq<Lote>
    var tipoArroz: string
    var fechaInicio: string
    var area: string
    var unidadMedida: string
    var fincaSeleccionada: string
    var loteSeleccionado: string
    var editingIndex: Option<nat>

    /** The record the form fields describe (the date already in its stored
        `YYYY-MM-DD` form). */
    function Form(): Cultivo
      reads this
    {
      Cultivo(tipoArroz, fechaInicio, area, unidadMedida, fincaSeleccionada, loteSeleccionado)
    }

    /** `lotesFiltrados`: the plots the plot picker offers. */
    function LotesFiltrados(): seq<Lote>
      reads this
    {
      FilterByFarm(lotes, fincaSeleccionada)
    }

    /** Mounting the screen loads farms, then plots, then crops, in one
        attempt: a stored value that does not parse ends the attempt, and the
        lists after it stay empty. Nothing is written. `today` is the date the
        date picker starts at. */
    constructor (storage: KeyValueStore, today: string)
      ensures this.storage == storage
      ensures fincas == LoadFincas(storage.data)
      ensures lotes == if FincasUnreadable(storage.data) then [] else LoadLotes(storage.data)
      ensures cultivos ==
        if FincasUnreadable(storage.data) || LotesUnreadable(storage.data) then [] else LoadCultivos(storage.data)
      ensures Form() == BlankForm(today) && editingIndex == None
    {
      this.storage := storage;
      fincas := LoadFincas(storage.data);
      lotes, cultivos := [], [];
      if !FincasUnreadable(storage.data) {
        lotes := LoadLotes(storage.data);
        if !LotesUnreadable(storage.data) {
          cultivos := LoadCultivos(storage.data);
        }
      }
      tipoArroz, fechaInicio, area, unidadMedida, fincaSeleccionada, loteSeleccionado := "", today, "", "", "", "";
      editingIndex := None;
    }

    /** `handleAgregarCultivo`. An incomplete form changes nothing. Otherwise
        the form's record, with the farm and plot names copied verbatim, is
        appended or assigned at the edited position, the edit ends, the new
        list is stored under "cultivos", and the form is cleared with the date
        back at `today`. The farm and plot lists are not touched. */
    method Save(today: string)
      requires editingIndex.Some? ==> editingIndex.value < |cultivos|
      modifies this`cultivos, this`editingIndex, storage
      modifies this`tipoArroz, this`fechaInicio, this`area, this`unidadMedida, this`fincaSeleccionada, this`loteSeleccionado
      ensures !Complete(old(Form())) ==> unchanged(this) && unchanged(storage)
      ensures Complete(old(Form())) ==>
        && cultivos == Upsert(old(cultivos), old(editingIndex), old(Form()))
        && editingIndex == None
        && Form() == BlankForm(today)
        && storage.data == old(storage.data)[CultivosKey := CultivoList(cultivos)]
    {
      var newCultivo := Form();
      if !Complete(newCultivo) {
        return;
      }
      cultivos := Upsert(cultivos, editingIndex, newCultivo);
      editingIndex := None;
      tipoArroz, fechaInicio, area, unidadMedida, fincaSeleccionada, loteSeleccionado := "", today, "", "", "", "";
      storage.SetItem(CultivosKey, CultivoList(cultivos));
    }

    /** `handleEditCultivo`: the crop at a rendered row is loaded into the
        form, its stored date into the date picker, and becomes the one being
        edited; nothing is written. */
    method Edit(index: int)
      requires 0 <= index < |cultivos|
      modifies this
      ensures cultivos == old(cultivos) && fincas == old(fincas) && lotes == old(lotes)
      ensures Form() == cultivos[index] && editingIndex == Some(index)
    {
      var cultivo := cultivos[index];
      tipoArroz, fechaInicio, area := cultivo.tipoArroz, cultivo.fechaInicio, cultivo.area;
      unidadMedida, fincaSeleccionada, loteSeleccionado := cultivo.unidadMedida, cultivo.fincaSeleccionada, cultivo.loteSeleccionado;
      editingIndex := Some(index);
    }

    /** `handleDeleteCultivo`: the position is filtered out (no change when it
        is out of range) and the new list is stored under "cultivos". Only
        the list and the store change: the form and `editingIndex` stay. */
    method Delete(index: int)
      modifies this`cultivos, storage
      ensures cultivos == RemoveAt(old(cultivos), index)
      ensures storage.data == old(storage.data)[CultivosKey := CultivoList(cultivos)]
    {
      cultivos := RemoveAt(cultivos, index);
      storage.SetItem(CultivosKey, CultivoList(cultivos));
    }

    /** The farm picker: choosing a farm also clears the chosen plot, so the
        form is incomplete until a plot of that farm is picked. */
    method ChooseFarm(finca: string)
      modifies this
      ensures fincaSeleccionada == finca && loteSeleccionado == ""
      ensures !Complete(Form())
      ensures tipoArroz == old(tipoArroz) && fechaInicio == old(fechaInicio) && area == old(area)
      ensures unidadMedida == old(unidadMedida) && editingIndex == old(editingIndex)
      ensures cultivos == old(cultivos) && fincas == old(fincas) && lotes == old(lotes)
    {
      fincaSeleccionada := finca;
      loteSeleccionado := "";
    }

    /** The plot picker: it lists `lotesFiltrados` and stores the chosen plot's
        name, so the chosen name is that of a plot of the selected farm. */
    method ChooseLote(position: int)
      requires 0 <= position < |LotesFiltrados()|
      modifies this`loteSeleccionado
      ensures loteSeleccionado == old(LotesFiltrados())[position].nombre
      ensures exists l :: l in lotes && l.fincaSeleccionada == fincaSeleccionada && l.nombre == loteSeleccionado
    {
      var lote := LotesFiltrados()[position];
      assert lote in LotesFiltrados();
      loteSeleccionado := lote.nombre;
    }
  }

  /** Editing a row and saving straight away leaves the list as it was. */
  method EditThenSave(screen: AgregarCultivo, index: int, today: string)
    requires 0 <= index < |screen.cultivos|
    modifies screen, screen.storage
    ensures screen.cultivos == old(screen.cultivos)
    ensures screen.editingIndex == if Complete(old(screen.cultivos[index])) then None else Some(index)
  {
    screen.Edit(index);
    UpsertOwnElement(screen.cultivos, index);
    screen.Save(today);
  }
}
