/** The six kinds of record the screens keep, with the field names they are
    stored under. Every field is the text the form held; `area` is a numeric
    string, `fechaInicio` an opaque date string. Foreign keys (`fincaSeleccionada`,
    `loteSeleccionado`, `role`) are plain names with no integrity check. */
module Records {

  datatype Finca = Finca(fincaName: string, owner: string, description: string, area: string, areaUnit: string)

  datatype Lote = Lote(nombre: string, area: string, unidadMedida: string, ubicacion: string, fincaSeleccionada: string)

  datatype Cultivo = Cultivo(
    tipoArroz: string,
    fechaInicio: string,
    area: string,
    unidadMedida: string,
    fincaSeleccionada: string,
    loteSeleccionado: string)

  datatype Role = Role(roleName: string, description: string)

  datatype User = User(username: string, lastName: string, email: string, role: string)

  datatype Variedad = Variedad(variedadName: string, descripcion: string)
}

/** The device's key-value store. Each key holds one whole list, written and
    read as a single block; the serialised form is not modelled, only which
    list a key holds. */
module Storage {
  import opened Records

  const FincasKey: string := "fincas"
  const LotesKey: string := "lotes"
  const CultivosKey: string := "cultivos"
  const RolesKey: string := "roles"
  const UsersKey: string := "users"
  const VariedadesKey: string := "variedades"

  /** What a key can hold: one list of one kind of record. */
  datatype Stored =
    | FincaList(fincas: seq<Finca>)
    | LoteList(lotes: seq<Lote>)
    | CultivoList(cultivos: seq<Cultivo>)
    | RoleList(roles: seq<Role>)
    | UserList(users: seq<User>)
    | VariedadList(variedades: seq<Variedad>)

  class KeyValueStore {
    var data: map<string, Stored>

    constructor (initial: map<string, Stored>)
      ensures data == initial
    {
      data := initial;
    }

    /** `setItem`: the whole value under `key` is replaced; no other key changes. */
    method SetItem(key: string, value: Stored)
      modifies this
      ensures data == old(data)[key := value]
    {
      data := data[key := value];
    }
  }

  // What a screen's mount-time load yields for each key: the stored list when
  // the key holds one, otherwise the initial empty list (a missing key, or a
  // value that does not parse as that list, both leave the state at `[]`).

  function LoadFincas(data: map<string, Stored>): seq<Finca> {
    if FincasKey in data && data[FincasKey].FincaList? then data[FincasKey].fincas else []
  }

  function LoadLotes(data: map<string, Stored>): seq<Lote> {
    if LotesKey in data && data[LotesKey].LoteList? then data[LotesKey].lotes else []
  }

  function LoadCultivos(data: map<string, Stored>): seq<Cultivo> {
    if CultivosKey in data && data[CultivosKey].CultivoList? then data[CultivosKey].cultivos else []
  }

  function LoadRoles(data: map<string, Stored>): seq<Role> {
    if RolesKey in data && data[RolesKey].RoleList? then data[RolesKey].roles else []
  }

  function LoadUsers(data: map<string, Stored>): seq<User> {
    if UsersKey in data && data[UsersKey].UserList? then data[UsersKey].users else []
  }

  function LoadVariedades(data: map<string, Stored>): seq<Variedad> {
    if VariedadesKey in data && data[VariedadesKey].VariedadList? then data[VariedadesKey].variedades else []
  }

  /** A key whose value is present but does not load as its list: the parse
      throws. An absent key is skipped without an error. */
  predicate FincasUnreadable(data: map<string, Stored>) {
    FincasKey in data && !data[FincasKey].FincaList?
  }

  predicate LotesUnreadable(data: map<string, Stored>) {
    LotesKey in data && !data[LotesKey].LoteList?
  }

  /** Loading a key right after the whole list was written under it gives that
      list back, for each of the six keys; writing one key never changes what
      another key loads as. */
  lemma LoadAfterSave(data: map<string, Stored>, fincas: seq<Finca>, lotes: seq<Lote>, cultivos: seq<Cultivo>,
                      roles: seq<Role>, users: seq<User>, variedades: seq<Variedad>)
    ensures LoadFincas(data[FincasKey := FincaList(fincas)]) == fincas
    ensures LoadLotes(data[LotesKey := LoteList(lotes)]) == lotes
    ensures LoadCultivos(data[CultivosKey := CultivoList(cultivos)]) == cultivos
    ensures LoadRoles(data[RolesKey := RoleList(roles)]) == roles
    ensures LoadUsers(data[UsersKey := UserList(users)]) == users
    ensures LoadVariedades(data[VariedadesKey := VariedadList(variedades)]) == variedades
    ensures LoadLotes(data[FincasKey := FincaList(fincas)]) == LoadLotes(data)
    ensures LoadCultivos(data[FincasKey := FincaList(fincas)]) == LoadCultivos(data)
  {
  }
}
