# Farm-management screens: create, edit and delete over stored lists

This project models the record-keeping core of a mobile farm-management app.
The app has six screens: farms (`fincas`), plots (`lotes`), crops (`cultivos`),
roles, users and rice varieties (`variedades`). Each screen keeps:

- an in-memory list of records, where a record is identified only by its position;
- the text fields of a form;
- `editingIndex`, which is either null or the position of the record being edited;
- the whole list, written to the device's key-value store under a fixed key.

Every screen's handlers follow one pattern:

- **Save** refuses an incomplete form and changes nothing.
- Otherwise save appends the form's record, or assigns it at `editingIndex` and ends the edit. It then clears the form.
- **Delete** filters one position out of the list.
- **Edit** loads a record back into the form.

Two screens add derived values:

- The crop screen's plot picker lists only the plots of the selected farm. This uses exact string equality on the farm name.
- The role screen names each role `base + " " + (count + 1)`. Here `count` is the number of existing roles whose name starts with `base`.

Layout, one module per file:

- `collection.dfy`, module `Collection`: the shared list operations.
  - `Upsert` is save's append-or-replace.
  - `RemoveAt` is the delete filter. It is written element by element from the end of the list, and proved equal to slicing.
- `records.dfy`, modules `Records` and `Storage`: the six record types, the store keys, and the store as a class `KeyValueStore` over `map<string, Stored>`.
  - `Stored` says which kind of list a key holds.
  - The `Load…` functions give what a screen's mount-time load yields.
- `fincas.dfy`, `lotes.dfy`, `cultivos.dfy`, `roles.dfy`, `users.dfy`, `variedades.dfy`: one class per screen, named after the screen's component. Its fields are the screen's state, and its methods are the handlers.
  - The farm, role, user and variety screens write the list from an effect that runs whenever the list changes. Their classes keep `Synced()`, meaning the stored list equals the list on screen. The constructor models mounting as it settles: the effect's first run writes the initial `[]`, the load sets the list, and the effect's next run writes the loaded list. Only that last write is visible in the final store.
  - The plot and crop screens write the store themselves after save and delete. Their constructors only load. They read several keys inside one `try`, so a value that does not parse ends the load, and every key after it stays `[]`.
- Typing into a text field or choosing from a plain picker is a direct assignment to the class field. The crop screen's farm and plot pickers are methods, `ChooseFarm` and `ChooseLote`, because they do more than assign.
- Each screen module ends with a client method, `EditThenSave`. It shows what edit followed at once by save does to the list.

Three behaviours of the code that are easy to miss:

- Delete at an out-of-range index is a silent no-op (the position filter), not an error.
- A stored value that does not load as the expected list leaves the screen's list empty. The mount-time error is caught and only written to the console; the user sees nothing.
- Delete never resets `editingIndex`. `Collection.StaleEditIndex` proves the consequence. If a row before the edited one is deleted, the next save overwrites the record after the edited one, and the edited record survives.

## Model

| member | source | states |
|---|---|---|
| Collection.Upsert | src/screens/FincaComponent.js:55-64 | With no edit in progress the list grows by one and ends with the record. With an edit at `i` the length is kept and position `i` holds the record. Every other position is unchanged. |
| Collection.RemoveAt | src/screens/FincaComponent.js:76 | The position filter equals the list with that one slice removed when the index is in range. Otherwise it is the list unchanged. |
| Collection.RemoveAtShifts | src/screens/AgregarLote.js:87 | Delete at a valid index leaves one element fewer. Earlier elements stay in place and later ones shift down by one. The multiset loses exactly the deleted record. |
| Collection.UpsertOwnElement | src/data/VariedadesArroz.js:47-51 | Assigning a record back at the position it came from leaves the list equal to before. |
| Collection.StaleEditIndex | src/screens/FincaComponent.js:55-78 | Delete keeps `editingIndex`. After deleting an earlier row, save replaces the record that followed the edited one and keeps the edited one. |
| Storage.KeyValueStore.SetItem | src/screens/AgregarLote.js:36-42 | Writing a key replaces that key's whole value and no other key. |
| Storage.LoadAfterSave | src/screens/AgregarCultivo.js:24-46 | Loading a key after its list was written gives that list back, for each of the six keys. Writing the farms key does not change what the plots or crops keys load as, so a farm rename does not reach the plots. |
| Fincas.FincaComponent.constructor | src/screens/FincaComponent.js:11-44 | Mount loads the stored farms, or `[]`. The form is empty and no edit is open. The save effect then stores the loaded list. |
| Fincas.FincaComponent.Save | src/screens/FincaComponent.js:47-72 | An empty field leaves the whole screen and the store unchanged. Otherwise the list becomes `Upsert(old list, editingIndex, form)`. The edit ends, all five fields are cleared, and the store holds the new list. |
| Fincas.FincaComponent.Delete | src/screens/FincaComponent.js:75-78 | The list becomes `RemoveAt(old list, index)`. The form and `editingIndex` are kept, and the store holds the new list. |
| Fincas.FincaComponent.Edit | src/screens/FincaComponent.js:81-89 | The form equals the farm at `index` and `editingIndex` is `index`. The list and the store are untouched. |
| Fincas.EditThenSave | src/screens/FincaComponent.js:47-89 | Edit followed by save leaves the farm list equal to before. The edit ends exactly when the loaded farm is complete. |
| Lotes.AgregarLote.constructor | src/screens/AgregarLote.js:7-34 | Mount loads the stored farms, then the plots. If the stored farms do not parse, the plots stay `[]` as well. The form starts empty with unit "m2", and nothing is written. |
| Lotes.AgregarLote.Save | src/screens/AgregarLote.js:44-74 | An empty field changes nothing. Otherwise the list becomes `Upsert(old list, editingIndex, form)` and the edit ends. "lotes" holds the new list, and the form is cleared with the unit back at "m2". |
| Lotes.AgregarLote.Edit | src/screens/AgregarLote.js:76-84 | All five fields of the plot at `index` are loaded, and `editingIndex` is `index`. |
| Lotes.AgregarLote.Delete | src/screens/AgregarLote.js:86-90 | The list becomes `RemoveAt(old list, index)`, and "lotes" holds exactly the new list. |
| Lotes.EditThenSave | src/screens/AgregarLote.js:44-84 | Edit followed by save leaves the plot list equal to before. |
| Cultivos.FilterByFarm | src/screens/AgregarCultivo.js:112 | A plot is offered exactly when it is in the list and its farm name equals the selection. No more plots are offered than exist. |
| Cultivos.FilterByFarmCounts | src/screens/AgregarCultivo.js:112 | Each plot of the selected farm is offered as many times as it occurs in the list. Plots of other farms are never offered. |
| Cultivos.FilterByFarmAppend | src/screens/AgregarCultivo.js:112 | The filter keeps the original order: filtering a concatenation concatenates the filtered parts. |
| Cultivos.FilterByFarmAppendOne | src/screens/AgregarCultivo.js:112 | A plot appended to the list is offered last under its own farm. |
| Cultivos.AgregarCultivo.constructor | src/screens/AgregarCultivo.js:11-46 | Mount loads farms, then plots, then crops. A value that does not parse leaves every later list `[]`. The form is empty with today's date, and nothing is written. |
| Cultivos.AgregarCultivo.Save | src/screens/AgregarCultivo.js:56-92 | An empty field, not counting the date, changes nothing. Otherwise the form's record is saved with farm and plot names copied verbatim, via `Upsert`. The edit ends and "cultivos" holds the new list. The fields are cleared and the date is reset to today. |
| Cultivos.AgregarCultivo.Edit | src/screens/AgregarCultivo.js:94-103 | The crop at `index` is loaded into the form, including its date, and `editingIndex` is `index`. |
| Cultivos.AgregarCultivo.Delete | src/screens/AgregarCultivo.js:105-109 | The list becomes `RemoveAt(old list, index)`, and "cultivos" holds exactly the new list. |
| Cultivos.AgregarCultivo.ChooseFarm | src/screens/AgregarCultivo.js:167-172 | Choosing a farm sets it and clears the chosen plot, so the form is incomplete. Nothing else changes. |
| Cultivos.AgregarCultivo.ChooseLote | src/screens/AgregarCultivo.js:182-191 | A plot picked from the filtered list names a plot of the selected farm. |
| Cultivos.EditThenSave | src/screens/AgregarCultivo.js:56-103 | Edit followed by save leaves the crop list equal to before. |
| Roles.CountPrefix | src/screens/RolesComponent.js:54 | The count is at most the list length. It is 0 exactly when no name starts with the base, and the full length exactly when every name does. |
| Roles.CountPrefixAppend | src/screens/RolesComponent.js:54 | Appending a role adds one to the count exactly when its name starts with the base. |
| Roles.Decimal | src/screens/RolesComponent.js:55 | The rendered number is non-empty and all digits, and starts with '0' only when the number is 0. |
| Roles.DecimalRoundTrip | src/screens/RolesComponent.js:55 | Reading back the decimal text of a number gives the number. |
| Roles.NextRoleName | src/screens/RolesComponent.js:54-55 | The generated name starts with the base, then a space, then at least one digit and nothing but digits. |
| Roles.NextRoleNameParts | src/screens/RolesComponent.js:54-55 | The generated name is the base, a space, then digits. Those digits read back as the prefix count plus one. |
| Roles.FirstRoleName | src/screens/RolesComponent.js:54-55 | When no role starts with the base, the name is `base + " 1"`. |
| Roles.SecondRoleName | src/screens/RolesComponent.js:54-55 | With one role "Operario 1", the next "Operario" role is named "Operario 2". |
| Roles.AddingRoleAdvancesCount | src/screens/RolesComponent.js:54-67 | Appending a role with the generated name raises that base's count by one, so successive roles are numbered 1, 2, 3, and so on. |
| Roles.DeletedRoleNameReused | src/screens/RolesComponent.js:54-79 | After "Operario 1" is deleted from ["Operario 1", "Operario 2"], the next generated name is "Operario 2" again. |
| Roles.BaseName | src/screens/RolesComponent.js:84 | `split(' ')[0]` is a space-free prefix of the name, followed in the name by a space or by its end. |
| Roles.BaseNameBeforeSpace | src/screens/RolesComponent.js:84 | The base of `part + " " + rest` is `part` when `part` has no space. |
| Roles.BaseNameOfNextRoleName | src/screens/RolesComponent.js:82-86 | Editing a generated role loads back the space-free base it was generated from. |
| Roles.PredefinedRolesHaveNoSpace | src/screens/RolesComponent.js:9 | None of the three pickable base roles contains a space. |
| Roles.EditRenumbersRole | src/screens/RolesComponent.js:54-86 | The count includes the role being edited, so editing the only role "Operario 1" and saving renames it "Operario 2". |
| Roles.RolesComponent.constructor | src/screens/RolesComponent.js:12-44 | Mount loads the stored roles, or `[]`. The form is empty, and the save effect stores the loaded list. |
| Roles.RolesComponent.Save | src/screens/RolesComponent.js:47-73 | An empty base or description changes nothing. Otherwise `{NextRoleName(old list, base), description}` is saved via `Upsert`, counting over the list before replacement. The edit ends, both fields are cleared, and the store holds the new list. |
| Roles.RolesComponent.Delete | src/screens/RolesComponent.js:76-79 | The list becomes `RemoveAt(old list, index)`. The form and `editingIndex` are kept, and the store holds the new list. |
| Roles.RolesComponent.Edit | src/screens/RolesComponent.js:82-87 | The base of the role's name and its description are loaded, and `editingIndex` is `index`. |
| Roles.EditThenSave | src/screens/RolesComponent.js:47-87 | Edit followed by save keeps the length and every other role. The edited role is renamed by a count over the whole list, itself included. |
| Users.UsersComponent.constructor | src/screens/UsersComponent.js:12-46 | Mount loads the stored users, or `[]`. The form is empty, and the save effect stores the loaded list. |
| Users.UsersComponent.Save | src/screens/UsersComponent.js:49-73 | An empty field leaves everything unchanged. Otherwise `{username, lastName, email, role: selectedRole}` is saved via `Upsert`. The edit ends, the four fields are cleared, and the store holds the new list. |
| Users.UsersComponent.Delete | src/screens/UsersComponent.js:76-79 | The list becomes `RemoveAt(old list, index)`, and the store holds the new list. |
| Users.UsersComponent.Edit | src/screens/UsersComponent.js:82-89 | The user at `index` is loaded into the form, with its role into the picker, and `editingIndex` is `index`. |
| Users.EditThenSave | src/screens/UsersComponent.js:49-89 | Edit followed by save leaves the user list equal to before. |
| Variedades.VariedadesArroz.constructor | src/data/VariedadesArroz.js:5-36 | Mount loads the stored varieties, or `[]`. The form is empty, and the save effect stores the loaded list. |
| Variedades.VariedadesArroz.Save | src/data/VariedadesArroz.js:39-63 | An empty field leaves everything unchanged. Otherwise `{variedadName, descripcion}` is saved via `Upsert`. The edit ends, both fields are cleared, and the store holds the new list. |
| Variedades.VariedadesArroz.Edit | src/data/VariedadesArroz.js:65-70 | The variety at `index` is loaded into the form, and `editingIndex` is `index`. |
| Variedades.VariedadesArroz.Delete | src/data/VariedadesArroz.js:72-75 | The list becomes `RemoveAt(old list, index)`, and the store holds the new list. |
| Variedades.EditThenSave | src/data/VariedadesArroz.js:39-75 | Edit followed by save leaves the variety list equal to before. |

## Left out

- Fincas.FincaComponent.Save: requires `editingIndex` to be below the list length. In JavaScript, assigning past the end grows the array, leaving holes when the index is beyond the end. That can only happen after a delete during an edit.
- Lotes.AgregarLote.Save: the same requirement on `editingIndex`, for the same reason.
- Cultivos.AgregarCultivo.Save: the same requirement on `editingIndex`, for the same reason.
- Roles.RolesComponent.Save: the same requirement on `editingIndex`, for the same reason.
- Users.UsersComponent.Save: the same requirement on `editingIndex`, for the same reason.
- Variedades.VariedadesArroz.Save: the same requirement on `editingIndex`, for the same reason.
- Edit handlers require the index to be a position in the list. It always comes from a rendered row; an absent record would throw in JavaScript.
- Rendering, styles, navigation, the splash timer, login and password recovery are not modelled. They are presentation, network I/O and random token generation.
- Serialisation is not modelled. The store maps keys to lists, not JSON text.
- A stored value of the wrong shape loads as the empty list. It stands for a caught parse error.
- Dates are not modelled. The start date is an opaque string. `today` is a parameter, and converting between the stored date and a `Date` object is treated as the identity.
- Timing is not modelled. Loads and writes are asynchronous in the app and happen in one step here.
- The mount ordering between the load effect and the first run of the save effect is not modelled. The model takes the load to win.
- Two screens writing the same key concurrently are not modelled.
- Storage errors are not modelled. A failed `setItem` or `getItem` is only logged in the app; the model treats every write as successful.
- Alerts and console logging are not modelled. A refused save is "state unchanged".
- The crop screen's unused `usuarios` list is not modelled.
- The plot screen's farm picker and the crop screen's rice-type and unit pickers are not modelled as methods. They only assign a field.
