/** The user screen: a list of users, a form of name, last name, e-mail and
    the role chosen in the picker, the index of the user being edited, and an
    effect that writes the whole list under "users" whenever it changes. */
module Users {
  import opened Collection
  import opened Records
  import opened Storage

  /** The save guard: no field of the form may be the empty string. */
  predicate Complete(u: User) {
    u.username != "" && u.lastName != "" && u.email != "" && u.role != ""
  }

  /** The form as it starts and as a successful save leaves it. */
  const BlankForm: User := User("", "", "", "")

  class UsersComponent {
    const storage: KeyValueStore
    var users: seq<User>
    var username: string
    var lastName: string
    var email: string
    var selectedRole: string
    var editingIndex: Option<nat>

    /** The record the form fields describe; the picked role goes into `role`. */
    function Form(): User
      reads this
    {
      User(username, lastName, email, selectedRole)
    }

    /** The save-on-change effect keeps the stored list equal to the list on screen. */
    ghost predicate Synced()
      reads this, storage
    {
      UsersKey in storage.data && storage.data[UsersKey] == UserList(users)
    }

    /** Mounting the screen: the stored list is loaded and the save effect
        writes the list back. */
    constructor (storage: KeyValueStore)
      modifies storage
      ensures this.storage == storage
      ensures users == LoadUsers(old(storage.data))
      ensures Form() == BlankForm && editingIndex == None
      ensures storage.data == old(storage.data)[UsersKey := UserList(users)]
      ensures Synced()
    {
      this.storage := storage;
      users := LoadUsers(storage.data);
      username, lastName, email, selectedRole := "", "", "", "";
      editingIndex := None;
      new;
      storage.SetItem(UsersKey, UserList(users));
    }

    /** `handleSaveUser`. An incomplete form changes nothing. Otherwise the
        record `{username, lastName, email, role: selectedRole}` is appended,
        or assigned at the edited position, the edit ends, the form is cleared,
        and the new list is stored. */
    method Save()
      requires Synced()
      requires editingIndex.Some? ==> editingIndex.value < |users|
      modifies this, storage
      ensures Synced()
      ensures !Complete(old(Form())) ==> unchanged(this) && unchanged(storage)
      ensures Complete(old(Form())) ==>
        && users == Upsert(old(users), old(editingIndex), old(Form()))
        && editingIndex == None
        && Form() == BlankForm
        && storage.data == old(storage.data)[UsersKey := UserList(users)]
    {
      var newUser := Form();
      if !Complete(newUser) {
        return;
      }
      users := Upsert(users, editingIndex, newUser);
      editingIndex := None;
      username, lastName, email, selectedRole := "", "", "", "";
      storage.SetItem(UsersKey, UserList(users));
    }

    /** `handleDeleteUser`: the position is filtered out (no change when it is
        out of range) and the new list is stored. The form and `editingIndex`
        are left as they were. */
    method Delete(index: int)
      requires Synced()
      modifies this, storage
      ensures Synced()
      ensures users == RemoveAt(old(users), index)
      ensures Form() == old(Form()) && editingIndex == old(editingIndex)
      ensures storage.data == old(storage.data)[UsersKey := UserList(users)]
    {
      users := RemoveAt(users, index);
      storage.SetItem(UsersKey, UserList(users));
    }

    /** `handleEditUser`: the user at a rendered row is loaded into the form,
        its role into the picker, and becomes the one being edited. */
    method Edit(index: int)
      requires 0 <= index < |users|
      modifies this
      ensures users == old(users)
      ensures Form() == users[index] && editingIndex == Some(index)
    {
      var user := users[index];
      username, lastName, email, selectedRole := user.username, user.lastName, user.email, user.role;
      editingIndex := Some(index);
    }
  }

  /** Editing a row and saving straight away leaves the list as it was. */
  method EditThenSave(screen: UsersComponent, index: int)
    requires screen.Synced() && 0 <= index < |screen.users|
    modifies screen, screen.storage
    ensures screen.Synced()
    ensures screen.users == old(screen.users)
    ensures screen.editingIndex == if Complete(old(screen.users[index])) then None else Some(index)
  {
    screen.Edit(index);
    UpsertOwnElement(screen.users, index);
    screen.Save();
  }
}
