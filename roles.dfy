/** The role screen: a list of roles, the base role picked from a fixed list
    and a description in the form, the index of the role being edited, and an
    effect that writes the whole list under "roles" whenever it changes. A
    saved role is named after its base role plus a number: one more than the
    count of roles whose name starts with that base. */
module Roles {
  import opened Collection
  import opened Records
  import opened Storage

  /** The base roles the picker offers. */
  const PredefinedRoles: seq<string> := ["Administrador", "Usuario", "Operario"]

  /** `s.startsWith(p)`. */
  predicate StartsWith(s: string, p: string) {
    |p| <= |s| && s[..|p|] == p
  }

  /** `roles.filter(role => role.roleName.startsWith(base)).length`. */
  function CountPrefix(roles: seq<Role>, base: string): (n: nat)
    ensures n <= |roles|
    ensures n == 0 <==> forall k :: 0 <= k < |roles| ==> !StartsWith(roles[k].roleName, base)
    ensures n == |roles| <==> forall k :: 0 <= k < |roles| ==> StartsWith(roles[k].roleName, base)
  {
    if roles == [] then 0
    else
      var rest := CountPrefix(roles[1..], base);
      assert forall k :: 1 <= k < |roles| ==> roles[k] == roles[1..][k - 1];
      (if StartsWith(roles[0].roleName, base) then 1 else 0) + rest
  }

  /** Appending one role raises the count by one exactly when its name starts
      with the base. */
  lemma {:induction false} CountPrefixAppend(roles: seq<Role>, r: Role, base: string)
    ensures CountPrefix(roles + [r], base) == CountPrefix(roles, base) + (if StartsWith(r.roleName, base) then 1 else 0)
  {
    if roles == [] {
      assert roles + [r] == [r];
    } else {
      assert (roles + [r])[1..] == roles[1..] + [r];
      CountPrefixAppend(roles[1..], r, base);
    }
  }

  /** The character of a decimal digit. */
  function DigitChar(d: nat): char
    requires d < 10
  {
    ('0' as int + d) as char
  }

  predicate IsDigit(c: char) {
    '0' <= c <= '9'
  }

  /** The decimal text of a number, as `${n}` renders it: at least one digit,
      only digits, and no leading zero except for zero itself. */
  function Decimal(n: nat): (s: string)
    ensures |s| >= 1
    ensures forall k :: 0 <= k < |s| ==> IsDigit(s[k])
    ensures s[0] == '0' <==> n == 0
  {
    if n < 10 then [DigitChar(n)] else Decimal(n / 10) + [DigitChar(n % 10)]
  }

  /** The number a string of decimal digits denotes. */
  function DecimalValue(s: string): nat
    requires forall k :: 0 <= k < |s| ==> IsDigit(s[k])
  {
    if s == [] then 0
    else
      var last := s[|s| - 1];
      assert IsDigit(last);
      10 * DecimalValue(s[..|s| - 1]) + (last as int - '0' as int)
  }

  /** Reading back the decimal text of a number gives the number. */
  lemma {:induction false} DecimalRoundTrip(n: nat)
    ensures DecimalValue(Decimal(n)) == n
  {
    var s := Decimal(n);
    if n >= 10 {
      assert s[..|s| - 1] == Decimal(n / 10);
      DecimalRoundTrip(n / 10);
    }
  }

  /** The name `handleSaveRole` gives a role: `${base} ${count + 1}`. */
  function NextRoleName(roles: seq<Role>, base: string): (name: string)
    ensures StartsWith(name, base)
    ensures |name| > |base| + 1 && name[|base|] == ' '
    ensures forall k :: |base| + 1 <= k < |name| ==> IsDigit(name[k])
  {
    base + " " + Decimal(CountPrefix(roles, base) + 1)
  }

  /** The generated name is the base, a space, and the decimal text of one
      more than the number of existing roles whose name starts with the base. */
  lemma NextRoleNameParts(roles: seq<Role>, base: string)
    ensures var name := NextRoleName(roles, base);
      && StartsWith(name, base)
      && |name| > |base| + 1
      && name[|base|] == ' '
      && (forall k :: |base| + 1 <= k < |name| ==> IsDigit(name[k]))
      && DecimalValue(name[|base| + 1..]) == CountPrefix(roles, base) + 1
  {
    var name := NextRoleName(roles, base);
    assert name[..|base|] == base;
    assert name[|base| + 1..] == Decimal(CountPrefix(roles, base) + 1);
    DecimalRoundTrip(CountPrefix(roles, base) + 1);
  }

  /** When no existing role starts with the base, the generated name ends in " 1". */
  lemma FirstRoleName(roles: seq<Role>, base: string)
    requires forall k :: 0 <= k < |roles| ==> !StartsWith(roles[k].roleName, base)
    ensures NextRoleName(roles, base) == base + " 1"
  {
  }

  /** Each role added under a base makes the next generated number one higher,
      so consecutive additions are numbered 1, 2, 3, ... */
  lemma AddingRoleAdvancesCount(roles: seq<Role>, base: string, description: string)
    ensures CountPrefix(roles + [Role(NextRoleName(roles, base), description)], base) == CountPrefix(roles, base) + 1
  {
    NextRoleNameParts(roles, base);
    CountPrefixAppend(roles, Role(NextRoleName(roles, base), description), base);
  }

  /** `roleName.split(' ')[0]`: the part of a name before its first space, or
      the whole name when it has none. */
  function BaseName(s: string): (b: string)
    ensures StartsWith(s, b)
    ensures ' ' !in b
    ensures |b| < |s| ==> s[|b|] == ' '
  {
    if s == [] || s[0] == ' ' then []
    else
      var rest := BaseName(s[1..]);
      assert s == [s[0]] + s[1..];
      [s[0]] + rest
  }

  /** The base of a name made of a space-free part, a space and anything
      else is that part. */
  lemma {:induction false} BaseNameBeforeSpace(part: string, rest: string)
    requires ' ' !in part
    ensures BaseName(part + " " + rest) == part
  {
    var name := part + " " + rest;
    if part == [] {
      assert name[0] == ' ';
    } else {
      assert name[0] == part[0] && name[1..] == part[1..] + " " + rest;
      BaseNameBeforeSpace(part[1..], rest);
    }
  }

  /** Editing a role whose name was generated from a base without spaces
      loads that base back into the picker. */
  lemma BaseNameOfNextRoleName(roles: seq<Role>, base: string)
    requires ' ' !in base
    ensures BaseName(NextRoleName(roles, base)) == base
  {
    BaseNameBeforeSpace(base, Decimal(CountPrefix(roles, base) + 1));
  }

  /** None of the predefined base roles contains a space. */
  lemma PredefinedRolesHaveNoSpace()
    ensures forall k :: 0 <= k < |PredefinedRoles| ==> ' ' !in PredefinedRoles[k]
  {
  }

  /** A second role of the same base is numbered 2. */
  lemma SecondRoleName(description: string)
    ensures NextRoleName([Role("Operario 1", description)], "Operario") == "Operario 2"
  {
    assert StartsWith("Operario 1", "Operario");
  }

  /** The number is a count, not a sequence: after "Operario 1" is deleted
      from ["Operario 1", "Operario 2"], the next role is named "Operario 2"
      again. */
  lemma DeletedRoleNameReused(description: string)
    ensures var remaining := RemoveAt([Role("Operario 1", description), Role("Operario 2", description)], 0);
      remaining == [Role("Operario 2", description)] &&
      NextRoleName(remaining, "Operario") == remaining[0].roleName
  {
    assert StartsWith("Operario 2", "Operario");
  }

  /** The count is taken over the whole list, the edited role included: editing
      the only role "Operario 1" and saving renames it "Operario 2". */
  lemma EditRenumbersRole(description: string)
    ensures var roles := [Role("Operario 1", description)];
      Upsert(roles, Some(0), Role(NextRoleName(roles, BaseName(roles[0].roleName)), description))
        == [Role("Operario 2", description)]
  {
    var roles := [Role("Operario 1", description)];
    BaseNameBeforeSpace("Operario", "1");
    assert "Operario" + " " + "1" == roles[0].roleName;
    SecondRoleName(description);
  }

  class RolesComponent {
    const storage: KeyValueStore
    var roles: seq<Role>
    var selectedRole: string
    var description: string
    var editingIndex: Option<nat>

    /** The save-on-change effect keeps the stored list equal to the list on screen. */
    ghost predicate Synced()
      reads this, storage
    {
      RolesKey in storage.data && storage.data[RolesKey] == RoleList(roles)
    }

    /** Mounting the screen: the stored list is loaded and the save effect
        writes the list back. */
    constructor (storage: KeyValueStore)
      modifies storage
      ensures this.storage == storage
      ensures roles == LoadRoles(old(storage.data))
      ensures selectedRole == "" && description == "" && editingIndex == None
      ensures storage.data == old(storage.data)[RolesKey := RoleList(roles)]
      ensures Synced()
    {
      this.storage := storage;
      roles := LoadRoles(storage.data);
      selectedRole, description := "", "";
      editingIndex := None;
      new;
      storage.SetItem(RolesKey, RoleList(roles));
    }

    /** `handleSaveRole`. With no base role or no description nothing changes.
        Otherwise the role `{NextRoleName(roles, selectedRole), description}`,
        numbered by counting over the list before it is changed, is appended or
        assigned at the edited position, the edit ends, the form is cleared,
        and the new list is stored. */
    method Save()
      requires Synced()
      requires editingIndex.Some? ==> editingIndex.value < |roles|
      modifies this, storage
      ensures Synced()
      ensures old(selectedRole) == "" || old(description) == "" ==> unchanged(this) && unchanged(storage)
      ensures old(selectedRole) != "" && old(description) != "" ==>
        && roles == Upsert(old(roles), old(editingIndex), Role(NextRoleName(old(roles), old(selectedRole)), old(description)))
        && editingIndex == None
        && selectedRole == "" && description == ""
        && storage.data == old(storage.data)[RolesKey := RoleList(roles)]
    {
      if selectedRole == "" || description == "" {
        return;
      }
      var roleCount := CountPrefix(roles, selectedRole);
      var roleName := selectedRole + " " + Decimal(roleCount + 1);
      var newRole := Role(roleName, description);
      roles := Upsert(roles, editingIndex, newRole);
      editingIndex := None;
      selectedRole, description := "", "";
      storage.SetItem(RolesKey, RoleList(roles));
    }

    /** `handleDeleteRole`: the position is filtered out (no change when it is
        out of range) and the new list is stored. The form and `editingIndex`
        are left as they were. */
    method Delete(index: int)
      requires Synced()
      modifies this, storage
      ensures Synced()
      ensures roles == RemoveAt(old(roles), index)
      ensures selectedRole == old(selectedRole) && description == old(description)
      ensures editingIndex == old(editingIndex)
      ensures storage.data == old(storage.data)[RolesKey := RoleList(roles)]
    {
      roles := RemoveAt(roles, index);
      storage.SetItem(RolesKey, RoleList(roles));
    }

    /** `handleEditRole`: the base of the role's name goes into the picker, its
        description into the form, and it becomes the one being edited. */
    method Edit(index: int)
      requires 0 <= index < |roles|
      modifies this
      ensures roles == old(roles)
      ensures selectedRole == BaseName(roles[index].roleName)
      ensures description == roles[index].description
      ensures editingIndex == Some(index)
    {
      var role := roles[index];
      selectedRole := BaseName(role.roleName);
      description := role.description;
      editingIndex := Some(index);
    }
  }

  /** Editing a role and saving straight away keeps every other role and the
      length, and renames the edited role by counting over the whole list,
      itself included. */
  method EditThenSave(screen: RolesComponent, index: int)
    requires screen.Synced() && 0 <= index < |screen.roles|
    requires BaseName(screen.roles[index].roleName) != "" && screen.roles[index].description != ""
    modifies screen, screen.storage
    ensures screen.Synced()
    ensures |screen.roles| == |old(screen.roles)| && screen.editingIndex == None
    ensures forall k :: 0 <= k < |screen.roles| && k != index ==> screen.roles[k] == old(screen.roles[k])
    ensures screen.roles[index] ==
      Role(NextRoleName(old(screen.roles), BaseName(old(screen.roles[index].roleName))), old(screen.roles[index].description))
  {
    screen.Edit(index);
    screen.Save();
  }
}
