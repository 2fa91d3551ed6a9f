/** The user model of the accounts app: its role choice table and default
    role, the model object as a mutable record of attribute values, the
    keyword dictionary that managers update in place, and the superuser
    creation defaults of `CustomUserManager.create_superuser`. */
module AccountsModels {
  import opened Common

  /** `User.ROLE_CHOICES`: stored code and display name. */
  const RoleChoices: seq<(string, string)> := [("A", "ADMIN"), ("S", "STAFF"), ("U", "USER")]

  /** The `role` column default of a plain user. */
  const DefaultRole: string := "U"

  /** The role `create_superuser` puts in when the caller gives none. */
  const SuperuserRole: string := "A"

  const StaffRequired: string := "Superuser must have is_staff=True."
  const SuperuserRequired: string := "Superuser must have is_superuser=True."

  /** The display name paired with `code` in a choice table, if any. */
  function ChoiceLabel(choices: seq<(string, string)>, code: string): (found: Option<string>)
    ensures found.None? <==> forall i :: 0 <= i < |choices| ==> choices[i].0 != code
    ensures found.Some? ==> exists i :: 0 <= i < |choices| && choices[i] == (code, found.value)
  {
    if choices == [] then None
    else if choices[0].0 == code then Some(choices[0].1)
    else ChoiceLabel(choices[1..], code)
  }

  /** `instance.get_role_display()`: the display name of a stored role code;
      a value that is not a code of the table is shown as it is. */
  function RoleDisplay(role: Value): (shown: Value)
    ensures role.Str? && ChoiceLabel(RoleChoices, role.s).Some? ==> shown == Str(ChoiceLabel(RoleChoices, role.s).value)
    ensures !(role.Str? && ChoiceLabel(RoleChoices, role.s).Some?) ==> shown == role
  {
    if role.Str? then
      match ChoiceLabel(RoleChoices, role.s)
      case Some(name) => Str(name)
      case None => role
    else role
  }

  /** A -> ADMIN, S -> STAFF, U -> USER, and every other value unchanged. */
  lemma RoleDisplayTable(role: Value)
    ensures RoleDisplay(Str("A")) == Str("ADMIN")
    ensures RoleDisplay(Str("S")) == Str("STAFF")
    ensures RoleDisplay(Str("U")) == Str("USER")
    ensures role !in {Str("A"), Str("S"), Str("U")} ==> RoleDisplay(role) == role
  {
    if role.Str? && role !in {Str("A"), Str("S"), Str("U")} {
      assert forall i :: 0 <= i < |RoleChoices| ==> RoleChoices[i].0 != role.s;
    }
  }

  /** Both role defaults are codes of the choice table. */
  lemma RoleDefaultsAreChoices()
    ensures ChoiceLabel(RoleChoices, DefaultRole) == Some("USER")
    ensures ChoiceLabel(RoleChoices, SuperuserRole) == Some("ADMIN")
  {
  }

  /** `d.setdefault(key, default)` as a value: the key keeps its value if
      present, gets `default` otherwise, and no other entry changes. */
  function WithDefault(d: map<string, Value>, key: string, default: Value): (r: map<string, Value>)
    ensures r.Keys == d.Keys + {key}
    ensures r[key] == if key in d then d[key] else default
    ensures forall k :: k in d ==> r[k] == d[k]
  {
    if key in d then d else d[key := default]
  }

  /** A Python dictionary of field values, updated in place. */
  class FieldDict {
    var items: map<string, Value>

    constructor (initial: map<string, Value>)
      ensures items == initial
    {
      items := initial;
    }

    /** `d.get(key)`. */
    function Lookup(key: string): (v: Value)
      reads this
      ensures v == Get(items, key)
    {
      Get(items, key)
    }

    /** `d.setdefault(key, default)`: inserts `default` only when `key` is absent
        and returns the value now stored under `key`. */
    method SetDefault(key: string, default: Value) returns (v: Value)
      modifies this
      ensures key in old(items) ==> items == old(items)
      ensures key !in old(items) ==> items == old(items)[key := default]
      ensures items == WithDefault(old(items), key, default)
      ensures key in items && v == items[key]
    {
      if key !in items {
        items := items[key := default];
      }
      v := items[key];
    }

    /** `d.pop(key, default)`: removes `key` and returns what it held, or `default`. */
    method Pop(key: string, default: Value) returns (v: Value)
      modifies this
      ensures items == old(items) - {key}
      ensures v == if key in old(items) then old(items)[key] else default
    {
      v := if key in items then items[key] else default;
      items := items - {key};
    }
  }

  /** The value a freshly built `User(**kwargs)` takes for each field the
      arguments leave out: `""` for the non-null character fields without a
      default (`password`, `email`, `nickname`), `None` for the nullable ones,
      the declared defaults of `AbstractUser`'s flags, and `role` "U". */
  const UserDefaults: map<string, Value> := map[
    "password" := Str(""), "last_login" := Null,
    "is_superuser" := Bool(false), "is_staff" := Bool(false), "is_active" := Bool(true),
    "email" := Str(""), "nickname" := Str(""), "age" := Null, "gender" := Null,
    "role" := Str(DefaultRole)]

  /** A `User` model object: its attribute values and the row last written
      by `save()` (`None` before the first save). */
  class UserInstance {
    var fields: map<string, Value>
    var persisted: Option<map<string, Value>>

    /** `User(**kwargs)`: the given values over the model defaults; not saved. */
    constructor (kwargs: map<string, Value>)
      ensures fields == UserDefaults + kwargs
      ensures persisted == None
    {
      fields := UserDefaults + kwargs;
      persisted := None;
    }

    /** `setattr(instance, attr, value)`. */
    method SetAttr(attr: string, value: Value)
      modifies this
      ensures fields == old(fields)[attr := value]
      ensures persisted == old(persisted)
    {
      fields := fields[attr := value];
    }

    /** `instance.set_password(raw)`: stores the hash of `raw`. */
    method SetPassword(raw: Value)
      modifies this
      ensures fields == old(fields)["password" := Hashed(raw)]
      ensures persisted == old(persisted)
    {
      fields := fields["password" := Hashed(raw)];
    }

    /** `instance.save()`: the stored row becomes the current attributes. */
    method Save()
      modifies this
      ensures fields == old(fields)
      ensures persisted == Some(fields)
    {
      persisted := Some(fields);
    }
  }

  /** Why a manager call fails: the `ValueError` `create_superuser` raises
      itself, or the `TypeError` Python raises when binding the arguments of
      the `_create_user` call. */
  datatype ManagerError = ValueError(message: string) | TypeError(message: string)

  /** `email` is a positional parameter of `_create_user`, so an `email` key in
      `**extra_fields` gives it a second value. */
  const DuplicateEmailArgument: string := "UserManager._create_user() got multiple values for argument 'email'"

  /** The call `self._create_user(username, email, password, **extra_fields)`;
      `_create_user` itself is Django's and is not part of this model. */
  datatype CreateUserCall = CreateUserCall(
    username: string, email: Option<string>, password: Option<string>, extraFields: map<string, Value>)

  /** Whether the flag stored under `key` fails `extra_fields.get(key) is not True`
      after `setdefault(key, True)`: exactly when it was given explicitly as
      something other than `True`. */
  predicate RejectsFlag(extra: map<string, Value>, key: string)
    ensures RejectsFlag(extra, key) <==> key in extra && extra[key] != Bool(true)
  {
    Get(WithDefault(extra, key, Bool(true)), key) != Bool(true)
  }

  /** The keyword fields a superuser is created with, or the `ValueError`
      message `create_superuser` raises. */
  function SuperuserFields(extra: map<string, Value>): (r: Result<map<string, Value>, string>)
    ensures r.Err? <==> RejectsFlag(extra, "is_staff") || RejectsFlag(extra, "is_superuser")
    ensures RejectsFlag(extra, "is_staff") ==> r == Err(StaffRequired)
    ensures !RejectsFlag(extra, "is_staff") && RejectsFlag(extra, "is_superuser") ==> r == Err(SuperuserRequired)
    ensures r.Ok? ==> r.value.Keys == extra.Keys + {"is_staff", "is_superuser", "role"}
    ensures r.Ok? ==> r.value["is_staff"] == Bool(true) && r.value["is_superuser"] == Bool(true)
    ensures r.Ok? ==> r.value["role"] == if "role" in extra then extra["role"] else Str(SuperuserRole)
    ensures r.Ok? ==> forall k :: k in extra ==> r.value[k] == extra[k]
  {
    var withFlags := WithDefault(WithDefault(extra, "is_staff", Bool(true)), "is_superuser", Bool(true));
    if withFlags["is_staff"] != Bool(true) then Err(StaffRequired)
    else if withFlags["is_superuser"] != Bool(true) then Err(SuperuserRequired)
    else Ok(WithDefault(withFlags, "role", Str(SuperuserRole)))
  }

  /** `CustomUserManager.create_superuser(username, password, **extra_fields)`:
      the keyword dictionary is filled in step by step with `setdefault`, the
      two flags are checked in order, and the method returns the
      `_create_user` call it makes, with no email. Python's argument binding
      keeps `self`, `username` and `password` out of `**extra_fields`; an
      `email` key there clashes with the positional `None` of that call. */
  method CreateSuperuser(username: string, password: Option<string>, extraFields: map<string, Value>)
    returns (r: Result<CreateUserCall, ManagerError>)
    requires "self" !in extraFields && "username" !in extraFields && "password" !in extraFields
    ensures SuperuserFields(extraFields).Err? ==> r == Err(ValueError(SuperuserFields(extraFields).error))
    ensures SuperuserFields(extraFields).Ok? && "email" in extraFields ==> r == Err(TypeError(DuplicateEmailArgument))
    ensures SuperuserFields(extraFields).Ok? && "email" !in extraFields ==>
      r == Ok(CreateUserCall(username, None, password, SuperuserFields(extraFields).value))
  {
    var extra := new FieldDict(extraFields);
    var _ := extra.SetDefault("is_staff", Bool(true));
    var _ := extra.SetDefault("is_superuser", Bool(true));
    if extra.Lookup("is_staff") != Bool(true) {
      return Err(ValueError(StaffRequired));
    }
    if extra.Lookup("is_superuser") != Bool(true) {
      return Err(ValueError(SuperuserRequired));
    }
    var _ := extra.SetDefault("role", Str(SuperuserRole));
    if "email" in extra.items {
      return Err(TypeError(DuplicateEmailArgument));
    }
    r := Ok(CreateUserCall(username, None, password, extra.items));
  }

  /** With no extra fields the superuser gets both flags and the admin role. */
  lemma SuperuserDefaults()
    ensures SuperuserFields(map[]) ==
      Ok(map["is_staff" := Bool(true), "is_superuser" := Bool(true), "role" := Str(SuperuserRole)])
  {
  }

  /** A plain user built without a role has the default role "U", and one
      built without the flags is an active user who is neither staff nor
      superuser. */
  lemma PlainUserRoleDefault(kwargs: map<string, Value>)
    requires "role" !in kwargs
    ensures (UserDefaults + kwargs)["role"] == Str(DefaultRole)
    ensures "is_staff" !in kwargs ==> (UserDefaults + kwargs)["is_staff"] == Bool(false)
    ensures "is_superuser" !in kwargs ==> (UserDefaults + kwargs)["is_superuser"] == Bool(false)
    ensures "is_active" !in kwargs ==> (UserDefaults + kwargs)["is_active"] == Bool(true)
  {
  }
}
