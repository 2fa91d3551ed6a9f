/** The sign-up and profile-update serializers of the accounts app:
    field validators, the cross-field password check, building a user from
    validated data, rendering a user, and the partial profile update. */
module AccountsSerializers {
  import opened Common
  import opened AccountsModels

  /** A `serializers.ValidationError`: a bare message (raised by a field
      validator, reported under that field) or a message keyed by a field. */
  datatype ValidationError = Message(text: string) | FieldMessage(field: string, text: string)

  const MaxNicknameLength: nat := 30
  const MinPasswordLength: nat := 8

  const NicknameTooLong: string := "닉네임은 30글자 이하이어야 합니다."
  const PasswordTooShort: string := "비밀번호는 최소 8자 이상이어야 합니다."
  const PasswordMismatch: string := "비밀번호가 일치하지 않습니다."

  /** `SignUpSerializer.Meta.fields` without the write-only ones: what a
      sign-up response shows. */
  const SignUpReadable: set<string> := {"email", "nickname", "role", "age", "gender"}

  /** `ProfileUpdateSerializer.Meta.fields`; none of them is write-only. */
  const ProfileReadable: set<string> := {"nickname", "age", "gender"}

  /** `validate_nickname`: at most 30 characters, returned unchanged. */
  function ValidateNickname(value: string): (r: Result<string, ValidationError>)
    ensures r.Ok? <==> |value| <= MaxNicknameLength
    ensures r.Ok? ==> r.value == value
    ensures r.Err? ==> r.error == Message(NicknameTooLong)
  {
    if |value| > MaxNicknameLength then Err(Message(NicknameTooLong)) else Ok(value)
  }

  /** `validate_password`: at least 8 characters, returned unchanged. */
  function ValidatePassword(value: string): (r: Result<string, ValidationError>)
    ensures r.Ok? <==> |value| >= MinPasswordLength
    ensures r.Ok? ==> r.value == value
    ensures r.Err? ==> r.error == Message(PasswordTooShort)
  {
    if |value| < MinPasswordLength then Err(Message(PasswordTooShort)) else Ok(value)
  }

  /** `SignUpSerializer.validate`: `data.get("password")` must equal
      `data.get("password_confirm")` (both missing counts as equal, since
      both read as `None`); the data passes through unchanged. */
  function ValidateSignUp(data: map<string, Value>): (r: Result<map<string, Value>, ValidationError>)
    ensures r.Err? <==> Get(data, "password") != Get(data, "password_confirm")
    ensures r.Err? ==> r.error == FieldMessage("password_confirm", PasswordMismatch)
    ensures r.Ok? ==> r.value == data
  {
    var password := Get(data, "password");
    var passwordConfirm := Get(data, "password_confirm");
    if password != passwordConfirm then Err(FieldMessage("password_confirm", PasswordMismatch))
    else Ok(data)
  }

  /** `ProfileUpdateSerializer.validate`: the password check is dropped;
      it never raises. */
  function ValidateProfile(data: map<string, Value>): (r: Result<map<string, Value>, ValidationError>)
    ensures r == Ok(data)
  {
    Ok(data)
  }

  /** Data the sign-up check refuses passes the profile check. */
  lemma ProfileSkipsPasswordCheck(data: map<string, Value>)
    requires ValidateSignUp(data).Err?
    ensures ValidateProfile(data).Ok? && ValidateProfile(data).value == data
    ensures Get(data, "password") != Get(data, "password_confirm")
  {
  }

  /** `SignUpSerializer.create(validated_data)`: both password fields are
      popped from the dictionary, the user is built from what is left, the
      password is hashed in only when one was supplied, and the user is saved. */
  method Create(validatedData: FieldDict) returns (instance: UserInstance)
    modifies validatedData
    ensures fresh(instance)
    ensures validatedData.items == old(validatedData.items) - {"password", "password_confirm"}
    ensures Get(old(validatedData.items), "password") != Null ==>
      instance.fields == (UserDefaults + validatedData.items)["password" := Hashed(old(validatedData.items)["password"])]
    ensures Get(old(validatedData.items), "password") == Null ==>
      instance.fields == UserDefaults + validatedData.items
    ensures instance.persisted == Some(instance.fields)
  {
    var password := validatedData.Pop("password", Null);
    var _ := validatedData.Pop("password_confirm", Null);
    instance := new UserInstance(validatedData.items);
    if password != Null {
      instance.SetPassword(password);
    }
    instance.Save();
  }

  /** What `Create` builds from a validated dictionary: every remaining field
      unchanged, no `password_confirm`, the role default for a missing role,
      and as password the hash of a supplied password, or the model's empty
      default when none was supplied. */
  lemma CreatedFields(data: map<string, Value>, fields: map<string, Value>)
    requires var rest := data - {"password", "password_confirm"};
      fields == if Get(data, "password") != Null
                then (UserDefaults + rest)["password" := Hashed(data["password"])]
                else UserDefaults + rest
    ensures "password_confirm" !in fields
    ensures forall k :: k in data && k != "password" && k != "password_confirm" ==> k in fields && fields[k] == data[k]
    ensures "role" !in data ==> fields["role"] == Str(DefaultRole)
    ensures Get(data, "password") != Null ==> fields["password"] == Hashed(data["password"])
    ensures Get(data, "password") == Null ==> fields["password"] == Str("")
    ensures "email" !in data ==> fields["email"] == Str("")
  {
  }

  /** `to_representation`: the serializer's readable fields read from the
      instance, with `role` replaced by its display name. */
  function ToRepresentation(readable: set<string>, instance: UserInstance): (rep: map<string, Value>)
    reads instance
    ensures rep.Keys == readable + {"role"}
    ensures rep["role"] == RoleDisplay(Get(instance.fields, "role"))
    ensures forall f :: f in readable && f != "role" ==> rep[f] == Get(instance.fields, f)
  {
    var base := map f | f in readable :: Get(instance.fields, f);
    base["role" := RoleDisplay(Get(instance.fields, "role"))]
  }

  /** A sign-up response shows the five readable fields, never the
      write-only `password` and `password_confirm`, and shows the role by
      its display name. */
  lemma SignUpRepresentationHidesPasswords(instance: UserInstance)
    ensures ToRepresentation(SignUpReadable, instance).Keys == {"email", "nickname", "role", "age", "gender"}
    ensures "password" !in ToRepresentation(SignUpReadable, instance)
    ensures "password_confirm" !in ToRepresentation(SignUpReadable, instance)
    ensures ToRepresentation(SignUpReadable, instance)["role"] == RoleDisplay(Get(instance.fields, "role"))
  {
  }

  /** The profile serializer inherits `to_representation`, so its output
      carries the role's display name although `role` is none of its fields. */
  lemma ProfileRepresentationShowsRole(instance: UserInstance)
    ensures "role" !in ProfileReadable
    ensures "role" in ToRepresentation(ProfileReadable, instance)
  {
  }

  /** `ProfileUpdateSerializer.update(instance, validated_data)`: every
      supplied attribute is set with `setattr`, then the instance is saved. */
  method Update(instance: UserInstance, validatedData: map<string, Value>) returns (updated: UserInstance)
    modifies instance
    ensures updated == instance
    ensures instance.fields.Keys == old(instance.fields).Keys + validatedData.Keys
    ensures forall k :: k in validatedData ==> instance.fields[k] == validatedData[k]
    ensures forall k :: k in old(instance.fields) && k !in validatedData ==> instance.fields[k] == old(instance.fields)[k]
    ensures instance.persisted == Some(instance.fields)
  {
    var pending := validatedData.Keys;
    while pending != {}
      invariant pending <= validatedData.Keys
      invariant instance.fields.Keys == old(instance.fields).Keys + (validatedData.Keys - pending)
      invariant forall k :: k in validatedData && k !in pending ==> instance.fields[k] == validatedData[k]
      invariant forall k :: k in old(instance.fields) && (k !in validatedData || k in pending) ==>
        instance.fields[k] == old(instance.fields)[k]
      decreases pending
    {
      var attr :| attr in pending;
      instance.SetAttr(attr, validatedData[attr]);
      pending := pending - {attr};
    }
    instance.Save();
    updated := instance;
  }
}
