# TastePT account, community and admin rules in Dafny

This project models the small rule-bearing parts of the TastePT social
platform, a Django application with an accounts app, a community board
and an admin site:

- **Sign-up and profile serializers** (`AccountsSerializers`): the
  nickname length bound (at most 30), the password minimum length (8), the
  password/confirmation check keyed `password_confirm`, the profile
  serializer's validate that checks nothing, `create`, which pops both
  password fields from the validated data and hashes a supplied password,
  `to_representation`, which replaces the role code by its display name,
  and `update`, which sets exactly the supplied attributes and saves.
- **User model and manager** (`AccountsModels`): `ROLE_CHOICES`, the role
  default `"U"`, a keyword dictionary updated in place (`setdefault`,
  `pop`), the model object (its attributes and its last saved row), and
  `create_superuser`. That method fills in `is_staff`, `is_superuser` and
  `role` with `setdefault`, rejects a flag given as anything but `True`,
  and returns the `_create_user` call it makes, with no email. An `email`
  keyword among the extra fields makes that call raise `TypeError`.
- **Author-or-read-only permission** (`CommunityPermissions`): safe
  methods are always allowed, and any other method only for the object's
  author.
- **Image upload paths** (`CommunityUtils`): the extension after the
  last dot, the safe name `hex.ext`, the path
  `directory/year/month/day/name` with unpadded numbers, and the URL
  returned in debug mode, on a custom domain, or on the bucket's S3 host.
  A failed S3 upload is re-raised with a fixed prefix.
- **"Send selected emails" admin action** (`AccountsAdmin`): builds each
  message's recipient list from the non-empty addresses, queues one
  Celery task when the list is not empty, and stamps and saves `sent_at`
  only when the task was queued. It shows one notice per attempt. A success
  notice reports the size of the whole selection.

Two support modules sit under these. `Common` holds `Option`, `Result`
and the Python values kept in keyword dictionaries. `Text` holds
`str.split`, `str.join` and `str(n)`, each with its inverse.

Effects and hidden inputs are parameters:
- `uuid.uuid4().hex` and the date of `datetime.now()` (`hex`, `today`).
  The settings are a `Settings` value.
- What local storage answers (the saved name) and whether the S3 branch
  raised, on creating the client or on uploading (`Storage`).
- Whether `send_email.delay` queued the task or raised `CeleryError`
  (`broker`), and `now()` (`clock`). Both are indexed by the message's
  position in the selection.

## Model

| member | source | states |
|---|---|---|
| `AccountsSerializers.ValidateNickname` | accounts/serializers.py:45-48 | accepted exactly when the nickname has at most 30 characters, and then returned unchanged; otherwise the nickname-length error |
| `AccountsSerializers.ValidatePassword` | accounts/serializers.py:51-54 | accepted exactly when the password has at least 8 characters, and then returned unchanged; otherwise the minimum-length error |
| `AccountsSerializers.ValidateSignUp` | accounts/serializers.py:57-66 | fails, with the mismatch message keyed `password_confirm`, exactly when `data.get("password") != data.get("password_confirm")`; otherwise returns the data unchanged |
| `AccountsSerializers.ValidateProfile` | accounts/serializers.py:93-94 | the profile validate never raises and returns the data as given |
| `AccountsSerializers.ProfileSkipsPasswordCheck` | accounts/serializers.py:92-94 | data that the sign-up check rejects for mismatched passwords passes the profile check unchanged |
| `AccountsSerializers.Create` | accounts/serializers.py:26-36 | the dictionary loses exactly `password` and `password_confirm`; the user is built from what is left over the model's field defaults (`""` for `password`, `email` and `nickname`, `None` for nullable fields, the flags' defaults, role `"U"`); the password hash is set only when a non-`None` password was supplied; the user is saved |
| `AccountsSerializers.CreatedFields` | accounts/serializers.py:26-36 | in the built user, every field other than the two password fields keeps its value, `password_confirm` is absent, a missing role is `"U"`, a missing `email` is `""`, and `password` holds the hash of the supplied password or the model's empty default `""` |
| `AccountsSerializers.ToRepresentation` | accounts/serializers.py:39-42 | output keys are the serializer's readable fields plus `role`; `role` is the display of the stored code; every other field is the instance's value |
| `AccountsSerializers.SignUpRepresentationHidesPasswords` | accounts/serializers.py:8-24 | a sign-up response has exactly the keys `email`, `nickname`, `role`, `age` and `gender`: the write-only `password` and `password_confirm` never appear, and `role` is shown by its display name |
| `AccountsSerializers.ProfileRepresentationShowsRole` | accounts/serializers.py:69-82 | the profile serializer inherits `to_representation`, so its output has `role` although `role` is not one of its fields |
| `AccountsSerializers.Update` | accounts/serializers.py:85-90 | afterwards every supplied attribute has the supplied value, every other attribute keeps its old value, no attribute is lost, and the saved row equals the new attributes |
| `AccountsModels.ChoiceLabel` | accounts/models.py:26-30 | finds a display name exactly when the code is in the choice table, and the pair it returns is in the table |
| `AccountsModels.RoleDisplay` | accounts/serializers.py:41 | `get_role_display()`: a stored code of `ROLE_CHOICES` is shown as its display name; any other value is shown as it is |
| `AccountsModels.RoleDisplayTable` | accounts/models.py:26-30 | A -> ADMIN, S -> STAFF, U -> USER, and every other value is unchanged |
| `AccountsModels.RoleDefaultsAreChoices` | accounts/models.py:62 | the plain-user default `"U"` and the superuser default `"A"` are both codes of the table (USER, ADMIN) |
| `AccountsModels.FieldDict.SetDefault` | accounts/models.py:12-13 | `setdefault` inserts the default only when the key is absent, never overwrites, and returns the stored value; the new dictionary is `WithDefault` of the old one |
| `AccountsModels.WithDefault` | accounts/models.py:12-13 | `setdefault` as a value: the key is added, keeps its value when it was present and otherwise holds the default, and every other entry is unchanged |
| `AccountsModels.RejectsFlag` | accounts/models.py:12-18 | after `setdefault(key, True)`, the check `extra_fields.get(key) is not True` fails exactly when the caller gave the flag explicitly as something other than `True` |
| `AccountsModels.FieldDict.Lookup` | accounts/models.py:15-17 | `extra_fields.get(key)` on the dictionary's current contents |
| `AccountsModels.FieldDict.Pop` | accounts/serializers.py:27-28 | `pop(key, default)` removes the key and returns its value, or the default when it was absent |
| `AccountsModels.UserInstance.constructor` | accounts/models.py:42-62 | `User(**kwargs)` holds the given values over the field defaults (`""` for `password`, `email` and `nickname`, `None` for `last_login`, `age` and `gender`, `is_staff` and `is_superuser` false, `is_active` true, role `"U"`) and is not yet saved |
| `AccountsModels.UserInstance.SetAttr` | accounts/serializers.py:86-87 | `setattr` changes that one attribute to the given value; the saved row is untouched |
| `AccountsModels.UserInstance.Save` | accounts/serializers.py:35 | `save()` writes the current attributes as the stored row and changes no attribute |
| `AccountsModels.UserInstance.SetPassword` | accounts/serializers.py:32-33 | only `password` changes, to the hash of the raw value |
| `AccountsModels.SuperuserFields` | accounts/models.py:11-22 | rejects exactly when `is_staff` or `is_superuser` was given as anything but `True`, checking `is_staff` first with its own message; on success both flags are `True`, `role` is the caller's or `"A"`, and every caller-supplied field keeps its value |
| `AccountsModels.CreateSuperuser` | accounts/models.py:11-22 | for extra fields free of `self`, `username` and `password` (Python's binding keeps them out): the step-by-step `setdefault` chain raises the `ValueError` `SuperuserFields` gives; otherwise an `email` key raises the `TypeError` of a second value for `_create_user`'s `email` parameter; otherwise it returns the call `_create_user(username, None, password, **fields)` with `SuperuserFields`'s fields |
| `AccountsModels.SuperuserDefaults` | accounts/models.py:12-20 | with no extra fields, the superuser gets `is_staff=True`, `is_superuser=True` and role `"A"` |
| `AccountsModels.PlainUserRoleDefault` | accounts/models.py:62 | a user built without a role has role `"U"`; without the flags it is active and neither staff nor superuser |
| `CommunityPermissions.HasObjectPermission` | community/permissions.py:9-15 | any user is granted GET, HEAD and OPTIONS; any other method is granted exactly when the request user is the object's author |
| `CommunityPermissions.ReadsAlwaysGranted` | community/permissions.py:11-12 | reads are granted to every user, the anonymous user included, whoever the author is |
| `CommunityPermissions.WritesOnlyByAuthor` | community/tests.py:89-121 | the author may PUT and DELETE their post; another user is refused PUT, PATCH and DELETE; the anonymous user is refused PUT |
| `CommunityUtils.Extension` | community/utils.py:16 | the extension holds no dot; it is empty when the name has no dot; otherwise it is the suffix of the name right after a dot, so it is the text after the last dot |
| `CommunityUtils.SafeFilename` | community/utils.py:17 | the safe name is the hex, a dot and the extension, in that order; a dot-free hex is the first part of the name split on dots |
| `CommunityUtils.SafeFilenameKeepsExtension` | community/utils.py:16-17 | `hex.ext` always contains a dot, ends in one when the extension is empty, and has exactly `ext` as its extension |
| `CommunityUtils.RelativePath` | community/utils.py:19-20 | the path begins with the directory and a slash and ends with a slash and the safe file name |
| `CommunityUtils.RelativePathComponents` | community/utils.py:19-20 | the path splits on `/` into exactly the directory, year, month, day and file name; the numbers read back to the date; months and days below ten take one digit |
| `CommunityUtils.UrlPrefix` | community/utils.py:48-54 | the host part of either URL is an `https://` address ending in a slash |
| `CommunityUtils.PublicUrl` | community/utils.py:48-54 | `https://<custom domain>/<path>` when a non-empty custom domain is set, else `https://<bucket>.s3.<region>.amazonaws.com/<path>`; the path can be read back from the URL |
| `CommunityUtils.UploadImage` | community/utils.py:9-56 | a falsy image stores nothing and returns `""`. In debug mode the file is saved locally under the relative path, and the URL is `MEDIA_URL` plus the stored name. Otherwise, when creating the S3 client raises, nothing is uploaded and the error is re-raised with the fixed prefix; else the file's content is uploaded with the bucket, path, content type and ACL, and the public URL is returned, or the upload's error is re-raised with the same prefix |
| `CommunityUtils.UploadedUrlNamesTheFile` | community/utils.py:16-54 | a successful non-debug upload returns a URL from which the stored object key is read back; the key splits into the directory, the date and a name keeping the original extension |
| `CommunityUtils.DefaultDirectoryUpload` | community/utils.py:9-20 | with the default `directory="posts"`, a successful non-debug upload stores the file under a key whose first component is `posts` |
| `CommunityUtils.FalsyImageStoresNothing` | community/utils.py:13-14 | no file, or a file with an empty name, gives `""` with no store request, whatever the settings |
| `Text.Split` | community/utils.py:16 | `str.split` gives at least one part, and no part holds the separator |
| `Text.JoinSplit` | community/utils.py:16 | joining the parts of a split with the separator gives back the original string |
| `Text.SplitLastIsSuffix` | community/utils.py:16 | when the separator occurs, the last part is a suffix of the string preceded by the separator |
| `Text.NatToString` | community/utils.py:20 | `str(n)` is non-empty decimal digits, and its only text beginning with `0` is `"0"` itself |
| `Text.ParseNatToString` | community/utils.py:20 | reading `str(n)` back as a number gives `n` |
| `Common.Get` | accounts/serializers.py:58-59 | `dict.get` returns the stored value, or `None` for a missing key |
| `AccountsAdmin.RecipientList` | accounts/admin.py:42-44 | an address is in the list exactly when it is a recipient's non-empty address; the list is empty exactly when every address is empty |
| `AccountsAdmin.RecipientListAppend` | accounts/admin.py:42-44 | the filter keeps recipients in their original order: one list after another filters to one filtered list after the other |
| `AccountsAdmin.StepOutcome` | accounts/admin.py:42-59 | one message gives at most one task, exactly when it has a non-empty address, with its subject, body and only non-empty addresses; it gives as many notices as tasks, the success notice exactly when it is stamped, and the failure notice exactly when the broker raised `CeleryError` |
| `AccountsAdmin.NoticesMatchDispatches` | accounts/admin.py:46-59 | one notice per dispatch attempt; every success notice reports `queryset.count()`, the size of the whole selection; there are as many success notices as stamped messages |
| `AccountsAdmin.NoRecipientsNothingHappens` | accounts/admin.py:46 | when no selected message has a non-empty address, no task is queued and no notice is shown |
| `AccountsAdmin.NoticeTextReports` | accounts/admin.py:53-59 | a success text begins with the count in decimal, which reads back to the count; a failure text ends with the broker's reason |
| `AccountsAdmin.EmailMessage.Save` | accounts/admin.py:52 | the stored `sent_at` becomes the in-memory one; nothing else changes |
| `AccountsAdmin.SendOne` | accounts/admin.py:42-59 | one message: dispatched only with a non-empty list; when queued, `sent_at` is set to `now()` and saved; on `CeleryError`, `sent_at` and the row are unchanged and the failure is reported |
| `AccountsAdmin.SendSelectedEmails` | accounts/admin.py:40-59 | notices and tasks are those of the messages in selection order. Each message is stamped with its own `now()` and saved exactly when it was dispatched and queued. Otherwise its `sent_at` and saved row are unchanged. Subjects, bodies and recipients never change, and processing one message leaves the others alone |

## Left out

- The chatbot, the live chat, websocket consumers, views, URL
  configuration, pagination, Celery and SMTP tasks, and the declarative
  models and serializers of the community, live chat and chatbot apps. They
  are framework or library glue with no rule of their own.
- Django REST framework's validation pipeline is not modelled. That is the
  part that runs each field validator, collects the errors and then calls
  `validate`. The model has the validators themselves.
- The HTTP status codes are not modelled. A denied permission becomes 403
  and a validation error 400 inside REST framework. `WritesOnlyByAuthor`
  states the denials for which the community tests expect 403.
- The 20-character limit on `nickname` (`max_length=20`,
  accounts/models.py:42) is not modelled. REST framework's `ModelSerializer`
  copies it into the generated `nickname` field, whose validator runs before
  `validate_nickname`, so a sign-up with 21 to 30 characters is already
  refused there. That generated validator belongs to the validation layer
  left out above. `ValidateNickname` models only accounts/serializers.py:45-48.
  The database's `unique` constraints are not modelled either.
- `UserManager._create_user` is Django's and is not part of this model. It
  normalises, hashes and saves the user. `CreateSuperuser` returns the call
  it makes instead.
- `AccountsModels.CreateSuperuser` does not follow the call into Django. So
  the model does not capture what `_create_user` then does with this model.
  Django's `_create_user` passes a `username=` keyword, and
  accounts/models.py:38 removes the `username` field.
- `AccountsModels.UserInstance.constructor`: `date_joined`, which Django
  fills in from the clock, and the automatic `id` are not among the
  modelled defaults.
- The password hash algorithm is left out. A set password is the value
  `Hashed(raw)`.
- `AccountsModels.UserInstance.constructor` accepts every keyword. Django
  raises `TypeError` for a keyword that is not a model field, which is why
  `create` pops `password_confirm`. That error path is not modelled.
- `AccountsSerializers.Update` sets the attributes in an unspecified order,
  where Python follows the dictionary's insertion order. The keys are
  distinct, so the result is the same.
- `CommunityUtils.UploadImage`: the local store and S3 are not modelled.
  Only the request made to them and what they answer are. An error raised
  by the debug-mode local save is not modelled either. The source does not
  catch it.
- `CommunityUtils.UploadImage`: `S3Answer` has two failure stages:
  creating the client, and the upload itself. Building the URL from the
  settings is taken not to raise, and any exception of the upload stage is
  one `UploadFailed` outcome.
- `datetime.now()` and `uuid.uuid4()` are parameters. Their ranges (a real
  calendar date, 32 hexadecimal digits) are not enforced. The lemmas about
  paths only need the hex to hold no `.` or `/`.
- `AccountsAdmin.SendSelectedEmails`: the notice's level and the `request`
  object are left out. `NoticeText` gives the text shown. The queued task's
  own work, sending the mail, is not modelled.
- `AccountsAdmin.SendSelectedEmails`: an exception from `send_email.delay`
  other than `CeleryError` escapes the `except` at accounts/admin.py:56 and
  stops the action partway through the selection. `Dispatch` has no such
  outcome, so that path is not modelled.
- `AccountsSerializers.ToRepresentation` returns a map, so the field order
  of the response, which follows `Meta.fields`, is not modelled.
