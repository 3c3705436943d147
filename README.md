# Access control and profiles of ysd_md_profile, modelled in Dafny

This project models the access-control core of the Ruby library `ysd_md_profile`, together with the profile and password state around it.

- **`Users::ResourceAccessControl#allowed?`** (`resource_access_control.dfy`) is the per-record decision in the letter-coded scheme. A resource has an owner, a group and a modifier string that defaults to `ARN`. The operations `:read` and `:write` need the letters `R` and `W`. Access is granted by one of four branches:
  - the last (everybody) letter is the required letter;
  - the profile is a superuser;
  - the profile is the owner and the first letter is the required letter;
  - the profile's comma-separated group list contains the group and the second letter is the required letter.

  The model of this decision, `Allowed`, compares letters for exact equality, so write never implies read, and a missing letter counts as `N`. This is the corrected decision. The Ruby code compares the String letters with the Symbols `:R` and `:W`, and a String never equals a Symbol, so as written none of the three letter branches can fire and only a superuser is allowed. `AllowedAsWritten` models the code as written (see "Findings").
- **`Users::AccessControlConditionsAppender`** (`conditions_appender.dfy`) builds query conditions in the numeric scheme, where the modifier values 2 and 6 mean "readable". The result is an `$or` of an owner clause, a group clause (only when the profile has groups) and an everybody clause. A single clause is returned on its own. The Persistence variant ANDs these conditions with the caller's `:conditions`, working on a copy of the options hash, for both `all` and `count`. The DataMapper variant's `all` passes the options through unchanged.
- **`Users::Profile`** (`user_profile.dfy`) covers:
  - group membership (`belongs_to?`) and the superuser flag;
  - the anonymous sentinel and `resource_info`;
  - the `before :create` hook, which gives a profile with no groups the stored default groups;
  - `check_usergroups!`, which swaps unsaved groups for their stored records in place.
- **`Users::RegisteredProfile`** (`registered_profile.dfy`) covers:
  - the password property, stored as `MD5(salt + "--" + password)` next to a random five-letter salt;
  - how `attributes=` and `attribute_set` route the password through `set_password`;
  - `check_password`, `change_password!`, `login`, `properties_to_serialize` and `random_string`.

The two permission schemes are kept as the source has them: letters in `allowed?` and numbers in the condition builder. `ruby_text.dfy` models Ruby's `String#split` with a one-character separator other than a space (only `','` is used), which drops trailing empty fields. `wrappers.dfy` holds `Option` (nil) and `Outcome` (a raised exception).

Where the documentation and the code disagree, the model follows the code:

- The doc comment at lib/ysd-md-resource-access-control.rb:12 says that by default the owner may read and write. The default letters are `ARN`, and `A` equals neither `R` nor `W`. So by default the owner branch grants nothing (`DefaultModifiersDecision`).
- The owner clause of the condition builder tests the field `permision_modifier_owner`, spelled as in the source.
- `connected_user` in lib/ysd-md-user-connected_user.rb never returns nil: it falls back to the anonymous sentinel. That sentinel has a group, so it gets three clauses (`AnonymousSentinelConditions`). The `connected_user` the appender actually uses comes from `Model::System::Request`, which is not part of this model. The model therefore takes the connected profile as an `Option`.

## Model

The rows about `allowed?` other than `AllowedAsWritten`, `AsWrittenOnlySuperuser` and `AsWrittenRefusesOwner` describe the corrected decision `Allowed`, in which letters are compared as letters. `AllowedAsWritten` models the code as written, where only the superuser branch can grant access.

| member | source | states |
|---|---|---|
| `ResourceAccessControl.NewResource` | lib/ysd-md-resource-access-control.rb:19-21 | A new resource has a nil owner and group and three modifier letters: owner `A`, group `R`, everybody `N`. |
| `ResourceAccessControl.RequiredLetter` | lib/ysd-md-resource-access-control.rb:38-43 | `:read` needs `R` and `:write` needs `W`; any other operation needs nothing (nil), and only those cases. |
| `ResourceAccessControl.Allowed` | lib/ysd-md-resource-access-control.rb:31-59 | The corrected `allowed?`: everybody letter, superuser, owner with owner letter, or group member with group letter. A superuser is always allowed, and any other profile is allowed only for an operation that needs a letter. |
| `ResourceAccessControl.AllowedByTier` | lib/ysd-md-resource-access-control.rb:45-57 | Access is granted if and only if the profile is a superuser or is in some tier (owner, group, everybody) whose letter is exactly the required letter. |
| `ResourceAccessControl.SuperuserAlwaysAllowed` | lib/ysd-md-resource-access-control.rb:57 | A superuser may perform every operation on every resource, whatever its owner, group and modifiers. |
| `ResourceAccessControl.EverybodyLetterAllowsAnyone` | lib/ysd-md-resource-access-control.rb:48-57 | When the last letter is the required letter, every profile is allowed. |
| `ResourceAccessControl.StrangerNeedsEverybodyLetter` | lib/ysd-md-resource-access-control.rb:48-57 | A non-superuser who is neither the owner nor in the group is allowed exactly when the last letter is the required letter. |
| `ResourceAccessControl.OwnerBranchDecides` | lib/ysd-md-resource-access-control.rb:46-57 | When the superuser, group and everybody branches do not apply, access is granted exactly when `username == owner` and the first letter is the required letter. |
| `ResourceAccessControl.GroupBranchDecides` | lib/ysd-md-resource-access-control.rb:47-57 | When the superuser, owner and everybody branches do not apply, access is granted exactly when the group is among `groups.split(',')` and the second letter is the required letter. |
| `ResourceAccessControl.NoLetterGrantsBoth` | lib/ysd-md-resource-access-control.rb:38-57 | Letters are compared for equality, so no letter grants both read and write. |
| `ResourceAccessControl.WriteDoesNotImplyRead` | lib/ysd-md-resource-access-control.rb:46-57 | With modifiers `WNN`, the owner may write but may not read. |
| `ResourceAccessControl.OtherOperationOnlySuperuser` | lib/ysd-md-resource-access-control.rb:38-57 | An operation other than read or write is allowed if and only if the profile is a superuser. |
| `ResourceAccessControl.EmptyModifiersOnlySuperuser` | lib/ysd-md-resource-access-control.rb:46-48 | With an empty modifier string every letter defaults to `N`, so only a superuser is allowed. |
| `ResourceAccessControl.DefaultModifiersDecision` | lib/ysd-md-resource-access-control.rb:21-57 | With `ARN`, access is granted if and only if the profile is a superuser, or the operation is a read and the profile is in the group. Nobody but a superuser may write. |
| `ResourceAccessControl.EverybodyLetterPosition` | lib/ysd-md-resource-access-control.rb:46-48 | The everybody letter is the last letter. With one letter it is the owner letter; with two it is the group letter; with fewer than two the group letter is `N`. |
| `ResourceAccessControl.GroupTierByNames` | lib/ysd-md-resource-access-control.rb:57 | When the group string is a comma join of proper names, the group tier applies exactly when the resource's group is one of those names. |
| `ResourceAccessControl.AllowedAsWritten` | lib/ysd-md-resource-access-control.rb:38-57 | `allowed?` as written, with String letters compared with the Symbols `:R`, `:W` and `:N` or nil. It holds exactly for superusers. |
| `ResourceAccessControl.AsWrittenOnlySuperuser` | lib/ysd-md-resource-access-control.rb:38-57 | With Ruby's String-versus-Symbol equality, `allowed?` as written is true exactly for superusers. |
| `ResourceAccessControl.AsWrittenRefusesOwner` | lib/ysd-md-resource-access-control.rb:38-57 | An owner with letter `R` is refused a read as written, although the letters allow it. |
| `RubyText.Split` | lib/ysd-md-resource-access-control.rb:57 | `split(',')`: no field contains the separator, the last field is never empty (trailing empty fields are dropped), and the empty string splits into no fields. With `JoinFields` this fixes the result for every string. |
| `RubyText.JoinFields` | lib/ysd-md-resource-access-control.rb:57 | For every string, its separator-delimited fields (empty ones included) joined back with the separator give the string: the fields `split` keeps are exactly the pieces of the string, in order. |
| `RubyText.SplitJoin` | lib/ysd-md-resource-access-control.rb:57 | `split(',')` of a comma join of non-empty, comma-free names gives back the names. |
| `Profiles.GroupNamesOf` | lib/ysd-md-user-profile.rb:166-168 | The group keys keep the length and order of the groups. |
| `Profiles.Intersection` | lib/ysd-md-user-profile.rb:166 | Ruby `&` holds exactly the names that are in both arrays, without duplicates. |
| `Profiles.BelongsToNames` | lib/ysd-md-user-profile.rb:163-171 | With an Array, true exactly when it shares a name with the profile's group keys; with a single name, true exactly when that name is one of them. Any other object, such as a Group record, and the empty Array give false. |
| `Profiles.DefaultGroups` | lib/ysd-md-user-profile.rb:59-63 | The default groups are exactly the stored groups whose names are listed; unknown names are skipped, so the result has at most as many groups as names. With `DefaultGroupsConcat` and `DefaultGroupsOne` this fixes order and repetitions for every list of names. |
| `Profiles.DefaultGroupsConcat` | lib/ysd-md-user-profile.rb:59-63 | The default groups of two lists of names are those of the first list followed by those of the second, so groups are appended in the order of the names. |
| `Profiles.DefaultGroupsOne` | lib/ysd-md-user-profile.rb:60-62 | One name contributes its stored group once when it is stored, and nothing when it is unknown. |
| `Profiles.DefaultGroupsAllKnown` | lib/ysd-md-user-profile.rb:59-63 | When every listed name is stored, the profile gets exactly those groups, in the listed order. |
| `Profiles.RefreshedAll` | lib/ysd-md-user-profile.rb:227-237 | The refreshed list has the same length as the original. |
| `Profiles.RefreshKeepsNames` | lib/ysd-md-user-profile.rb:227-237 | Refreshing against a consistent store keeps every group key, in order. |
| `Profiles.RefreshIdempotent` | lib/ysd-md-user-profile.rb:227-237 | Refreshing twice against a consistent store gives the same list as refreshing once. |
| `Profiles.RefreshKeepsMembership` | lib/ysd-md-user-profile.rb:163-171 | `belongs_to?` answers the same before and after `check_usergroups!` against a consistent store. |
| `Profiles.ResourceInfoDistinct` | lib/ysd-md-user-profile.rb:208-212 | Profiles with different keys have different resource identifiers, whenever the key rendering tells keys apart. |
| `Profiles.Profile.constructor` | lib/ysd-md-user-profile.rb:35 | A new profile's superuser flag defaults to false, so it is not a superuser. |
| `Profiles.Profile.Anonymous` | lib/ysd-md-user-profile.rb:214-220 | The sentinel is named `anonymous` and is not a superuser. Its only group is an unsaved `anonymous`, so it belongs to `anonymous` and not to `user`. |
| `Profiles.Profile.BelongsTo` | lib/ysd-md-user-profile.rb:163-171 | A single name belongs exactly when it is one of the profile's group keys. An Array belongs exactly when it shares a name with them. Any other object, such as a Group record, never belongs. |
| `Profiles.Profile.GroupNames` | lib/ysd-md-user-profile.rb:166-168 | The profile has one group key per group. |
| `Profiles.Profile.IsSuperuser` | lib/ysd-md-user-profile.rb:151-155 | Only a flag that is exactly true makes a superuser; a nil flag does not. |
| `Profiles.Profile.ResourceInfo` | lib/ysd-md-user-profile.rb:208-212 | The identifier is `profile_` followed by the key as Ruby renders it, and nothing else. |
| `Profiles.Profile.BeforeCreate` | lib/ysd-md-user-profile.rb:55-66 | Stamps the creation date. A profile with no groups gets the stored groups named in the comma-split default (`user` when unset), in order. A profile that has groups is left as it was. |
| `Profiles.Profile.CheckUsergroups` | lib/ysd-md-user-profile.rb:227-237 | Replaces each unsaved group found in the store with the stored one, in place, keeping length and order. All other fields are unchanged. |
| `AccessControlConditions.Clauses` | lib/ysd_md_access_control_conditions_appender.rb:30-56 | One to three clauses, with the everybody clause last. The owner clause comes first exactly when a profile is connected, and the group clause is present exactly when that profile has groups. |
| `AccessControlConditions.AccessConditions` | lib/ysd_md_access_control_conditions_appender.rb:30-65 | With no profile: the bare everybody clause. With a profile without groups: `$or` of [owner, everybody]. With a profile with groups: `$or` of [owner, group, everybody]. |
| `AccessControlConditions.AccessControlConditions` | lib/ysd_md_access_control_conditions_appender.rb:30-65 | The method that appends clauses to a local array returns exactly `AccessConditions`. |
| `AccessControlConditions.ClauseCountAndWrapping` | lib/ysd_md_access_control_conditions_appender.rb:59-63 | There are one to three clauses. An `$or` node is built exactly when there are two or more, and it holds the clauses; a single clause is returned on its own. |
| `AccessControlConditions.AnonymousSentinelConditions` | lib/ysd_md_access_control_conditions_appender.rb:34-60 | The anonymous sentinel, as the connected profile, gets three clauses, never the bare everybody clause. |
| `AccessControlConditions.Upgrade` | lib/ysd_md_access_control_conditions_appender.rb:120-140 | Only `:conditions` differs. It becomes `$and` of [caller conditions, access conditions] when the caller gave conditions, and the access conditions alone otherwise. |
| `AccessControlConditions.BuildAccessControlConditions` | lib/ysd_md_access_control_conditions_appender.rb:120-140 | Returns a fresh hash equal to `Upgrade` of the caller's options. The caller's hash is outside the method's frame, so it is unchanged. |
| `AccessControlConditions.PersistenceAll` | lib/ysd_md_access_control_conditions_appender.rb:102-107 | The original `all` runs with the upgraded options. |
| `AccessControlConditions.PersistenceCount` | lib/ysd_md_access_control_conditions_appender.rb:109-116 | The original `count` runs with the same upgraded options as `all`. |
| `AccessControlConditions.DataMapperAll` | lib/ysd_md_access_control_conditions_appender.rb:82-86 | The original `all` runs with the caller's options unchanged. |
| `RegisteredProfiles.AlphabetLetters` | lib/ysd-md-user-registered_profile.rb:220 | The salt alphabet is exactly the 52 ASCII letters. |
| `RegisteredProfiles.SaltedInput` | lib/ysd-md-user-registered_profile.rb:179 | The digested text is the salt (empty for nil), then `--`, then the password. |
| `RegisteredProfiles.PasswordMatches` | lib/ysd-md-user-registered_profile.rb:178-180 | A password checks only when a password is stored (a nil password never checks), and the stored value is the digest of the stored salt, `--` and the candidate. |
| `RegisteredProfiles.WithPassword` | lib/ysd-md-user-registered_profile.rb:187-191 | Setting a password changes only the `password` and `salt` properties, and the stored salt is the chosen one. |
| `RegisteredProfiles.SetThenCheck` | lib/ysd-md-user-registered_profile.rb:178-191 | After a password is set, `check_password` of that password is true, whatever the digest and salt. |
| `RegisteredProfiles.CheckOnlyTheSetPassword` | lib/ysd-md-user-registered_profile.rb:178-180 | With an injective digest, `check_password` accepts exactly the password that was set. |
| `RegisteredProfiles.PropertiesToSerialize` | lib/ysd-md-user-registered_profile.rb:164-168 | The result holds exactly the properties other than `password`. |
| `RegisteredProfiles.SerializeConcat` | lib/ysd-md-user-registered_profile.rb:164-168 | The filter keeps the original order: it distributes over concatenation. |
| `RegisteredProfiles.SerializeWithoutPassword` | lib/ysd-md-user-registered_profile.rb:164-168 | A property list without `password` is serialised unchanged. |
| `RegisteredProfiles.RandomString` | lib/ysd-md-user-registered_profile.rb:218-224 | Returns exactly `size` characters (none when `size` is below one), each a letter a–z or A–Z. |
| `RegisteredProfiles.HashPassword` | lib/ysd-md-user-registered_profile.rb:203-211 | Returns a five-letter salt and the digest of the salt, two dashes and the password. |
| `RegisteredProfiles.RegisteredProfile.CheckPassword` | lib/ysd-md-user-registered_profile.rb:178-180 | A profile without a stored password accepts no password. When a password checks, the stored password is the digest of the stored salt, `--` and that password. |
| `RegisteredProfiles.RegisteredProfile.BaseAttributeSet` | lib/ysd-md-user-registered_profile.rb:23 | A plain assignment of one property. |
| `RegisteredProfiles.RegisteredProfile.SetPassword` | lib/ysd-md-user-registered_profile.rb:187-191 | Stores the digest of a fresh salt and the password, then the salt. Afterwards `check_password` of the password is true. |
| `RegisteredProfiles.RegisteredProfile.AttributeSet` | lib/ysd-md-user-registered_profile.rb:153-159 | For `password`, the value is never stored as given but goes through `set_password`. Any other name is a plain assignment. |
| `RegisteredProfiles.RegisteredProfile.SetAttributes` | lib/ysd-md-user-registered_profile.rb:134-148 | Deletes `password` from the caller's hash in place and assigns the rest. If a non-nil password was given, it is then set through `set_password`. |
| `RegisteredProfiles.RegisteredProfile.ChangePassword` | lib/ysd-md-user-registered_profile.rb:118-127 | If the current password does not check: `PasswordNotValid` is raised and nothing changes. Otherwise the new password is set and checks. |
| `RegisteredProfiles.Login` | lib/ysd-md-user-registered_profile.rb:33-43 | Returns the stored user exactly when it exists and the password checks; nil otherwise. |

## Left out

- The profile seen by `allowed?` is an abstract record of username, superuser flag and a comma-separated group string. `Users::Profile` has neither `super_user?` nor `groups` (it has `is_superuser?` and `usergroups`), so with a real profile the call raises NoMethodError. The model does not capture that crash.
- A nil `modifiers` property, on which `split` raises NoMethodError, is not modelled: the model's modifier string is never nil. The Ruby expression's result may be `nil` rather than `false`; it is modelled by its truth value.
- The column lengths (32, 32 and 3 characters for owner, group and modifiers; 5 for the salt; 32 for the password) are validations, and the decision does not check them.
- `Conditions::Comparison` and `Conditions::JoinComparison` belong to a library that is not part of this model. Only the tree shape they build is modelled, not how a data store evaluates it.
- `Model::System::Request` (the appender's `connected_user`) and the thread-local lookup in lib/ysd-md-user-connected_user.rb are not part of this model. The connected profile is an input.
- `original_all` and `original_count` are store calls. They are modelled as function parameters that receive the options.
- `Profile#age` depends on the wall clock and Time arithmetic, so it is left out. The creation date set by the `before :create` hook is a `now` parameter.
- The `save` overrides, `find_other_profiles`, `email_registered?`, `update_last_access` and `as_json` are persistence and JSON plumbing, so they are left out. `change_password!` calls `save` after setting the password; that store write is left out.
- `signup`, `create_user` and `reset_password!` involve transactions and business events, so they are left out (`reset_password!` also uses an undefined `user`).
- `SystemConfiguration::Variable.get_value` is a parameter (`None` when the variable is unset). `Group.get` is a map of stored groups.
- `Digest::MD5.hexdigest` is an arbitrary function parameter, and `rand` is a nondeterministic choice of index into the alphabet.
- `symbolize_keys!` is not modelled: attribute names are already strings in the model. The ArgumentError DataMapper raises for an unknown attribute in `attributes=` is not modelled either: every name is assigned.
- Profiles.Profile.ResourceInfo: the key is the Array `[username]`, and how Ruby renders it inside the string depends on the Ruby version (`profile_admin` on 1.8, `profile_["admin"]` on 1.9 and later). The rendering is a function parameter, so the model does not fix either form.
- `RegisteredProfile` is modelled by its property map alone, separately from the `Profile` class, because the model has no inheritance between the two classes.
- The decision depends only on owner, group, modifiers and the profile's username, superuser flag and groups. This holds by the signature of `Allowed` rather than by a separate lemma.

## Findings

| source | as written | input that shows it | evidently intended | confidence | as-written member | corrected member |
|---|---|---|---|---|---|---|
| lib/ysd-md-resource-access-control.rb:38-57 | The letters from `split('')` are Strings, but they are compared with the Symbols `:R` and `:W`. A String never equals a Symbol, so only the superuser branch can grant access. | owner `bob`, modifiers `RNN`, non-superuser `bob`, `:read`: refused | Letters compared with the letters `R` and `W`, so the owner with `R` may read | high (not executed) | `ResourceAccessControl.AsWrittenRefusesOwner` | `ResourceAccessControl.Allowed` |
