# Folder table and CAS login of the web UI backend, in Dafny

This project models two parts of the web UI backend and proves properties of them.

**The folder table** (`backend/open_webui/apps/webui/models/folders.py`). A folder is a
record with an id, an optional parent id, an owner, a name, optional items (lists of chat
and file ids), optional meta and two timestamps. `FolderTable` inserts folders, looks them
up, re-parents, renames, replaces their items and deletes them. Every lookup filters on
the owner.

- `folders.dfy`, module `Folders`:
  - the record shapes `Folder` and `FolderItems`;
  - one `Filter` datatype for the equality filters of `filter_by(...)`, with `FirstIndex`/`First` for `.first()` and `Select` for `.all()`;
  - the four lookups, as functions over the table's rows;
  - one function per update (`MoveFolder`, `RenameFolder`, `ReplaceFolderItems`, `DeleteFolder`). Each states the rows afterwards and the record returned;
  - the class `FolderTable`, whose field `rows` its methods change in place. Each method is proved equal to its update function.
- The table is a sequence in storage order, and `.first()` is read as "the first matching row" (see "Row order" under "## Left out").
- The class invariant is that ids are unique, because `id` is the primary key.
- `folder_lemmas.dfy`, module `FolderLemmas`, proves the properties:
  - lookups are scoped by owner;
  - insert, then get or delete, round-trips;
  - rename keeps sibling names unique;
  - insert and move do not keep sibling names unique;
  - a folder can be moved under itself;
  - items are replaced, not merged;
  - the name lookup lower-cases only its argument.

**CAS login** (`backend/open_webui/utils/cas.py`). CAS (Central Authentication Service) is
the single sign-on protocol the backend supports.

- `cas.dfy`, module `Cas`:
  - `GetUserRole`, the role rule;
  - `Callback`, the decisions of `handle_callback`. It returns the account that logs in and the ordered list of writes made to the user table (profile update, role update, account insert);
  - `ClientFor`, for `get_or_create_client`, and `GetLogoutUrl`;
  - the class `CasManager`, holding the configuration, the cached `casClient` and the user table `users`. Its `HandleCallback` runs the source's steps in order and is proved to match `Callback`.
- The outcome of `verify_ticket` is an input of type `Option<Verification>`.
- A new account's id (from `Auths.insert_new_auth`) is a parameter, with a precondition that it is fresh.
- `cas_lemmas.dfy`, module `CasLemmas`, proves the properties:
  - a known account is refreshed, and its role is written only when it differs;
  - signup creates exactly one account, or is refused with 403 when disabled;
  - a sole account that logs in is an admin;
  - the client is created once;
  - the logout URL and the client refuse the same configurations.

The callback looks the account up by the attribute `mail` (`cas.py:85`). It writes the
email from the configured claim `CAS_EMAIL_CLAIM` (`cas.py:92`, `cas.py:106`). When the
claim is `mail`, a second login finds the account the first login created
(`RepeatLoginReusesAccount`). When signup is enabled, CAS releases only a differently named
claim and every stored account has an email, every login creates one more account
(`RepeatLoginCreatesAnotherAccount`). A login with no `mail` attribute is instead matched
to the first account with no email, when one exists, and overwrites its name and email:
a missing attribute is looked up as a missing email (`MissingMailMatchesAccountWithoutEmail`). All three are proved about the
code as written.

`wrappers.dfy` holds `Option` and `Result`.

## Model

| member | source | states |
|---|---|---|
| Folders.Lower | backend/open_webui/apps/webui/models/folders.py:126 | `name.lower()` keeps the length, turns each upper-case ASCII letter into its lower-case counterpart and keeps every other character; so no upper-case letter is left and a string with none is unchanged |
| Folders.GetFolderByIdAndUserId | backend/open_webui/apps/webui/models/folders.py:98-110 | a returned folder is in the table with that id and that owner; `None` exactly when no folder has both |
| Folders.GetFoldersByUserId | backend/open_webui/apps/webui/models/folders.py:112-117 | the result holds exactly the folders whose owner is the user, each as many times as it is stored (once, under the primary key) and no other folder |
| Folders.GetFolderByParentIdAndUserIdAndName | backend/open_webui/apps/webui/models/folders.py:119-136 | a returned folder has that parent and owner, and its stored name equals the lower-cased argument; `None` exactly when no such folder exists |
| Folders.GetFoldersByParentIdAndUserId | backend/open_webui/apps/webui/models/folders.py:138-147 | the result holds exactly the user's folders with that parent, each as many times as it is stored and no other folder; parent `None` selects the root folders |
| Folders.MoveFolder | backend/open_webui/apps/webui/models/folders.py:149-170 | fails with no change exactly when the owner has no folder with that id; otherwise only `parentId` and `updatedAt` of that folder change, and the new parent is never checked; ids stay unique |
| Folders.RenameFolder | backend/open_webui/apps/webui/models/folders.py:172-199 | fails with no change exactly when the folder is missing or some folder of the user under the same parent already has the name; otherwise only `name` and `updatedAt` of that folder change |
| Folders.ReplaceFolderItems | backend/open_webui/apps/webui/models/folders.py:201-219 | fails with no change exactly when the folder is missing; otherwise `items` becomes the given value and only it and `updatedAt` change |
| Folders.DeleteFolder | backend/open_webui/apps/webui/models/folders.py:221-230 | a missing folder leaves the table unchanged; otherwise the table loses exactly the records with that id and shrinks by one |
| Folders.FolderTable.constructor | backend/open_webui/apps/webui/models/folders.py:233 | the table starts empty |
| Folders.FolderTable.InsertNewFolder | backend/open_webui/apps/webui/models/folders.py:70-96 | appends exactly one folder with the fresh id, the given owner, name and parent, no items and no meta, `createdAt` and `updatedAt` from the two clock readings (so `createdAt <= updatedAt`); every other row is kept |
| Folders.FolderTable.UpdateFolderParentIdByIdAndUserId | backend/open_webui/apps/webui/models/folders.py:149-170 | the new rows and the returned folder are those of `MoveFolder`; unique ids are kept |
| Folders.FolderTable.UpdateFolderNameByIdAndUserId | backend/open_webui/apps/webui/models/folders.py:172-199 | the new rows and the returned folder are those of `RenameFolder` |
| Folders.FolderTable.UpdateFolderItemsByIdAndUserId | backend/open_webui/apps/webui/models/folders.py:201-219 | the new rows and the returned folder are those of `ReplaceFolderItems` |
| Folders.FolderTable.DeleteFolderByIdAndUserId | backend/open_webui/apps/webui/models/folders.py:221-230 | returns `true` exactly when the owner has a folder with that id; the new rows are those of `DeleteFolder` |
| FolderLemmas.LookupIsScopedByOwner | backend/open_webui/apps/webui/models/folders.py:98-110 | a stored folder is found by its id for its owner, and not for any other user |
| FolderLemmas.ListingAgreesWithLookup | backend/open_webui/apps/webui/models/folders.py:112-117 | a folder is listed for a user exactly when looking up its id for that user returns it |
| FolderLemmas.InsertThenGet | backend/open_webui/apps/webui/models/folders.py:70-91 | after inserting a folder with a fresh id, ids stay unique and the owner finds exactly that folder |
| FolderLemmas.InsertKeepsOtherLookups | backend/open_webui/apps/webui/models/folders.py:70-91 | an insert changes no lookup of any other id |
| FolderLemmas.InsertThenDelete | backend/open_webui/apps/webui/models/folders.py:221-230 | deleting a freshly inserted folder gives back the table as it was |
| FolderLemmas.DeleteIsScopedByOwner | backend/open_webui/apps/webui/models/folders.py:221-230 | deleting another user's folder fails and leaves the table unchanged |
| FolderLemmas.RenameToCurrentNameFails | backend/open_webui/apps/webui/models/folders.py:182-189 | renaming a folder to its current name is refused and changes nothing, because the folder is its own sibling |
| FolderLemmas.RenameKeepsSiblingNamesUnique | backend/open_webui/apps/webui/models/folders.py:182-192 | if no two siblings share a name before a rename, none do after it |
| FolderLemmas.InsertMayDuplicateSiblingName | backend/open_webui/apps/webui/models/folders.py:70-91 | insert has no name check: for any table with unique ids and any stored folder, appending the row `insert_new_folder` builds with a fresh id and that folder's owner, parent and name keeps the ids unique and breaks sibling-name uniqueness |
| FolderLemmas.MoveMayDuplicateSiblingName | backend/open_webui/apps/webui/models/folders.py:157-163 | re-parenting has no name check: a folder can be moved next to a same-named sibling |
| FolderLemmas.MoveAllowsCycle | backend/open_webui/apps/webui/models/folders.py:157-163 | re-parenting has no cycle check: a folder can be made its own parent |
| FolderLemmas.ReplaceItemsLastWins | backend/open_webui/apps/webui/models/folders.py:211-212 | two item replacements in a row leave the table and the result of the second one alone |
| FolderLemmas.NameLookupMissesUpperCase | backend/open_webui/apps/webui/models/folders.py:124-128 | a folder whose stored name has an upper-case letter is never returned by the name lookup |
| FolderLemmas.NameLookupFindsLowerCase | backend/open_webui/apps/webui/models/folders.py:124-128 | when a stored lower-case name equals the lower-cased argument, some folder of that owner and parent with that stored name is returned (not necessarily that one, as siblings may share a name) |
| FolderLemmas.NameLookupFindsTheFolder | backend/open_webui/apps/webui/models/folders.py:124-128 | when sibling names are unique, the lookup returns exactly the folder whose stored lower-case name the argument lower-cases to |
| FolderLemmas.LowerOfWork | backend/open_webui/apps/webui/models/folders.py:126 | `"Work".lower()` is `"work"` |
| FolderLemmas.RenameSession | backend/open_webui/apps/webui/models/folders.py:172-199 | with root folders "Work" and "Personal", renaming the second to "Work" is refused and leaves the table unchanged; renaming it to "Play" succeeds; the root listing then shows "Work" and "Play" in storage order |
| Cas.FindUserByEmail | backend/open_webui/utils/cas.py:85 | a returned account is in the table with that email; `None` exactly when no account has it |
| Cas.GetUserRole | backend/open_webui/utils/cas.py:53-67 | an existing sole user gets admin; a new user gets admin when there are no users and the default role otherwise; any other existing user keeps their role |
| Cas.ClientFor | backend/open_webui/utils/cas.py:39-51 | fails with 400 "CAS is not configured" exactly when no provider is configured; otherwise returns the cached client, or a new one built from the provider with the callback service URL |
| Cas.GetLogoutUrl | backend/open_webui/utils/cas.py:136-144 | fails with 400 exactly when no provider is configured; otherwise returns the server's `./logout` URL with the `/auth` service URL |
| Cas.Callback | backend/open_webui/utils/cas.py:74-116 | a missing or empty ticket fails with 400; no provider fails with 400; a failed verification fails with 403; once the ticket, provider and verification are all good, the only possible failure is the 403 `ACCESS_PROHIBITED` for a refused signup |
| Cas.CasManager.constructor | backend/open_webui/utils/cas.py:36-37 | the manager starts with no cached client |
| Cas.CasManager.GetOrCreateClient | backend/open_webui/utils/cas.py:39-51 | returns `ClientFor` of the old cache; the cache afterwards holds the returned client and is unchanged on failure |
| Cas.CasManager.HandleCallback | backend/open_webui/utils/cas.py:74-116 | on failure the user table is unchanged; on success the table is the old one with `Callback`'s writes applied in order; the client is created only once the ticket is present; account ids stay unique |
| CasLemmas.KnownUserLogin | backend/open_webui/utils/cas.py:84-99 | a known account logs in under its own id; only its row changes, taking the claimed name and email and the determined role; no account is added |
| CasLemmas.RoleWrittenOnlyWhenItDiffers | backend/open_webui/utils/cas.py:96-99 | a role write happens exactly when the stored role differs from the determined one, and no account is inserted |
| CasLemmas.NewUserSignup | backend/open_webui/utils/cas.py:101-112 | an unknown user with signup enabled gets exactly one appended account with the new id, the claimed name and email, and role admin on an empty table or the default role otherwise |
| CasLemmas.NewUserSignupDisabled | backend/open_webui/utils/cas.py:113-116 | an unknown user with signup disabled is refused with 403 and nothing is written |
| CasLemmas.SoleUserIsAdmin | backend/open_webui/utils/cas.py:96-112 | after a successful login that leaves a single account, that account is the one logged in and it is an admin |
| CasLemmas.RepeatLoginReusesAccount | backend/open_webui/utils/cas.py:85-112 | with the email claim `mail`, a second login with the same attributes reuses the account the first created |
| CasLemmas.RepeatLoginCreatesAnotherAccount | backend/open_webui/utils/cas.py:85-112 | with signup enabled, another email claim, no `mail` attribute and every stored account holding an email, each of two logins creates one more account |
| CasLemmas.MissingMailMatchesAccountWithoutEmail | backend/open_webui/utils/cas.py:85-99 | with no `mail` attribute and some account without an email, the login succeeds as an account without an email and creates no account |
| CasLemmas.ClientIsCreatedOnce | backend/open_webui/utils/cas.py:44-51 | once a client is cached, later calls with any base URL return it and keep it cached |
| CasLemmas.LogoutAgreesWithClient | backend/open_webui/utils/cas.py:138-139 | the logout URL and the client fail on exactly the same configurations, with the same 400 error |

## Left out

- Folders.Lower: models `str.lower()` on ASCII letters only. Unicode case mapping is not modelled.
- Storage: SQLAlchemy sessions, `commit` and `refresh` are not modelled. Neither are the broad `except Exception` paths for storage failures. The only failure modelled is the one raised by `db.delete(None)`.
- Folders.FolderTable.InsertNewFolder: the `None` result of a failed write (`folders.py:94-96`) is not modelled. The fresh `uuid4()` id is a parameter with a precondition that it is unused.
- Clock: each `time.time()` reading is a parameter. The updates take one reading, `now`, and do not assume the clock moves forward, so a re-parent makes `updatedAt` larger only when `now` is larger. `InsertNewFolder` takes its two readings (`createdNow`, `updatedNow`) separately and requires only that the second is not earlier than the first.
- Pydantic: validation and the open `extra="allow"` keys of `FolderItems` are not modelled. `meta` values are abstracted to string maps. The request forms `FolderForm` and `FolderItemsUpdateForm` are not part of this model: the operations take their fields as parameters.
- Re-parent parameter: `update_folder_parent_id_by_id_and_user_id` declares `parent_id: str`. The column is nullable, so the model takes an optional parent.
- The user table: `Users.get_user_by_email`, `Users.update_user_by_id`, `Users.update_user_role_by_id` and `Auths.insert_new_auth` are not part of this model. Their effects are modelled as a first match by email (`None` matching a missing email, as SQL `IS NULL` does), an update of name and email, an update of role, and an append.
- A failed `Auths.insert_new_auth` is not modelled. In the source it returns `None`, which makes the later `user.id` raise.
- Foreign libraries and HTTP: `CASClient` and `verify_ticket` are left out. So are `urljoin` (kept as an unevaluated `UrlJoin` value), password hashing, JWT creation, `parse_duration`, cookies and `RedirectResponse`. So `HandleCallback` returns the id of the account logged in, not the redirect.
- `handle_login` and `handle_logout` are not modelled. They only wrap `get_or_create_client` and `get_logout_url` in redirects.
- Error text: the text of `ERROR_MESSAGES.ACCESS_PROHIBITED` is not part of this model. It is kept as the name `ACCESS_PROHIBITED`.
- Row order: `.first()` and `.all()` run without `ORDER BY`, so the database may return any matching row, in any order. The model reads the rows in storage order. Which row `.first()` returns (for folders and in `FindUserByEmail`) and the order of a listing (as in `RenameSession`) are facts about the model, not promises of the source. The contracts of the lookups do not depend on that choice.
- Concurrency: concurrent renames that race past the sibling check are not modelled. Each operation is atomic in the model.
