# Budget ledger and login demo, modelled in Dafny

The repository holds two small Android demos. This project models the four pieces of sequential logic in them:

- **Budget ledger** (`budgetapp/MainActivity.java`). The budget screen keeps two in-memory lists of `(name, int amount)` categories, one for expenses and one for income. Each list is seeded with fixed Vietnamese default names and has its total shown. Rows are added, edited and removed through dialogs, and a lock button gates edits and deletes. This is module `Budget`: class `Ledger` holds both lists and the lock flag.
- **Login and registration screens** (`LoginActivity.java`, `RegisterActivity.java`).
  - Login checks both fields independently and accepts one hard-coded credential pair. It then persists the email, and a persisted email skips the form. This is module `Login`.
  - Registration checks its four trimmed fields in a fixed order and reports only the first failure. It stores nothing. This is module `Register`, which is pure.
- **Credential store** (`UserDAO.java`). The `users` table is a map from email to record. Registration hashes the password and rejects duplicate emails with -1. Login succeeds when the stored hash verifies, and only then stamps `last_login`. Lookups never return the hash. This is module `UserStore`: class `UserDao`.
- **Schema lifecycle** (`DatabaseHelper.java`). This covers creating the table and its `idx_email` index, the additive upgrade from version 1 to 2, and the drop-and-recreate fallback. This is module `Schema`: class `Database`, plus specification functions `Created` and `Upgraded`.

Module `JavaLang` holds the Java behaviour the code relies on: 32-bit `int` wrap-around, `String.trim()`, `String.length()`, `Integer.parseInt` and `String.valueOf(int)`. Dafny strings are sequences of Unicode scalar values, while Java's `length()` counts UTF-16 code units. The password length rules are therefore stated with `JavaLang.Utf16Length`, which counts a character outside the Basic Multilingual Plane twice.

Inputs the code takes from the platform are parameters of the model:
- The `Patterns.EMAIL_ADDRESS` matcher is a function parameter `emailPattern`.
- BCrypt's key derivation is a function `kdf` fixed when a `UserDao` is built.
- The rows and the AUTOINCREMENT counter already in the database file are constructor arguments of `UserDao`.
- The random salt and the clock reading are method parameters.
- Whether a storage or hashing exception occurs during a call is a boolean parameter (`fails`, `readFails`, `writeFails`, and `commitFails` for the end of a registration's transaction).

`DatabaseHelper` and `UserDAO` disagree on column names. `UserDAO` uses `COLUMN_PASSWORD_HASH` and `COLUMN_FULL_NAME`, which `DatabaseHelper` does not define. The model uses one record with id, email, password hash, full name, creation time and last login. The schema keeps the five columns `CREATE TABLE` declares, with the password column named `password_hash`.

## Model

| member | source | states |
|---|---|---|
| `Budget.Ledger.constructor` | app/src/main/java/com/example/budgetapp/MainActivity.java:63-73 | the expense list is the 8 default names in order, the income list the 4 default names in order, every amount 0; editing starts locked |
| `Budget.SumSeeded` | app/src/main/java/com/example/budgetapp/MainActivity.java:63-76 | freshly seeded lists total 0 |
| `Budget.Ledger.ToggleLock` | app/src/main/java/com/example/budgetapp/MainActivity.java:51-58 | each press flips the lock flag and changes neither list |
| `Budget.Ledger.Add` | app/src/main/java/com/example/budgetapp/MainActivity.java:174-190 | saving the add dialog appends exactly one category at the end of the chosen list, locked or not; the other list and the flag are unchanged |
| `Budget.Ledger.Edit` | app/src/main/java/com/example/budgetapp/MainActivity.java:166-187 | while unlocked, saving the edit dialog replaces only element `index` (name and parsed amount); the length, every other element and the other list are unchanged; while locked nothing changes |
| `Budget.Ledger.Remove` | app/src/main/java/com/example/budgetapp/MainActivity.java:97-105 | while unlocked, confirming removes exactly element `index` of the chosen list; while locked nothing changes; the other list is untouched |
| `Budget.RemovedKeepsOrder` | app/src/main/java/com/example/budgetapp/MainActivity.java:103 | removal keeps every other category in the same relative order, and the multiset loses only the removed one |
| `Budget.Ledger.Total` | app/src/main/java/com/example/budgetapp/MainActivity.java:81-116 | the displayed total is the exact sum of the amounts reduced to 32 bits, and equals the exact sum when that fits in an `int` |
| `Budget.SumAppended` | app/src/main/java/com/example/budgetapp/MainActivity.java:181-182 | appending adds the new amount to the exact total |
| `Budget.SumRemoved` | app/src/main/java/com/example/budgetapp/MainActivity.java:102-104 | removing takes exactly the removed amount off the exact total |
| `Budget.SumReplaced` | app/src/main/java/com/example/budgetapp/MainActivity.java:183-186 | editing swaps the old amount for the new one in the exact total |
| `Budget.ParsedAmountOfValueOf` | app/src/main/java/com/example/budgetapp/MainActivity.java:166-179 | an edit dialog pre-filled with `String.valueOf(amount)` and saved unchanged keeps the amount |
| `Budget.ParsedAmount` | app/src/main/java/com/example/budgetapp/MainActivity.java:176-179 | the saved amount is the number `Integer.parseInt` reads from the text, or 0 exactly when it throws |
| `Budget.ParsedAmountOfEmptyOrSign` | app/src/main/java/com/example/budgetapp/MainActivity.java:176-179 | an empty amount field, or one holding only `-` or `+`, is saved as 0 |
| `Budget.ParsedAmountOfNonNumber` | app/src/main/java/com/example/budgetapp/MainActivity.java:176-179 | text with a character that is neither a digit nor a leading sign is saved as 0 |
| `Budget.ParsedAmountOutOfRange` | app/src/main/java/com/example/budgetapp/MainActivity.java:176-179 | a well-formed number beyond the `int` range is saved as 0, not wrapped or clamped |
| `JavaLang.Wrap` | app/src/main/java/com/example/budgetapp/MainActivity.java:113 | an `int` result is congruent to the exact value modulo 2^32, and equal to it when it fits |
| `JavaLang.WrapAbsorbs` | app/src/main/java/com/example/budgetapp/MainActivity.java:113 | wrapping the running total at every `total += c.amount` gives the same result as wrapping the exact sum once |
| `JavaLang.ParseValueOf` | app/src/main/java/com/example/budgetapp/MainActivity.java:168-178 | `Integer.parseInt(String.valueOf(n)) == n` for every `int` |
| `JavaLang.ParseInt` | app/src/main/java/com/example/budgetapp/MainActivity.java:178 | empty text gives no number; a parsed number comes from a non-empty run of decimal digits after an optional sign, and its magnitude is the value of those digits |
| `JavaLang.ParseIntRejectsOutOfRange` | app/src/main/java/com/example/budgetapp/MainActivity.java:178 | the decimal text of a number above 2147483647 does not parse, nor does the negated text of one above 2147483648 |
| `JavaLang.ParseIntRejectsNonDigit` | app/src/main/java/com/example/budgetapp/MainActivity.java:176-179 | text holding a character that is neither a digit nor a leading sign does not parse |
| `JavaLang.Trim` | app/src/main/java/com/example/dangnhap/LoginActivity.java:40-41 | the result is no longer than the input, and neither end of a non-empty result is a blank (a character at or below U+0020) |
| `JavaLang.TrimIsSlice` | app/src/main/java/com/example/dangnhap/LoginActivity.java:40-41 | the trimmed text is one contiguous piece of the input, with only blanks cut off before and after it |
| `JavaLang.TrimStart` | app/src/main/java/com/example/dangnhap/LoginActivity.java:40-41 | the result is a suffix of the input, everything removed is blank, and the result does not start with a blank |
| `JavaLang.TrimEnd` | app/src/main/java/com/example/dangnhap/LoginActivity.java:40-41 | the result is a prefix of the input, everything removed is blank, and the result does not end with a blank |
| `JavaLang.TrimEmptyIffAllBlank` | app/src/main/java/com/example/dangnhap/RegisterActivity.java:32-35 | a trimmed field is empty exactly when every character of the typed text is blank |
| `JavaLang.TrimPadded` | app/src/main/java/com/example/dangnhap/RegisterActivity.java:32-35 | blanks typed around a value are removed and the value itself is kept |
| `JavaLang.TrimIdempotent` | app/src/main/java/com/example/dangnhap/LoginActivity.java:40-41 | trimming an already trimmed field changes nothing |
| `JavaLang.Utf16Length` | app/src/main/java/com/example/dangnhap/LoginActivity.java:78 | `String.length()` counts each character once or twice, so it lies between the number of characters and twice that, and is 0 only for the empty string |
| `JavaLang.Utf16LengthBmp` | app/src/main/java/com/example/dangnhap/RegisterActivity.java:67 | without characters outside the Basic Multilingual Plane, `length()` is the number of characters |
| `JavaLang.Utf16LengthSupplementary` | app/src/main/java/com/example/dangnhap/RegisterActivity.java:67 | characters outside the Basic Multilingual Plane count two code units each |
| `Register.ValidateInput` | app/src/main/java/com/example/dangnhap/RegisterActivity.java:51-78 | valid iff name and email are non-empty, the password's `length()` is at least 6 UTF-16 code units and it equals the confirmation |
| `Register.ReportedErrorIsFirstFailing` | app/src/main/java/com/example/dangnhap/RegisterActivity.java:52-75 | each error is reported exactly when its own check fails and every earlier check passed, so an empty name hides an empty email; "too short" means 1 to 5 UTF-16 code units |
| `Register.EmailFormatIgnored` | app/src/main/java/com/example/dangnhap/RegisterActivity.java:57-60 | any two non-empty emails give the same verdict: the format is never checked |
| `Register.OnRegisterClicked` | app/src/main/java/com/example/dangnhap/RegisterActivity.java:31-43 | the click moves on to login iff the trimmed name and email are non-empty, the trimmed password is at least 6 UTF-16 code units long and equals the trimmed confirmation; it returns a screen and persists nothing |
| `Register.BlankNameRejected` | app/src/main/java/com/example/dangnhap/RegisterActivity.java:32-55 | a whitespace-only name is reported as missing, whatever the other fields hold |
| `Register.BlankPasswordMissing` | app/src/main/java/com/example/dangnhap/RegisterActivity.java:62-70 | an empty password is reported as missing, not as too short |
| `Register.LengthCountsCodeUnits` | app/src/main/java/com/example/dangnhap/RegisterActivity.java:67 | three characters from outside the Basic Multilingual Plane already pass the length rule, while five ordinary characters are too short |
| `Register.PaddedPasswordsMatch` | app/src/main/java/com/example/dangnhap/RegisterActivity.java:34-37 | blanks around the password do not make it differ from its confirmation |
| `Login.ValidateInput` | app/src/main/java/com/example/dangnhap/LoginActivity.java:64-84 | valid iff the email is non-empty and matches the pattern and the password's `length()` is at least 6 UTF-16 code units; the email error and the password error are each set from their own field alone |
| `Login.LoginActivity.IsLoggedIn` | app/src/main/java/com/example/dangnhap/LoginActivity.java:54-57 | a session exists exactly when an email is stored under "email", and `StoredEmail` then yields it; without one `StoredEmail` yields "" |
| `Login.LoginActivity.StoredEmail` | app/src/main/java/com/example/dangnhap/LoginActivity.java:59-62 | a non-empty result is the email stored under "email"; with nothing stored the result is the default "" |
| `Login.TestPasswordLongEnough` | app/src/main/java/com/example/dangnhap/LoginActivity.java:78-90 | the accepted password "123456" itself passes the length rule |
| `Login.LoginActivity.OnCreate` | app/src/main/java/com/example/dangnhap/LoginActivity.java:32-36 | with an email stored under "email" the form is skipped and the screen goes home with that email; otherwise the form is shown |
| `Login.LoginActivity.SaveLoginState` | app/src/main/java/com/example/dangnhap/LoginActivity.java:98-103 | the email is stored under key "email" and no other key changes |
| `Login.LoginActivity.AuthenticateUser` | app/src/main/java/com/example/dangnhap/LoginActivity.java:86-96 | succeeds iff the pair is ("user@example.com", "123456"), then persists the email; a failure leaves the stored state unchanged |
| `Login.LoginActivity.OnLoginClicked` | app/src/main/java/com/example/dangnhap/LoginActivity.java:39-46 | on the trimmed fields: the outcome is a validation failure iff the email is empty or rejected by the pattern or the password is under 6 UTF-16 code units, with each field's error as `ValidateInput` sets it; valid input that is not the test pair gives wrong credentials; the click logs in iff the trimmed inputs are the test pair (and the pattern accepts the email); only a login changes the stored state |
| `Login.LoginThenRestart` | app/src/main/java/com/example/dangnhap/LoginActivity.java:32-57 | after a login with padded test credentials, a restarted screen finds the stored email and goes straight home |
| `UserStore.VerifyHashed` | app/src/main/java/com/example/dangnhap/database/UserDAO.java:84-85 | a stored hash verifies the password it was made from |
| `UserStore.VerifyRejectsOthers` | app/src/main/java/com/example/dangnhap/database/UserDAO.java:84-88 | with a collision-free derivation, the hash verifies no other password |
| `UserStore.UserDao.constructor` | app/src/main/java/com/example/dangnhap/database/UserDAO.java:16-18 | a store opens over the rows and AUTOINCREMENT counter already persisted in the database file (empty and 1 for a new file), which must satisfy the table invariant; it keeps them unchanged |
| `UserStore.UserDao.RegisterUser` | app/src/main/java/com/example/dangnhap/database/UserDAO.java:27-57 | a new email gets the next id (at least 1) and a row holding the hash of the password, never the plaintext; a duplicate email or an exception inside the `try` returns -1 and leaves the table unchanged; an exception while ending the transaction is swallowed after the id was chosen, so the caller gets that id while the row is rolled back |
| `UserStore.UserDao.UpdateLastLogin` | app/src/main/java/com/example/dangnhap/database/UserDAO.java:133-151 | stamps `last_login` of that row only; an absent email or an exception changes nothing |
| `UserStore.UserDao.LoginUser` | app/src/main/java/com/example/dangnhap/database/UserDAO.java:65-98 | true iff the row exists and its hash verifies the password (false on a read exception); `last_login` is written only on success, and a failed login changes nothing |
| `UserStore.UserDao.IsEmailExists` | app/src/main/java/com/example/dangnhap/database/UserDAO.java:103-128 | true iff some row has the email and no exception occurs; the table is not modified |
| `UserStore.UserDao.GetUserByEmail` | app/src/main/java/com/example/dangnhap/database/UserDAO.java:156-192 | `None` when the email is absent or the query throws; otherwise the row's id, email, full name and creation time, in a type with no hash field |
| `UserStore.CommitFailureScenario` | app/src/main/java/com/example/dangnhap/database/UserDAO.java:41-55 | after a registration whose commit fails reports id 1, the email is unknown and the next registration is handed id 1 again |
| `UserStore.RegisterLoginScenario` | app/src/main/java/com/example/dangnhap/database/UserDAO.java:27-128 | on an empty store, registering gives id 1; the right password logs in and a wrong one does not; the email exists and another does not |
| `Schema.FreshSchema` | app/src/main/java/com/example/dangnhap/database/DatabaseHelper.java:23-34 | the created table has columns `_id`, `email`, `password_hash`, `created_at`, `last_login` in that order, an autoincrement integer key, a unique non-null email and the `idx_email` index |
| `Schema.CreatedAllOrNothing` | app/src/main/java/com/example/dangnhap/database/DatabaseHelper.java:41-53 | creation on an empty database yields the fresh schema; when a statement fails the error is swallowed and nothing changes |
| `Schema.UpgradeAtTargetIsNoop` | app/src/main/java/com/example/dangnhap/database/DatabaseHelper.java:60 | from version 2 on, an upgrade makes no schema change |
| `Schema.UpgradeFromV1` | app/src/main/java/com/example/dangnhap/database/DatabaseHelper.java:58-69 | a table in the assumed version-1 layout (`_id`, `email`, `password_hash`, no index) gains `created_at`, `last_login` and the index, and keeps its rows |
| `Schema.UpgradeKeepsColumnNames` | app/src/main/java/com/example/dangnhap/database/DatabaseHelper.java:60-67 | a migration that applies renames no column: the upgraded table has exactly the old column names plus `created_at` and `last_login` |
| `Schema.MigrationFailsIff` | app/src/main/java/com/example/dangnhap/database/DatabaseHelper.java:60-66 | the migration fails exactly when the table is missing, already has `created_at` or `last_login`, already has the email index, or has no `email` column; otherwise it appends the two columns and adds the index |
| `Schema.UpgradeFallbackLosesRows` | app/src/main/java/com/example/dangnhap/database/DatabaseHelper.java:71-75 | in every case where the migration fails, the table is dropped and recreated: fresh schema, no rows |
| `Schema.UpgradeMigrates` | app/src/main/java/com/example/dangnhap/database/DatabaseHelper.java:58-69 | in every case where the migration does not fail, the rows are kept, `created_at` and `last_login` are appended and the index is added |
| `Schema.UpgradeOutcome` | app/src/main/java/com/example/dangnhap/database/DatabaseHelper.java:56-79 | below version 2 every upgrade ends with the table and its index present: either rows kept and the two columns appended, or the fresh empty schema |
| `Schema.Database.OnCreate` | app/src/main/java/com/example/dangnhap/database/DatabaseHelper.java:41-53 | running the two statements in one transaction leaves the database as `Created` says |
| `Schema.Database.OnUpgrade` | app/src/main/java/com/example/dangnhap/database/DatabaseHelper.java:56-79 | running the migration statements, and the fallback on failure, leaves the database as `Upgraded` says |
| `Schema.Database.Open` | app/src/main/java/com/example/dangnhap/database/DatabaseHelper.java:36-38 | opening creates a new database, upgrades an older one, records version 2, and refuses a newer one without changes |
| `Schema.OpenNewDatabase` | app/src/main/java/com/example/dangnhap/database/DatabaseHelper.java:36-53 | opening a new database file yields the full schema at version 2 |

## Left out

- Android UI plumbing is not modelled: views, dialogs, toasts, intents and navigation. The dialog and confirmation steps are folded into `Budget.Ledger.Add`, `Edit` and `Remove`, and navigation becomes a returned `Screen` or outcome value.
- `dangnhap/MainActivity.java` (the home screen) is UI only. Its logout does not clear the stored email, so the login screen at once goes home again (`Login.LoginActivity.OnCreate` shows why).
- Currency formatting with the vi-VN `NumberFormat` and the per-day average `total / 31.0` are not modelled. Both are floating point and locale formatting.
- BCrypt internals are not modelled: the salt format, the cost loop, and the 72-byte password limit. Only "derive with the stored cost and salt, then compare" is kept. A hashing exception counts as a failure of the call through the `fails` parameter.
- `UserStore.VerifyRejectsOthers`: the guarantee that a wrong password is rejected needs a collision-free derivation. Real BCrypt only makes collisions infeasible, so this is assumed as a precondition rather than proved.
- `UserStore.UserDao.LoginUser`: the claim that `last_login` never precedes `created_at` depends on the clock. The source never checks the clock, so the model does not claim it. Also, the source stores `created_at` as SQLite's `CURRENT_TIMESTAMP` text and `last_login` as milliseconds; the model uses one integer timestamp for both.
- The SQLite engine itself is not modelled: SQL text, cursors, WAL and foreign-key pragmas (`onConfigure`, `onOpen`). The engine's decision on each statement is reduced to whether the table, the column or the index already exists. Disk and I/O faults during a schema statement are not modelled.
- `Schema.UpgradeFromV1`: the version-1 layout is an assumption, since no version-1 schema appears in the code. Comments on the `_id` and `password_hash` constants suggest those columns once had other names, and the migration renames nothing (`Schema.UpgradeKeepsColumnNames`). A version-1 table under other names therefore keeps them, and `UserDAO`'s queries on `_id` and `password_hash` would not find them. The lemma also leaves the row count free, although SQLite may refuse the `CURRENT_TIMESTAMP` default on a populated table (next line).
- `Schema.MigrationFailsIff`: the failure condition covers only the existence of the table, the columns and the index. SQLite also refuses `ADD COLUMN ... DEFAULT CURRENT_TIMESTAMP` (a non-constant default), depending on its version always or only on a non-empty table. The model treats that statement as successful when the column is new, so the fallback can be taken in more cases than the model says.
- `Schema.Database.OnUpgrade`: nested-transaction rollback is not modelled. The fallback (drop, then `onCreate`) runs inside a transaction that is never marked successful. On Android its effect would be rolled back at `endTransaction`. The model follows the evident intent: the fallback takes effect, and each transaction is all-or-nothing at the method level.
- `Schema.Database.Open` models the version dispatch of the framework class `SQLiteOpenHelper`, which is not part of this model. The downgrade refusal stands for its default `onDowngrade`, which throws.
- `JavaLang.ParseInt` accepts only ASCII digits. Java's `Character.digit` also accepts other Unicode decimal digits.
- Category names are saved exactly as typed; the budget screen does not trim them, and neither does the model.
