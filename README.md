# Family meal planner: credential table and versioned plan store

This project models the core of a small Flask service that registers families and stores their meal plans.

A form submission arrives at `/webhook` with up to four members. Each member has an email, first and last name, and dietary restrictions. The service does the following:

1. It rejects the submission when any of the four emails already has an account. In that case it mails the colliding address and answers 400.
2. Otherwise it gives every new email an account under one fresh family id. Each account gets the bcrypt hash of a fixed password, and a notification is mailed to each new address.
3. It builds a prompt from the members and asks a completion service for a weekly plan.
4. It writes the plan to the first free numbered file `meal_plans/<family_id>/<n>.json`.

`/login` checks a password against the stored hash and returns the account and the list of all accounts. `/get-meal-plan` returns a family's `1.json`.

Modules:

- `Common`: `Option`, `Result`, and `Text` (a JSON string or `None`, as Python sees it), with its f-string rendering.
- `Paths`: POSIX `os.path.join`, `str(n)` for naturals, and the plan file name `n.json`. The file name is proved injective.
- `Submissions`: reading the four member slots and the timestamp from the decoded request body, with the source's defaults:
  - `email_1` defaults to `""`;
  - the other emails and the names default to `None`;
  - a restriction defaults to `'None'`.
- `Credentials`: the credential table.
  - Loading and saving go through a JSON file. Object keys are strings, so a `None` key is written as `"null"`.
  - It also holds the duplicate check and the provisioning loop as a function of the slots already handled.
- `PromptText`: the fixed sentences of the prompt.
- `Prompt`: the prompt f-string, as the list of its 49 lines joined by newlines.
- `MealServices`:
  - the API-key check of `MealPlanService`;
  - `MealPlanSaver` and its first-free-index probe, over a disk of folders that each map an index to the file's content;
  - a `PlanDisk` class whose folder map the saver updates in place.
- `Server`:
  - `/login` and `/get-meal-plan` as functions of their request fields and the stored state;
  - `/webhook` as a method of an `App` class that holds the credential file and the log of mail recipients.

The external effects are parameters:
- the uuid family id;
- the bcrypt salts and hash function;
- the bcrypt check;
- the completion call, which returns `None` when it fails;
- a disk fault that makes `os.makedirs` or the file write fail.

A sent mail is recorded as its recipient appended to `App.sentTo`.

Where the code and its comments disagree, the model follows the code. The comment at `main.py:139` says the logged-in user is excluded from `family_members`, but the comprehension lists every account in the table, of every family, and so does `Server.Login`.

## Model

| member | source | states |
|---|---|---|
| Paths.PathJoin | meal_services.py:81 | an absolute second part replaces the first; otherwise the result starts with the first part and ends with the second |
| Paths.DecimalString | meal_services.py:87 | `str(n)` is a non-empty string of digits, of two or more digits exactly when n >= 10 |
| Paths.DecimalRoundTrip | meal_services.py:87 | parsing `str(n)` gives n back |
| Paths.PlanFileNameInjective | meal_services.py:87-90 | distinct indices name distinct `n.json` files, so a folder is a map from index to content |
| Submissions.ParseSubmission | main.py:201-221 | a missing `email_1` reads as `""` and missing `email_2`..`email_4` as `None`; a present email is taken as sent; a missing restriction reads as `'None'`; each slot's first and last name are the values sent, or `None` when missing; the timestamp is `timestampt` or `None` |
| Credentials.Load | main.py:40-47 | the loaded table has only string keys, exactly those of the file; a missing or corrupt file gives the empty table |
| Credentials.Stored | main.py:50-53 | the saved object's keys are the string keys plus `"null"` for a `None` key, each with its record |
| Credentials.ReloadAfterSave | main.py:40-53 | saving then loading gives the table back, except that a `None` key comes back as `"null"` |
| Credentials.ReloadWithoutNull | main.py:40-53 | with no `None` key, saving then loading gives the same table |
| Credentials.ReloadWithNull | main.py:40-53 | with a `None` key, its record comes back under `"null"` and every other key is unchanged |
| Credentials.FirstRegisteredFrom | main.py:85-91 | finds the lowest slot at or after `from` whose email is a key; every slot before it is not a key; none found means no slot from `from` on is a key |
| Credentials.CheckExistingEmails | main.py:81-91 | returns `(true, None)` exactly when no slot email is a key of the loaded table; otherwise `(false, e)` where e is the email of the first slot, in order 1..4, that is a key |
| Credentials.Provisioned | main.py:242-254 | the provisioning loop as a function of the slots handled so far; a key present before the loop keeps its record |
| Credentials.ProvisionedSpec | main.py:242-254 | afterwards the keys are the old keys plus the slot emails; a new key holds the record of the lowest slot carrying it, so a later slot repeating the email does not overwrite it |
| Credentials.FirstSlotExists | main.py:242-247 | every slot email has a lowest slot that carries it |
| Credentials.NewAccountsShareFamily | main.py:241-253 | every account one submission creates carries its family id and timestamp, and the hash and names of the lowest slot with that email |
| Credentials.RecipientsAreNewAccounts | main.py:244-257 | an address receives a "new account" mail exactly when it became a key in this submission |
| Credentials.RecipientsAreDistinct | main.py:244-257 | no address receives two "new account" mails from one submission, even when it fills two slots |
| Credentials.ReloadKeepsEarlierAccounts | main.py:237-254 | after an accepted submission, the reloaded table still holds every earlier account except possibly one under `"null"`, and all of them when no slot email is missing |
| Credentials.MissingEmailReplacesNullAccount | main.py:244-254 | a submission with a missing slot email leaves, under `"null"`, the record of the lowest such slot, replacing any earlier one |
| Credentials.RegisteredEmailIsRejectedLater | main.py:81-91 | once a submission is saved, a later submission repeating any of its non-missing emails fails the duplicate check |
| Prompt.NewlineIndex | main.py:259-305 | the first newline's position, or the length when there is none |
| Prompt.SplitJoin | main.py:259-305 | joining newline-free lines and splitting at newlines gives the lines back |
| Prompt.DayLineShape | main.py:270-276 | the example entry for day d has `day` value d and is not an array closer |
| Prompt.ExampleBlockShape | main.py:269-277 | a member's example block is an array keyed by the member's email with exactly seven entries, days 1..7 in order, then a closer |
| Prompt.BlockAt | main.py:259-305 | the prompt has 49 lines, and member i's example block sits at lines 12 + 9i .. 20 + 9i |
| Prompt.MemberLinesShape | main.py:260-264 | lines 3 to 6 of the prompt are the member lines 1 to 4, in order |
| Prompt.ExampleArraysShape | main.py:268-305 | for each member in order, the prompt holds an example array keyed by its email with exactly seven days 1..7 |
| Prompt.PromptShape | main.py:259-305 | the prompt lists members 1..4 in order, each with first name and restriction, then for each member in order an example array of exactly seven days 1..7 keyed by its email |
| Prompt.MissingRestrictionReadsNone | main.py:208-220 | a slot whose restriction is missing or null shows `None` on its member line |
| Prompt.PreambleHasNoNewline | main.py:260-268 | no preamble line holds a newline when the member fields hold none |
| Prompt.DayLineHasNoNewline | main.py:270-303 | no example day entry holds a newline |
| Prompt.ExampleBlockHasNoNewline | main.py:269-304 | no example line holds a newline when the email holds none |
| Prompt.PromptLinesHaveNoNewline | main.py:259-305 | no prompt line holds a newline when the member fields hold none |
| Prompt.MealPlanPrompt | main.py:259-305 | the prompt text sent; when no member field holds a newline, it splits at newlines into exactly the lines described by `PromptShape` |
| MealServices.NewMealPlanService | meal_services.py:53-56 | construction fails with `ValueError` exactly when the key is missing or empty |
| MealServices.UsedFromShrinks | meal_services.py:87-88 | probing past a used index lowers the count of used indices still ahead, so the probe terminates |
| MealServices.FirstFreeFrom | meal_services.py:86-88 | the result is unused, not below the start, and every index between the start and it is used |
| MealServices.FirstFreeIsGap | meal_services.py:86-88 | a free index with 1..g-1 all used is the one chosen, so a gap is filled first |
| MealServices.SaveInto | meal_services.py:86-92 | writes index n >= 1 that was free, with 1..n-1 all present, adds exactly that entry holding the plan verbatim, and changes no other file |
| MealServices.SavesAreContiguous | meal_services.py:86-92 | saves into a folder holding exactly 1..k write k+1, k+2, ... and leave it holding 1..k+m |
| MealServices.SavesFromEmptyFolder | meal_services.py:86-92 | from an empty folder, successive saves write 1, 2, 3, ... |
| MealServices.NextFreeIndex | meal_services.py:86-88 | the probing loop returns the least index >= 1 that is unused |
| MealServices.SaveOutcome | meal_services.py:78-96 | on success the folder exists and the returned path is `base/family_id/n.json` for the index written; any failure raises `IOError` and leaves every existing folder's files unchanged; failure exactly when the write fails, or when `makedirs` fails on a missing folder |
| MealServices.MealPlanSaver.SaveMealPlan | meal_services.py:78-96 | the imperative save updates the disk and returns exactly what `SaveOutcome` describes |
| Server.Login | main.py:120-159 | an unknown email gives 401; a known email with no password raises inside the check, which gives 500, and that is the only 500; otherwise a passing bcrypt check gives 200 with the account's fields and a failing one gives 401 |
| Server.AllMembersCount | main.py:140-148 | the member list has one entry per account |
| Server.LoginListsEveryAccount | main.py:138-157 | a successful login lists every account of the table, other families and the caller included, and nothing else |
| Server.GetMealPlan | main.py:161-186 | a missing family id gives 400; otherwise only `meal_plans/<id>/1.json` is read: absent gives 404, unreadable gives 500, present gives its content |
| Server.LaterVersionsAreNotServed | main.py:172-186 | once `1.json` exists, later saves into the family's folder do not change what `/get-meal-plan` returns |
| Server.FirstSaveIsServed | main.py:172-186 | the first successful save into a folder without `1.json` is what `/get-meal-plan` then returns |
| Server.NewAccountsGetDefaultPassword | main.py:244-253 | every account a submission creates holds the hash of `"random_password"` under the salt of the lowest slot carrying its email |
| Server.SavedRecord | main.py:40-53 | after a save and reload, a string key holds its own record, or the `None` key's record when it is `"null"` |
| Server.NewAccountLogsIn | main.py:241-254 | when bcrypt accepts a password against its own hashes, every email a submission registers can then log in with `"random_password"` |
| Server.App.ProvisionSlot | main.py:243-257 | a slot whose email is a key changes nothing; otherwise its account is added, the table is saved and one mail goes to that email |
| Server.App.ProvisionAccounts | main.py:237-257 | after slots 1 to 4, the file holds the provisioned table and the mail log gains exactly the new accounts, in slot order |
| Server.App.Webhook | main.py:188-315 | a submission with a registered email gives 400 with the first such email, and changes nothing except that one mail goes to that address. Otherwise the file holds the provisioned table, the new accounts are mailed in slot order, and a failed generation gives 500. A successful generation is saved under the family id, giving 200 with the path or 500 on `IOError` |

## Left out

- Flask routing, CORS, the decoding of the request body and `jsonify` are not modelled. Handlers take already-decoded fields, each a string or null. A body that is not valid JSON is not modelled. Neither are form values of other JSON types. The service accepts numbers and booleans: it stores them as they are, renders them in the prompt, and `json.dump` writes a numeric email key as a string, so such a submission still succeeds. A list or object email is unhashable, and the `TypeError` at `main.py:87` becomes a 400 from the error handler.
- The SMTP delivery in `send_email` is not modelled, including the message text and the swallowed failures. Only the recipient is logged.
- bcrypt hashing and checking are not modelled. They are function parameters, with one salt per slot standing for `gensalt()`.
- `uuid4` is not modelled. The family id is a parameter.
- The OpenAI request in `MealPlanService.generate_meal_plan` is not modelled. It is a parameter returning the completion text, or `None` for any failure, which the error handler answers with 500. A completion whose content is `None` is not distinguished.
- The scheduler thread and `update_meal_plan` are left out: a timer loop that only prints.
- The race between the duplicate check's read of the credential file and the webhook's reload and writes is left out. The model is sequential.
- A failure while writing the credential file at `main.py:254` is not modelled. Each write succeeds.
- A partially written plan file is not modelled. A failed write leaves the folder's files as they were, and only the folder creation done before the write is kept.
- Path normalisation is not modelled. Folder paths are compared as strings, so `meal_plans/` and `meal_plans`, or a family id holding `..`, are distinct folders here.
- The response data-holder classes at the top of `meal_services.py` are plain records and are left out. So is `error_handler.py`, beyond its mapping of the exceptions reached here to 500.
- Credentials.Stored: when a submission inserts the key `None` and, in a later slot, the literal email `"null"`, Python's `json.dump` writes both and the later one wins on reload. The model keeps the `None` record instead. It agrees with the source whenever the key `None` was inserted after `"null"`, which includes every `"null"` left by an earlier submission.
- Server.Login: `family_members` is a set of entries, so the order of the Python list, which follows the table's insertion order, is not modelled.
