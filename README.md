# tot — "The One Thing", modelled in Dafny

`tot` is a small desktop front end for the Todoist task service. For the
project the user picks, it shows one task at a time, the one that should come
next. Clicking "Complete" closes that task on the service, and the window then
shows the next one. A local JSON configuration file holds the API token, a
registry of project names and their numeric ids, the timezone, and a single
pointer to the task on display (`next_id`).

The model covers four source files:

- `src/config.rs` (module `ConfigFile`). The configuration record and its
  pure updates: `new`, `set_path`, `set_next_id` and `clear_next_id`. A file
  store (class `FileSystem`) with `create`, `save`, `load` and rename. The
  timezone prompt, and `get_or_create`: it finds the configuration, migrates a
  legacy file, repairs a stale path field, or prompts for a fresh record.
- `src/request.rs` (module `Request`). The two exchanges with the service:
  fetching a project's tasks and the `item_close` sync command. The network
  is a class `Remote` that logs every request and answers from a script of
  outcomes. UUIDs come from a class `UuidSource`.
- `src/projects.rs` (module `Projects`). Listing, adding and removing
  registry entries. Mapping names to ids. `next_item`, which ranks the tasks
  and saves the pointer. The two reports, scheduled items and all items.
- `src/main.rs` (module `App`). The list helpers, `projects()`, `get_next`,
  `complete`, `hide`, and the three-state fetch machine of `update`:
  `BeginFetch`, `Fetching` and `DoneFetch`. A class `MyApp` holds the window
  state.

Two supporting modules hold shared pieces. `Wrappers` has `Option`, `Result`,
and `Run`; a `Run` is either a finished value or a panic. `Text` models the
parts of Rust's standard library that the core relies on:

- `str::trim`, over the Unicode White_Space set;
- code-point lexicographic order, as `Vec<String>::sort` uses it;
- collecting a map's keys in sorted order;
- `u32::to_string` and `str::parse::<u32>` / `parse::<usize>`. Parsing
  accepts an optional leading `+`, refuses `-` and empty input, and reports
  overflow as an error.

The task list operations of `items.rs`, and timezone handling in `time.rs`,
are not part of this model. Module `Items` declares the task record and
passes those operations in as a datatype of function values (`ItemOps`). So
everything proved about `next_item` and the reports holds for every choice of
filter, ranking and formatting.

The source gets its environment from the process. Here it arrives as values:

- the configuration and home directories;
- the lines the user types at the token and timezone prompts;
- the timezone list lookup;
- the file store;
- the sequence of network outcomes;
- the UUID values.

Three behaviours of the code that the model keeps as written:

- `complete` always posts the close command, and nothing guards the call
  (`src/main.rs:168`, `src/request.rs:30`). When no pointer is set, the
  command carries `"id": null`.
- `next_item` returns the text "No items on list" when no task is eligible
  (`src/projects.rs:70`). It has no separate "no task" value.
- `get_next` (`src/main.rs:154-159`) unwraps the `Result<String, String>` of
  `next_item` where an `Option<String>` is expected. The model reads that as
  `Some(text)` on success and a panic on error. The window therefore shows
  "No items on list" as a task text, and `None` appears only when no
  configuration could be had.

## Model

| member | source | states |
|---|---|---|
| Text.Trim | src/config.rs:192 | the result is a slice of the input with white space at neither end, and only white space cut on either side |
| Text.TrimUnique | src/config.rs:118 | for any split into white-space prefix, core without white space at its ends, and white-space suffix, trimming yields exactly the core |
| Text.TrimIdempotent | src/config.rs:192 | trimming a trimmed line changes nothing |
| Text.SortedUnique | src/projects.rs:13 | two strictly sorted lists with the same members are equal, so the sorted key list is determined by the key set |
| Text.SortedKeys | src/main.rs:142-147 | the method returns the keys of the map, each once, in strictly ascending order (the sorted rendering of the key set), with as many entries as the map |
| Text.DecimalString | src/projects.rs:51 | `to_string` of a number is non-empty, all digits, with no leading zero |
| Text.DecimalValue | src/projects.rs:51 | the digits of `to_string(n)` denote `n` |
| Text.ParseUnsigned | src/config.rs:98-100 | a successful parse starts with a digit or `+`, is all digits after the optional sign, denotes its value and is below the type's bound |
| Text.ParseDecimal | src/projects.rs:27-31 | parsing the decimal rendering of any in-range number gives the number back |
| Text.ParseU32 | src/projects.rs:30 | `parse::<u32>` succeeds exactly on an optional `+` followed by at least one ASCII digit and nothing else, with a value below 2^32, and then returns that value |
| Text.ParseOverflow | src/projects.rs:30-31 | the rendering of a number at or beyond the bound is refused rather than wrapped |
| Text.ParseAcceptsPlusSign | src/projects.rs:30 | "+7" parses as 7 |
| Text.ParseRefusals | src/projects.rs:30-31 | "", "+", "-1" and "12a" are refused |
| Text.ParseRefusesOverflow | src/projects.rs:30-31 | "4294967296" (2^32) is refused as a `u32` |
| ConfigFile.GeneratePath | src/config.rs:159-168 | the config directory joined with "tod.cfg", or the missing-directory error |
| ConfigFile.GenerateLegacyPath | src/config.rs:170-179 | the home directory joined with ".tod.cfg", or the missing-directory error |
| ConfigFile.GetInput | src/config.rs:181-193 | an unreadable prompt is the input error; otherwise the typed line, trimmed |
| ConfigFile.GetInputIsTrimmed | src/config.rs:192 | the answer neither starts nor ends with white space, and trimming it again changes nothing |
| ConfigFile.New | src/config.rs:24-34 | a fresh record has the given token, no projects, no pointer, timezone or version check, and the generated path; a path error is passed on |
| ConfigFile.SetPath | src/config.rs:72-77 | only the path changes, to the one given |
| ConfigFile.SetNextId | src/config.rs:79-86 | the pointer becomes the id given whatever it was; nothing else changes |
| ConfigFile.ClearNextId | src/config.rs:88-92 | the pointer is gone; nothing else changes |
| ConfigFile.PointerOverwritten | src/config.rs:79-86 | there is one pointer: a second selection replaces the first |
| ConfigFile.ClearForgetsSelection | src/config.rs:88-92 | clearing after a selection is clearing, and clearing twice is clearing once |
| ConfigFile.SetPathIdentity | src/config.rs:72-77 | setting the path a record already has leaves it unchanged |
| ConfigFile.TimezoneChoice | src/config.rs:96-102 | the typed number, parsed as a `usize`, looked up in the timezone list; unreadable input and a bad number are the respective errors |
| ConfigFile.FileSystem.Exists | src/config.rs:155-157 | a file exists at a path exactly when loading it does not fail with the missing-file error |
| ConfigFile.FileSystem.Load | src/config.rs:61-70 | a stored record is returned; a missing file and an unparsable one give their two error texts |
| ConfigFile.FileSystem.Create | src/config.rs:36-43 | truncate-or-create: the record is stored at its own path unless nothing can be written there |
| ConfigFile.FileSystem.Save | src/config.rs:45-59 | saving succeeds exactly when a writable file exists at the record's path; then "✓" is returned and the record loads back; otherwise nothing is written |
| ConfigFile.FileSystem.Rename | src/config.rs:131 | the file moves (is not copied); a missing source or an unwritable target gives the system error texts and changes nothing |
| ConfigFile.StoreRoundTrip | src/config.rs:45-70 | on the store itself: when a save succeeds, loading the path returns the saved record and a second save of it reports success without changing the store; when it fails, the second save is not made and the store is unchanged |
| ConfigFile.CheckForTimezone | src/config.rs:94-112 | a record with a timezone is returned as it is; otherwise the chosen timezone is added, saved, and nothing else changes |
| ConfigFile.TargetPath | src/config.rs:116-119 | the given path, trimmed, or the generated one |
| ConfigFile.MoveLegacy | src/config.rs:122-133 | only when the target is missing and a legacy file exists is that file moved to the target; a failed rename changes nothing |
| ConfigFile.OpenOrCreate | src/config.rs:135-152 | an existing file is loaded and its path field repaired and saved if stale; with no file a fresh record is prompted for, created and given a timezone |
| ConfigFile.LoadBranchRepairsPath | src/config.rs:136-147 | a loaded record comes back with the opened path as its path field and stored there; the store changes only when the field was stale, and a record already stored under its own path is returned unchanged with no write |
| ConfigFile.LegacyMoved | src/config.rs:122-147 | when the target is missing, a legacy file exists and the target is writable, afterwards the legacy file is gone and the target holds a file, whatever the load then does; a success carries the target as its path |
| ConfigFile.SettledRecordLoads | src/config.rs:115-147 | when the target already holds a record whose path field is the target, `get_or_create` returns that record and writes nothing |
| ConfigFile.AtTargetStoresResult | src/config.rs:115-153 | with the fresh record placed at the target, every successful call returns a record whose path is the target and which is stored there |
| ConfigFile.GetOrCreate | src/config.rs:115-153 | the whole case tree of `get_or_create` as written, with the fresh record placed at the generated path |
| ConfigFile.GetOrCreateAtTarget | src/config.rs:115-153 | the same case tree with the fresh record placed at the target; with no path given it is exactly `GetOrCreate`; a success always returns the record stored at the target path |
| ConfigFile.DefaultTargetIsGenerated | src/config.rs:116-117 | with no path given the target is the generated path, so the two versions agree there |
| ConfigFile.CustomPathIgnored | src/config.rs:150 | as written: with a custom path and no file anywhere, the prompted record is written to the default path, and the custom path stays missing |
| ConfigFile.CustomPathHonoured | src/config.rs:150 | corrected: the prompted record is written at the custom path, and no other file changes |
| ConfigFile.FreshRecordStored | src/config.rs:148-151 | with a writable target and readable answers, the fresh branch stores the record with the typed token, no projects, no pointer and the chosen timezone at the target, and returns it |
| ConfigFile.CustomPathScenario | src/config.rs:150 | as written, on the concrete input of the finding: the fresh record has the typed token, the default config is overwritten and `/tmp/custom.cfg` is still missing |
| ConfigFile.CustomPathScenarioCorrected | src/config.rs:150 | corrected, on the same input: the default config is kept and the fresh record is stored at `/tmp/custom.cfg` |
| Items.Ranked | src/projects.rs:60-63 | the eligible tasks in ranked order, or the eligibility error |
| Request.ResponseResult | src/request.rs:57-69 | success exactly for a 2xx status with readable text, which is returned; each failure has its own message |
| Request.TodoistRequest | src/request.rs:49-61 | the URL is the service base joined to the endpoint path; the token is the bearer credential; the content type and body are as given |
| Request.CloseBody | src/request.rs:30 | exactly one `item_close` command, with the two UUIDs and the pointer as its id, `None` included |
| Request.FetchedItems | src/request.rs:24-25 | a failed exchange is passed on; otherwise the decoded response text |
| Request.Remote.Exchange | src/request.rs:57-63 | the request is logged, and the next scripted outcome is consumed |
| Request.UuidSource.NewUuid | src/request.rs:73-79 | each call returns the next value drawn and advances the draw counter by one; no uniqueness is promised |
| Request.PostTodoistSync | src/request.rs:44-70 | exactly one request is sent, and its outcome is mapped by the status check |
| Request.ItemsForProject | src/request.rs:21-26 | one project-data request for the id, then the decoded tasks or the error |
| Request.CompleteItem | src/request.rs:29-41 | one close request for the pointer, whatever it is; the pointer is cleared and saved only after the post succeeded; a failed post leaves the store as it was |
| Projects.BulletsAppend | src/projects.rs:17-20 | the listing of a concatenation is the concatenation of the listings |
| Projects.AppendBullets | src/projects.rs:14-20 | the loop appends one " - name" line per name, in order |
| Projects.List | src/projects.rs:8-22 | "No projects found" for an empty registry, else "Projects" and one bullet per name in ascending order |
| Projects.ListTextExample | src/projects.rs:119-131 | the names "first" and "second" list as "Projects\n - first\n - second" |
| Projects.SortedPair | src/projects.rs:13 | two names in order sort to that order |
| Projects.AddProject | src/projects.rs:35 | the name maps to the number; every other entry and field is kept |
| Projects.RemoveProject | src/projects.rs:40 | the name is gone; every other entry and field is kept |
| Projects.AddArgs | src/projects.rs:25-33 | success exactly when there are two parameters or more and the last parses as a `u32`; it names the one before it; otherwise the usage error |
| Projects.AddArgsExample | src/projects.rs:25-33 | "--add home 12345" adds "home" as 12345; a lone number is refused |
| Projects.Add | src/projects.rs:25-36 | bad parameters save nothing; good ones save the registry with the project added |
| Projects.Remove | src/projects.rs:39-41 | saves the registry without the name |
| Projects.ProjectId | src/projects.rs:43-54 | registered names resolve to their number in decimal, others to "Project NAME not found, please add it to config" |
| Projects.ProjectIdParses | src/projects.rs:43-54 | the id string parses back to the registered number |
| Projects.AddThenResolve | src/projects.rs:35-54 | an added project resolves to its number; a removed one does not resolve |
| Projects.NextItemWritesOnlyPointer | src/projects.rs:65-71 | `next_item` leaves the store alone or writes the record with the pointer set to a task id |
| Projects.NextItemIdempotent | src/projects.rs:61-68 | a second `next_item` on the same record, with the service answering as before, returns the same text and leaves the store exactly as the first call left it; the reloaded record of a second `get_next` is covered by `App.GetNextIdempotent` |
| Projects.NextItemFixture | src/projects.rs:57-71 | on a one-task answer with the identity filter and ranking, the pointer is set to that task's id "222", the record is saved, and its content is the text returned |
| Projects.NextItem | src/projects.rs:57-72 | an unknown project fails before anything is sent or written; otherwise one fetch; with no eligible task "No items on list" and nothing written; otherwise the pointer is set to the best-ranked task, saved, and that task's text is returned |
| Projects.ItemLinesAppend | src/projects.rs:88-91 | the lines of a concatenation are the concatenated lines |
| Projects.ScheduleText | src/projects.rs:79-92 | "No scheduled items found" when nothing is scheduled today, else the header and one line per appointment in time order |
| Projects.AppendLines | src/projects.rs:88-91 | the loop appends a newline and the rendering of each task, in order |
| Projects.ScheduledItems | src/projects.rs:75-93 | an unknown project fails before anything is sent; otherwise one fetch and the schedule text |
| Projects.AllItems | src/projects.rs:96-109 | an unknown project fails before anything is sent; otherwise one fetch and "Tasks for NAME" with every task in date order |
| App.GetFirstProject | src/main.rs:196-201 | the head of the list, or "No projects found" for an empty one |
| App.Without | src/main.rs:180-185 | exactly the entries other than the hidden name remain |
| App.WithoutAppend | src/main.rs:180-185 | hiding distributes over concatenation, so the remaining order is kept |
| App.WithoutCounts | src/main.rs:180-185 | every occurrence of the hidden name goes, and every other name keeps its count |
| App.WithoutSorted | src/main.rs:180-185 | hiding from a sorted list leaves it sorted |
| App.WithoutAbsent | src/main.rs:180-185 | hiding a name not listed changes nothing |
| App.DefaultConfigSettles | src/main.rs:140 | every record `get_or_create(None)` returns is left stored at the default path, with that path as its path field |
| App.SettledIsDefault | src/main.rs:140 | when the default path holds such a record, `get_or_create(None)` returns it and writes nothing |
| App.ProjectNamesOfSettled | src/main.rs:139-152 | with the record settled, `projects()` writes nothing and lists each registry name exactly once, in strictly ascending order |
| App.ProjectNames | src/main.rs:139-152 | the store after the call is the one `get_or_create(None)` leaves; the result is the sorted key set of the record it returned, or its error as the only entry |
| App.GetNext | src/main.rs:154-159 | the store and the service log are those of `get_or_create(None)` followed, on success, by `next_item` for the returned record; `None` only when the configuration could not be had; `Some` of the text of `next_item`, or a panic when it fails |
| App.GetNextIdempotent | src/main.rs:154-159 | when filtering, ranking and formatting ignore the pointer and the service answers the same, a second `get_next` after one that showed a text, on the reloaded record with its pointer set, shows the same text and leaves the store as the first left it |
| App.Complete | src/main.rs:165-177 | the store, service log, UUIDs drawn and messages sent are those of `get_or_create(None)`, then `complete_item` on the returned record, then `get_next` |
| App.CompleteWithoutConfig | src/main.rs:174 | with no configuration the message is `None`, nothing is sent to the service and no UUID is drawn |
| App.CompleteClosesPointer | src/main.rs:166-168 | with a configuration, the first request sent is the close command for its pointer with the next two UUIDs, and exactly two UUIDs are drawn |
| App.CompleteFailureKeepsPointer | src/main.rs:168 | a close the service refuses sends no message and leaves the record, pointer included, stored at the default path as `get_or_create` left it |
| App.CompleteSuccessClearsPointer | src/main.rs:166-172 | an accepted close stores the record with its pointer cleared; the message is then `Some` of the text `next_item` gives for the cleared record, none when that fails; with the file unwritable, the close has still been sent and two UUIDs drawn, but no message is sent and the store is unchanged |
| App.RetryClosesSameTask | src/main.rs:165-177 | after a refused close, the next completion sends the close command for the same pointer again, with the next two draws |
| App.MyApp.constructor | src/main.rs:58-64 | the window starts on the given names, project and text, with no pending messages |
| App.MyApp.Hide | src/main.rs:179-194 | the name is dropped from the tabs and the first remaining project selected; the store, service log and shown text are those of `get_next` for it, and its panic stops the frame |
| App.MyApp.Step | src/main.rs:77-114 | BeginFetch runs exactly one completion, whose messages join the inbox, and becomes Fetching; Fetching takes the oldest message, if any, and touches neither store, service nor UUIDs; DoneFetch with text goes to BeginFetch on the click or C; DoneFetch without text never does; without a hide DoneFetch changes nothing else; a hide by click or H has the effect of `hide`, both in one frame hide two projects with `get_next` run for each, and DoneFetch never touches the inbox or draws a UUID |
| App.MyApp.Tabs | src/main.rs:118-133 | the current project's tab, an unlisted name or no click changes nothing; a click on another listed tab selects it, and the store, service log and shown text are those of `get_next` for it |
| App.MyApp.Update | src/main.rs:71-136 | a frame with no message and no click while fetching changes neither state nor project |
| App.Launch | src/main.rs:51-66 | the store is the one `projects()` leaves and then `get_next` for the first name; the window lists exactly those names, selects the first, shows its text, with no pending messages |

## Left out

- egui rendering, window options and repaint timing are left out. They are
  presentation, and the model keeps only the state they change.
- The background thread and the mpsc channel are simplified. The spawned
  completion runs to its end when it is spawned, and its message waits in
  `MyApp.inbox` until a frame receives it. The model therefore does not
  capture interleavings between the completion's store and network accesses
  and those of the window thread.
- HTTP headers beyond content type and bearer token are not modelled, and
  reqwest's transport is not modelled. A response is an abstract outcome: no
  response, or a status with readable or unreadable text. The debug rendering
  of an error body is an opaque string.
- serde JSON is left out. The store holds records directly, and a file that
  does not parse is a separate entry kind. A failure to convert a record to
  JSON, and `write_all` or `read_to_string` failures after a file opened, are
  not modelled; they are I/O faults outside the core's logic.
- `println!`, the prompt texts, the `dirs` crate, and directory names that
  are not valid UTF-8 are left out. They are I/O. Directories and typed lines
  are parameters.
- `path_exists` and `File::open` are both modelled as "a file is present".
  Their difference for unreadable files is an operating-system detail.
- `items.rs` and `time.rs` are not part of this model. Filtering, ranking,
  date handling, JSON decoding of tasks and task formatting are passed in as
  uninterpreted functions.
- Projects.AddProject: `add_project` is not part of this model. It is
  written as the map insert the registry needs.
- Projects.RemoveProject: `remove_project` is not part of this model. It is
  written as the map delete the registry needs.
- Test-only branches under `cfg!(test)` are left out. These are the mock
  server URL, the fixed UUID, the canned prompt answer "5", the "test" file
  names, and the skipped pointer clearing. The model follows the
  non-test code.
- ConfigFile.FileSystem.Rename: a rename fails only for a missing source or
  an unwritable target. `fs::rename` also refuses a move across filesystems
  and a move out of a directory that cannot be written. The store has no
  notion of filesystems or directories, so those failures are not modelled.
  In particular `ConfigFile.LegacyMoved` relies on it: in the program such a
  failure makes `get_or_create` return the system error and leaves the
  legacy file where it was.
- UUID randomness is not modelled. `UuidSource` hands out opaque values, and
  no uniqueness is assumed or proved.
- `main` and `run_native` are left out. They are process start-up.
- App.Complete: panics of `send(..).unwrap()` are not modelled. The window
  keeps its receiver alive, so that send cannot fail.
- App.MyApp.Update: its own contract states only the quiet frame. The
  per-arm behaviour is stated on `App.MyApp.Step` and `App.MyApp.Tabs`,
  which it runs in sequence.
- Text.SortedKeys: the order in which a `HashMap` yields its keys is not
  modelled. The keys are picked in an arbitrary order and then sorted, so the
  result does not depend on it.

## Findings

| source | as written | input that shows it | evidently intended | confidence | as-written member | corrected member |
|---|---|---|---|---|---|---|
| src/config.rs:150 | when no file exists at the given custom path, the fresh record is built by `Config::new`, which takes its path from `generate_path()`, and `create` then writes it to the default location | `get_or_create(Some(" /tmp/custom.cfg"))`, with no file at `/tmp/custom.cfg` or at the legacy path, and an existing config at the default path: the default config is overwritten, and `/tmp/custom.cfg` is still missing, so the next call prompts again | the fresh record is created at the path being opened | medium, not executed | ConfigFile.CustomPathIgnored | ConfigFile.GetOrCreateAtTarget |
