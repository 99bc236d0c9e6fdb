# Alarm and reminder backend, modelled in Dafny

This project models the bookkeeping core of an alarm clock and task reminder
service, plus a small console reminder program written in C. The backend keeps
two tables and saves both through a JSON file store:

- an **alarm table**, which a one-second tick scans for due alarms;
- a **task table**, which a thirty-second monitor scans for reminders that are due.

A WebSocket registry fans events out to clients. A sound registry resolves an
alarm's sound name to something playable. The model captures the following.

- **Tables.** A Python `dict` is an insertion-ordered association list (`Dicts.Dict`). Its keys stay distinct, and assigning to an existing key keeps that key's position.
- **Store.** The file system is a map from path to content. A write goes through `path + ".tmp"` and then a rename.
- **Alarm tick.** One tick is one call with the wall clock as a parameter. It marks the due alarms ringing, reports their ids in table order, and saves after each firing.
- **Task monitor.** One pass is a loop over the table. It flags every task whose reminder window contains `now`, reports its id and saves.
- **Date parsing.** `datetime.fromisoformat` is a map from accepted texts to moments in seconds. A text outside the map raises `ValueError`.
- **Pydantic records.** `Alarm`, `Task` and their create and update bodies are datatypes. `model_dump` turns them into JSON values and `Model(**row)` turns a row back into an optional record. `update(**kwargs)` is a left fold of `setattr` over a sequence of keyword arguments.
- **HTTP layer.** The connection registry and the keep-alive reply are modelled. So are the routes over the two managers and the upload and delete checks for custom sounds. A response is a body, no content, or an HTTP status.
- **C program.** `main.c` keeps a fixed array of 100 reminders and a count. The array is a Dafny `array`, the program is a class, and the console input becomes parameters.

The modules follow the source files:

| file | module | source |
|---|---|---|
| wrappers.dfy | `Wrappers` | `Option` |
| json.dfy | `Json` | JSON values (`None`, booleans, integers, strings, lists, objects) |
| dicts.dfy | `Dicts` | Python dictionary operations |
| models.dfy | `Models` | `backend/models.py` |
| storage.dfy | `Storage` | `backend/storage.py` |
| alarm_manager.dfy | `Alarms` | `backend/alarm_manager.py` |
| task_manager.dfy | `Tasks` | `backend/task_manager.py` |
| sound_engine.dfy | `Sounds` | `backend/sound_engine.py` |
| server.dfy | `Server` | `backend/main.py` |
| c_reminders.dfy | `CReminders` | `main.c` |

Four behaviours of the code that a reader might not expect, each proved of the model:

- An alarm fires only at second 0 of its minute. There is no tolerance window for a stalled tick (`Alarms.TickOffSecond`).
- Dismissing a one-shot alarm only clears `ringing`, and it does not deactivate the alarm. The same alarm is due again at the same minute on a later day (`Alarms.OnceAlarmRingsAgain`).
- A PATCH never resets `reminder_fired`, even when it changes the date or the time (`Models.TaskPatchEffect`).
- The `alarm_ring` event carries no `sound` field (`Server.RingEventHasNoSound`).

## Model

| member | source | states |
|---|---|---|
| Models.SetAlarmAttr | backend/alarm_manager.py:91-93 | One keyword argument: a field name with a value of its type sets that field. A None value, an unknown name or an ill-typed value leaves the alarm as it is. |
| Models.ApplyAlarmKwargs | backend/alarm_manager.py:91-93 | The keyword loop applies the arguments one after another, in order. |
| Models.AlarmPatch | backend/main.py:159 | The arguments a PATCH passes are the update body's fields in declaration order, with the None ones dropped. |
| Models.SetTaskAttr | backend/task_manager.py:78-80 | One keyword argument on a task, with the same rules as for an alarm. |
| Models.ApplyTaskKwargs | backend/task_manager.py:78-80 | The keyword loop applies the arguments one after another, in order. |
| Models.TaskPatch | backend/main.py:206 | The arguments a task PATCH passes are the update body's fields in declaration order, with the None ones dropped. |
| Models.ApplyTaskExcludeNone | backend/task_manager.py:78-80 | Dropping the None arguments first gives the same task as running the loop on all of them. |
| Models.AlarmToJson | backend/models.py:13-20 | `model_dump` of an alarm: an object with the seven fields in declaration order. |
| Models.TaskToJson | backend/models.py:38-46 | `model_dump` of a task: an object with the eight fields in declaration order. |
| Models.DecodeAlarm | backend/models.py:13-20 | `Alarm(**row)`: None for a row that is not an object, lacks a string `time`, or has a field of the wrong type. Absent fields take their defaults, and a missing id takes the fresh one. |
| Models.DecodeTask | backend/models.py:38-46 | `Task(**row)`: None for a row that is not an object, lacks a string `title`, or has a field of the wrong type. Absent fields take their defaults. |
| Models.AlarmFromCreate | backend/models.py:13-28 | An `Alarm` built from a create body keeps the body's time, label, sound, repeat list and active flag, gets the given id, and is not ringing. |
| Models.TaskFromCreate | backend/models.py:38-54 | A `Task` built from a create body keeps its title, date, time, reminder and colour, gets the given id, and is neither done nor reminded. |
| Models.CreateDefaultsAgree | backend/models.py:13-54 | A create body left at its defaults gives the record the model's own defaults describe: sound "Classic Beep", repeat `[]`, active, not ringing; reminder 10, not done, colour "#6366f1", not reminded. |
| Models.ExcludeNone | backend/main.py:159 | `model_dump(exclude_none=True)` keeps only arguments that were passed and are not None. |
| Models.IgnoredAlarmKwargs | backend/alarm_manager.py:91-93 | Keyword arguments that are None, or that do not name a field, leave the alarm unchanged. |
| Models.IgnoredTaskKwargs | backend/task_manager.py:78-80 | The same for tasks. |
| Models.ApplyAlarmExcludeNone | backend/alarm_manager.py:91-93 | Dropping the None values first does not change what the `setattr` loop does. |
| Models.AlarmKwargsKeepId | backend/alarm_manager.py:91-93 | Keyword arguments none of which is named `id` leave the alarm's id unchanged. |
| Models.TaskKwargsKeepId | backend/task_manager.py:78-80 | Keyword arguments none of which is named `id` leave the task's id unchanged. |
| Models.AlarmPatchHasNoId | backend/models.py:31-35 | No argument of an alarm PATCH is named `id`. |
| Models.TaskPatchHasNoId | backend/models.py:57-63 | No argument of a task PATCH is named `id`. |
| Models.AlarmPatchEffect | backend/models.py:31-35 | A PATCH sets exactly the fields its body carries. It can never change an alarm's id, time or `ringing`. |
| Models.TaskPatchEffect | backend/models.py:57-63 | A PATCH sets exactly the fields its body carries. It never changes a task's id or `reminder_fired`. |
| Models.AlarmJsonRoundTrip | backend/alarm_manager.py:174-182 | `Alarm(**a.model_dump())` gives back `a`. |
| Models.TaskJsonRoundTrip | backend/task_manager.py:201-208 | `Task(**t.model_dump())` gives back `t`. |
| Models.DecodeAlarmDefaults | backend/models.py:13-20 | A row holding only a time decodes to an alarm with every declared default and the generated id. |
| Models.DecodeAlarmRejects | backend/alarm_manager.py:173-178 | A row that is not an object, or has no string `time`, is rejected, so `_load` skips it. |
| Models.DismissKwargsIdempotent | backend/alarm_manager.py:106-109 | `ringing=False` clears `ringing`, changes nothing else, and a second application changes nothing. |
| Storage.Read | backend/storage.py:30-37 | A missing file or a file that is not JSON reads as `{}`. A file that is not UTF-8 makes the read raise. |
| Storage.LoadList | backend/storage.py:50-53 | `list(_read(path).get(key, []))`. It raises when the read raises or the document is not an object. |
| Storage.Written | backend/storage.py:40-45 | The file system after the temporary write and the rename. |
| Storage.TmpPath | backend/storage.py:42 | The temporary path differs from the target. |
| Storage.ListOf | backend/storage.py:53 | `list(v)` gives an array's items. It raises exactly for null, booleans and numbers. |
| Storage.FileSystem.Write | backend/storage.py:40-45 | A write puts the document in the temporary file, then renames that file over the target. |
| Storage.FileSystem.SaveAlarms | backend/storage.py:56-58 | The alarms file becomes `{"alarms": rows}`. |
| Storage.FileSystem.SaveTasks | backend/storage.py:69-71 | The tasks file becomes `{"tasks": rows}`. |
| Storage.WrittenShape | backend/storage.py:42-45 | After a write the target holds the new document and no temporary file remains. |
| Storage.CrashKeepsTarget | backend/storage.py:43-45 | A crash between the two steps leaves the target exactly as it was. |
| Storage.WriteKeepsOthers | backend/storage.py:40-45 | A write touches no path but the target and its temporary file. |
| Storage.WrittenTwice | backend/storage.py:40-45 | A second write to the same path supersedes the first. |
| Storage.ReadAfterWrite | backend/storage.py:30-45 | Reading a path after writing it gives back the written document. |
| Storage.SaveLoadAlarms | backend/storage.py:50-58 | `save_alarms(rows)` followed by `load_alarms()` returns `rows`. |
| Storage.SaveLoadTasks | backend/storage.py:63-71 | `save_tasks(rows)` followed by `load_tasks()` returns `rows`. |
| Storage.LoadFallbacks | backend/storage.py:30-37 | A missing file, a file that is not JSON, and an object without the key all load as `[]`. A file that is not UTF-8 makes the load raise, since only `JSONDecodeError` is caught. |
| Storage.LoadRaises | backend/storage.py:30-53 | A load raises exactly when the file is not UTF-8, the document is not an object, or its entry is null, a boolean or a number. |
| Storage.SavesAreIndependent | backend/storage.py:21-22 | Saving alarms leaves the tasks load unchanged, and saving tasks leaves the alarms load unchanged. |
| Alarms.ParseClockText | backend/alarm_manager.py:126-127 | Reads "HH:MM" back as an hour and a minute. Any other shape gives None. |
| Alarms.RepeatMatches | backend/alarm_manager.py:140-142 | An empty repeat list matches every day. Otherwise today's weekday name must be in it. |
| Alarms.Due | backend/alarm_manager.py:131-142 | An alarm is due at second 0 when it is active, not ringing, its time is the clock's "HH:MM", and the repeat test passes. |
| Alarms.Fire | backend/alarm_manager.py:150-153 | Firing a due alarm sets `ringing` and nothing else. An alarm that is not due is unchanged. |
| Alarms.RungIds | backend/alarm_manager.py:135-145 | The ids of the due alarms, in table order. |
| Alarms.LoadRows | backend/alarm_manager.py:169-178 | The rows decode in order. A failing row is skipped, and a decoded alarm is stored under its id with `ringing` cleared. |
| Alarms.ClockTextRoundTrip | backend/alarm_manager.py:126-127 | The zero-padded "HH:MM" of a valid clock reads back as its hour and minute. |
| Alarms.ClockTextInjective | backend/alarm_manager.py:126-127 | Two clocks print the same "HH:MM" exactly when their hours and minutes agree. |
| Alarms.TickTable | backend/alarm_manager.py:131-145 | A tick keeps every key and position of the table. |
| Alarms.Dump | backend/alarm_manager.py:182 | There is one row per alarm, in table order, and each row is that alarm's `model_dump`. |
| Alarms.ClearRinging | backend/alarm_manager.py:175 | Every alarm stops ringing, with keys and positions kept. |
| Alarms.SavedAfterAgain | backend/alarm_manager.py:163 | Saving after one more firing leaves the file as if only the last save had happened. |
| Alarms.TickTableSnoc | backend/alarm_manager.py:135-145 | Firing entry i extends the ticked prefix by one entry. |
| Alarms.AlarmManager.constructor | backend/alarm_manager.py:169-178 | The table holds the decodable rows in file order, each stored under its id and not ringing, and has no duplicate keys. Every key equals its alarm's id. |
| Alarms.AlarmManager.GetAll | backend/alarm_manager.py:72-74 | Returns the alarms in table order. |
| Alarms.AlarmManager.Get | backend/alarm_manager.py:76-78 | Returns an alarm exactly when the id is a key, and the alarm returned is the one stored under that id. |
| Alarms.AlarmManager.Persist | backend/alarm_manager.py:180-183 | The alarms file becomes the dump of the table. |
| Alarms.AlarmManager.Add | backend/alarm_manager.py:80-84 | The alarm is stored under its id, replacing any alarm with that id, and the table is saved. Every key stays equal to its alarm's id. |
| Alarms.AlarmManager.Update | backend/alarm_manager.py:86-95 | An unknown id returns None and changes nothing. Otherwise the `setattr` loop runs on the stored alarm and the table is saved. No other alarm changes. When no argument is named `id`, every key stays equal to its alarm's id. |
| Alarms.AlarmManager.Delete | backend/alarm_manager.py:97-104 | An unknown id returns False and changes nothing. Otherwise exactly that entry is removed and the table is saved. Every key stays equal to its alarm's id. |
| Alarms.AlarmManager.Dismiss | backend/alarm_manager.py:106-109 | An unknown id returns None. Otherwise the stored alarm stops ringing, nothing else about it changes, and the table is saved. An unknown id leaves the file alone. Every key stays equal to its alarm's id. |
| Alarms.AlarmManager.Tick | backend/alarm_manager.py:124-163 | Every due alarm rings. The ids passed to `on_ring` are those of the due alarms, in table order. The file holds the last save. Every key stays equal to its alarm's id. |
| Alarms.TickOffSecond | backend/alarm_manager.py:131 | At any second other than 0 a tick changes nothing and rings nothing. |
| Alarms.RungIdsAreDue | backend/alarm_manager.py:135-145 | An id is rung exactly when some alarm with that id is due. |
| Alarms.TickOnlyRings | backend/alarm_manager.py:150-153 | A tick changes only `ringing`, and sets it exactly on the due alarms. |
| Alarms.NoSecondFire | backend/alarm_manager.py:136 | A second tick at the same clock rings nothing and changes nothing. |
| Alarms.DueMeansSameMinute | backend/alarm_manager.py:138 | A due alarm's time parses to the clock's hour and minute. |
| Alarms.OnceAlarmRingsAgain | backend/alarm_manager.py:106-109 | A one-shot alarm that fired and was dismissed is due again at the same minute. |
| Alarms.MondaySevenOClock | backend/alarm_manager.py:27 | A plain 07:00 alarm is due at 07:00:00 on a Monday. A weekend-only alarm is not, and neither is any alarm at 07:00:01. |
| Alarms.LoadedNotRinging | backend/alarm_manager.py:175 | After a load no alarm is ringing and no key occurs twice. |
| Alarms.LoadedKeysMatchIds | backend/alarm_manager.py:169-178 | After a load every alarm is stored under its own id. |
| Alarms.PutKeepsKeysMatchIds | backend/alarm_manager.py:80-84 | Storing an alarm under its own id keeps every key equal to its alarm's id. |
| Alarms.RemoveKeepsKeysMatchIds | backend/alarm_manager.py:97-104 | Deleting a key keeps every remaining key equal to its alarm's id. |
| Alarms.StoredUnderOwnId | backend/alarm_manager.py:86-89 | While keys equal ids, the alarm `update` finds under an id has that id. |
| Alarms.TickKeepsKeysMatchIds | backend/alarm_manager.py:150-153 | A tick keeps every key equal to its alarm's id. |
| Alarms.PersistReload | backend/alarm_manager.py:169-183 | Loading what `_persist` wrote gives back the same table with no alarm ringing. |
| Alarms.RestartKeepsAlarms | backend/storage.py:50-58 | Reading the saved file after a restart gives the dumped rows, and loading them gives the table back with no alarm ringing. |
| Tasks.ReminderMoment | backend/task_manager.py:111-115 | The parsed date and time minus the reminder minutes, or None when `fromisoformat` rejects the text. |
| Tasks.ShouldRemind | backend/task_manager.py:105-119 | The monitor's tests in order: the task is neither done nor reminded, has a date and a time that parse, and `0 <= now - moment <= 30`. |
| Tasks.DueIds | backend/task_manager.py:117-120 | The ids of the due tasks, in table order. |
| Tasks.LoadRows | backend/task_manager.py:196-204 | The rows decode in order. A failing row is skipped, and a decoded task is stored under its id. |
| Tasks.FlagById | backend/task_manager.py:127-130 | The task stored under the id, if any, gets `reminder_fired` set. Keys and all other tasks are unchanged. |
| Tasks.Step | backend/task_manager.py:105-120 | One iteration tests the current entry at position i. When that entry is due it is flagged and its id is emitted. |
| Tasks.Pass | backend/task_manager.py:105-120 | The first n iterations keep the table's keys. |
| Tasks.Flagged | backend/task_manager.py:105-131 | The reference pass flags every due task and keeps keys and positions. |
| Tasks.Dump | backend/task_manager.py:208 | There is one row per task. |
| Tasks.SavedAfterAgain | backend/task_manager.py:131 | Saving after one more reminder leaves the file as if only the last save had happened. |
| Tasks.TaskManager.constructor | backend/task_manager.py:196-204 | The table holds the decodable rows in file order, each stored under its id, with no duplicate keys. Every key equals its task's id. |
| Tasks.TaskManager.GetAll | backend/task_manager.py:59-61 | Returns the tasks in table order. |
| Tasks.TaskManager.Get | backend/task_manager.py:63-65 | Returns a task exactly when the id is a key, and the task returned is the one stored under that id. |
| Tasks.TaskManager.Persist | backend/task_manager.py:206-209 | The tasks file becomes the dump of the table. |
| Tasks.TaskManager.Add | backend/task_manager.py:67-71 | The task is stored under its id, replacing any task with that id, and the table is saved. Every key stays equal to its task's id. |
| Tasks.TaskManager.Update | backend/task_manager.py:73-82 | An unknown id returns None and changes nothing. Otherwise the `setattr` loop runs on the stored task and the table is saved. No other task changes. When no argument is named `id`, every key stays equal to its task's id. |
| Tasks.TaskManager.Delete | backend/task_manager.py:84-90 | An unknown id returns False and changes nothing. Otherwise exactly that entry is removed and the table is saved. Every key stays equal to its task's id. |
| Tasks.TaskManager.FireReminder | backend/task_manager.py:124-131 | The task stored under the id is flagged before anything else, then the table is saved. |
| Tasks.TaskManager.Visit | backend/task_manager.py:105-120 | The task at position i is tested. It is flagged and saved exactly when it should be reminded. |
| Tasks.TaskManager.MonitorPass | backend/task_manager.py:99-122 | The loop over the table ends in the state the reference pass describes, and emits the same ids. Every key stays equal to its task's id. |
| Tasks.PassTable | backend/task_manager.py:105-120 | After n iterations the first n entries are settled and the rest are untouched. |
| Tasks.PassEmits | backend/task_manager.py:118-120 | The ids emitted in n iterations are those of the due tasks among the first n entries. |
| Tasks.PassEmitsStep | backend/task_manager.py:118-120 | One more iteration extends the emitted ids by at most that entry's id. |
| Tasks.DueIdsSnoc | backend/task_manager.py:118-120 | The due ids of a prefix one entry longer. |
| Tasks.FlagAt | backend/task_manager.py:127-130 | Flagging by the key at position i changes only that position. |
| Tasks.FlaggedSnoc | backend/task_manager.py:105-120 | Settling position i extends the flagged prefix by one entry. |
| Tasks.PassIsFlaggedWhole | backend/task_manager.py:99-122 | When every task is stored under its own id, a whole pass equals the reference pass and emits exactly the due ids. |
| Tasks.DueIdsAreDue | backend/task_manager.py:118-120 | An id is emitted exactly when some task with that id was due. |
| Tasks.Passes | backend/task_manager.py:98-122 | The table after successive passes at the given times. |
| Tasks.FlaggedKeeps | backend/task_manager.py:127-130 | A pass clears no `reminder_fired` flag and changes no id. |
| Tasks.PassesKeep | backend/task_manager.py:98-130 | Any number of passes clears no flag and keeps every task under its own id. |
| Tasks.FlaggedFires | backend/task_manager.py:127-130 | A pass that emits an id flags every task with that id. |
| Tasks.FiredSilent | backend/task_manager.py:106-107 | A pass at any time emits no id whose tasks are all flagged. |
| Tasks.NoSecondReminder | backend/task_manager.py:106-130 | After a pass that emits an id, none of any number of later passes, at any times, emits it again. |
| Tasks.FlaggedOnlyFlags | backend/task_manager.py:106-131 | A pass changes no field except `reminder_fired`, and a done task not at all. |
| Tasks.ReminderWindow | backend/task_manager.py:112-119 | A task is reminded exactly when `0 <= now - (due - 60 * reminder) <= 30`, with both ends included. |
| Tasks.FirstPassFrom | backend/task_manager.py:117-122 | Among passes no more than 30 seconds apart, the first at or after a moment comes within 30 seconds of it. |
| Tasks.GapMissesWindow | backend/task_manager.py:117-122 | Passes one second before the window and one second after it, 32 seconds apart, are both silent. |
| Tasks.CadenceMeetsWindow | backend/task_manager.py:117-122 | Passes no more than 30 seconds apart, from one at or before a pending task's reminder moment to one at or after it, include a pass that reminds the task. |
| Tasks.UnparsableNeverReminded | backend/task_manager.py:111-115 | A date and time that `fromisoformat` rejects are skipped at every moment. |
| Tasks.LoadedDistinct | backend/task_manager.py:196-204 | A load stores no key twice. |
| Tasks.LoadedKeysMatchIds | backend/task_manager.py:196-204 | After a load every task is stored under its own id. |
| Tasks.PutKeepsKeysMatchIds | backend/task_manager.py:67-71 | Storing a task under its own id keeps every key equal to its task's id. |
| Tasks.RemoveKeepsKeysMatchIds | backend/task_manager.py:84-90 | Deleting a key keeps every remaining key equal to its task's id. |
| Tasks.StoredUnderOwnId | backend/task_manager.py:73-76 | While keys equal ids, the task `update` finds under an id has that id. |
| Tasks.PersistReload | backend/task_manager.py:196-209 | Loading what `_persist` wrote gives back the same table, reminder flags included. |
| Tasks.RestartKeepsTasks | backend/storage.py:63-71 | Reading the saved file after a restart gives the dumped rows, and loading them gives the same table. |
| Sounds.ProfileFor | backend/sound_engine.py:339 | `SOUND_PROFILES.get(name, SOUND_PROFILES["Classic Beep"])`. |
| Sounds.PlayerPause | backend/sound_engine.py:393-395 | The pause `AlarmPlayer` waits is the pause of the selected profile. |
| Sounds.ProfileForSelects | backend/sound_engine.py:394-395 | A profile name selects its own profile. Any other name selects "Classic Beep", whose pause is 100 ms. |
| Sounds.ProfilesDistinct | backend/sound_engine.py:44-81 | The five profile names are distinct and come in declaration order. |
| Sounds.CustomSounds.constructor | backend/sound_engine.py:97-105 | The registry starts from the loaded entries. |
| Sounds.CustomSounds.Add | backend/sound_engine.py:113-119 | `db[name]` is set or replaced, the stored entry is returned, and every other name keeps its entry. |
| Sounds.CustomSounds.Delete | backend/sound_engine.py:122-136 | An unknown name returns False and leaves the registry unchanged. Otherwise it removes only that name and returns True. |
| Sounds.LastIndexOf | backend/sound_engine.py:146 | The result is the last index of the character in the string, or -1 when the character is absent. |
| Sounds.Suffix | backend/sound_engine.py:146 | `PurePath.suffix`: from the last dot on, unless that dot is the first or the last character. |
| Sounds.Stem | backend/sound_engine.py:148 | `PurePath.stem`: the name without its suffix. |
| Sounds.Title | backend/sound_engine.py:148 | `str.title()` on ASCII. |
| Sounds.IsAudio | backend/sound_engine.py:146 | The lower-cased suffix is one of the six audio extensions. |
| Sounds.DisplayName | backend/sound_engine.py:148 | The stem with underscores turned into spaces, then title-cased. |
| Sounds.ScanFold | backend/sound_engine.py:142-150 | Each audio file of the listing is stored under its display name, in listing order. A later file replaces an earlier one of the same name. |
| Sounds.StemAndSuffix | backend/sound_engine.py:146-148 | Stem and suffix put together give back the name. A suffix is empty or a dot followed by at least one non-dot character. |
| Sounds.Lower | backend/sound_engine.py:146 | Lower-cases each character in place. |
| Sounds.ReplaceChar | backend/sound_engine.py:148 | Replaces each occurrence of one character with another and keeps every other character. |
| Sounds.TitleFrom | backend/sound_engine.py:148 | Title-casing keeps the length. |
| Sounds.TitleAt | backend/sound_engine.py:148 | A character after a letter is lower-cased and every other character is upper-cased. |
| Sounds.TitleCases | backend/sound_engine.py:148 | The first character is upper-cased, and a letter after a letter is lower-cased. |
| Sounds.DisplayNameHasNoUnderscore | backend/sound_engine.py:148 | A derived display name contains no `_`. |
| Sounds.SuffixExamples | backend/sound_engine.py:146 | "wake_up.WAV" is audio with stem "wake_up". ".wav" has no suffix and is not audio. |
| Sounds.SpacedExample | backend/sound_engine.py:148 | Underscores become spaces: "wake_up" reads "wake up". |
| Sounds.TitleExample | backend/sound_engine.py:148 | Title-casing raises each word's first letter: "wake up" reads "Wake Up". |
| Sounds.DisplayNameExample | backend/sound_engine.py:148 | "wake_up.WAV" is listed as "Wake Up". |
| Sounds.ScanBuiltin | backend/sound_engine.py:139-150 | The loop builds the name-to-file table, with no name twice. A missing folder gives `{}`. |
| Sounds.ScanStep | backend/sound_engine.py:145-149 | The last file, when it is audio, decides the entry of its own display name. Every other name keeps the entry of the earlier files. |
| Sounds.ScanWitness | backend/sound_engine.py:145-149 | Any audio file in the listing puts its display name in the table. |
| Sounds.ScanSound | backend/sound_engine.py:145-149 | The file stored under a name is an audio file of the listing with that display name. |
| Sounds.ScanNames | backend/sound_engine.py:145-149 | A name is listed exactly when some audio file has it as display name. The file stored under the name is one of those files. |
| Sounds.AllSounds | backend/sound_engine.py:153-172 | The profiles, then the built-in files, then the custom sounds, each with its description and custom flag. |
| Sounds.AllSoundsLayout | backend/sound_engine.py:153-172 | Profiles come first, then built-in files, then custom sounds. `custom` is true exactly for the last group. |
| Sounds.Plan | backend/sound_engine.py:315-363 | Every resolution ends with the terminal beep, and the beep appears nowhere earlier. |
| Sounds.FirstWorking | backend/sound_engine.py:315-363 | The first attempt of the plan that does not raise. The beep counts as never raising. |
| Sounds.SomethingPlays | backend/sound_engine.py:315-363 | Some attempt always plays: the first attempt that does not raise, or the beep. |
| Sounds.BuiltinFileFirst | backend/sound_engine.py:318-324 | A built-in file with that name is tried first. |
| Sounds.CustomNeverSynthesized | backend/sound_engine.py:326-337 | A custom name is played from a file or by the beep, never synthesized. With its file missing and no built-in file, only the beep is tried. |
| Sounds.UnknownNameUsesDefault | backend/sound_engine.py:339-363 | Any other name is synthesized from its profile and never played from a file. An unknown name uses "Classic Beep". |
| Server.Keep | backend/main.py:67 | The handles of the list that are not dropped, in their order. |
| Server.KeepMembers | backend/main.py:55-57 | A handle survives the filter exactly when it was present and is not dropped. |
| Server.KeepCounts | backend/main.py:55-57 | A kept handle occurs as often as before, and a dropped handle not at all. |
| Server.KeepAppend | backend/main.py:55-57 | The filter works segment by segment, so the survivors keep their relative order. |
| Server.Failed | backend/main.py:61-66 | The dead list holds exactly the present handles whose send raised. |
| Server.KeepByFailed | backend/main.py:67 | Filtering by the dead list is the same as filtering by the failing set. |
| Server.ConnectionManager.Connect | backend/main.py:50-53 | The handle is appended to `active`. |
| Server.ConnectionManager.Disconnect | backend/main.py:55-57 | Every occurrence of the handle leaves `active`, and the others keep their order. |
| Server.ConnectionManager.Broadcast | backend/main.py:59-67 | Every prior handle is sent the data once, in order. `active` becomes the prior list without the handles whose send failed. |
| Server.AlarmRingEvent | backend/main.py:78 | The ring event has exactly the keys `event` ("alarm_ring") and `alarm_id`. |
| Server.TaskReminderEvent | backend/main.py:86 | The reminder event has exactly the keys `event` ("task_reminder") and `task_id`. |
| Server.RingEventHasNoSound | backend/main.py:78 | The ring event carries no `sound`. |
| Server.React | backend/main.py:133-136 | A non-object raises, a `"ping"` type gets a pong, and anything else is ignored. |
| Server.Replies | backend/main.py:131-136 | One pong per answered message, in order. |
| Server.FirstNonObject | backend/main.py:131-135 | Finds the first message on which `data.get` would raise, or the length of the list. |
| Server.PingPong | backend/main.py:133-136 | A ping is answered with a pong whatever else it carries. A pong, a capitalised ping and an empty object get no reply. |
| Server.RepliesAppend | backend/main.py:131-136 | Replies to consecutive runs of messages are the runs' replies in order. |
| Server.RepliesArePongs | backend/main.py:133-136 | Every reply is `{"type": "pong"}`. |
| Server.RepliesCount | backend/main.py:133-136 | There is exactly one reply per ping. |
| Server.Session | backend/main.py:128-138 | Each message up to the first non-object gets its replies. Only a clean disconnect unregisters the handle; a crash leaves it in `active`. |
| Server.CreateAlarm | backend/main.py:151-154 | The create body becomes a stored alarm that is not ringing, and the alarms file becomes the dump of the new table. Every key stays equal to its alarm's id. |
| Server.UpdateAlarm | backend/main.py:157-162 | An unknown id gives 404. Otherwise the stored alarm takes the body's fields and keeps its id, time and `ringing`, and the table is saved. A 404 leaves the file alone. Every key stays equal to its alarm's id. |
| Server.DeleteAlarm | backend/main.py:165-168 | 204 when the alarm existed and is removed and the table saved, otherwise 404 with the table and the file unchanged. Every key stays equal to its alarm's id. |
| Server.DismissAlarm | backend/main.py:171-176 | An unknown id gives 404. Otherwise the alarm is returned, and stored, with `ringing` cleared, and the table is saved. A 404 leaves the file alone. Every key stays equal to its alarm's id. |
| Server.TestAlarm | backend/main.py:179-188 | An unknown id gives 404. Otherwise the reply is `{"status": "playing", "sound": ...}` with the alarm's sound. |
| Server.CreateTask | backend/main.py:198-201 | The create body becomes a stored task that is neither done nor reminded, and the tasks file becomes the dump of the new table. Every key stays equal to its task's id. |
| Server.UpdateTask | backend/main.py:204-209 | An unknown id gives 404. Otherwise the stored task takes the body's fields and keeps its id and `reminder_fired`, and the table is saved. A 404 leaves the file alone. Every key stays equal to its task's id. |
| Server.DeleteTask | backend/main.py:212-215 | 204 when the task existed and is removed and the table saved, otherwise 404 with the table and the file unchanged. Every key stays equal to its task's id. |
| Server.UploadSuffix | backend/main.py:232 | The lower-cased extension of the file name, or of "" when there is none. |
| Server.IsBlank | backend/main.py:238 | The name is empty or all Python whitespace. |
| Server.UploadError | backend/main.py:231-241 | A bad suffix gives 400, then a blank name 400, then a built-in name 409. Otherwise there is no error. |
| Server.SafeFilename | backend/main.py:244 | Spaces become underscores, then the suffix follows. |
| Server.UploadBody | backend/main.py:250 | The reply merges the entry's keys over `name` and `filename`. |
| Server.Ext | backend/main.py:232 | The POSIX `splitext` extension is a suffix of the path. It is empty, or a dot followed by text with no dot and no `/`. |
| Server.ExtExamples | backend/main.py:232 | "a.wav" has extension ".wav". ".wav" and "d.x/a" have none. |
| Server.UploadCheckOrder | backend/main.py:231-241 | A bad suffix gives 400 before anything else, then a blank name gives 400, then a built-in name gives 409. An accepted upload has a non-empty file name and a non-blank name. |
| Server.SafeFilenameShape | backend/main.py:244 | Only spaces are rewritten, as `_`. Every other character of the name stays in place, the suffix follows, and no space remains. |
| Server.SafeFilenameLimits | backend/main.py:243-244 | A `/` in the name survives into the file name. "a b" and "a_b" map to the same file. |
| Server.UploadBodyShape | backend/main.py:250 | The merged reply is the name, then the entry's file name, then its description. |
| Server.Upload | backend/main.py:225-250 | A rejected upload gives the first failing check's status and leaves the registry unchanged. An accepted one registers the safe file name with description "Custom: " + file name, and replies with that entry. |
| Server.RemoveCustomSound | backend/main.py:253-259 | A built-in name gives 400 before any lookup. Then an unknown name gives 404 and a known one 204, with only that entry removed. |
| CReminders.CutAtNewline | main.c:49 | Keeps the text before the first newline, or all of it when there is none. |
| CReminders.ReadMessage | main.c:47-49 | The message is at most 255 characters long, contains no newline, and is a prefix of the input after the character `getchar` dropped. |
| CReminders.ReadMessageWithoutNewline | main.c:47-49 | A line without a newline is kept whole up to 255 characters and cut there beyond. |
| CReminders.ReadMessageStopsAtNewline | main.c:48-49 | A newline within the first 255 characters ends the message. |
| CReminders.CutAtFirstNewline | main.c:49 | The cut falls exactly at the first newline. |
| CReminders.NoNewlineKept | main.c:49 | Text without a newline is kept whole. |
| CReminders.ActiveRows | main.c:68-80 | The active slots, in order. |
| CReminders.ActiveRowsFacts | main.c:68-79 | Every listed row is an active slot, and a table of active slots is listed whole. |
| CReminders.ReminderTable.constructor | main.c:17-18 | 100 zero-filled slots with a count of 0. |
| CReminders.ReminderTable.SetAlarm | main.c:20-56 | A full table, then a bad hour, then a bad minute are rejected with no change. Otherwise slot `count` gets id `count + 1`, the time, the message and `is_active = 1`, and the count grows by one. |
| CReminders.ReminderTable.DisplayReminders | main.c:58-87 | An empty table gives "No reminders set.". Otherwise the loop lists and counts exactly the active slots among the first `count`. |
| CReminders.ReminderTable.DeleteReminder | main.c:89-90 | Changes nothing. |
| CReminders.ReminderTable.SnoozeAlarm | main.c:92-93 | Changes nothing. |
| CReminders.ListingShowsAll | main.c:68-86 | In a valid table every filled slot has id position + 1 and is active. The listing therefore shows every slot, and "No active reminders." cannot be reached. |

## Left out

- Audio synthesis, WAV framing and playback (sounddevice, simpleaudio, player subprocesses, the terminal beep): floating-point numerics and foreign calls. Playback appears only as the ordered list of attempts, and whether an attempt raises is a parameter.
- `AlarmPlayer` and its thread: its point is concurrency. Only its profile lookup (`Sounds.PlayerPause`) is modelled.
- Locks, daemon threads, `run_coroutine_threadsafe` and the asyncio lock: every operation runs sequentially. The store's lock and the managers' locks add nothing to a sequential model.
- The sleeping in the tick and monitor loops: one tick, or one monitor pass, is one call taking the clock as a parameter.
- The monitor's real cadence: it waits 30 seconds after each pass's work, so passes drift more than 30 seconds apart. `Tasks.CadenceMeetsWindow` holds only for gaps of at most 30 seconds, and `Tasks.GapMissesWindow` shows that a longer gap can step over a window.
- SIGALRM timers, the fork demo in `main.py`, FastAPI routing, CORS, the lifespan hooks and the list routes: signal and process plumbing, and thin library wrappers.
- A raising `on_ring` or `on_reminder` callback: the table change and the save happen regardless, and the model has no other effect for the callback to undo.
- Desktop notifications (`_send_os_notification`): subprocess I/O.
- The bytes written to and deleted from the sounds folder on upload and delete. The model keeps only the registry entry.
- `custom_sounds.json`: the registry is an in-memory dictionary. Reading a file that is missing or does not decode, saving the file, and traffic of other processes between a load and a save are not modelled.
- The JSON text encoding (`json.dump`/`json.load`): a file holds a JSON value, UTF-8 text that is not JSON, or bytes that are not UTF-8. The round trip is taken to be the identity on values.
- JSON floats: `Json.Value` has no floating-point numbers, so a file holding `1.5` cannot be represented.
- JSON objects with a repeated key: `json.load` keeps the last value, whereas `Dicts.Get` would return the first. The model assumes a file's objects have distinct keys.
- `datetime.fromisoformat` is a map from accepted texts to moments in whole seconds. Anything outside the map is a `ValueError`, and the task is skipped. Fractional seconds and time zones are not modelled, and this hides two ways the monitor thread ends. A `time` with a UTC offset parses to an aware datetime, so `now - reminder_dt` (backend/task_manager.py:118, outside the `try`) raises `TypeError`. A huge `reminder` makes `timedelta(...)` or the subtraction at backend/task_manager.py:113 raise `OverflowError`, which the `except ValueError` at :114 does not catch. Either error ends `_monitor_loop` and its thread, so no task is reminded after it. The model instead goes on with the next task and with later passes.
- Pydantic's lax coercions (for example "1" accepted as an int) are not modelled: a row decodes only when every field has its exact JSON type. A `setattr` with a value of the wrong type is skipped here, whereas Python would store it unvalidated.
- Attribute names: `hasattr` also accepts method names, and setting them is not modelled. Keyword names are a closed set of field names plus `Unknown`.
- A manager constructor whose load raises (a data file that is not UTF-8, or a document that is not an object): the model states that the load succeeds as a precondition, where the source would propagate the exception and the server would not start.
- Aliasing between the monitor's snapshot and the table: the model reads the current entry at each position. Positions never move during a pass, so this captures the shared objects.
- WebSocket handles are natural numbers compared by value, standing for Python's identity comparison.
- Text handling is ASCII-only: lower-casing, title-casing and the upload suffix's `.lower()`. No non-ASCII character lowers to a character of an allowed suffix, so the upload decision is unaffected. The blank-name test uses Python's full set of whitespace characters.
- `os.path.splitext` is the POSIX version.
- `main.c` console I/O: the hour, the minute and the rest of the input line are parameters, and the printed text is a result value. A `scanf` that fails to parse, a NUL byte in the input, and `fgets` at end of file (which leaves the buffer undefined; the model stores "") are not modelled.
- Tasks.Dump: its contract states only the number of rows. `Tasks.PersistReload` states what the rows are.
- Tasks.Pass: its own contract states only that keys are kept and the length. `Tasks.PassTable` and `Tasks.PassEmits` state what the pass does.
