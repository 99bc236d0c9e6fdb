/**
 * The records shared by the alarm and task managers (`models.py`): alarms,
 * tasks, the bodies of create and update requests, their declared defaults,
 * the generic attribute update the managers perform, and the JSON form the
 * records are persisted in.
 */
module Models {
  import opened Wrappers
  import Dicts
  import opened Json

  const DEFAULT_SOUND := "Classic Beep"
  const DEFAULT_REMINDER_MINUTES := 10
  const DEFAULT_TASK_COLOR := "#6366f1"

  datatype Alarm = Alarm(
    id: string,
    time: string,            // "HH:MM"
    labelText: string,
    sound: string,
    repeat: seq<string>,     // weekday names; empty means once
    active: bool,
    ringing: bool)

  /** The body of `POST /api/alarms`: an alarm without id and ringing state. */
  datatype AlarmCreate = AlarmCreate(time: string, labelText: string, sound: string, repeat: seq<string>, active: bool)

  /** The body of `PATCH /api/alarms/{id}`: it has no `id`, `time` or `ringing` field. */
  datatype AlarmUpdate = AlarmUpdate(active: Option<bool>, labelText: Option<string>, sound: Option<string>, repeat: Option<seq<string>>)

  datatype Task = Task(
    id: string,
    title: string,
    date: string,            // "YYYY-MM-DD"
    time: string,            // "HH:MM"
    reminder: int,           // minutes before the due moment
    done: bool,
    color: string,
    reminderFired: bool)

  /** The body of `POST /api/tasks`: it has no `done` or `reminder_fired` field. */
  datatype TaskCreate = TaskCreate(title: string, date: string, time: string, reminder: int, color: string)

  /** The body of `PATCH /api/tasks/{id}`: it has no `id` or `reminder_fired` field. */
  datatype TaskUpdate = TaskUpdate(
    title: Option<string>, date: Option<string>, time: Option<string>,
    reminder: Option<int>, done: Option<bool>, color: Option<string>)

  // ── Construction with defaults ───────────────────────────────────────────

  /** `Alarm(time=t)` whose default id factory produced `id`. */
  function NewAlarm(id: string, time: string): Alarm
  {
    Alarm(id, time, "", DEFAULT_SOUND, [], true, false)
  }

  /** `AlarmCreate(time=t)`. */
  function NewAlarmCreate(time: string): AlarmCreate
  {
    AlarmCreate(time, "", DEFAULT_SOUND, [], true)
  }

  /** `Alarm(**body.model_dump())` with a fresh id. */
  function AlarmFromCreate(id: string, c: AlarmCreate): (a: Alarm)
    ensures !a.ringing && a.id == id
    ensures a.time == c.time && a.labelText == c.labelText && a.sound == c.sound && a.repeat == c.repeat && a.active == c.active
  {
    Alarm(id, c.time, c.labelText, c.sound, c.repeat, c.active, false)
  }

  /** `Task(title=t)` whose default id factory produced `id`. */
  function NewTask(id: string, title: string): Task
  {
    Task(id, title, "", "", DEFAULT_REMINDER_MINUTES, false, DEFAULT_TASK_COLOR, false)
  }

  /** `TaskCreate(title=t)`. */
  function NewTaskCreate(title: string): TaskCreate
  {
    TaskCreate(title, "", "", DEFAULT_REMINDER_MINUTES, DEFAULT_TASK_COLOR)
  }

  /** `Task(**body.model_dump())` with a fresh id. */
  function TaskFromCreate(id: string, c: TaskCreate): (t: Task)
    ensures !t.done && !t.reminderFired && t.id == id
    ensures t.title == c.title && t.date == c.date && t.time == c.time && t.reminder == c.reminder && t.color == c.color
  {
    Task(id, c.title, c.date, c.time, c.reminder, false, c.color, false)
  }

  /** A default create body yields exactly the alarm the record's own defaults describe. */
  lemma CreateDefaultsAgree(id: string, time: string, title: string)
    ensures AlarmFromCreate(id, NewAlarmCreate(time)) == NewAlarm(id, time)
    ensures TaskFromCreate(id, NewTaskCreate(title)) == NewTask(id, title)
  {
  }

  // ── Attribute update (`setattr` over keyword arguments) ─────────────────

  /** A keyword argument value as the managers receive it. */
  datatype ArgValue = NoneArg | BoolArg(b: bool) | StrArg(s: string) | StrListArg(ss: seq<string>) | IntArg(i: int)

  /**
   * A keyword argument's name: one of the attribute names of the two
   * records (`Label` is `label`, `ReminderFired` is `reminder_fired`), or
   * any other name, which neither record has.
   */
  datatype Name = Id | Time | Label | Sound | Repeat | Active | Ringing
                | Title | Date | Reminder | Done | Color | ReminderFired
                | Unknown(text: string)

  datatype Kwarg = Kwarg(name: Name, value: ArgValue)

  const ALARM_FIELDS: set<Name> := {Id, Time, Label, Sound, Repeat, Active, Ringing}
  const TASK_FIELDS: set<Name> := {Id, Title, Date, Time, Reminder, Done, Color, ReminderFired}

  /** One step of `if v is not None and hasattr(alarm, k): setattr(alarm, k, v)`. */
  function SetAlarmAttr(a: Alarm, kw: Kwarg): Alarm
  {
    var v := kw.value;
    if kw.name == Id && v.StrArg? then a.(id := v.s)
    else if kw.name == Time && v.StrArg? then a.(time := v.s)
    else if kw.name == Label && v.StrArg? then a.(labelText := v.s)
    else if kw.name == Sound && v.StrArg? then a.(sound := v.s)
    else if kw.name == Repeat && v.StrListArg? then a.(repeat := v.ss)
    else if kw.name == Active && v.BoolArg? then a.(active := v.b)
    else if kw.name == Ringing && v.BoolArg? then a.(ringing := v.b)
    else a
  }

  /** The effect of the whole keyword loop, argument by argument in order. */
  function ApplyAlarmKwargs(a: Alarm, kws: seq<Kwarg>): Alarm
  {
    if kws == [] then a else SetAlarmAttr(ApplyAlarmKwargs(a, kws[..|kws| - 1]), kws[|kws| - 1])
  }

  /** `body.model_dump()` for an update body, in field order; an unset field dumps as None. */
  function AlarmDump(u: AlarmUpdate): seq<Kwarg>
  {
    [Kwarg(Active, BoolOpt(u.active)), Kwarg(Label, StrOpt(u.labelText)),
     Kwarg(Sound, StrOpt(u.sound)), Kwarg(Repeat, StrListOpt(u.repeat))]
  }

  /** `body.model_dump(exclude_none=True)`: what `PATCH /api/alarms/{id}` passes to `update`. */
  function AlarmPatch(u: AlarmUpdate): seq<Kwarg>
  {
    ExcludeNone(AlarmDump(u))
  }

  /** The keyword arguments `dismiss` passes: `ringing=False`. */
  const DISMISS_KWARGS: seq<Kwarg> := [Kwarg(Ringing, BoolArg(false))]

  function SetTaskAttr(t: Task, kw: Kwarg): Task
  {
    var v := kw.value;
    if kw.name == Id && v.StrArg? then t.(id := v.s)
    else if kw.name == Title && v.StrArg? then t.(title := v.s)
    else if kw.name == Date && v.StrArg? then t.(date := v.s)
    else if kw.name == Time && v.StrArg? then t.(time := v.s)
    else if kw.name == Reminder && v.IntArg? then t.(reminder := v.i)
    else if kw.name == Done && v.BoolArg? then t.(done := v.b)
    else if kw.name == Color && v.StrArg? then t.(color := v.s)
    else if kw.name == ReminderFired && v.BoolArg? then t.(reminderFired := v.b)
    else t
  }

  function ApplyTaskKwargs(t: Task, kws: seq<Kwarg>): Task
  {
    if kws == [] then t else SetTaskAttr(ApplyTaskKwargs(t, kws[..|kws| - 1]), kws[|kws| - 1])
  }

  function TaskDump(u: TaskUpdate): seq<Kwarg>
  {
    [Kwarg(Title, StrOpt(u.title)), Kwarg(Date, StrOpt(u.date)), Kwarg(Time, StrOpt(u.time)),
     Kwarg(Reminder, IntOpt(u.reminder)), Kwarg(Done, BoolOpt(u.done)), Kwarg(Color, StrOpt(u.color))]
  }

  /** `body.model_dump(exclude_none=True)`: what `PATCH /api/tasks/{id}` passes to `update`. */
  function TaskPatch(u: TaskUpdate): seq<Kwarg>
  {
    ExcludeNone(TaskDump(u))
  }

  function BoolOpt(o: Option<bool>): ArgValue { if o.Some? then BoolArg(o.value) else NoneArg }
  function StrOpt(o: Option<string>): ArgValue { if o.Some? then StrArg(o.value) else NoneArg }
  function StrListOpt(o: Option<seq<string>>): ArgValue { if o.Some? then StrListArg(o.value) else NoneArg }
  function IntOpt(o: Option<int>): ArgValue { if o.Some? then IntArg(o.value) else NoneArg }

  /** Drops the arguments whose value is None, keeping the order of the rest. */
  function ExcludeNone(kws: seq<Kwarg>): (r: seq<Kwarg>)
    ensures forall i :: 0 <= i < |r| ==> r[i] in kws && r[i].value != NoneArg
  {
    if kws == [] then []
    else ExcludeNone(kws[..|kws| - 1]) + (if kws[|kws| - 1].value == NoneArg then [] else [kws[|kws| - 1]])
  }

  lemma {:induction false} ApplyAlarmAppend(a: Alarm, kws: seq<Kwarg>, more: seq<Kwarg>)
    ensures ApplyAlarmKwargs(a, kws + more) == ApplyAlarmKwargs(ApplyAlarmKwargs(a, kws), more)
    decreases |more|
  {
    if more != [] {
      var all := kws + more;
      var init := more[..|more| - 1];
      assert all[..|all| - 1] == kws + init;
      assert all[|all| - 1] == more[|more| - 1];
      ApplyAlarmAppend(a, kws, init);
      calc {
        ApplyAlarmKwargs(a, all);
        SetAlarmAttr(ApplyAlarmKwargs(a, kws + init), more[|more| - 1]);
        SetAlarmAttr(ApplyAlarmKwargs(ApplyAlarmKwargs(a, kws), init), more[|more| - 1]);
        ApplyAlarmKwargs(ApplyAlarmKwargs(a, kws), more);
      }
    } else {
      assert kws + more == kws;
    }
  }


  lemma {:induction false} ApplyTaskAppend(t: Task, kws: seq<Kwarg>, more: seq<Kwarg>)
    ensures ApplyTaskKwargs(t, kws + more) == ApplyTaskKwargs(ApplyTaskKwargs(t, kws), more)
    decreases |more|
  {
    if more != [] {
      var all := kws + more;
      var init := more[..|more| - 1];
      assert all[..|all| - 1] == kws + init;
      assert all[|all| - 1] == more[|more| - 1];
      ApplyTaskAppend(t, kws, init);
      calc {
        ApplyTaskKwargs(t, all);
        SetTaskAttr(ApplyTaskKwargs(t, kws + init), more[|more| - 1]);
        SetTaskAttr(ApplyTaskKwargs(ApplyTaskKwargs(t, kws), init), more[|more| - 1]);
        ApplyTaskKwargs(ApplyTaskKwargs(t, kws), more);
      }
    } else {
      assert kws + more == kws;
    }
  }


  lemma ApplyAlarmOne(a: Alarm, kw: Kwarg)
    ensures ApplyAlarmKwargs(a, [kw]) == SetAlarmAttr(a, kw)
  {
    assert [kw][..0] == [];
  }

  lemma ApplyTaskOne(t: Task, kw: Kwarg)
    ensures ApplyTaskKwargs(t, [kw]) == SetTaskAttr(t, kw)
  {
    assert [kw][..0] == [];
  }

  /** Arguments whose value is None or whose name is not a field change nothing. */
  lemma {:induction false} IgnoredAlarmKwargs(a: Alarm, kws: seq<Kwarg>)
    requires forall i :: 0 <= i < |kws| ==> kws[i].value == NoneArg || kws[i].name !in ALARM_FIELDS
    ensures ApplyAlarmKwargs(a, kws) == a
  {
    if kws != [] {
      IgnoredAlarmKwargs(a, kws[..|kws| - 1]);
    }
  }

  lemma {:induction false} IgnoredTaskKwargs(t: Task, kws: seq<Kwarg>)
    requires forall i :: 0 <= i < |kws| ==> kws[i].value == NoneArg || kws[i].name !in TASK_FIELDS
    ensures ApplyTaskKwargs(t, kws) == t
  {
    if kws != [] {
      IgnoredTaskKwargs(t, kws[..|kws| - 1]);
    }
  }

  /** Only an `id=` argument can change the record's id. */
  lemma {:induction false} AlarmKwargsKeepId(a: Alarm, kws: seq<Kwarg>)
    requires forall i :: 0 <= i < |kws| ==> kws[i].name != Id
    ensures ApplyAlarmKwargs(a, kws).id == a.id
  {
    if kws != [] {
      AlarmKwargsKeepId(a, kws[..|kws| - 1]);
    }
  }

  lemma {:induction false} TaskKwargsKeepId(t: Task, kws: seq<Kwarg>)
    requires forall i :: 0 <= i < |kws| ==> kws[i].name != Id
    ensures ApplyTaskKwargs(t, kws).id == t.id
  {
    if kws != [] {
      TaskKwargsKeepId(t, kws[..|kws| - 1]);
    }
  }

  /** A PATCH body never carries an `id` argument. */
  lemma AlarmPatchHasNoId(u: AlarmUpdate)
    ensures forall i :: 0 <= i < |AlarmPatch(u)| ==> AlarmPatch(u)[i].name != Id
  {
  }

  lemma TaskPatchHasNoId(u: TaskUpdate)
    ensures forall i :: 0 <= i < |TaskPatch(u)| ==> TaskPatch(u)[i].name != Id
  {
  }

  /** Dropping None values beforehand does not change what the loop does. */
  lemma {:induction false} ApplyAlarmExcludeNone(a: Alarm, kws: seq<Kwarg>)
    ensures ApplyAlarmKwargs(a, ExcludeNone(kws)) == ApplyAlarmKwargs(a, kws)
  {
    if kws != [] {
      var init, last := kws[..|kws| - 1], kws[|kws| - 1];
      ApplyAlarmExcludeNone(a, init);
      var tail := if last.value == NoneArg then [] else [last];
      ApplyAlarmAppend(a, ExcludeNone(init), tail);
      if tail != [] {
        ApplyAlarmOne(ApplyAlarmKwargs(a, init), last);
      }
    }
  }

  lemma {:induction false} ApplyTaskExcludeNone(t: Task, kws: seq<Kwarg>)
    ensures ApplyTaskKwargs(t, ExcludeNone(kws)) == ApplyTaskKwargs(t, kws)
  {
    if kws != [] {
      var init, last := kws[..|kws| - 1], kws[|kws| - 1];
      ApplyTaskExcludeNone(t, init);
      var tail := if last.value == NoneArg then [] else [last];
      ApplyTaskAppend(t, ExcludeNone(init), tail);
      if tail != [] {
        ApplyTaskOne(ApplyTaskKwargs(t, init), last);
      }
    }
  }

  /**
   * A PATCH body sets exactly the fields it carries, and can never change
   * the alarm's id, time or ringing state.
   */
  lemma AlarmPatchEffect(a: Alarm, u: AlarmUpdate)
    ensures var r := ApplyAlarmKwargs(a, AlarmPatch(u));
      && r.id == a.id && r.time == a.time && r.ringing == a.ringing
      && r.active == (if u.active.Some? then u.active.value else a.active)
      && r.labelText == (if u.labelText.Some? then u.labelText.value else a.labelText)
      && r.sound == (if u.sound.Some? then u.sound.value else a.sound)
      && r.repeat == (if u.repeat.Some? then u.repeat.value else a.repeat)
  {
    ApplyAlarmExcludeNone(a, AlarmDump(u));
    AlarmDumpEffect(a, u);
  }

  lemma AlarmDumpEffect(a: Alarm, u: AlarmUpdate)
    ensures ApplyAlarmKwargs(a, AlarmDump(u)) == a.(
      active := if u.active.Some? then u.active.value else a.active,
      labelText := if u.labelText.Some? then u.labelText.value else a.labelText,
      sound := if u.sound.Some? then u.sound.value else a.sound,
      repeat := if u.repeat.Some? then u.repeat.value else a.repeat)
  {
    var d := AlarmDump(u);
    ApplyAlarmFour(a, d);
    var b1 := a.(active := if u.active.Some? then u.active.value else a.active);
    var b2 := b1.(labelText := if u.labelText.Some? then u.labelText.value else a.labelText);
    var b3 := b2.(sound := if u.sound.Some? then u.sound.value else a.sound);
    assert SetAlarmAttr(a, d[0]) == b1 by { SetAlarmField(a, d[0]); }
    assert SetAlarmAttr(b1, d[1]) == b2 by { SetAlarmField(b1, d[1]); }
    assert SetAlarmAttr(b2, d[2]) == b3 by { SetAlarmField(b2, d[2]); }
    SetAlarmField(b3, d[3]);
  }

  lemma ApplyAlarmFour(a: Alarm, d: seq<Kwarg>)
    requires |d| == 4
    ensures ApplyAlarmKwargs(a, d) == SetAlarmAttr(SetAlarmAttr(SetAlarmAttr(SetAlarmAttr(a, d[0]), d[1]), d[2]), d[3])
  {
    assert d[..3][..2] == d[..2] && d[..2][..1] == d[..1] && d[..1][..0] == [];
    assert ApplyAlarmKwargs(a, d[..1]) == SetAlarmAttr(a, d[0]);
    assert ApplyAlarmKwargs(a, d[..2]) == SetAlarmAttr(ApplyAlarmKwargs(a, d[..1]), d[1]);
    assert ApplyAlarmKwargs(a, d[..3]) == SetAlarmAttr(ApplyAlarmKwargs(a, d[..2]), d[2]);
  }

  /** A PATCH body sets exactly the fields it carries and never touches `id` or `reminder_fired`. */
  lemma TaskPatchEffect(t: Task, u: TaskUpdate)
    ensures var r := ApplyTaskKwargs(t, TaskPatch(u));
      && r.id == t.id && r.reminderFired == t.reminderFired
      && r.title == (if u.title.Some? then u.title.value else t.title)
      && r.date == (if u.date.Some? then u.date.value else t.date)
      && r.time == (if u.time.Some? then u.time.value else t.time)
      && r.reminder == (if u.reminder.Some? then u.reminder.value else t.reminder)
      && r.done == (if u.done.Some? then u.done.value else t.done)
      && r.color == (if u.color.Some? then u.color.value else t.color)
  {
    ApplyTaskExcludeNone(t, TaskDump(u));
    TaskDumpEffect(t, u);
  }

  lemma TaskDumpEffect(t: Task, u: TaskUpdate)
    ensures ApplyTaskKwargs(t, TaskDump(u)) == t.(
      title := if u.title.Some? then u.title.value else t.title,
      date := if u.date.Some? then u.date.value else t.date,
      time := if u.time.Some? then u.time.value else t.time,
      reminder := if u.reminder.Some? then u.reminder.value else t.reminder,
      done := if u.done.Some? then u.done.value else t.done,
      color := if u.color.Some? then u.color.value else t.color)
  {
    var d := TaskDump(u);
    assert d == d[..3] + d[3..];
    ApplyTaskAppend(t, d[..3], d[3..]);
    TaskDumpFront(t, u);
    TaskDumpBack(ApplyTaskKwargs(t, d[..3]), u);
  }

  lemma TaskDumpFront(t: Task, u: TaskUpdate)
    ensures ApplyTaskKwargs(t, TaskDump(u)[..3]) == t.(
      title := if u.title.Some? then u.title.value else t.title,
      date := if u.date.Some? then u.date.value else t.date,
      time := if u.time.Some? then u.time.value else t.time)
  {
    ApplyTaskThree(t, TaskDump(u)[..3]);
  }

  lemma TaskDumpBack(t: Task, u: TaskUpdate)
    ensures ApplyTaskKwargs(t, TaskDump(u)[3..]) == t.(
      reminder := if u.reminder.Some? then u.reminder.value else t.reminder,
      done := if u.done.Some? then u.done.value else t.done,
      color := if u.color.Some? then u.color.value else t.color)
  {
    ApplyTaskThree(t, TaskDump(u)[3..]);
  }

  lemma ApplyTaskThree(t: Task, d: seq<Kwarg>)
    requires |d| == 3
    ensures ApplyTaskKwargs(t, d) == SetTaskAttr(SetTaskAttr(SetTaskAttr(t, d[0]), d[1]), d[2])
  {
    assert d[..2][..1] == d[..1] && d[..1][..0] == [];
    assert ApplyTaskKwargs(t, d[..1]) == SetTaskAttr(t, d[0]);
  }

  /** Each field of an alarm update body, set on its own. */
  lemma SetAlarmField(a: Alarm, kw: Kwarg)
    ensures kw.name == Active && kw.value.BoolArg? ==> SetAlarmAttr(a, kw) == a.(active := kw.value.b)
    ensures kw.name == Label && kw.value.StrArg? ==> SetAlarmAttr(a, kw) == a.(labelText := kw.value.s)
    ensures kw.name == Sound && kw.value.StrArg? ==> SetAlarmAttr(a, kw) == a.(sound := kw.value.s)
    ensures kw.name == Repeat && kw.value.StrListArg? ==> SetAlarmAttr(a, kw) == a.(repeat := kw.value.ss)
    ensures kw.value == NoneArg ==> SetAlarmAttr(a, kw) == a
  {
  }

  // ── JSON form (`model_dump` and `Model(**row)`) ─────────────────────────

  function StrListJson(ss: seq<string>): (r: seq<Json.Value>)
    ensures |r| == |ss| && forall i :: 0 <= i < |ss| ==> r[i] == Json.Str(ss[i])
  {
    seq(|ss|, i requires 0 <= i < |ss| => Json.Str(ss[i]))
  }

  /** `alarm.model_dump()`. */
  function AlarmToJson(a: Alarm): Json.Value
  {
    Json.Obj([
      ("id", Json.Str(a.id)), ("time", Json.Str(a.time)), ("label", Json.Str(a.labelText)),
      ("sound", Json.Str(a.sound)), ("repeat", Json.Arr(StrListJson(a.repeat))),
      ("active", Json.Bool(a.active)), ("ringing", Json.Bool(a.ringing))])
  }

  /** `task.model_dump()`. */
  function TaskToJson(t: Task): Json.Value
  {
    Json.Obj([
      ("id", Json.Str(t.id)), ("title", Json.Str(t.title)), ("date", Json.Str(t.date)),
      ("time", Json.Str(t.time)), ("reminder", Json.Int(t.reminder)), ("done", Json.Bool(t.done)),
      ("color", Json.Str(t.color)), ("reminder_fired", Json.Bool(t.reminderFired))])
  }

  /** A JSON array of strings as a list of strings, or None when some item is not a string. */
  function StrList(items: seq<Json.Value>): Option<seq<string>>
  {
    if items == [] then Some([])
    else match (items[0], StrList(items[1..]))
      case (Str(s), Some(rest)) => Some([s] + rest)
      case _ => None
  }

  /** A string field: its default when absent, None (a validation error) when not a string. */
  function StrField(f: Dicts.Dict<Json.Value>, name: string, default: string): Option<string>
  {
    match Dicts.Get<Value>(f, name)
    case None => Some(default)
    case Some(Str(s)) => Some(s)
    case Some(_) => None
  }

  function BoolField(f: Dicts.Dict<Json.Value>, name: string, default: bool): Option<bool>
  {
    match Dicts.Get<Value>(f, name)
    case None => Some(default)
    case Some(Bool(b)) => Some(b)
    case Some(_) => None
  }

  function IntField(f: Dicts.Dict<Json.Value>, name: string, default: int): Option<int>
  {
    match Dicts.Get<Value>(f, name)
    case None => Some(default)
    case Some(Int(i)) => Some(i)
    case Some(_) => None
  }

  function StrListField(f: Dicts.Dict<Json.Value>, name: string): Option<seq<string>>
  {
    match Dicts.Get<Value>(f, name)
    case None => Some([])
    case Some(Arr(items)) => StrList(items)
    case Some(_) => None
  }

  /** A required string field: None when it is absent or not a string. */
  function RequiredStr(f: Dicts.Dict<Json.Value>, name: string): Option<string>
  {
    match Dicts.Get<Value>(f, name)
    case Some(Str(s)) => Some(s)
    case _ => None
  }

  /**
   * `Alarm(**row)`: None where it raises (the row is not an object, `time` is
   * missing, or a field has the wrong type). A row without `id` gets `freshId`.
   * Keys that are not fields are ignored.
   */
  function DecodeAlarm(row: Json.Value, freshId: string): Option<Alarm>
  {
    match row
    case Obj(f) =>
      var id := StrField(f, "id", freshId);
      var time := RequiredStr(f, "time");
      var labelText := StrField(f, "label", "");
      var sound := StrField(f, "sound", DEFAULT_SOUND);
      var repeat := StrListField(f, "repeat");
      var active := BoolField(f, "active", true);
      var ringing := BoolField(f, "ringing", false);
      if id.Some? && time.Some? && labelText.Some? && sound.Some? && repeat.Some? && active.Some? && ringing.Some?
      then Some(Alarm(id.value, time.value, labelText.value, sound.value, repeat.value, active.value, ringing.value))
      else None
    case _ => None
  }

  /** `Task(**row)`: None where it raises; a row without `id` gets `freshId`. */
  function DecodeTask(row: Json.Value, freshId: string): Option<Task>
  {
    match row
    case Obj(f) =>
      var id := StrField(f, "id", freshId);
      var title := RequiredStr(f, "title");
      var date := StrField(f, "date", "");
      var time := StrField(f, "time", "");
      var reminder := IntField(f, "reminder", DEFAULT_REMINDER_MINUTES);
      var done := BoolField(f, "done", false);
      var color := StrField(f, "color", DEFAULT_TASK_COLOR);
      var fired := BoolField(f, "reminder_fired", false);
      if id.Some? && title.Some? && date.Some? && time.Some? && reminder.Some? && done.Some? && color.Some? && fired.Some?
      then Some(Task(id.value, title.value, date.value, time.value, reminder.value, done.value, color.value, fired.value))
      else None
    case _ => None
  }

  lemma {:induction false} StrListRoundTrip(ss: seq<string>)
    ensures StrList(StrListJson(ss)) == Some(ss)
  {
    if ss != [] {
      StrListRoundTrip(ss[1..]);
      var items := StrListJson(ss);
      assert items[0] == Str(ss[0]);
      assert items[1..] == StrListJson(ss[1..]);
      assert ss == [ss[0]] + ss[1..];
    }
  }

  /** Decoding what `model_dump` produced gives back the same alarm. */
  lemma AlarmJsonRoundTrip(a: Alarm, freshId: string)
    ensures DecodeAlarm(AlarmToJson(a), freshId) == Some(a)
  {
    StrListRoundTrip(a.repeat);
    AlarmJsonLookups(a);
  }

  lemma AlarmJsonLookups(a: Alarm)
    ensures var f := AlarmToJson(a).fields;
      && Dicts.Get(f, "id") == Some(Str(a.id)) && Dicts.Get(f, "time") == Some(Str(a.time))
      && Dicts.Get(f, "label") == Some(Str(a.labelText)) && Dicts.Get(f, "sound") == Some(Str(a.sound))
      && Dicts.Get(f, "repeat") == Some(Arr(StrListJson(a.repeat)))
      && Dicts.Get(f, "active") == Some(Bool(a.active)) && Dicts.Get(f, "ringing") == Some(Bool(a.ringing))
  {
    var f := AlarmToJson(a).fields;
    Dicts.GetFirst(f, 0, "id");
    Dicts.GetFirst(f, 1, "time");
    Dicts.GetFirst(f, 2, "label");
    Dicts.GetFirst(f, 3, "sound");
    Dicts.GetFirst(f, 4, "repeat");
    Dicts.GetFirst(f, 5, "active");
    Dicts.GetFirst(f, 6, "ringing");
  }

  /** Decoding what `model_dump` produced gives back the same task. */
  lemma TaskJsonRoundTrip(t: Task, freshId: string)
    ensures DecodeTask(TaskToJson(t), freshId) == Some(t)
  {
    TaskJsonLookups(t);
  }

  lemma TaskJsonLookups(t: Task)
    ensures var f := TaskToJson(t).fields;
      && Dicts.Get(f, "id") == Some(Str(t.id)) && Dicts.Get(f, "title") == Some(Str(t.title))
      && Dicts.Get(f, "date") == Some(Str(t.date)) && Dicts.Get(f, "time") == Some(Str(t.time))
      && Dicts.Get(f, "reminder") == Some(Int(t.reminder)) && Dicts.Get(f, "done") == Some(Bool(t.done))
      && Dicts.Get(f, "color") == Some(Str(t.color)) && Dicts.Get(f, "reminder_fired") == Some(Bool(t.reminderFired))
  {
    TaskJsonLookupsFront(t);
    TaskJsonLookupsBack(t);
  }

  lemma TaskJsonLookupsFront(t: Task)
    ensures var f := TaskToJson(t).fields;
      && Dicts.Get(f, "id") == Some(Str(t.id)) && Dicts.Get(f, "title") == Some(Str(t.title))
      && Dicts.Get(f, "date") == Some(Str(t.date)) && Dicts.Get(f, "time") == Some(Str(t.time))
  {
    var f := TaskToJson(t).fields;
    Dicts.GetFirst(f, 0, "id");
    Dicts.GetFirst(f, 1, "title");
    Dicts.GetFirst(f, 2, "date");
    Dicts.GetFirst(f, 3, "time");
  }

  lemma TaskJsonLookupsBack(t: Task)
    ensures var f := TaskToJson(t).fields;
      && Dicts.Get(f, "reminder") == Some(Int(t.reminder)) && Dicts.Get(f, "done") == Some(Bool(t.done))
      && Dicts.Get(f, "color") == Some(Str(t.color)) && Dicts.Get(f, "reminder_fired") == Some(Bool(t.reminderFired))
  {
    var f := TaskToJson(t).fields;
    Dicts.GetFirst(f, 4, "reminder");
    Dicts.GetFirst(f, 5, "done");
    Dicts.GetFirst(f, 6, "color");
    Dicts.GetFirst(f, 7, "reminder_fired");
  }

  /** A row holding only a time decodes to an alarm with every declared default. */
  lemma DecodeAlarmDefaults(time: string, freshId: string)
    ensures DecodeAlarm(Json.Obj([("time", Json.Str(time))]), freshId) == Some(NewAlarm(freshId, time))
  {
    var f := [("time", Json.Str(time))];
    Dicts.GetFirst(f, 0, "time");
    Dicts.GetFound(f, "id");
    Dicts.GetFound(f, "label");
    Dicts.GetFound(f, "sound");
    Dicts.GetFound(f, "repeat");
    Dicts.GetFound(f, "active");
    Dicts.GetFound(f, "ringing");
  }

  /** A row that is not an object, or lacks a string `time`, is rejected. */
  lemma DecodeAlarmRejects(row: Json.Value, freshId: string)
    requires !row.Obj? || RequiredStr(row.fields, "time").None?
    ensures DecodeAlarm(row, freshId) == None
  {
  }

  /** Dismissing sets `ringing` to false, changes nothing else, and a second dismissal changes nothing. */
  lemma DismissKwargsIdempotent(a: Alarm)
    ensures ApplyAlarmKwargs(a, DISMISS_KWARGS) == a.(ringing := false)
    ensures ApplyAlarmKwargs(ApplyAlarmKwargs(a, DISMISS_KWARGS), DISMISS_KWARGS) == ApplyAlarmKwargs(a, DISMISS_KWARGS)
  {
  }
}
