/**
 * The HTTP and WebSocket layer (`main.py`): the registry of open WebSocket
 * connections, the keep-alive reply, the REST routes over the two managers,
 * and the checks an uploaded custom sound must pass. A response is either a
 * body, no content, or an HTTP error status.
 */
module Server {
  import opened Wrappers
  import Dicts
  import opened Json
  import opened Models
  import Sounds
  import Alarms
  import Tasks
  import Storage

  datatype Response<T> = Ok(body: T) | NoContent | HttpError(code: int)

  // ── The connection registry ──────────────────────────────────────────────

  /** A WebSocket connection; two handles are the same connection exactly when they are equal. */
  type Handle = nat

  /** The handles of `s` that are not in `drop`, in their order in `s`. */
  function Keep(s: seq<Handle>, drop: set<Handle>): seq<Handle>
  {
    if s == [] then []
    else Keep(s[..|s| - 1], drop) + (if s[|s| - 1] in drop then [] else [s[|s| - 1]])
  }

  /** The handles of `s` whose send raised, in the order they were tried: the `dead` list of `broadcast`. */
  function Failed(s: seq<Handle>, failing: set<Handle>): (r: seq<Handle>)
    ensures forall c :: c in r <==> c in s && c in failing
  {
    if s == [] then []
    else Failed(s[..|s| - 1], failing) + (if s[|s| - 1] in failing then [s[|s| - 1]] else [])
  }

  /** The elements of a list, for `c not in dead`. */
  function Members(s: seq<Handle>): (r: set<Handle>)
    ensures forall c :: c in r <==> c in s
  {
    set c | c in s
  }

  lemma {:induction false} KeepMembers(s: seq<Handle>, drop: set<Handle>, c: Handle)
    ensures c in Keep(s, drop) <==> c in s && c !in drop
  {
    if s != [] {
      KeepMembers(s[..|s| - 1], drop, c);
      assert s == s[..|s| - 1] + [s[|s| - 1]];
    }
  }

  /** Each kept handle appears as often as before; each dropped one not at all. */
  lemma {:induction false} KeepCounts(s: seq<Handle>, drop: set<Handle>, c: Handle)
    ensures multiset(Keep(s, drop))[c] == if c in drop then 0 else multiset(s)[c]
  {
    if s != [] {
      KeepCounts(s[..|s| - 1], drop, c);
      assert s == s[..|s| - 1] + [s[|s| - 1]];
    }
  }

  /** The filter works segment by segment, so it keeps the relative order of what it keeps. */
  lemma {:induction false} KeepAppend(s: seq<Handle>, t: seq<Handle>, drop: set<Handle>)
    ensures Keep(s + t, drop) == Keep(s, drop) + Keep(t, drop)
    decreases |t|
  {
    if t == [] {
      assert s + t == s;
    } else {
      var init := t[..|t| - 1];
      assert (s + t)[..|s + t| - 1] == s + init;
      KeepAppend(s, init, drop);
    }
  }

  /** Filtering by the list of failed handles is filtering by the failing set. */
  lemma {:induction false} KeepByFailed(s: seq<Handle>, prefix: seq<Handle>, failing: set<Handle>)
    requires forall c :: c in prefix ==> c in s
    ensures Keep(prefix, Members(Failed(s, failing))) == Keep(prefix, failing)
  {
    if prefix != [] {
      KeepByFailed(s, prefix[..|prefix| - 1], failing);
    }
  }

  class ConnectionManager {
    var active: seq<Handle>

    constructor()
      ensures active == []
    {
      active := [];
    }

    /** `connect`: the accepted handle joins the end of the list. */
    method Connect(ws: Handle)
      modifies this
      ensures active == old(active) + [ws]
    {
      active := active + [ws];
    }

    /** `disconnect`: every occurrence of the handle leaves; the rest keep their order. */
    method Disconnect(ws: Handle)
      modifies this
      ensures active == Keep(old(active), {ws})
      ensures ws !in active
    {
      active := Keep(active, {ws});
      KeepMembers(old(active), {ws}, ws);
    }

    /**
     * `broadcast(data)`: the data is sent to every handle once, in order; the
     * handles whose send raises (those in `failing`) are collected and then
     * dropped.
     */
    method Broadcast(data: Json.Value, failing: set<Handle>) returns (sent: seq<(Handle, Json.Value)>)
      modifies this
      ensures |sent| == |old(active)|
      ensures forall i :: 0 <= i < |sent| ==> sent[i] == (old(active)[i], data)
      ensures active == Keep(old(active), failing)
    {
      var dead: seq<Handle> := [];
      sent := [];
      var i := 0;
      while i < |active|
        invariant 0 <= i <= |active|
        invariant |sent| == i && forall j :: 0 <= j < i ==> sent[j] == (active[j], data)
        invariant dead == Failed(active[..i], failing)
      {
        var ws := active[i];
        sent := sent + [(ws, data)];
        assert active[..i + 1][..i] == active[..i];
        if ws in failing {
          dead := dead + [ws];
        }
        i := i + 1;
      }
      assert active[..i] == active;
      KeepByFailed(active, active, failing);
      active := Keep(active, Members(dead));
    }
  }

  // ── Events ────────────────────────────────────────────────────────────────

  /** What the ring callback broadcasts. */
  function AlarmRingEvent(id: string): (e: Json.Value)
    ensures e.Obj? && Dicts.Keys(e.fields) == ["event", "alarm_id"]
    ensures Dicts.Get(e.fields, "event") == Some(Str("alarm_ring"))
    ensures Dicts.Get(e.fields, "alarm_id") == Some(Str(id))
  {
    Obj([("event", Str("alarm_ring")), ("alarm_id", Str(id))])
  }

  /** What the reminder callback broadcasts. */
  function TaskReminderEvent(id: string): (e: Json.Value)
    ensures e.Obj? && Dicts.Keys(e.fields) == ["event", "task_id"]
    ensures Dicts.Get(e.fields, "event") == Some(Str("task_reminder"))
    ensures Dicts.Get(e.fields, "task_id") == Some(Str(id))
  {
    Obj([("event", Str("task_reminder")), ("task_id", Str(id))])
  }

  /** The ring event names only the alarm: a client learns the sound from the alarm itself. */
  lemma RingEventHasNoSound(id: string)
    ensures !Dicts.HasKey(AlarmRingEvent(id).fields, "sound")
    ensures Dicts.Get(AlarmRingEvent(id).fields, "sound") == None
  {
    Dicts.GetFound(AlarmRingEvent(id).fields, "sound");
  }

  // ── The WebSocket keep-alive ─────────────────────────────────────────────

  datatype Reaction = Answer(msg: Json.Value) | Silent | Raises

  const PONG: Json.Value := Obj([("type", Str("pong"))])

  /**
   * What the endpoint does with one decoded message: `data.get("type")`
   * raises on anything but an object; a `"ping"` type is answered with a
   * pong; everything else is ignored.
   */
  function React(data: Json.Value): Reaction
  {
    if !data.Obj? then Raises
    else if Dicts.Get<Value>(data.fields, "type") == Some(Str("ping")) then Answer(PONG)
    else Silent
  }

  /** The replies sent for a run of messages, one per answered message. */
  function Replies(ms: seq<Json.Value>): seq<Json.Value>
  {
    if ms == [] then []
    else
      var r := React(ms[|ms| - 1]);
      Replies(ms[..|ms| - 1]) + (if r.Answer? then [r.msg] else [])
  }

  /** The position of the first message that is not an object, or the length when there is none. */
  function FirstNonObject(ms: seq<Json.Value>): (k: nat)
    ensures k <= |ms|
    ensures forall j :: 0 <= j < k ==> ms[j].Obj?
    ensures k < |ms| ==> !ms[k].Obj?
  {
    if ms == [] then 0
    else if !ms[0].Obj? then 0
    else 1 + FirstNonObject(ms[1..])
  }

  /** A ping is answered with one pong, whatever else it carries; a pong and a capitalised ping are not answered. */
  lemma PingPong(extra: Dicts.Dict<Json.Value>)
    ensures React(Obj([("type", Str("ping"))] + extra)) == Answer(PONG)
    ensures React(PONG) == Silent
    ensures React(Obj([("type", Str("PING"))])) == Silent
    ensures React(Obj([])) == Silent
  {
  }

  /** The replies of consecutive runs are the runs' replies in order, and one message gets at most one reply. */
  lemma {:induction false} RepliesAppend(ms: seq<Json.Value>, more: seq<Json.Value>)
    ensures Replies(ms + more) == Replies(ms) + Replies(more)
    decreases |more|
  {
    if more == [] {
      assert ms + more == ms;
    } else {
      var init := more[..|more| - 1];
      assert (ms + more)[..|ms + more| - 1] == ms + init;
      RepliesAppend(ms, init);
    }
  }

  /** Every reply is a pong. */
  lemma {:induction false} RepliesArePongs(ms: seq<Json.Value>)
    ensures forall r :: r in Replies(ms) ==> r == PONG
  {
    if ms != [] {
      RepliesArePongs(ms[..|ms| - 1]);
    }
  }

  /** There is one reply for each answered message. */
  lemma {:induction false} RepliesCount(ms: seq<Json.Value>)
    ensures |Replies(ms)| == |set j | 0 <= j < |ms| && React(ms[j]).Answer?|
  {
    if ms != [] {
      var init := ms[..|ms| - 1];
      RepliesCount(init);
      var before := set j | 0 <= j < |init| && React(init[j]).Answer?;
      var after := set j | 0 <= j < |ms| && React(ms[j]).Answer?;
      if React(ms[|ms| - 1]).Answer? {
        assert after == before + {|ms| - 1};
      } else {
        assert after == before;
      }
    }
  }

  /**
   * `websocket_endpoint` for one client that sends `incoming` and then
   * disconnects: the handle is registered, each message is answered or
   * ignored, and only a clean disconnect unregisters the handle. A message
   * that is not an object raises out of the loop and leaves the handle in
   * the registry.
   */
  method Session(cm: ConnectionManager, ws: Handle, incoming: seq<Json.Value>)
    returns (replies: seq<Json.Value>, crashed: bool)
    modifies cm
    ensures replies == Replies(incoming[..FirstNonObject(incoming)])
    ensures crashed <==> FirstNonObject(incoming) < |incoming|
    ensures crashed ==> cm.active == old(cm.active) + [ws]
    ensures !crashed ==> cm.active == Keep(old(cm.active) + [ws], {ws})
  {
    cm.Connect(ws);
    replies := [];
    crashed := false;
    var i := 0;
    while i < |incoming|
      invariant 0 <= i <= |incoming|
      invariant forall j :: 0 <= j < i ==> incoming[j].Obj?
      invariant replies == Replies(incoming[..i])
      invariant cm.active == old(cm.active) + [ws]
    {
      var r := React(incoming[i]);
      if r.Raises? {
        crashed := true;
        break;
      }
      assert incoming[..i + 1][..i] == incoming[..i];
      if r.Answer? {
        replies := replies + [r.msg];
      }
      i := i + 1;
    }
    if !crashed {
      cm.Disconnect(ws);
    }
  }

  // ── Alarm and task routes ────────────────────────────────────────────────

  /** `POST /api/alarms`: the body with a fresh id becomes a stored, not ringing alarm. */
  method CreateAlarm(mgr: Alarms.AlarmManager, id: string, body: AlarmCreate) returns (r: Response<Alarm>)
    requires mgr.Valid()
    modifies mgr, mgr.store
    ensures mgr.Valid()
    ensures r == Ok(AlarmFromCreate(id, body))
    ensures mgr.alarms == Dicts.Put(old(mgr.alarms), id, r.body)
    ensures mgr.store.files == Storage.Written(old(mgr.store.files), Storage.ALARMS_FILE, Storage.AlarmsDocument(Alarms.Dump(mgr.alarms)))
    ensures Alarms.KeysMatchIds(old(mgr.alarms)) ==> Alarms.KeysMatchIds(mgr.alarms)
  {
    var a := mgr.Add(AlarmFromCreate(id, body));
    r := Ok(a);
  }

  /** `PATCH /api/alarms/{id}`: 404 for an unknown id; otherwise the fields the body carries are set. */
  method UpdateAlarm(mgr: Alarms.AlarmManager, id: string, body: AlarmUpdate) returns (r: Response<Alarm>)
    requires mgr.Valid()
    modifies mgr, mgr.store
    ensures mgr.Valid()
    ensures Dicts.Get(old(mgr.alarms), id).None? ==>
      r == HttpError(404) && mgr.alarms == old(mgr.alarms) && mgr.store.files == old(mgr.store.files)
    ensures Dicts.Get(old(mgr.alarms), id).Some? ==>
      var a := Dicts.Get(old(mgr.alarms), id).value;
      && r.Ok? && mgr.alarms == Dicts.Put(old(mgr.alarms), id, r.body)
      && mgr.store.files == Storage.Written(old(mgr.store.files), Storage.ALARMS_FILE, Storage.AlarmsDocument(Alarms.Dump(mgr.alarms)))
      && r.body.id == a.id && r.body.time == a.time && r.body.ringing == a.ringing
      && r.body.active == (if body.active.Some? then body.active.value else a.active)
      && r.body.labelText == (if body.labelText.Some? then body.labelText.value else a.labelText)
      && r.body.sound == (if body.sound.Some? then body.sound.value else a.sound)
      && r.body.repeat == (if body.repeat.Some? then body.repeat.value else a.repeat)
    ensures Alarms.KeysMatchIds(old(mgr.alarms)) ==> Alarms.KeysMatchIds(mgr.alarms)
  {
    AlarmPatchHasNoId(body);
    var updated := mgr.Update(id, AlarmPatch(body));
    assert Alarms.KeysMatchIds(old(mgr.alarms)) ==> Alarms.KeysMatchIds(mgr.alarms);
    if updated.None? {
      return HttpError(404);
    }
    AlarmPatchEffect(Dicts.Get(old(mgr.alarms), id).value, body);
    r := Ok(updated.value);
  }

  /** `DELETE /api/alarms/{id}`: 204 when the alarm existed and is gone, 404 otherwise. */
  method DeleteAlarm(mgr: Alarms.AlarmManager, id: string) returns (r: Response<Alarm>)
    requires mgr.Valid()
    modifies mgr, mgr.store
    ensures mgr.Valid()
    ensures r == (if Dicts.HasKey(old(mgr.alarms), id) then NoContent else HttpError(404))
    ensures r.NoContent? ==>
      && mgr.alarms == Dicts.Remove(old(mgr.alarms), id)
      && mgr.store.files == Storage.Written(old(mgr.store.files), Storage.ALARMS_FILE, Storage.AlarmsDocument(Alarms.Dump(mgr.alarms)))
    ensures r.HttpError? ==> mgr.alarms == old(mgr.alarms) && mgr.store.files == old(mgr.store.files)
    ensures Alarms.KeysMatchIds(old(mgr.alarms)) ==> Alarms.KeysMatchIds(mgr.alarms)
  {
    var ok := mgr.Delete(id);
    r := if ok then NoContent else HttpError(404);
  }

  /** `POST /api/alarms/{id}/dismiss`: 404 for an unknown id; otherwise the alarm stops ringing. */
  method DismissAlarm(mgr: Alarms.AlarmManager, id: string) returns (r: Response<Alarm>)
    requires mgr.Valid()
    modifies mgr, mgr.store
    ensures mgr.Valid()
    ensures Dicts.Get(old(mgr.alarms), id).None? ==>
      r == HttpError(404) && mgr.alarms == old(mgr.alarms) && mgr.store.files == old(mgr.store.files)
    ensures Dicts.Get(old(mgr.alarms), id).Some? ==>
      && r == Ok(Dicts.Get(old(mgr.alarms), id).value.(ringing := false))
      && mgr.alarms == Dicts.Put(old(mgr.alarms), id, r.body)
      && mgr.store.files == Storage.Written(old(mgr.store.files), Storage.ALARMS_FILE, Storage.AlarmsDocument(Alarms.Dump(mgr.alarms)))
    ensures Alarms.KeysMatchIds(old(mgr.alarms)) ==> Alarms.KeysMatchIds(mgr.alarms)
  {
    var a := mgr.Dismiss(id);
    r := if a.Some? then Ok(a.value) else HttpError(404);
  }

  /** `POST /api/alarms/{id}/test`: 404 for an unknown id; otherwise a preview of the alarm's sound starts. */
  method TestAlarm(mgr: Alarms.AlarmManager, id: string) returns (r: Response<Json.Value>)
    requires mgr.Valid()
    ensures Dicts.Get(mgr.alarms, id).None? ==> r == HttpError(404)
    ensures Dicts.Get(mgr.alarms, id).Some? ==>
      r == Ok(Obj([("status", Str("playing")), ("sound", Str(Dicts.Get(mgr.alarms, id).value.sound))]))
  {
    var a := mgr.Get(id);
    Dicts.GetFound(mgr.alarms, id);
    if a.None? {
      return HttpError(404);
    }
    var i :| 0 <= i < |mgr.alarms| && mgr.alarms[i] == (id, a.value);
    Dicts.GetAt(mgr.alarms, i);
    r := Ok(Obj([("status", Str("playing")), ("sound", Str(a.value.sound))]));
  }

  /** `POST /api/tasks`: the body with a fresh id becomes a stored, open task. */
  method CreateTask(mgr: Tasks.TaskManager, id: string, body: TaskCreate) returns (r: Response<Task>)
    requires mgr.Valid()
    modifies mgr, mgr.store
    ensures mgr.Valid()
    ensures r == Ok(TaskFromCreate(id, body))
    ensures mgr.tasks == Dicts.Put(old(mgr.tasks), id, r.body)
    ensures mgr.store.files == Storage.Written(old(mgr.store.files), Storage.TASKS_FILE, Storage.TasksDocument(Tasks.Dump(mgr.tasks)))
    ensures Tasks.KeysMatchIds(old(mgr.tasks)) ==> Tasks.KeysMatchIds(mgr.tasks)
  {
    var t := mgr.Add(TaskFromCreate(id, body));
    r := Ok(t);
  }

  /** `PATCH /api/tasks/{id}`: 404 for an unknown id; otherwise the fields the body carries are set. */
  method UpdateTask(mgr: Tasks.TaskManager, id: string, body: TaskUpdate) returns (r: Response<Task>)
    requires mgr.Valid()
    modifies mgr, mgr.store
    ensures mgr.Valid()
    ensures Dicts.Get(old(mgr.tasks), id).None? ==>
      r == HttpError(404) && mgr.tasks == old(mgr.tasks) && mgr.store.files == old(mgr.store.files)
    ensures Dicts.Get(old(mgr.tasks), id).Some? ==>
      var t := Dicts.Get(old(mgr.tasks), id).value;
      && r.Ok? && mgr.tasks == Dicts.Put(old(mgr.tasks), id, r.body)
      && mgr.store.files == Storage.Written(old(mgr.store.files), Storage.TASKS_FILE, Storage.TasksDocument(Tasks.Dump(mgr.tasks)))
      && r.body.id == t.id && r.body.reminderFired == t.reminderFired
      && r.body.title == (if body.title.Some? then body.title.value else t.title)
      && r.body.date == (if body.date.Some? then body.date.value else t.date)
      && r.body.time == (if body.time.Some? then body.time.value else t.time)
      && r.body.reminder == (if body.reminder.Some? then body.reminder.value else t.reminder)
      && r.body.done == (if body.done.Some? then body.done.value else t.done)
      && r.body.color == (if body.color.Some? then body.color.value else t.color)
    ensures Tasks.KeysMatchIds(old(mgr.tasks)) ==> Tasks.KeysMatchIds(mgr.tasks)
  {
    TaskPatchHasNoId(body);
    var updated := mgr.Update(id, TaskPatch(body));
    assert Tasks.KeysMatchIds(old(mgr.tasks)) ==> Tasks.KeysMatchIds(mgr.tasks);
    if updated.None? {
      return HttpError(404);
    }
    TaskPatchEffect(Dicts.Get(old(mgr.tasks), id).value, body);
    r := Ok(updated.value);
  }

  /** `DELETE /api/tasks/{id}`: 204 when the task existed and is gone, 404 otherwise. */
  method DeleteTask(mgr: Tasks.TaskManager, id: string) returns (r: Response<Task>)
    requires mgr.Valid()
    modifies mgr, mgr.store
    ensures mgr.Valid()
    ensures r == (if Dicts.HasKey(old(mgr.tasks), id) then NoContent else HttpError(404))
    ensures r.NoContent? ==>
      && mgr.tasks == Dicts.Remove(old(mgr.tasks), id)
      && mgr.store.files == Storage.Written(old(mgr.store.files), Storage.TASKS_FILE, Storage.TasksDocument(Tasks.Dump(mgr.tasks)))
    ensures r.HttpError? ==> mgr.tasks == old(mgr.tasks) && mgr.store.files == old(mgr.store.files)
    ensures Tasks.KeysMatchIds(old(mgr.tasks)) ==> Tasks.KeysMatchIds(mgr.tasks)
  {
    var ok := mgr.Delete(id);
    r := if ok then NoContent else HttpError(404);
  }

  // ── Uploading and deleting custom sounds ─────────────────────────────────

  const ALLOWED_SUFFIXES: set<string> := {".wav", ".mp3", ".ogg", ".m4a", ".aac", ".flac"}

  /** Some character of `p[lo..hi]` is not a dot. */
  predicate NonDotBetween(p: string, lo: int, hi: int)
    requires 0 <= lo <= hi <= |p|
  {
    exists j :: lo <= j < hi && p[j] != '.'
  }

  /**
   * `os.path.splitext(p)[1]` on POSIX: the text from the last dot, when
   * that dot lies in the last path component and is preceded there by a
   * character other than a dot; otherwise empty.
   */
  function Ext(p: string): (e: string)
    ensures |e| <= |p| && e == p[|p| - |e|..]
    ensures e != "" ==> e[0] == '.' && '.' !in e[1..] && '/' !in e
  {
    var sep := Sounds.LastIndexOf(p, '/');
    var dot := Sounds.LastIndexOf(p, '.');
    if dot > sep && NonDotBetween(p, sep + 1, dot) then
      assert forall j :: 0 <= j < |p[dot..]| - 1 ==> p[dot..][1..][j] == p[dot + 1 + j];
      p[dot..]
    else ""
  }

  /** A leading dot does not start an extension, and a dot in a directory name is ignored. */
  lemma ExtExamples()
    ensures Ext("a.wav") == ".wav"
    ensures Ext(".wav") == ""
    ensures Ext("d.x/a") == ""
  {
    var a := "a.wav";
    assert a[1] == '.' && forall j :: 1 < j < |a| ==> a[j] != '.';
    assert NonDotBetween(a, 0, 1) by { assert a[0] != '.'; }
    var b := ".wav";
    assert b[0] == '.' && forall j :: 0 < j < |b| ==> b[j] != '.';
    var c := "d.x/a";
    assert c[3] == '/' && c[4] != '/';
    assert c[1] == '.' && forall j :: 1 < j < |c| ==> c[j] != '.';
  }

  /** `file.filename or ""`, split, then `.lower()`. */
  function UploadSuffix(filename: Option<string>): string
  {
    Sounds.Lower(Ext(if filename.Some? then filename.value else ""))
  }

  /** The characters `str.strip()` removes: Python's whitespace. */
  predicate IsSpace(c: char)
  {
    || '\t' <= c <= '\r' || '\U{1c}' <= c <= ' ' || c == '\U{85}' || c == '\U{a0}' || c == '\U{1680}'
    || '\U{2000}' <= c <= '\U{200a}' || c == '\U{2028}' || c == '\U{2029}' || c == '\U{202f}'
    || c == '\U{205f}' || c == '\U{3000}'
  }

  /** `not name.strip()`: the name is empty or all whitespace. */
  predicate IsBlank(name: string)
  {
    forall i :: 0 <= i < |name| ==> IsSpace(name[i])
  }

  /** The status an upload is refused with, checked in the endpoint's order, or None when it is accepted. */
  function UploadError(name: string, filename: Option<string>): Option<int>
  {
    if UploadSuffix(filename) !in ALLOWED_SUFFIXES then Some(400)
    else if IsBlank(name) then Some(400)
    else if Sounds.IsProfileName(name) then Some(409)
    else None
  }

  /** The stored file name: every space of the name becomes `_`, then the suffix follows. */
  function SafeFilename(name: string, suffix: string): string
  {
    Sounds.ReplaceChar(name, ' ', '_') + suffix
  }

  /**
   * The order of the checks: a bad suffix wins over everything, a blank
   * name over a built-in one. An accepted upload has a file name with an
   * allowed extension, a name that is neither blank nor built in.
   */
  lemma UploadCheckOrder(name: string, filename: Option<string>)
    ensures UploadSuffix(filename) !in ALLOWED_SUFFIXES ==> UploadError(name, filename) == Some(400)
    ensures UploadSuffix(filename) in ALLOWED_SUFFIXES && IsBlank(name) ==> UploadError(name, filename) == Some(400)
    ensures UploadSuffix(filename) in ALLOWED_SUFFIXES && !IsBlank(name) && Sounds.IsProfileName(name) ==>
      UploadError(name, filename) == Some(409)
    ensures UploadError(name, filename).None? <==>
      UploadSuffix(filename) in ALLOWED_SUFFIXES && !IsBlank(name) && !Sounds.IsProfileName(name)
    ensures UploadError(name, filename).None? ==> filename.Some? && filename.value != "" && name != ""
  {
    assert "" !in ALLOWED_SUFFIXES;
    assert UploadSuffix(None) == "" by {
      assert Ext("") == "";
    }
    assert UploadSuffix(Some("")) == "" by {
      assert Ext("") == "";
    }
    assert IsBlank("");
  }

  /**
   * Only spaces are rewritten: the result has no space, keeps every other
   * character of the name in place and ends with the suffix.
   */
  lemma SafeFilenameShape(name: string, suffix: string)
    requires suffix in ALLOWED_SUFFIXES
    ensures var f := SafeFilename(name, suffix);
      && |f| == |name| + |suffix| && f[|name|..] == suffix && ' ' !in f
      && forall i :: 0 <= i < |name| ==> f[i] == (if name[i] == ' ' then '_' else name[i])
  {
    var f := SafeFilename(name, suffix);
    forall i | 0 <= i < |f|
      ensures f[i] != ' '
    {
      if i >= |name| {
        assert f[i] == suffix[i - |name|];
      }
    }
  }

  /**
   * What the name rewriting does not do: a path separator survives it, and
   * two names that differ only in a space and an underscore share one file.
   */
  lemma SafeFilenameLimits()
    ensures '/' in SafeFilename("../x", ".wav")
    ensures SafeFilename("a b", ".wav") == SafeFilename("a_b", ".wav")
  {
    assert SafeFilename("../x", ".wav")[2] == '/';
  }

  /** `{"name": name, "filename": safe_filename, **entry}`: the entry's keys are written over the first two. */
  function UploadBody(name: string, safe: string, entry: Sounds.CustomEntry): (v: Json.Value)
  {
    Obj(Dicts.Put(Dicts.Put([("name", Str(name)), ("filename", Str(safe))],
      "filename", Str(entry.filename)), "description", Str(entry.description)))
  }

  /** The merged body has the name, the entry's file name and its description, in that order. */
  lemma UploadBodyShape(name: string, safe: string, entry: Sounds.CustomEntry)
    ensures UploadBody(name, safe, entry) ==
      Obj([("name", Str(name)), ("filename", Str(entry.filename)), ("description", Str(entry.description))])
  {
    var first: Dicts.Dict<Json.Value> := [("name", Str(name)), ("filename", Str(safe))];
    assert "name" != "filename" && "name" != "description" && "filename" != "description" by {
      assert "name"[0] != "filename"[0] && "name"[0] != "description"[0] && "filename"[0] != "description"[0];
    }
    assert first[1..] == [("filename", Str(safe))];
    var second := Dicts.Put(first, "filename", Str(entry.filename));
    assert Dicts.Put(first[1..], "filename", Str(entry.filename)) == [("filename", Str(entry.filename))];
    assert second == [first[0]] + Dicts.Put(first[1..], "filename", Str(entry.filename));
    assert second == [("name", Str(name)), ("filename", Str(entry.filename))];
    assert second[1..] == [("filename", Str(entry.filename))];
    assert Dicts.Put(second[1..], "description", Str(entry.description))
      == [("filename", Str(entry.filename)), ("description", Str(entry.description))];
  }

  /**
   * `POST /api/sounds/upload`: the checks in order, then the entry is
   * registered with the safe file name and a description naming the
   * uploaded file.
   */
  method Upload(reg: Sounds.CustomSounds, name: string, filename: Option<string>) returns (r: Response<Json.Value>)
    requires reg.Valid()
    modifies reg
    ensures reg.Valid()
    ensures UploadError(name, filename).Some? ==>
      r == HttpError(UploadError(name, filename).value) && reg.db == old(reg.db)
    ensures UploadError(name, filename).None? ==>
      && filename.Some?
      && var safe := SafeFilename(name, UploadSuffix(filename));
      && var description := "Custom: " + filename.value;
      && reg.db == Dicts.Put(old(reg.db), name, Sounds.CustomEntry(safe, description))
      && r == Ok(Obj([("name", Str(name)), ("filename", Str(safe)), ("description", Str(description))]))
  {
    var err := UploadError(name, filename);
    if err.Some? {
      return HttpError(err.value);
    }
    UploadCheckOrder(name, filename);
    var safe := SafeFilename(name, UploadSuffix(filename));
    var entry := reg.Add(name, safe, "Custom: " + filename.value);
    UploadBodyShape(name, safe, entry);
    r := Ok(UploadBody(name, safe, entry));
  }

  /** `DELETE /api/sounds/{name}`: 400 for a built-in name before any lookup, 404 for an unknown one, else 204. */
  method RemoveCustomSound(reg: Sounds.CustomSounds, name: string) returns (r: Response<Json.Value>)
    requires reg.Valid()
    modifies reg
    ensures reg.Valid()
    ensures Sounds.IsProfileName(name) ==> r == HttpError(400)
    ensures !Sounds.IsProfileName(name) ==>
      r == (if Dicts.HasKey(old(reg.db), name) then NoContent else HttpError(404))
    ensures r.NoContent? ==> reg.db == Dicts.Remove(old(reg.db), name)
    ensures !r.NoContent? ==> reg.db == old(reg.db)
  {
    if Sounds.IsProfileName(name) {
      return HttpError(400);
    }
    var found := reg.Delete(name);
    r := if found then NoContent else HttpError(404);
  }
}
