/**
 * The task table and its reminder monitor (`task_manager.py`). The table is
 * an insertion-ordered dictionary from id to task, persisted after every
 * change. One pass of the monitor is one call; the current time is an
 * integer number of seconds, and `datetime.fromisoformat` is a parameter:
 * a map from the "YYYY-MM-DDTHH:MM" texts it accepts to the moments they
 * denote, in seconds; a text outside the map makes it raise ValueError.
 */
module Tasks {
  import opened Wrappers
  import Dicts
  import opened Json
  import opened Models
  import Storage

  /** The width in seconds of the window in which a reminder fires. */
  const WINDOW_SECONDS := 30

  /** The monitor sleeps this many seconds between passes. */
  const PASS_PERIOD := 30

  /** `fromisoformat(date + "T" + time) - timedelta(minutes=reminder)`, in seconds. */
  function ReminderMoment(t: Task, iso: map<string, int>): Option<int>
  {
    var text := t.date + "T" + t.time;
    if text in iso then Some(iso[text] - t.reminder * 60) else None
  }

  /** The tests of `_monitor_loop`, in its order, for one task at time `now`. */
  predicate ShouldRemind(t: Task, now: int, iso: map<string, int>)
  {
    && !t.done && !t.reminderFired
    && t.date != "" && t.time != ""
    && ReminderMoment(t, iso).Some?
    && 0 <= now - ReminderMoment(t, iso).value <= WINDOW_SECONDS
  }

  /** `_fire_reminder`'s update: the task stored under `id`, if any, gets its flag set. */
  function FlagById(d: Dicts.Dict<Task>, id: string): (r: Dicts.Dict<Task>)
    ensures Dicts.Keys(r) == Dicts.Keys(d)
    ensures Dicts.Get(d, id).None? ==> r == d
    ensures Dicts.Get(d, id).Some? ==> Dicts.Get(r, id) == Some(Dicts.Get(d, id).value.(reminderFired := true))
    ensures forall k :: k != id ==> Dicts.Get(r, k) == Dicts.Get(d, k)
  {
    match Dicts.Get<Task>(d, id)
    case None => d
    case Some(t) =>
      Dicts.GetFound(d, id);
      Dicts.PutShape(d, id, t.(reminderFired := true));
      Dicts.PutGet(d, id, t.(reminderFired := true), id);
      assert forall k :: k != id ==> Dicts.Get(Dicts.Put(d, id, t.(reminderFired := true)), k) == Dicts.Get(d, k) by {
        forall k | k != id { Dicts.PutGet(d, id, t.(reminderFired := true), k); }
      }
      Dicts.Put(d, id, t.(reminderFired := true))
  }

  /**
   * Step i of a monitor pass. It reads the task at position i as it is now:
   * the snapshot list holds the very objects the table holds, and no step
   * moves an entry.
   */
  function Step(t: Dicts.Dict<Task>, emitted: seq<string>, i: nat, now: int, iso: map<string, int>): (r: (Dicts.Dict<Task>, seq<string>))
    requires i < |t|
    ensures Dicts.Keys(r.0) == Dicts.Keys(t)
    ensures r.1 == emitted + if ShouldRemind(t[i].1, now, iso) then [t[i].1.id] else []
  {
    var task := t[i].1;
    if ShouldRemind(task, now, iso) then (FlagById(t, task.id), emitted + [task.id]) else (t, emitted)
  }

  /** The first n steps of one monitor pass: the table and the ids handed to `on_reminder`. */
  function Pass(d: Dicts.Dict<Task>, n: nat, now: int, iso: map<string, int>): (r: (Dicts.Dict<Task>, seq<string>))
    requires n <= |d|
    ensures Dicts.Keys(r.0) == Dicts.Keys(d) && |r.0| == |d|
  {
    if n == 0 then (d, [])
    else
      var p := Pass(d, n - 1, now, iso);
      assert |Dicts.Keys(p.0)| == |p.0|;
      Step(p.0, p.1, n - 1, now, iso)
  }

  /** The reference form of a pass over a table whose keys are the ids: each due task is flagged. */
  function Flagged(d: Dicts.Dict<Task>, now: int, iso: map<string, int>): (r: Dicts.Dict<Task>)
    ensures |r| == |d| && Dicts.Keys(r) == Dicts.Keys(d)
  {
    seq(|d|, i requires 0 <= i < |d| =>
      (d[i].0, if ShouldRemind(d[i].1, now, iso) then d[i].1.(reminderFired := true) else d[i].1))
  }

  /** The ids of the due tasks, in table order. */
  function DueIds(d: Dicts.Dict<Task>, now: int, iso: map<string, int>): seq<string>
  {
    if d == [] then []
    else DueIds(d[..|d| - 1], now, iso) + (if ShouldRemind(d[|d| - 1].1, now, iso) then [d[|d| - 1].1.id] else [])
  }

  predicate KeysMatchIds(d: Dicts.Dict<Task>)
  {
    forall i :: 0 <= i < |d| ==> d[i].0 == d[i].1.id
  }

  /** Storing a task under its own id keeps every key equal to its task's id. */
  lemma PutKeepsKeysMatchIds(d: Dicts.Dict<Task>, t: Task)
    requires KeysMatchIds(d)
    ensures KeysMatchIds(Dicts.Put(d, t.id, t))
  {
    Dicts.PutEntries(d, t.id, t);
    var p := Dicts.Put(d, t.id, t);
    forall i | 0 <= i < |p|
      ensures p[i].0 == p[i].1.id
    {
      assert p[i] in p;
    }
  }

  /** Removing a key keeps every remaining key equal to its task's id. */
  lemma RemoveKeepsKeysMatchIds(d: Dicts.Dict<Task>, k: string)
    requires KeysMatchIds(d)
    ensures KeysMatchIds(Dicts.Remove(d, k))
  {
    Dicts.RemoveSub(d, k);
    var r := Dicts.Remove(d, k);
    forall i | 0 <= i < |r|
      ensures r[i].0 == r[i].1.id
    {
      assert r[i] in r;
    }
  }

  /** The task stored under key k has id k. */
  lemma StoredUnderOwnId(d: Dicts.Dict<Task>, k: string)
    requires KeysMatchIds(d) && Dicts.Get(d, k).Some?
    ensures Dicts.Get(d, k).value.id == k
  {
    Dicts.GetFound(d, k);
  }

  /** `[t.model_dump() for t in self._tasks.values()]`. */
  function Dump(d: Dicts.Dict<Task>): (rows: seq<Json.Value>)
    ensures |rows| == |d|
  {
    seq(|d|, i requires 0 <= i < |d| => TaskToJson(d[i].1))
  }

  /** `_load`: rows decode in order, failures are skipped, a row without id at position i gets `newId(i)`. */
  function LoadRows(rows: seq<Json.Value>, newId: nat -> string): Dicts.Dict<Task>
  {
    if rows == [] then []
    else
      var acc := LoadRows(rows[..|rows| - 1], newId);
      match DecodeTask(rows[|rows| - 1], newId(|rows| - 1))
      case Some(t) => Dicts.Put(acc, t.id, t)
      case None => acc
  }

  /** The tasks file once `emitted` is non-empty: each reminder rewrote it, the last with `d`. */
  function SavedAfter(files: Storage.Files, emitted: seq<string>, d: Dicts.Dict<Task>): Storage.Files
  {
    if emitted == [] then files else Saved(files, d)
  }

  /** The file system after `_persist` of table `d`. */
  function Saved(files: Storage.Files, d: Dicts.Dict<Task>): Storage.Files
  {
    Storage.Written(files, Storage.TASKS_FILE, Storage.TasksDocument(Dump(d)))
  }

  lemma SavedAfterAgain(files: Storage.Files, emitted: seq<string>, prev: Dicts.Dict<Task>, d: Dicts.Dict<Task>, id: string)
    ensures Saved(SavedAfter(files, emitted, prev), d) == SavedAfter(files, emitted + [id], d)
  {
    Storage.WrittenTwice(files, Storage.TASKS_FILE, Storage.TasksDocument(Dump(prev)), Storage.TasksDocument(Dump(d)));
  }

  class TaskManager {
    var tasks: Dicts.Dict<Task>
    const store: Storage.FileSystem

    predicate Valid()
      reads this
    {
      Dicts.Distinct(tasks)
    }

    /** `__init__` and `_load`; a load that raises is excluded. */
    constructor(store: Storage.FileSystem, newId: nat -> string)
      requires Storage.LoadTasks(store.files).Rows?
      ensures this.store == store && Valid()
      ensures tasks == LoadRows(Storage.LoadTasks(store.files).rows, newId)
      ensures KeysMatchIds(tasks)
    {
      var rows := Storage.LoadTasks(store.files).rows;
      var acc: Dicts.Dict<Task> := [];
      var i := 0;
      while i < |rows|
        invariant 0 <= i <= |rows|
        invariant acc == LoadRows(rows[..i], newId) && Dicts.Distinct(acc)
      {
        assert rows[..i + 1][..i] == rows[..i];
        match DecodeTask(rows[i], newId(i)) {
          case Some(t) =>
            Dicts.PutDistinct(acc, t.id, t);
            acc := Dicts.Put(acc, t.id, t);
          case None =>
        }
        i := i + 1;
      }
      assert rows[..|rows|] == rows;
      LoadedKeysMatchIds(rows, newId);
      this.store := store;
      tasks := acc;
    }

    method GetAll() returns (r: seq<Task>)
      ensures r == Dicts.Values(tasks)
    {
      r := Dicts.Values(tasks);
    }

    method Get(id: string) returns (r: Option<Task>)
      ensures r.Some? <==> Dicts.HasKey(tasks, id)
      ensures r.Some? ==> (id, r.value) in tasks
    {
      r := Dicts.Get(tasks, id);
      Dicts.GetFound(tasks, id);
    }

    /** `_persist`. */
    method Persist()
      modifies store
      ensures store.files == Storage.Written(old(store.files), Storage.TASKS_FILE, Storage.TasksDocument(Dump(tasks)))
    {
      store.SaveTasks(Dump(tasks));
    }

    /** `add`: stores the task under its id, replacing any task with that id. */
    method Add(t: Task) returns (r: Task)
      requires Valid()
      modifies this, store
      ensures Valid() && r == t
      ensures tasks == Dicts.Put(old(tasks), t.id, t)
      ensures store.files == Storage.Written(old(store.files), Storage.TASKS_FILE, Storage.TasksDocument(Dump(tasks)))
      ensures KeysMatchIds(old(tasks)) ==> KeysMatchIds(tasks)
    {
      if KeysMatchIds(tasks) {
        PutKeepsKeysMatchIds(tasks, t);
      }
      Dicts.PutDistinct(tasks, t.id, t);
      tasks := Dicts.Put(tasks, t.id, t);
      Persist();
      r := t;
    }

    /** `update(id, **kwargs)`: None for an unknown id; otherwise the keyword loop and a save. */
    method Update(id: string, kws: seq<Kwarg>) returns (r: Option<Task>)
      requires Valid()
      modifies this, store
      ensures Valid()
      ensures Dicts.Get(old(tasks), id).None? ==>
        r == None && tasks == old(tasks) && store.files == old(store.files)
      ensures Dicts.Get(old(tasks), id).Some? ==>
        && r == Some(ApplyTaskKwargs(Dicts.Get(old(tasks), id).value, kws))
        && tasks == Dicts.Put(old(tasks), id, r.value)
        && store.files == Storage.Written(old(store.files), Storage.TASKS_FILE, Storage.TasksDocument(Dump(tasks)))
      ensures forall j :: j != id ==> Dicts.Get(tasks, j) == Dicts.Get(old(tasks), j)
      ensures KeysMatchIds(old(tasks)) && (forall i :: 0 <= i < |kws| ==> kws[i].name != Id) ==> KeysMatchIds(tasks)
    {
      var found := Dicts.Get(tasks, id);
      if found.None? {
        return None;
      }
      var t := found.value;
      var i := 0;
      while i < |kws|
        invariant 0 <= i <= |kws|
        invariant t == ApplyTaskKwargs(found.value, kws[..i])
      {
        assert kws[..i + 1][..i] == kws[..i];
        t := SetTaskAttr(t, kws[i]);
        i := i + 1;
      }
      assert kws[..|kws|] == kws;
      forall j | j != id
        ensures Dicts.Get(Dicts.Put(tasks, id, t), j) == Dicts.Get(tasks, j)
      {
        Dicts.PutGet(tasks, id, t, j);
      }
      if KeysMatchIds(tasks) && forall i :: 0 <= i < |kws| ==> kws[i].name != Id {
        StoredUnderOwnId(tasks, id);
        TaskKwargsKeepId(found.value, kws);
        PutKeepsKeysMatchIds(tasks, t);
      }
      Dicts.PutDistinct(tasks, id, t);
      tasks := Dicts.Put(tasks, id, t);
      Persist();
      r := Some(t);
    }

    /** `delete`: False for an unknown id, with nothing changed; otherwise the entry goes. */
    method Delete(id: string) returns (ok: bool)
      requires Valid()
      modifies this, store
      ensures Valid()
      ensures ok == Dicts.HasKey(old(tasks), id)
      ensures !ok ==> tasks == old(tasks) && store.files == old(store.files)
      ensures ok ==> (tasks == Dicts.Remove(old(tasks), id)
        && store.files == Storage.Written(old(store.files), Storage.TASKS_FILE, Storage.TasksDocument(Dump(tasks))))
      ensures KeysMatchIds(old(tasks)) ==> KeysMatchIds(tasks)
    {
      if !Dicts.HasKey(tasks, id) {
        return false;
      }
      if KeysMatchIds(tasks) {
        RemoveKeepsKeysMatchIds(tasks, id);
      }
      Dicts.RemoveDistinct(tasks, id);
      tasks := Dicts.Remove(tasks, id);
      Persist();
      ok := true;
    }

    /** `_fire_reminder`: flags the task stored under `id`, if any, then saves the table. */
    method FireReminder(id: string)
      modifies this, store
      ensures tasks == FlagById(old(tasks), id)
      ensures store.files == Saved(old(store.files), tasks)
    {
      tasks := FlagById(tasks, id);
      Persist();
    }

    /** One iteration of the loop in `_monitor_loop`: the task at position i is tested and, when due, reminded. */
    method Visit(i: nat, now: int, iso: map<string, int>) returns (fired: bool, id: string)
      requires i < |tasks|
      modifies this, store
      ensures id == old(tasks)[i].1.id && fired == ShouldRemind(old(tasks)[i].1, now, iso)
      ensures tasks == if fired then FlagById(old(tasks), id) else old(tasks)
      ensures store.files == if fired then Saved(old(store.files), tasks) else old(store.files)
    {
      var task := tasks[i].1;
      id := task.id;
      fired := ShouldRemind(task, now, iso);
      if fired {
        FireReminder(id);
      }
    }

    /**
     * One pass of `_monitor_loop` at time `now`: every due task is flagged
     * through `_fire_reminder`, which saves the table and hands the id to
     * `on_reminder`; the ids handed over are returned in order.
     */
    method MonitorPass(now: int, iso: map<string, int>) returns (emitted: seq<string>)
      requires Valid()
      modifies this, store
      ensures Valid()
      ensures (tasks, emitted) == Pass(old(tasks), |old(tasks)|, now, iso)
      ensures store.files == SavedAfter(old(store.files), emitted, tasks)
      ensures KeysMatchIds(old(tasks)) ==> KeysMatchIds(tasks)
    {
      emitted := [];
      ghost var start := tasks;
      ghost var files0 := store.files;
      var n := |tasks|;
      var i := 0;
      while i < n
        invariant 0 <= i <= n == |start|
        invariant (tasks, emitted) == Pass(start, i, now, iso)
        invariant store.files == SavedAfter(files0, emitted, tasks)
      {
        ghost var prev := tasks;
        var fired, id := Visit(i, now, iso);
        if fired {
          SavedAfterAgain(files0, emitted, prev, tasks, id);
          emitted := emitted + [id];
        }
        i := i + 1;
      }
      Dicts.SameKeysDistinct(start, tasks);
      assert KeysMatchIds(start) ==> KeysMatchIds(tasks) by {
        if KeysMatchIds(start) {
          PassIsFlaggedWhole(start, now, iso);
          FlaggedKeeps(start, now, iso, "");
        }
      }
    }
  }

  // ── Properties of a monitor pass ─────────────────────────────────────────

  /** The table after n steps: the first n entries settled, the rest untouched. */
  lemma {:induction false} PassTable(d: Dicts.Dict<Task>, n: nat, now: int, iso: map<string, int>)
    requires n <= |d| && Dicts.Distinct(d) && KeysMatchIds(d)
    ensures Pass(d, n, now, iso).0 == Flagged(d[..n], now, iso) + d[n..]
  {
    if n > 0 {
      PassTable(d, n - 1, now, iso);
      var t := Pass(d, n - 1, now, iso).0;
      assert t[n - 1] == d[n - 1];
      Dicts.SameKeysDistinct(d, t);
      FlaggedSnoc(d, n - 1, now, iso);
      if ShouldRemind(d[n - 1].1, now, iso) {
        FlagAt(t, n - 1);
      }
    }
  }

  /** The ids emitted in n steps: the due ones among the first n entries. */
  lemma {:induction false} PassEmits(d: Dicts.Dict<Task>, n: nat, now: int, iso: map<string, int>)
    requires n <= |d| && Dicts.Distinct(d) && KeysMatchIds(d)
    ensures Pass(d, n, now, iso).1 == DueIds(d[..n], now, iso)
  {
    if n > 0 {
      PassEmits(d, n - 1, now, iso);
      PassTable(d, n - 1, now, iso);
      assert Pass(d, n - 1, now, iso).0[n - 1] == d[n - 1];
      PassEmitsStep(d, n - 1, now, iso);
      DueIdsSnoc(d, n, now, iso);
    }
  }

  /** The emitted ids of one more step, unfolded. */
  lemma PassEmitsStep(d: Dicts.Dict<Task>, n: nat, now: int, iso: map<string, int>)
    requires n < |d|
    ensures var p := Pass(d, n, now, iso);
      Pass(d, n + 1, now, iso).1 == p.1 + if ShouldRemind(p.0[n].1, now, iso) then [p.0[n].1.id] else []
  {
  }

  /** The due ids of a prefix one longer. */
  lemma DueIdsSnoc(d: Dicts.Dict<Task>, n: nat, now: int, iso: map<string, int>)
    requires 0 < n <= |d|
    ensures DueIds(d[..n], now, iso) == DueIds(d[..n - 1], now, iso) + if ShouldRemind(d[n - 1].1, now, iso) then [d[n - 1].1.id] else []
  {
    assert d[..n][..n - 1] == d[..n - 1];
  }

  /** Flagging by the key at position i changes that position only. */
  lemma FlagAt(d: Dicts.Dict<Task>, i: int)
    requires Dicts.Distinct(d) && 0 <= i < |d|
    ensures FlagById(d, d[i].0) == d[i := (d[i].0, d[i].1.(reminderFired := true))]
  {
    Dicts.GetAt(d, i);
    Dicts.PutAt(d, i, d[i].1.(reminderFired := true));
  }

  /** Settling position i extends the flagged prefix by one. */
  lemma FlaggedSnoc(d: Dicts.Dict<Task>, i: int, now: int, iso: map<string, int>)
    requires 0 <= i < |d|
    ensures (Flagged(d[..i], now, iso) + d[i..])[i := (d[i].0,
        if ShouldRemind(d[i].1, now, iso) then d[i].1.(reminderFired := true) else d[i].1)]
      == Flagged(d[..i + 1], now, iso) + d[i + 1..]
  {
  }

  /**
   * While every task is stored under its own id, a pass flags exactly the
   * tasks that were due when it started and emits their ids in table order.
   */
  lemma PassIsFlaggedWhole(d: Dicts.Dict<Task>, now: int, iso: map<string, int>)
    requires Dicts.Distinct(d) && KeysMatchIds(d)
    ensures Pass(d, |d|, now, iso).0 == Flagged(d, now, iso)
    ensures Pass(d, |d|, now, iso).1 == DueIds(d, now, iso)
  {
    PassTable(d, |d|, now, iso);
    PassEmits(d, |d|, now, iso);
    assert d[..|d|] == d;
    assert Flagged(d, now, iso) + d[|d|..] == Flagged(d, now, iso);
  }

  /** An id is emitted exactly when some task with that id was due. */
  lemma {:induction false} DueIdsAreDue(d: Dicts.Dict<Task>, now: int, iso: map<string, int>, x: string)
    ensures x in DueIds(d, now, iso) <==> exists i :: 0 <= i < |d| && ShouldRemind(d[i].1, now, iso) && d[i].1.id == x
  {
    if d != [] {
      var init := d[..|d| - 1];
      DueIdsAreDue(init, now, iso, x);
      if x in DueIds(d, now, iso) && x !in DueIds(init, now, iso) {
        assert ShouldRemind(d[|d| - 1].1, now, iso) && d[|d| - 1].1.id == x;
      }
      if exists i :: 0 <= i < |d| && ShouldRemind(d[i].1, now, iso) && d[i].1.id == x {
        var i :| 0 <= i < |d| && ShouldRemind(d[i].1, now, iso) && d[i].1.id == x;
        if i < |d| - 1 {
          assert init[i] == d[i];
        }
      }
    }
  }

  /** The table after passes at each of `times` in turn, each in its reference form. */
  function Passes(d: Dicts.Dict<Task>, times: seq<int>, iso: map<string, int>): Dicts.Dict<Task>
  {
    if times == [] then d
    else Flagged(Passes(d, times[..|times| - 1], iso), times[|times| - 1], iso)
  }

  /** Every task with id `x` has its reminder flagged. */
  predicate FiredFor(d: Dicts.Dict<Task>, x: string)
  {
    forall j :: 0 <= j < |d| && d[j].1.id == x ==> d[j].1.reminderFired
  }

  /** A pass clears no flag and changes no id, so keys keep matching ids. */
  lemma FlaggedKeeps(d: Dicts.Dict<Task>, now: int, iso: map<string, int>, x: string)
    ensures FiredFor(d, x) ==> FiredFor(Flagged(d, now, iso), x)
    ensures KeysMatchIds(d) ==> KeysMatchIds(Flagged(d, now, iso))
  {
    var f := Flagged(d, now, iso);
    assert forall j :: 0 <= j < |d| ==>
      f[j].0 == d[j].0 && f[j].1.id == d[j].1.id && (d[j].1.reminderFired ==> f[j].1.reminderFired);
  }

  /** Any number of passes clears no flag and keeps keys matching ids. */
  lemma {:induction false} PassesKeep(d: Dicts.Dict<Task>, times: seq<int>, iso: map<string, int>, x: string)
    ensures FiredFor(d, x) ==> FiredFor(Passes(d, times, iso), x)
    ensures KeysMatchIds(d) ==> KeysMatchIds(Passes(d, times, iso))
  {
    if times != [] {
      PassesKeep(d, times[..|times| - 1], iso, x);
      FlaggedKeeps(Passes(d, times[..|times| - 1], iso), times[|times| - 1], iso, x);
    }
  }

  /** A pass that emits `x` flags every task with that id. */
  lemma FlaggedFires(d: Dicts.Dict<Task>, now: int, iso: map<string, int>, x: string)
    requires Dicts.Distinct(d) && KeysMatchIds(d)
    requires x in DueIds(d, now, iso)
    ensures FiredFor(Flagged(d, now, iso), x)
  {
    DueIdsAreDue(d, now, iso, x);
    var f := Flagged(d, now, iso);
    var i :| 0 <= i < |d| && ShouldRemind(d[i].1, now, iso) && d[i].1.id == x;
    forall j | 0 <= j < |f| && f[j].1.id == x
      ensures f[j].1.reminderFired
    {
      assert f[j].1.id == d[j].1.id;
      assert d[j].0 == d[i].0;
    }
  }

  /** Whatever the time, a pass emits no id whose tasks are all flagged. */
  lemma FiredSilent(d: Dicts.Dict<Task>, now: int, iso: map<string, int>, x: string)
    requires FiredFor(d, x)
    ensures x !in DueIds(d, now, iso)
  {
    DueIdsAreDue(d, now, iso, x);
  }

  /**
   * A reminder fires at most once: after a pass that emits `x`, no pass at
   * any later times emits `x` again.
   */
  lemma NoSecondReminder(d: Dicts.Dict<Task>, now: int, times: seq<int>, iso: map<string, int>, x: string)
    requires Dicts.Distinct(d) && KeysMatchIds(d)
    requires x in DueIds(d, now, iso)
    ensures forall k :: 0 <= k < |times| ==>
      x !in DueIds(Passes(Flagged(d, now, iso), times[..k], iso), times[k], iso)
  {
    var f := Flagged(d, now, iso);
    FlaggedFires(d, now, iso, x);
    forall k | 0 <= k < |times|
      ensures x !in DueIds(Passes(f, times[..k], iso), times[k], iso)
    {
      PassesKeep(f, times[..k], iso, x);
      FiredSilent(Passes(f, times[..k], iso), times[k], iso, x);
    }
  }

  /** A pass changes no field but `reminder_fired`, and never of a done task. */
  lemma FlaggedOnlyFlags(d: Dicts.Dict<Task>, now: int, iso: map<string, int>, i: int)
    requires 0 <= i < |d|
    ensures Flagged(d, now, iso)[i].1 == d[i].1.(reminderFired := d[i].1.reminderFired || ShouldRemind(d[i].1, now, iso))
    ensures d[i].1.done ==> Flagged(d, now, iso)[i] == d[i]
  {
  }

  /**
   * A task due at moment m with a reminder of r minutes is reminded from
   * m - 60r up to 30 seconds later, inclusive, and at no other time.
   */
  lemma ReminderWindow(t: Task, iso: map<string, int>, due: int, now: int)
    requires !t.done && !t.reminderFired && t.date != "" && t.time != ""
    requires t.date + "T" + t.time in iso && iso[t.date + "T" + t.time] == due
    ensures ShouldRemind(t, now, iso) <==> due - t.reminder * 60 <= now <= due - t.reminder * 60 + 30
  {
  }

  /**
   * Pass times taken no more than 30 seconds apart, from one at or before a
   * pending task's reminder moment to one at or after it, include a pass at
   * which the task is reminded.
   */
  lemma CadenceMeetsWindow(t: Task, iso: map<string, int>, times: seq<int>) returns (j: nat)
    requires !t.done && !t.reminderFired && t.date != "" && t.time != ""
    requires ReminderMoment(t, iso).Some?
    requires |times| > 0 && times[0] <= ReminderMoment(t, iso).value <= times[|times| - 1]
    requires forall i :: 0 <= i < |times| - 1 ==> times[i] <= times[i + 1] <= times[i] + PASS_PERIOD
    ensures j < |times| && ShouldRemind(t, times[j], iso)
  {
    j := FirstPassFrom(times, ReminderMoment(t, iso).value, 0);
  }

  /** The first pass time from position i on that is at least m lies within 30 seconds of m. */
  lemma {:induction false} FirstPassFrom(times: seq<int>, m: int, i: nat) returns (j: nat)
    requires i < |times| && times[i] <= m <= times[|times| - 1]
    requires forall k :: 0 <= k < |times| - 1 ==> times[k] <= times[k + 1] <= times[k] + PASS_PERIOD
    ensures i <= j < |times| && m <= times[j] <= m + WINDOW_SECONDS
    decreases |times| - i
  {
    if times[i] == m {
      j := i;
    } else if times[i + 1] >= m {
      j := i + 1;
    } else {
      j := FirstPassFrom(times, m, i + 1);
    }
  }

  /**
   * Two passes 32 seconds apart can straddle the window: a pass one second
   * before the reminder moment and the next 31 seconds after it both stay silent.
   */
  lemma GapMissesWindow(t: Task, iso: map<string, int>)
    requires ReminderMoment(t, iso).Some?
    ensures !ShouldRemind(t, ReminderMoment(t, iso).value - 1, iso)
    ensures !ShouldRemind(t, ReminderMoment(t, iso).value + WINDOW_SECONDS + 1, iso)
  {
  }

  /** A date and time whose text `fromisoformat` rejects silence the task at every moment. */
  lemma UnparsableNeverReminded(t: Task, now: int, iso: map<string, int>)
    requires t.date + "T" + t.time !in iso
    ensures !ShouldRemind(t, now, iso)
  {
  }

  // ── Properties of loading ────────────────────────────────────────────────

  lemma {:induction false} LoadedDistinct(rows: seq<Json.Value>, newId: nat -> string)
    ensures Dicts.Distinct(LoadRows(rows, newId))
  {
    if rows != [] {
      LoadedDistinct(rows[..|rows| - 1], newId);
      match DecodeTask(rows[|rows| - 1], newId(|rows| - 1)) {
        case Some(t) => Dicts.PutDistinct(LoadRows(rows[..|rows| - 1], newId), t.id, t);
        case None =>
      }
    }
  }

  /** After a load every task is stored under its own id. */
  lemma {:induction false} LoadedKeysMatchIds(rows: seq<Json.Value>, newId: nat -> string)
    ensures KeysMatchIds(LoadRows(rows, newId))
  {
    if rows != [] {
      var init := rows[..|rows| - 1];
      LoadedKeysMatchIds(init, newId);
      match DecodeTask(rows[|rows| - 1], newId(|rows| - 1)) {
        case Some(t) => PutKeepsKeysMatchIds(LoadRows(init, newId), t);
        case None =>
      }
    }
  }

  /** What `_persist` writes, `_load` reads back unchanged, reminder flags included. */
  lemma {:induction false} PersistReload(d: Dicts.Dict<Task>, newId: nat -> string)
    requires Dicts.Distinct(d) && KeysMatchIds(d)
    ensures LoadRows(Dump(d), newId) == d
  {
    if d != [] {
      var n := |d| - 1;
      var init := d[..n];
      assert Dump(d)[..n] == Dump(init);
      PersistReload(init, newId);
      var t := d[n].1;
      TaskJsonRoundTrip(t, newId(n));
      assert !Dicts.HasKey(init, t.id) by {
        forall i | 0 <= i < n
          ensures init[i].0 != t.id
        {
          assert d[i].0 != d[n].0;
        }
      }
      Dicts.PutShape(init, t.id, t);
      assert d == init + [(t.id, t)];
    }
  }

  /** Saving the table and building a fresh manager from the disk gives the same table. */
  lemma RestartKeepsTasks(files: Storage.Files, d: Dicts.Dict<Task>, newId: nat -> string)
    requires Dicts.Distinct(d) && KeysMatchIds(d)
    ensures var after := Storage.Written(files, Storage.TASKS_FILE, Storage.TasksDocument(Dump(d)));
      Storage.LoadTasks(after) == Storage.Rows(Dump(d))
      && LoadRows(Storage.LoadTasks(after).rows, newId) == d
  {
    Storage.SaveLoadTasks(files, Dump(d));
    PersistReload(d, newId);
  }
}
