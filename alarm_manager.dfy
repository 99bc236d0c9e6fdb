/**
 * The alarm table and its tick rule (`alarm_manager.py`). The table is an
 * insertion-ordered dictionary from id to alarm; every change is persisted
 * through the JSON store. One tick is one call with the wall clock as a
 * parameter.
 */
module Alarms {
  import opened Wrappers
  import Dicts
  import opened Json
  import opened Models
  import Storage

  const WEEKDAY_NAMES: seq<string> := ["Mon", "Tue", "Wed", "Thu", "Fri", "Sat", "Sun"]

  /** The fields of `datetime.now()` the tick reads; `weekday` is 0 for Monday. */
  datatype Clock = Clock(hour: int, minute: int, second: int, weekday: int)

  predicate ValidClock(c: Clock)
  {
    0 <= c.hour < 24 && 0 <= c.minute < 60 && 0 <= c.second < 60 && 0 <= c.weekday < 7
  }

  // ── The "HH:MM" text of the clock ────────────────────────────────────────

  function Digit(n: int): char
    requires 0 <= n < 10
  {
    (48 + n) as char
  }

  function DigitValue(ch: char): Option<int>
  {
    if '0' <= ch <= '9' then Some(ch as int - 48) else None
  }

  /** `f"{n:02d}"` for a number below 100. */
  function Pad2(n: int): string
    requires 0 <= n < 100
  {
    [Digit(n / 10), Digit(n % 10)]
  }

  function ClockText(c: Clock): string
    requires ValidClock(c)
  {
    Pad2(c.hour) + ":" + Pad2(c.minute)
  }

  /** Reads back an "HH:MM" text: two digits, a colon, two digits. */
  function ParseClockText(s: string): Option<(int, int)>
  {
    if |s| != 5 || s[2] != ':' then None
    else match (DigitValue(s[0]), DigitValue(s[1]), DigitValue(s[3]), DigitValue(s[4]))
      case (Some(h1), Some(h0), Some(m1), Some(m0)) => Some((10 * h1 + h0, 10 * m1 + m0))
      case _ => None
  }

  lemma ClockTextRoundTrip(c: Clock)
    requires ValidClock(c)
    ensures ParseClockText(ClockText(c)) == Some((c.hour, c.minute))
  {
    var s := ClockText(c);
    assert s[0] == Digit(c.hour / 10) && s[1] == Digit(c.hour % 10);
    assert s[2] == ':';
    assert s[3] == Digit(c.minute / 10) && s[4] == Digit(c.minute % 10);
  }

  /** Two clocks print the same "HH:MM" exactly when they agree on hour and minute. */
  lemma ClockTextInjective(c: Clock, d: Clock)
    requires ValidClock(c) && ValidClock(d)
    ensures ClockText(c) == ClockText(d) <==> c.hour == d.hour && c.minute == d.minute
  {
    ClockTextRoundTrip(c);
    ClockTextRoundTrip(d);
  }

  // ── The due test of `_tick_loop` ─────────────────────────────────────────

  /** An empty repeat list means every day; otherwise today's name must be in it. */
  predicate RepeatMatches(repeat: seq<string>, weekday: int)
    requires 0 <= weekday < 7
  {
    repeat == [] || WEEKDAY_NAMES[weekday] in repeat
  }

  predicate Due(a: Alarm, c: Clock)
    requires ValidClock(c)
  {
    c.second == 0 && a.active && !a.ringing && a.time == ClockText(c) && RepeatMatches(a.repeat, c.weekday)
  }

  /** `_fire` on one alarm when it is due. */
  function Fire(a: Alarm, c: Clock): Alarm
    requires ValidClock(c)
  {
    if Due(a, c) then a.(ringing := true) else a
  }

  /** The table after one tick: every due alarm rings. */
  function TickTable(d: Dicts.Dict<Alarm>, c: Clock): (r: Dicts.Dict<Alarm>)
    requires ValidClock(c)
    ensures |r| == |d| && Dicts.Keys(r) == Dicts.Keys(d)
  {
    seq(|d|, i requires 0 <= i < |d| => (d[i].0, Fire(d[i].1, c)))
  }

  /** A tick changes no key and no id. */
  lemma TickKeepsKeysMatchIds(d: Dicts.Dict<Alarm>, c: Clock)
    requires ValidClock(c) && KeysMatchIds(d)
    ensures KeysMatchIds(TickTable(d, c))
  {
    var r := TickTable(d, c);
    forall i | 0 <= i < |r|
      ensures r[i].0 == r[i].1.id
    {
      assert r[i] == (d[i].0, Fire(d[i].1, c));
    }
  }

  /** The ids passed to `on_ring` during one tick, in table order. */
  function RungIds(d: Dicts.Dict<Alarm>, c: Clock): seq<string>
    requires ValidClock(c)
  {
    if d == [] then []
    else RungIds(d[..|d| - 1], c) + (if Due(d[|d| - 1].1, c) then [d[|d| - 1].1.id] else [])
  }

  /** `[a.model_dump() for a in self._alarms.values()]`. */
  function Dump(d: Dicts.Dict<Alarm>): (rows: seq<Json.Value>)
    ensures |rows| == |d| && forall i :: 0 <= i < |d| ==> rows[i] == AlarmToJson(d[i].1)
  {
    seq(|d|, i requires 0 <= i < |d| => AlarmToJson(d[i].1))
  }

  /**
   * `_load`: rows decode in order; a row that fails to decode is skipped, a
   * decoded alarm is stored under its id with `ringing` cleared. The row at
   * position i that has no id gets `newId(i)`.
   */
  function LoadRows(rows: seq<Json.Value>, newId: nat -> string): Dicts.Dict<Alarm>
  {
    if rows == [] then []
    else
      var acc := LoadRows(rows[..|rows| - 1], newId);
      match DecodeAlarm(rows[|rows| - 1], newId(|rows| - 1))
      case Some(a) => Dicts.Put(acc, a.id, a.(ringing := false))
      case None => acc
  }

  /** Every alarm is stored under its own id. */
  predicate KeysMatchIds(d: Dicts.Dict<Alarm>)
  {
    forall i :: 0 <= i < |d| ==> d[i].0 == d[i].1.id
  }

  /** Storing an alarm under its own id keeps every key equal to its alarm's id. */
  lemma PutKeepsKeysMatchIds(d: Dicts.Dict<Alarm>, a: Alarm)
    requires KeysMatchIds(d)
    ensures KeysMatchIds(Dicts.Put(d, a.id, a))
  {
    Dicts.PutEntries(d, a.id, a);
    var p := Dicts.Put(d, a.id, a);
    forall i | 0 <= i < |p|
      ensures p[i].0 == p[i].1.id
    {
      assert p[i] in p;
    }
  }

  /** Removing a key keeps every remaining key equal to its alarm's id. */
  lemma RemoveKeepsKeysMatchIds(d: Dicts.Dict<Alarm>, k: string)
    requires KeysMatchIds(d)
    ensures KeysMatchIds(Dicts.Remove(d, k))
  {
    Dicts.RemoveSub(d, k);
    var r := Dicts.Remove(d, k);
    forall i | 0 <= i < |r|
      ensures r[i].0 == r[i].1.id
    {
      assert r[i] in r;
    }
  }

  /** The alarm stored under key k has id k. */
  lemma StoredUnderOwnId(d: Dicts.Dict<Alarm>, k: string)
    requires KeysMatchIds(d) && Dicts.Get(d, k).Some?
    ensures Dicts.Get(d, k).value.id == k
  {
    Dicts.GetFound(d, k);
  }

  function ClearRinging(d: Dicts.Dict<Alarm>): (r: Dicts.Dict<Alarm>)
    ensures |r| == |d|
  {
    seq(|d|, i requires 0 <= i < |d| => (d[i].0, d[i].1.(ringing := false)))
  }

  /** The alarms file once `rung` is non-empty: each firing rewrote it, the last with `d`. */
  function SavedAfter(files: Storage.Files, rung: seq<string>, d: Dicts.Dict<Alarm>): Storage.Files
  {
    if rung == [] then files else Storage.Written(files, Storage.ALARMS_FILE, Storage.AlarmsDocument(Dump(d)))
  }

  lemma SavedAfterAgain(files: Storage.Files, rung: seq<string>, prev: Dicts.Dict<Alarm>, d: Dicts.Dict<Alarm>, id: string)
    ensures Storage.Written(SavedAfter(files, rung, prev), Storage.ALARMS_FILE, Storage.AlarmsDocument(Dump(d)))
      == SavedAfter(files, rung + [id], d)
  {
    Storage.WrittenTwice(files, Storage.ALARMS_FILE, Storage.AlarmsDocument(Dump(prev)), Storage.AlarmsDocument(Dump(d)));
  }

  /** One more step of the tick: firing entry i extends the ticked prefix by one. */
  lemma TickTableSnoc(d: Dicts.Dict<Alarm>, c: Clock, i: int)
    requires ValidClock(c) && 0 <= i < |d|
    ensures (TickTable(d[..i], c) + d[i..])[i := (d[i].0, Fire(d[i].1, c))] == TickTable(d[..i + 1], c) + d[i + 1..]
  {
  }

  class AlarmManager {
    var alarms: Dicts.Dict<Alarm>
    const store: Storage.FileSystem

    predicate Valid()
      reads this
    {
      Dicts.Distinct(alarms)
    }

    /** `__init__` and `_load`; a load that raises is excluded. */
    constructor(store: Storage.FileSystem, newId: nat -> string)
      requires Storage.LoadAlarms(store.files).Rows?
      ensures this.store == store && Valid()
      ensures alarms == LoadRows(Storage.LoadAlarms(store.files).rows, newId)
      ensures KeysMatchIds(alarms)
    {
      var rows := Storage.LoadAlarms(store.files).rows;
      var acc: Dicts.Dict<Alarm> := [];
      var i := 0;
      while i < |rows|
        invariant 0 <= i <= |rows|
        invariant acc == LoadRows(rows[..i], newId) && Dicts.Distinct(acc)
      {
        assert rows[..i + 1][..i] == rows[..i];
        match DecodeAlarm(rows[i], newId(i)) {
          case Some(a) =>
            Dicts.PutDistinct(acc, a.id, a.(ringing := false));
            acc := Dicts.Put(acc, a.id, a.(ringing := false));
          case None =>
        }
        i := i + 1;
      }
      assert rows[..|rows|] == rows;
      LoadedKeysMatchIds(rows, newId);
      this.store := store;
      alarms := acc;
    }

    method GetAll() returns (r: seq<Alarm>)
      ensures r == Dicts.Values(alarms)
    {
      r := Dicts.Values(alarms);
    }

    method Get(id: string) returns (r: Option<Alarm>)
      ensures r.Some? <==> Dicts.HasKey(alarms, id)
      ensures r.Some? ==> (id, r.value) in alarms
    {
      r := Dicts.Get(alarms, id);
      Dicts.GetFound(alarms, id);
    }

    /** `_persist`. */
    method Persist()
      modifies store
      ensures store.files == Storage.Written(old(store.files), Storage.ALARMS_FILE, Storage.AlarmsDocument(Dump(alarms)))
    {
      store.SaveAlarms(Dump(alarms));
    }

    /** `add`: stores the alarm under its id, replacing any alarm with that id. */
    method Add(a: Alarm) returns (r: Alarm)
      requires Valid()
      modifies this, store
      ensures Valid() && r == a
      ensures alarms == Dicts.Put(old(alarms), a.id, a)
      ensures store.files == Storage.Written(old(store.files), Storage.ALARMS_FILE, Storage.AlarmsDocument(Dump(alarms)))
      ensures KeysMatchIds(old(alarms)) ==> KeysMatchIds(alarms)
    {
      if KeysMatchIds(alarms) {
        PutKeepsKeysMatchIds(alarms, a);
      }
      Dicts.PutDistinct(alarms, a.id, a);
      alarms := Dicts.Put(alarms, a.id, a);
      Persist();
      r := a;
    }

    /**
     * `update(id, **kwargs)`: None for an unknown id, with nothing changed;
     * otherwise the keyword loop runs on the stored alarm and the table is saved.
     */
    method Update(id: string, kws: seq<Kwarg>) returns (r: Option<Alarm>)
      requires Valid()
      modifies this, store
      ensures Valid()
      ensures Dicts.Get(old(alarms), id).None? ==>
        r == None && alarms == old(alarms) && store.files == old(store.files)
      ensures Dicts.Get(old(alarms), id).Some? ==>
        && r == Some(ApplyAlarmKwargs(Dicts.Get(old(alarms), id).value, kws))
        && alarms == Dicts.Put(old(alarms), id, r.value)
        && store.files == Storage.Written(old(store.files), Storage.ALARMS_FILE, Storage.AlarmsDocument(Dump(alarms)))
      ensures forall j :: j != id ==> Dicts.Get(alarms, j) == Dicts.Get(old(alarms), j)
      ensures KeysMatchIds(old(alarms)) && (forall i :: 0 <= i < |kws| ==> kws[i].name != Id) ==> KeysMatchIds(alarms)
    {
      var found := Dicts.Get(alarms, id);
      Dicts.GetFound(alarms, id);
      if found.None? {
        return None;
      }
      var a := found.value;
      var i := 0;
      while i < |kws|
        invariant 0 <= i <= |kws|
        invariant a == ApplyAlarmKwargs(found.value, kws[..i])
      {
        assert kws[..i + 1][..i] == kws[..i];
        a := SetAlarmAttr(a, kws[i]);
        i := i + 1;
      }
      assert kws[..|kws|] == kws;
      forall j | j != id
        ensures Dicts.Get(Dicts.Put(alarms, id, a), j) == Dicts.Get(alarms, j)
      {
        Dicts.PutGet(alarms, id, a, j);
      }
      if KeysMatchIds(alarms) && forall i :: 0 <= i < |kws| ==> kws[i].name != Id {
        StoredUnderOwnId(alarms, id);
        AlarmKwargsKeepId(found.value, kws);
        PutKeepsKeysMatchIds(alarms, a);
      }
      Dicts.PutDistinct(alarms, id, a);
      alarms := Dicts.Put(alarms, id, a);
      Persist();
      r := Some(a);
    }

    /** `delete`: False for an unknown id, with nothing changed; otherwise the entry goes. */
    method Delete(id: string) returns (ok: bool)
      requires Valid()
      modifies this, store
      ensures Valid()
      ensures ok == Dicts.HasKey(old(alarms), id)
      ensures !ok ==> alarms == old(alarms) && store.files == old(store.files)
      ensures ok ==> (alarms == Dicts.Remove(old(alarms), id)
        && store.files == Storage.Written(old(store.files), Storage.ALARMS_FILE, Storage.AlarmsDocument(Dump(alarms))))
      ensures KeysMatchIds(old(alarms)) ==> KeysMatchIds(alarms)
    {
      if !Dicts.HasKey(alarms, id) {
        return false;
      }
      if KeysMatchIds(alarms) {
        RemoveKeepsKeysMatchIds(alarms, id);
      }
      Dicts.RemoveDistinct(alarms, id);
      alarms := Dicts.Remove(alarms, id);
      Persist();
      ok := true;
    }

    /** `dismiss`: `update(id, ringing=False)`. */
    method Dismiss(id: string) returns (r: Option<Alarm>)
      requires Valid()
      modifies this, store
      ensures Valid()
      ensures Dicts.Get(old(alarms), id).None? ==>
        r == None && alarms == old(alarms) && store.files == old(store.files)
      ensures Dicts.Get(old(alarms), id).Some? ==>
        && r == Some(Dicts.Get(old(alarms), id).value.(ringing := false))
        && alarms == Dicts.Put(old(alarms), id, r.value)
        && store.files == Storage.Written(old(store.files), Storage.ALARMS_FILE, Storage.AlarmsDocument(Dump(alarms)))
      ensures KeysMatchIds(old(alarms)) ==> KeysMatchIds(alarms)
    {
      r := Update(id, DISMISS_KWARGS);
      if Dicts.Get(old(alarms), id).Some? {
        DismissKwargsIdempotent(Dicts.Get(old(alarms), id).value);
      }
    }

    /**
     * One pass of `_tick_loop` at clock `c`: every due alarm is set ringing,
     * its id is handed to `on_ring`, and the table is saved after each firing.
     */
    method Tick(c: Clock) returns (rung: seq<string>)
      requires Valid() && ValidClock(c)
      modifies this, store
      ensures Valid()
      ensures alarms == TickTable(old(alarms), c) && rung == RungIds(old(alarms), c)
      ensures store.files == SavedAfter(old(store.files), rung, alarms)
      ensures KeysMatchIds(old(alarms)) ==> KeysMatchIds(alarms)
    {
      rung := [];
      if c.second != 0 {
        TickOffSecond(alarms, c);
        return;
      }
      ghost var start := alarms;
      ghost var files0 := store.files;
      var i := 0;
      while i < |alarms|
        invariant 0 <= i <= |alarms| == |start|
        invariant alarms == TickTable(start[..i], c) + start[i..]
        invariant rung == RungIds(start[..i], c)
        invariant store.files == SavedAfter(files0, rung, alarms)
      {
        assert start[..i + 1][..i] == start[..i];
        TickTableSnoc(start, c, i);
        var a := alarms[i].1;
        assert a == start[i].1;
        if Due(a, c) {
          ghost var prev := alarms;
          alarms := alarms[i := (alarms[i].0, Fire(a, c))];
          Persist();
          SavedAfterAgain(files0, rung, prev, alarms, a.id);
          rung := rung + [a.id];
        }
        i := i + 1;
      }
      assert start[..|start|] == start;
      assert alarms == TickTable(start, c);
      assert KeysMatchIds(start) ==> KeysMatchIds(alarms) by {
        if KeysMatchIds(start) {
          TickKeepsKeysMatchIds(start, c);
        }
      }
    }
  }

  // ── Properties of the tick ───────────────────────────────────────────────

  /** At any second other than 0 a tick changes nothing and rings nothing. */
  lemma {:induction false} TickOffSecond(d: Dicts.Dict<Alarm>, c: Clock)
    requires ValidClock(c) && c.second != 0
    ensures TickTable(d, c) == d && RungIds(d, c) == []
  {
    if d != [] {
      TickOffSecond(d[..|d| - 1], c);
    }
  }

  /** The ids rung are exactly the ids of the due alarms. */
  lemma {:induction false} RungIdsAreDue(d: Dicts.Dict<Alarm>, c: Clock, x: string)
    requires ValidClock(c)
    ensures x in RungIds(d, c) <==> exists i :: 0 <= i < |d| && Due(d[i].1, c) && d[i].1.id == x
  {
    if d != [] {
      var init := d[..|d| - 1];
      RungIdsAreDue(init, c, x);
      if x in RungIds(d, c) && x !in RungIds(init, c) {
        assert Due(d[|d| - 1].1, c) && d[|d| - 1].1.id == x;
      }
      if exists i :: 0 <= i < |d| && Due(d[i].1, c) && d[i].1.id == x {
        var i :| 0 <= i < |d| && Due(d[i].1, c) && d[i].1.id == x;
        if i < |d| - 1 {
          assert init[i] == d[i];
        }
      }
    }
  }

  /** A tick only ever sets `ringing`, and sets it exactly on the due alarms. */
  lemma TickOnlyRings(d: Dicts.Dict<Alarm>, c: Clock, i: int)
    requires ValidClock(c) && 0 <= i < |d|
    ensures TickTable(d, c)[i].0 == d[i].0
    ensures TickTable(d, c)[i].1 == d[i].1.(ringing := d[i].1.ringing || Due(d[i].1, c))
  {
  }

  /** A ringing alarm cannot fire again: a second tick at the same clock rings nothing. */
  lemma {:induction false} NoSecondFire(d: Dicts.Dict<Alarm>, c: Clock)
    requires ValidClock(c)
    ensures RungIds(TickTable(d, c), c) == []
    ensures TickTable(TickTable(d, c), c) == TickTable(d, c)
  {
    if d != [] {
      var init := d[..|d| - 1];
      NoSecondFire(init, c);
      assert TickTable(d, c)[..|d| - 1] == TickTable(init, c);
    }
  }

  /** A due alarm's time reads back as the hour and minute of the clock. */
  lemma DueMeansSameMinute(a: Alarm, c: Clock)
    requires ValidClock(c) && Due(a, c)
    ensures ParseClockText(a.time) == Some((c.hour, c.minute))
  {
    ClockTextRoundTrip(c);
  }

  /**
   * Dismissing does not deactivate a once-only alarm: after it rang and was
   * dismissed, it is due again at the same time on any later day.
   */
  lemma OnceAlarmRingsAgain(a: Alarm, c: Clock, later: Clock)
    requires ValidClock(c) && ValidClock(later) && Due(a, c) && a.repeat == []
    requires later.hour == c.hour && later.minute == c.minute && later.second == 0
    ensures Due(ApplyAlarmKwargs(Fire(a, c), DISMISS_KWARGS), later)
  {
    DismissKwargsIdempotent(Fire(a, c));
    ClockTextInjective(c, later);
  }

  /** An alarm set for 07:00 with no repeat rings at 07:00:00 on a Monday; one for weekends does not. */
  lemma MondaySevenOClock()
    ensures ClockText(Clock(7, 0, 0, 0)) == "07:00"
    ensures Due(Alarm("A1", "07:00", "", DEFAULT_SOUND, [], true, false), Clock(7, 0, 0, 0))
    ensures !Due(Alarm("A2", "07:00", "", DEFAULT_SOUND, ["Sat", "Sun"], true, false), Clock(7, 0, 0, 0))
    ensures !Due(Alarm("A1", "07:00", "", DEFAULT_SOUND, [], true, false), Clock(7, 0, 1, 0))
  {
    var c := Clock(7, 0, 0, 0);
    assert ClockText(c) == "07:00";
    assert WEEKDAY_NAMES[0] == "Mon";
    assert "Mon" != "Sat" && "Mon" != "Sun";
  }

  // ── Properties of loading ────────────────────────────────────────────────

  /** After a load no alarm is ringing and no id occurs twice. */
  lemma {:induction false} LoadedNotRinging(rows: seq<Json.Value>, newId: nat -> string)
    ensures Dicts.Distinct(LoadRows(rows, newId))
    ensures forall i :: 0 <= i < |LoadRows(rows, newId)| ==> !LoadRows(rows, newId)[i].1.ringing
  {
    if rows != [] {
      var init := rows[..|rows| - 1];
      LoadedNotRinging(init, newId);
      var acc := LoadRows(init, newId);
      match DecodeAlarm(rows[|rows| - 1], newId(|rows| - 1)) {
        case Some(a) =>
          var v := a.(ringing := false);
          Dicts.PutDistinct(acc, a.id, v);
          Dicts.PutEntries(acc, a.id, v);
          var p := Dicts.Put(acc, a.id, v);
          forall i | 0 <= i < |p|
            ensures !p[i].1.ringing
          {
            assert p[i] in p;
          }
        case None =>
      }
    }
  }

  /** After a load every alarm is stored under its own id. */
  lemma {:induction false} LoadedKeysMatchIds(rows: seq<Json.Value>, newId: nat -> string)
    ensures KeysMatchIds(LoadRows(rows, newId))
  {
    if rows != [] {
      var init := rows[..|rows| - 1];
      LoadedKeysMatchIds(init, newId);
      match DecodeAlarm(rows[|rows| - 1], newId(|rows| - 1)) {
        case Some(a) => PutKeepsKeysMatchIds(LoadRows(init, newId), a.(ringing := false));
        case None =>
      }
    }
  }

  /** What `_persist` writes, `_load` reads back as the same table with no alarm ringing. */
  lemma {:induction false} PersistReload(d: Dicts.Dict<Alarm>, newId: nat -> string)
    requires Dicts.Distinct(d) && KeysMatchIds(d)
    ensures LoadRows(Dump(d), newId) == ClearRinging(d)
  {
    if d != [] {
      var n := |d| - 1;
      var init := d[..n];
      assert Dump(d)[..n] == Dump(init);
      PersistReload(init, newId);
      var a := d[n].1;
      AlarmJsonRoundTrip(a, newId(n));
      assert !Dicts.HasKey(ClearRinging(init), a.id) by {
        forall i | 0 <= i < n
          ensures ClearRinging(init)[i].0 != a.id
        {
          assert d[i].0 != d[n].0;
        }
      }
      Dicts.PutShape(ClearRinging(init), a.id, a.(ringing := false));
      assert ClearRinging(d) == ClearRinging(init) + [(a.id, a.(ringing := false))];
    }
  }

  /** Saving the table and building a new manager from the disk gives the table back, not ringing. */
  lemma RestartKeepsAlarms(files: Storage.Files, d: Dicts.Dict<Alarm>, newId: nat -> string)
    requires Dicts.Distinct(d) && KeysMatchIds(d)
    ensures var after := Storage.Written(files, Storage.ALARMS_FILE, Storage.AlarmsDocument(Dump(d)));
      Storage.LoadAlarms(after) == Storage.Rows(Dump(d))
      && LoadRows(Storage.LoadAlarms(after).rows, newId) == ClearRinging(d)
  {
    Storage.SaveLoadAlarms(files, Dump(d));
    PersistReload(d, newId);
  }
}
