/**
 * The console reminder table (`main.c`): a fixed array of 100 reminders
 * and a count of the filled slots. Console input is passed in as
 * parameters and console output is returned as values.
 */
module CReminders {
  const MAX_REMINDERS := 100
  const MAX_MESSAGE_LENGTH := 256

  /** One slot of `reminders`; a slot never written stays zero-filled. */
  datatype Reminder = Reminder(id: int, hour: int, minute: int, message: string, isActive: int)

  const EMPTY_SLOT := Reminder(0, 0, 0, "", 0)

  /** The outcome of `set_alarm`: the message it prints. */
  datatype SetOutcome = Full | BadHour | BadMinute | Stored(id: int)

  /** The outcome of `display_reminders`: the three messages, with the rows printed. */
  datatype Listing = NoReminders | NoActive | Listed(rows: seq<Reminder>, total: int)

  /** The text before the first newline, or all of it: `s[strcspn(s, "\n")] = 0`. */
  function CutAtNewline(s: string): (r: string)
    ensures |r| <= |s| && r == s[..|r|]
    ensures '\n' !in r
    ensures |r| < |s| ==> s[|r|] == '\n'
  {
    if s == [] || s[0] == '\n' then ""
    else [s[0]] + CutAtNewline(s[1..])
  }

  /**
   * The message read from the input left after the minute: `getchar()`
   * drops one character, `fgets` keeps at most 255, and the first newline
   * ends the message.
   */
  function ReadMessage(rest: string): (m: string)
    ensures |m| < MAX_MESSAGE_LENGTH && '\n' !in m
    ensures rest != [] ==> |m| < |rest| && m == rest[1..|m| + 1]
  {
    var line := if rest == [] then "" else rest[1..];
    var buffer := if |line| < MAX_MESSAGE_LENGTH then line else line[..MAX_MESSAGE_LENGTH - 1];
    CutAtNewline(buffer)
  }

  /** A line without a newline is kept whole up to 255 characters and cut there beyond. */
  lemma ReadMessageWithoutNewline(rest: string)
    requires rest != [] && '\n' !in rest[1..]
    ensures |rest| <= MAX_MESSAGE_LENGTH ==> ReadMessage(rest) == rest[1..]
    ensures |rest| > MAX_MESSAGE_LENGTH ==> ReadMessage(rest) == rest[1..MAX_MESSAGE_LENGTH]
  {
    var line := rest[1..];
    var buffer := if |line| < MAX_MESSAGE_LENGTH then line else line[..MAX_MESSAGE_LENGTH - 1];
    assert '\n' !in buffer by {
      forall j | 0 <= j < |buffer| ensures buffer[j] != '\n' { assert buffer[j] == line[j]; }
    }
    NoNewlineKept(buffer);
  }

  /** A newline within the first 255 characters after the dropped one ends the message there. */
  lemma ReadMessageStopsAtNewline(rest: string, k: int)
    requires 0 <= k < |rest| - 1 && k < MAX_MESSAGE_LENGTH - 1
    requires rest[k + 1] == '\n' && forall j :: 1 <= j <= k ==> rest[j] != '\n'
    ensures ReadMessage(rest) == rest[1..k + 1]
  {
    var line := rest[1..];
    var buffer := if |line| < MAX_MESSAGE_LENGTH then line else line[..MAX_MESSAGE_LENGTH - 1];
    assert buffer[k] == '\n' && forall j :: 0 <= j < k ==> buffer[j] == rest[j + 1];
    CutAtFirstNewline(buffer, k);
  }

  lemma {:induction false} CutAtFirstNewline(s: string, k: int)
    requires 0 <= k < |s| && s[k] == '\n' && forall j :: 0 <= j < k ==> s[j] != '\n'
    ensures CutAtNewline(s) == s[..k]
  {
    if k > 0 {
      CutAtFirstNewline(s[1..], k - 1);
      assert s[..k] == [s[0]] + s[1..][..k - 1];
    }
  }

  lemma {:induction false} NoNewlineKept(s: string)
    requires '\n' !in s
    ensures CutAtNewline(s) == s
  {
    if s != [] {
      assert '\n' !in s[1..] by {
        forall j | 0 <= j < |s| - 1 ensures s[1..][j] != '\n' { assert s[1..][j] == s[j + 1]; }
      }
      NoNewlineKept(s[1..]);
    }
  }

  /** Slot `i` of a filled table: its id is its position plus one, it is active, and its time is valid. */
  predicate WellFormed(r: Reminder, i: int)
  {
    r.id == i + 1 && r.isActive == 1 && 0 <= r.hour <= 23 && 0 <= r.minute <= 59
      && |r.message| < MAX_MESSAGE_LENGTH && '\n' !in r.message
  }

  /** The active slots of `s`, in order: the rows `display_reminders` prints. */
  function ActiveRows(s: seq<Reminder>): seq<Reminder>
  {
    if s == [] then []
    else ActiveRows(s[..|s| - 1]) + (if s[|s| - 1].isActive != 0 then [s[|s| - 1]] else [])
  }

  /** Every printed row is an active slot, and a seq of active slots is printed whole. */
  lemma {:induction false} ActiveRowsFacts(s: seq<Reminder>)
    ensures forall r :: r in ActiveRows(s) ==> r in s && r.isActive != 0
    ensures (forall i :: 0 <= i < |s| ==> s[i].isActive != 0) ==> ActiveRows(s) == s
  {
    if s != [] {
      ActiveRowsFacts(s[..|s| - 1]);
      assert s == s[..|s| - 1] + [s[|s| - 1]];
    }
  }

  class ReminderTable {
    const reminders: array<Reminder>
    var count: int

    /** `reminders` has 100 slots; the first `count` are filled in order. */
    predicate Valid()
      reads this, reminders
    {
      && reminders.Length == MAX_REMINDERS
      && 0 <= count <= MAX_REMINDERS
      && forall i :: 0 <= i < count ==> WellFormed(reminders[i], i)
    }

    /** The zero-filled global array and `reminder_count = 0`. */
    constructor()
      ensures Valid() && count == 0 && fresh(reminders)
      ensures forall i :: 0 <= i < reminders.Length ==> reminders[i] == EMPTY_SLOT
    {
      reminders := new Reminder[MAX_REMINDERS](_ => EMPTY_SLOT);
      count := 0;
    }

    /**
     * `set_alarm` with the hour, the minute and the rest of the input line
     * as parameters. A full table, a bad hour or a bad minute changes
     * nothing; otherwise the new reminder fills slot `count`.
     */
    method SetAlarm(hour: int, minute: int, rest: string) returns (r: SetOutcome)
      requires Valid()
      modifies this, reminders
      ensures Valid()
      ensures old(count) >= MAX_REMINDERS ==> r == Full
      ensures old(count) < MAX_REMINDERS && !(0 <= hour <= 23) ==> r == BadHour
      ensures old(count) < MAX_REMINDERS && 0 <= hour <= 23 && !(0 <= minute <= 59) ==> r == BadMinute
      ensures !r.Stored? ==> count == old(count) && reminders[..] == old(reminders[..])
      ensures r.Stored? <==> old(count) < MAX_REMINDERS && 0 <= hour <= 23 && 0 <= minute <= 59
      ensures r.Stored? ==>
        && r.id == old(count) + 1 && count == old(count) + 1
        && reminders[..] == old(reminders[..])[old(count) := Reminder(r.id, hour, minute, ReadMessage(rest), 1)]
    {
      if count >= MAX_REMINDERS {
        return Full;
      }
      if hour < 0 || hour > 23 {
        return BadHour;
      }
      if minute < 0 || minute > 59 {
        return BadMinute;
      }
      var entry := Reminder(count + 1, hour, minute, ReadMessage(rest), 1);
      reminders[count] := entry;
      count := count + 1;
      r := Stored(entry.id);
    }

    /**
     * `display_reminders`: "No reminders set." for an empty table; otherwise
     * the active slots among the first `count` are printed and counted.
     */
    method DisplayReminders() returns (r: Listing)
      requires reminders.Length == MAX_REMINDERS && 0 <= count <= MAX_REMINDERS
      ensures count == 0 ==> r == NoReminders
      ensures count > 0 && ActiveRows(reminders[..count]) == [] ==> r == NoActive
      ensures count > 0 && ActiveRows(reminders[..count]) != [] ==>
        r == Listed(ActiveRows(reminders[..count]), |ActiveRows(reminders[..count])|)
    {
      if count == 0 {
        return NoReminders;
      }
      var rows: seq<Reminder> := [];
      var activeCount := 0;
      for i := 0 to count
        invariant rows == ActiveRows(reminders[..i]) && activeCount == |rows|
      {
        assert reminders[..i + 1][..i] == reminders[..i];
        if reminders[i].isActive != 0 {
          rows := rows + [reminders[i]];
          activeCount := activeCount + 1;
        }
      }
      assert reminders[..count] == reminders[..count][..count];
      if activeCount == 0 {
        r := NoActive;
      } else {
        r := Listed(rows, activeCount);
      }
    }

    /** `delete_reminder`: an empty body. */
    method DeleteReminder()
      ensures count == old(count) && reminders[..] == old(reminders[..])
    {
    }

    /** `snooze_alarm`: an empty body. */
    method SnoozeAlarm()
      ensures count == old(count) && reminders[..] == old(reminders[..])
    {
    }
  }

  /**
   * Every filled slot is active and nothing clears the flag, so on a valid
   * table with reminders the listing shows all of them, in slot order: the
   * "No active reminders." branch cannot be reached.
   */
  lemma ListingShowsAll(s: seq<Reminder>)
    requires forall i :: 0 <= i < |s| ==> WellFormed(s[i], i)
    ensures ActiveRows(s) == s
    ensures forall i :: 0 <= i < |s| ==> s[i].id == i + 1
  {
    ActiveRowsFacts(s);
  }
}
