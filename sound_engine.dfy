/**
 * The sound registry of `sound_engine.py`: the synthesized profiles, the
 * custom-sound dictionary, the names derived from built-in audio files, the
 * combined sound list and the order in which `play_sound_once` tries its
 * playback strategies. Directory listings, file existence and which playback
 * attempts raise are parameters.
 */
module Sounds {
  import opened Wrappers
  import Dicts

  // ── Synthesized profiles ─────────────────────────────────────────────────

  datatype Waveform = Square | Sine | Sawtooth | Triangle

  datatype Pitch = Steady(hz: int) | Sweep(fromHz: int, toHz: int)

  /** A synthesized sound; the burst length and the pause after it are in milliseconds. */
  datatype Profile = Profile(waveform: Waveform, pitch: Pitch, durationMs: int, pauseMs: int, description: string)

  const DEFAULT_PROFILE := "Classic Beep"

  /**
   * `SOUND_PROFILES`, in its declaration order. The siren's sweep is the
   * declared `freq_start`/`freq_end`; synthesis reads `freq`, which the siren
   * lacks, so the sweep it plays starts at the 440 Hz default, not at 400.
   */
  const PROFILES: Dicts.Dict<Profile> := [
    ("Classic Beep", Profile(Square, Steady(880), 250, 100, "Sharp digital beep")),
    ("Gentle Bell", Profile(Sine, Steady(523), 600, 400, "Soft sine bell")),
    ("Alarm Siren", Profile(Sawtooth, Sweep(400, 800), 400, 50, "Rising siren waveform")),
    ("Digital Pulse", Profile(Square, Steady(1200), 80, 50, "Fast digital pulse")),
    ("Deep Horn", Profile(Triangle, Steady(220), 800, 200, "Low triangle wave horn"))]

  /** `name in SOUND_PROFILES`. */
  predicate IsProfileName(name: string)
  {
    Dicts.HasKey(PROFILES, name)
  }

  /** `SOUND_PROFILES.get(name, SOUND_PROFILES["Classic Beep"])`. */
  function ProfileFor(name: string): Profile
  {
    match Dicts.Get(PROFILES, name)
    case Some(p) => p
    case None => PROFILES[0].1
  }

  /** The pause `AlarmPlayer._loop` waits between bursts of `name`. */
  function PlayerPause(name: string): int
  {
    ProfileFor(name).pauseMs
  }

  /** A profile name selects its own profile; any other name selects "Classic Beep". */
  lemma ProfileForSelects(name: string)
    ensures IsProfileName(name) ==> (name, ProfileFor(name)) in PROFILES
    ensures !IsProfileName(name) ==> ProfileFor(name) == ProfileFor(DEFAULT_PROFILE)
    ensures PlayerPause(DEFAULT_PROFILE) == 100
  {
    Dicts.GetFound(PROFILES, name);
    Dicts.GetFirst(PROFILES, 0, DEFAULT_PROFILE);
  }

  lemma ProfilesDistinct()
    ensures Dicts.Distinct(PROFILES)
    ensures Dicts.Keys(PROFILES) == ["Classic Beep", "Gentle Bell", "Alarm Siren", "Digital Pulse", "Deep Horn"]
  {
  }

  // ── The custom-sound dictionary ──────────────────────────────────────────

  const DEFAULT_CUSTOM_DESCRIPTION := "Custom sound"

  /** `{"filename": ..., "description": ...}`. */
  datatype CustomEntry = CustomEntry(filename: string, description: string)

  /** The contents of `custom_sounds.json`, which each operation loads, changes and saves. */
  class CustomSounds {
    var db: Dicts.Dict<CustomEntry>

    predicate Valid()
      reads this
    {
      Dicts.Distinct(db)
    }

    constructor(initial: Dicts.Dict<CustomEntry>)
      requires Dicts.Distinct(initial)
      ensures db == initial && Valid()
    {
      db := initial;
    }

    /** `add_custom_sound`: sets or replaces the entry for `name` and returns it. */
    method Add(name: string, filename: string, description: string) returns (entry: CustomEntry)
      requires Valid()
      modifies this
      ensures Valid()
      ensures entry == CustomEntry(filename, description)
      ensures db == Dicts.Put(old(db), name, entry)
      ensures Dicts.Get(db, name) == Some(entry)
      ensures forall k :: k != name ==> Dicts.Get(db, k) == Dicts.Get(old(db), k)
    {
      entry := CustomEntry(filename, description);
      forall k | k != name
        ensures Dicts.Get(Dicts.Put(db, name, entry), k) == Dicts.Get(db, k)
      {
        Dicts.PutGet(db, name, entry, k);
      }
      Dicts.PutGet(db, name, entry, name);
      Dicts.PutDistinct(db, name, entry);
      db := Dicts.Put(db, name, entry);
    }

    /** The dictionary part of `delete_custom_sound`: False and no change for an unknown name. */
    method Delete(name: string) returns (found: bool)
      requires Valid()
      modifies this
      ensures Valid()
      ensures found == Dicts.HasKey(old(db), name)
      ensures !found ==> db == old(db)
      ensures found ==> db == Dicts.Remove(old(db), name) && |db| == |old(db)| - 1
      ensures !Dicts.HasKey(db, name)
      ensures forall k :: k != name ==> Dicts.Get(db, k) == Dicts.Get(old(db), k)
    {
      forall k
        ensures Dicts.Get(Dicts.Remove(db, k), name) == (if name == k then None else Dicts.Get(db, name))
      {
        Dicts.RemoveGet(db, k, name);
      }
      forall k | k != name
        ensures Dicts.Get(Dicts.Remove(db, name), k) == Dicts.Get(db, k)
      {
        Dicts.RemoveGet(db, name, k);
      }
      Dicts.RemoveGet(db, name, name);
      if !Dicts.HasKey(db, name) {
        return false;
      }
      Dicts.RemoveDistinct(db, name);
      db := Dicts.Remove(db, name);
      found := true;
    }
  }

  // ── Names of built-in audio files ────────────────────────────────────────

  const AUDIO_EXTS: set<string> := {".wav", ".mp3", ".ogg", ".m4a", ".aac", ".flac"}

  /** `s.rfind(c)`: the last index of `c`, or -1. */
  function LastIndexOf(s: string, c: char): (r: int)
    ensures -1 <= r < |s|
    ensures r >= 0 ==> s[r] == c
    ensures forall j :: r < j < |s| ==> s[j] != c
  {
    if s == [] then -1
    else if s[|s| - 1] == c then |s| - 1
    else LastIndexOf(s[..|s| - 1], c)
  }

  /** `PurePath.suffix` of a file name: from the last dot on, unless that dot is the first or the last character. */
  function Suffix(name: string): string
  {
    var i := LastIndexOf(name, '.');
    if 0 < i < |name| - 1 then name[i..] else ""
  }

  /** `PurePath.stem`: the name without its suffix. */
  function Stem(name: string): string
  {
    var i := LastIndexOf(name, '.');
    if 0 < i < |name| - 1 then name[..i] else name
  }

  /** A name splits into its stem and its suffix; a suffix is a dot and at least one further character, none a dot. */
  lemma StemAndSuffix(name: string)
    ensures Stem(name) + Suffix(name) == name
    ensures Suffix(name) == "" || (|Suffix(name)| >= 2 && Suffix(name)[0] == '.' && '.' !in Suffix(name)[1..])
    ensures name != "" ==> Stem(name) != ""
  {
    var i := LastIndexOf(name, '.');
    if 0 < i < |name| - 1 {
      assert name[..i] + name[i..] == name;
      assert forall j :: 0 <= j < |name[i..]| - 1 ==> name[i..][1..][j] == name[i + 1 + j];
    }
  }

  predicate IsUpper(c: char) { 'A' <= c <= 'Z' }

  predicate IsLower(c: char) { 'a' <= c <= 'z' }

  /** A cased character, restricted to ASCII letters. */
  predicate IsLetter(c: char) { IsUpper(c) || IsLower(c) }

  function LowerChar(c: char): char
  {
    if IsUpper(c) then (c as int + 32) as char else c
  }

  function UpperChar(c: char): char
  {
    if IsLower(c) then (c as int - 32) as char else c
  }

  /** `str.lower()` on ASCII letters. */
  function Lower(s: string): (r: string)
    ensures |r| == |s| && forall i :: 0 <= i < |s| ==> r[i] == LowerChar(s[i])
  {
    seq(|s|, i requires 0 <= i < |s| => LowerChar(s[i]))
  }

  /** `str.replace(a, b)` for single characters. */
  function ReplaceChar(s: string, a: char, b: char): (r: string)
    ensures |r| == |s| && forall i :: 0 <= i < |s| ==> r[i] == if s[i] == a then b else s[i]
  {
    seq(|s|, i requires 0 <= i < |s| => if s[i] == a then b else s[i])
  }

  /**
   * `str.title()` on ASCII: a letter after a letter is lowered, any other
   * letter is raised; other characters stay and end a word.
   */
  function TitleFrom(s: string, afterLetter: bool): (r: string)
    ensures |r| == |s|
  {
    if s == [] then []
    else [if afterLetter then LowerChar(s[0]) else UpperChar(s[0])] + TitleFrom(s[1..], IsLetter(s[0]))
  }

  function Title(s: string): string
  {
    TitleFrom(s, false)
  }

  /** Whether the character before position i of `s` is a letter; before the start, `afterLetter`. */
  predicate LetterBefore(s: string, i: int, afterLetter: bool)
    requires 0 <= i < |s|
  {
    if i == 0 then afterLetter else IsLetter(s[i - 1])
  }

  /** Each character of a title depends only on itself and on whether a letter precedes it. */
  lemma {:induction false} TitleAt(s: string, afterLetter: bool)
    ensures forall i :: 0 <= i < |s| ==>
      TitleFrom(s, afterLetter)[i] == if LetterBefore(s, i, afterLetter) then LowerChar(s[i]) else UpperChar(s[i])
  {
    if s != [] {
      TitleAt(s[1..], IsLetter(s[0]));
      var r := TitleFrom(s, afterLetter);
      forall i | 1 <= i < |s|
        ensures r[i] == if LetterBefore(s, i, afterLetter) then LowerChar(s[i]) else UpperChar(s[i])
      {
        assert r[i] == TitleFrom(s[1..], IsLetter(s[0]))[i - 1];
        assert s[1..][i - 1] == s[i];
        assert LetterBefore(s[1..], i - 1, IsLetter(s[0])) == LetterBefore(s, i, afterLetter);
      }
    }
  }

  /** Every word of a title starts upper-case and goes on lower-case, and nothing but a letter changes. */
  lemma TitleCases(s: string, i: int)
    requires 0 <= i < |s|
    ensures var r := Title(s);
      && (IsLetter(s[i]) <==> IsLetter(r[i]))
      && (!IsLetter(s[i]) ==> r[i] == s[i])
      && (IsLetter(s[i]) && i > 0 && IsLetter(s[i - 1]) ==> IsLower(r[i]))
      && (IsLetter(s[i]) && (i == 0 || !IsLetter(s[i - 1])) ==> IsUpper(r[i]))
  {
    TitleAt(s, false);
  }

  /** `f.suffix.lower() in AUDIO_EXTS`. */
  predicate IsAudio(file: string)
  {
    Lower(Suffix(file)) in AUDIO_EXTS
  }

  /** `f.stem.replace("_", " ").title()`. */
  function DisplayName(file: string): string
  {
    Title(ReplaceChar(Stem(file), '_', ' '))
  }

  /** A display name holds no underscore: each one became a space, which `title` keeps. */
  lemma DisplayNameHasNoUnderscore(file: string)
    ensures '_' !in DisplayName(file)
  {
    var spaced := ReplaceChar(Stem(file), '_', ' ');
    forall i | 0 <= i < |spaced|
      ensures DisplayName(file)[i] != '_'
    {
      TitleCases(spaced, i);
    }
  }

  /** "wake_up.WAV" is an audio file; a name that starts with its only dot has no suffix. */
  lemma SuffixExamples()
    ensures Suffix("wake_up.WAV") == ".WAV" && IsAudio("wake_up.WAV")
    ensures Stem("wake_up.WAV") == "wake_up"
    ensures Suffix(".wav") == "" && !IsAudio(".wav")
  {
    var file := "wake_up.WAV";
    assert file[7] == '.' && forall j :: 7 < j < |file| ==> file[j] != '.';
    assert LastIndexOf(file, '.') == 7;
    assert Lower(".WAV") == ".wav";
    assert ".wav"[0] == '.' && forall j :: 0 < j < 4 ==> ".wav"[j] != '.';
    assert LastIndexOf(".wav", '.') == 0;
  }

  /** Underscores become spaces: "wake_up" reads "wake up". */
  lemma SpacedExample()
    ensures ReplaceChar("wake_up", '_', ' ') == "wake up"
  {
    var r := ReplaceChar("wake_up", '_', ' ');
    assert r[4] == ' ' && forall i :: 0 <= i < 7 && i != 4 ==> r[i] == "wake_up"[i];
  }

  /** `title` raises the first letter of each word: "wake up" reads "Wake Up". */
  lemma TitleExample()
    ensures Title("wake up") == "Wake Up"
  {
    TitleAt("wake up", false);
  }

  /** "wake_up.WAV" is listed as "Wake Up". */
  lemma DisplayNameExample()
    ensures DisplayName("wake_up.WAV") == "Wake Up"
  {
    SuffixExamples();
    SpacedExample();
    TitleExample();
  }

  /** The audio files of a listing, each stored under its display name; a later file replaces an earlier one of the same name. */
  function ScanFold(entries: seq<string>): Dicts.Dict<string>
  {
    if entries == [] then []
    else
      var acc := ScanFold(entries[..|entries| - 1]);
      var f := entries[|entries| - 1];
      if IsAudio(f) then Dicts.Put(acc, DisplayName(f), f) else acc
  }

  /** `_scan_builtin_audio_files` over a listing of the directory; None when the directory does not exist. */
  function BuiltinFiles(listing: Option<seq<string>>): Dicts.Dict<string>
  {
    match listing
    case None => []
    case Some(entries) => ScanFold(entries)
  }

  method ScanBuiltin(listing: Option<seq<string>>) returns (files: Dicts.Dict<string>)
    ensures files == BuiltinFiles(listing)
    ensures Dicts.Distinct(files)
  {
    files := [];
    if listing.None? {
      return;
    }
    var entries := listing.value;
    var i := 0;
    while i < |entries|
      invariant 0 <= i <= |entries|
      invariant files == ScanFold(entries[..i]) && Dicts.Distinct(files)
    {
      assert entries[..i + 1][..i] == entries[..i];
      var f := entries[i];
      if IsAudio(f) {
        Dicts.PutDistinct(files, DisplayName(f), f);
        files := Dicts.Put(files, DisplayName(f), f);
      }
      i := i + 1;
    }
    assert entries[..|entries|] == entries;
  }

  /** `f` is an audio file listed under `name`. */
  predicate Provides(f: string, name: string)
  {
    IsAudio(f) && DisplayName(f) == name
  }

  /** One step of the scan: the last file, when it is audio, decides its own name. */
  lemma ScanStep(entries: seq<string>, name: string)
    requires entries != []
    ensures Dicts.Get(ScanFold(entries), name) ==
      if Provides(entries[|entries| - 1], name) then Some(entries[|entries| - 1])
      else Dicts.Get(ScanFold(entries[..|entries| - 1]), name)
  {
    var f := entries[|entries| - 1];
    if IsAudio(f) {
      Dicts.PutGet(ScanFold(entries[..|entries| - 1]), DisplayName(f), f, name);
    }
  }

  /** An audio file of the listing with display name `name` puts that name in the scan. */
  lemma {:induction false} ScanWitness(entries: seq<string>, name: string, i: int)
    requires 0 <= i < |entries| && Provides(entries[i], name)
    ensures Dicts.Get(ScanFold(entries), name).Some?
  {
    ScanStep(entries, name);
    if i < |entries| - 1 && !Provides(entries[|entries| - 1], name) {
      var init := entries[..|entries| - 1];
      assert init[i] == entries[i];
      ScanWitness(init, name, i);
    }
  }

  /** The file stored under a name is an audio file of the listing with that display name. */
  lemma {:induction false} ScanSound(entries: seq<string>, name: string)
    ensures Dicts.Get(ScanFold(entries), name).Some? ==>
      Dicts.Get(ScanFold(entries), name).value in entries &&
      Provides(Dicts.Get(ScanFold(entries), name).value, name)
  {
    if entries != [] {
      var init := entries[..|entries| - 1];
      ScanStep(entries, name);
      ScanSound(init, name);
      assert entries == init + [entries[|entries| - 1]];
    }
  }

  /**
   * A name is listed exactly when some audio file of the listing has it as
   * display name, and the file stored under it is one of those.
   */
  lemma ScanNames(entries: seq<string>, name: string)
    ensures Dicts.HasKey(ScanFold(entries), name) <==>
      exists i :: 0 <= i < |entries| && IsAudio(entries[i]) && DisplayName(entries[i]) == name
    ensures Dicts.Get(ScanFold(entries), name).Some? ==>
      var f := Dicts.Get(ScanFold(entries), name).value;
      f in entries && IsAudio(f) && DisplayName(f) == name
  {
    Dicts.GetFound(ScanFold(entries), name);
    ScanSound(entries, name);
    if exists i :: 0 <= i < |entries| && IsAudio(entries[i]) && DisplayName(entries[i]) == name {
      var i :| 0 <= i < |entries| && IsAudio(entries[i]) && DisplayName(entries[i]) == name;
      ScanWitness(entries, name, i);
    }
    if Dicts.Get(ScanFold(entries), name).Some? {
      var f := Dicts.Get(ScanFold(entries), name).value;
      var i :| 0 <= i < |entries| && entries[i] == f;
      assert IsAudio(entries[i]) && DisplayName(entries[i]) == name;
    }
  }

  // ── The combined sound list ──────────────────────────────────────────────

  datatype SoundInfo = SoundInfo(name: string, description: string, custom: bool)

  /** `get_all_sounds`: the profiles, then the built-in files, then the custom sounds. */
  function AllSounds(listing: Option<seq<string>>, custom: Dicts.Dict<CustomEntry>): seq<SoundInfo>
  {
    var builtins := BuiltinFiles(listing);
    seq(|PROFILES|, i requires 0 <= i < |PROFILES| => SoundInfo(PROFILES[i].0, PROFILES[i].1.description, false))
    + seq(|builtins|, i requires 0 <= i < |builtins| => SoundInfo(builtins[i].0, "Built-in: " + builtins[i].1, false))
    + seq(|custom|, i requires 0 <= i < |custom| => SoundInfo(custom[i].0, custom[i].1.description, true))
  }

  /** The three groups in order, and `custom` is set exactly on the last group. */
  lemma AllSoundsLayout(listing: Option<seq<string>>, custom: Dicts.Dict<CustomEntry>, i: int)
    requires 0 <= i < |AllSounds(listing, custom)|
    ensures var r := AllSounds(listing, custom); var b := BuiltinFiles(listing);
      && |r| == |PROFILES| + |b| + |custom|
      && (r[i].custom <==> i >= |PROFILES| + |b|)
      && (i < |PROFILES| ==> r[i].name == PROFILES[i].0 && r[i].description == PROFILES[i].1.description)
      && (|PROFILES| <= i < |PROFILES| + |b| ==>
            r[i].name == b[i - |PROFILES|].0 && r[i].description == "Built-in: " + b[i - |PROFILES|].1)
      && (|PROFILES| + |b| <= i ==>
            r[i].name == custom[i - |PROFILES| - |b|].0 && r[i].description == custom[i - |PROFILES| - |b|].1.description)
  {
  }

  // ── Which playback `play_sound_once` ends with ───────────────────────────

  datatype Folder = BuiltinFolder | CustomFolder

  datatype Attempt =
    | PlayFile(folder: Folder, filename: string)
    | SoundDevice(profile: Profile)
    | SimpleAudio(profile: Profile)
    | WavSubprocess(profile: Profile)
    | TerminalBeep

  /**
   * The attempts `play_sound_once(name)` makes, in order; each later attempt
   * runs only when the one before raised, and the terminal beep ends every plan.
   * `customFiles` holds the custom file names that exist on disk; the two
   * flags say whether `sounddevice` and `simpleaudio` imported.
   */
  function Plan(name: string, listing: Option<seq<string>>, custom: Dicts.Dict<CustomEntry>,
                customFiles: set<string>, soundDevice: bool, simpleAudio: bool): (plan: seq<Attempt>)
    ensures plan != [] && plan[|plan| - 1] == TerminalBeep
    ensures forall i :: 0 <= i < |plan| - 1 ==> plan[i] != TerminalBeep
  {
    var builtin := match Dicts.Get(BuiltinFiles(listing), name)
      case Some(f) => [PlayFile(BuiltinFolder, f)]
      case None => [];
    var rest := match Dicts.Get(custom, name)
      case Some(e) => (if e.filename in customFiles then [PlayFile(CustomFolder, e.filename)] else []) + [TerminalBeep]
      case None =>
        var p := ProfileFor(name);
        (if soundDevice then [SoundDevice(p)] else []) + (if simpleAudio then [SimpleAudio(p)] else [])
        + [WavSubprocess(p), TerminalBeep];
    builtin + rest
  }

  /** The attempt that plays: the first that does not raise; the beep never raises. */
  function FirstWorking(plan: seq<Attempt>, raises: set<Attempt>): Option<Attempt>
  {
    if plan == [] then None
    else if plan[0] == TerminalBeep || plan[0] !in raises then Some(plan[0])
    else FirstWorking(plan[1..], raises)
  }

  /** Some attempt always plays, and it is the first of the plan that works. */
  lemma {:induction false} SomethingPlays(plan: seq<Attempt>, raises: set<Attempt>)
    requires plan != [] && plan[|plan| - 1] == TerminalBeep
    ensures FirstWorking(plan, raises).Some?
    ensures var a := FirstWorking(plan, raises).value;
      exists k :: 0 <= k < |plan| && plan[k] == a && (a == TerminalBeep || a !in raises)
        && forall j :: 0 <= j < k ==> plan[j] != TerminalBeep && plan[j] in raises
  {
    if plan[0] != TerminalBeep && plan[0] in raises {
      SomethingPlays(plan[1..], raises);
      var a := FirstWorking(plan, raises).value;
      var k :| 0 <= k < |plan[1..]| && plan[1..][k] == a && (a == TerminalBeep || a !in raises)
        && forall j :: 0 <= j < k ==> plan[1..][j] != TerminalBeep && plan[1..][j] in raises;
      assert plan[k + 1] == a;
      assert forall j :: 1 <= j < k + 1 ==> plan[j] == plan[1..][j - 1];
    }
  }

  /** A built-in file of that name is tried first. */
  lemma BuiltinFileFirst(name: string, listing: Option<seq<string>>, custom: Dicts.Dict<CustomEntry>,
                         customFiles: set<string>, soundDevice: bool, simpleAudio: bool)
    requires Dicts.Get(BuiltinFiles(listing), name).Some?
    ensures Plan(name, listing, custom, customFiles, soundDevice, simpleAudio)[0]
      == PlayFile(BuiltinFolder, Dicts.Get(BuiltinFiles(listing), name).value)
  {
  }

  /**
   * Past the built-in file, a custom name is played from its file or by the
   * beep, never by a synthesized profile; the beep alone when the file is missing.
   */
  lemma CustomNeverSynthesized(name: string, listing: Option<seq<string>>, custom: Dicts.Dict<CustomEntry>,
                               customFiles: set<string>, soundDevice: bool, simpleAudio: bool)
    requires Dicts.Get(custom, name).Some?
    ensures var plan := Plan(name, listing, custom, customFiles, soundDevice, simpleAudio);
      forall a :: a in plan ==> a.PlayFile? || a == TerminalBeep
    ensures var plan := Plan(name, listing, custom, customFiles, soundDevice, simpleAudio);
      var e := Dicts.Get(custom, name).value;
      (Dicts.Get(BuiltinFiles(listing), name).None? && e.filename !in customFiles) ==> plan == [TerminalBeep]
  {
  }

  /** A name that is neither a built-in file nor a custom sound is synthesized; an unknown one as "Classic Beep". */
  lemma UnknownNameUsesDefault(name: string, listing: Option<seq<string>>, custom: Dicts.Dict<CustomEntry>,
                               customFiles: set<string>, soundDevice: bool, simpleAudio: bool)
    requires Dicts.Get(BuiltinFiles(listing), name).None? && Dicts.Get(custom, name).None?
    ensures var plan := Plan(name, listing, custom, customFiles, soundDevice, simpleAudio);
      && plan[|plan| - 2] == WavSubprocess(ProfileFor(name))
      && (forall a :: a in plan ==> !a.PlayFile?)
      && (!IsProfileName(name) ==> forall a :: a in plan && a != TerminalBeep ==> a.profile == ProfileFor(DEFAULT_PROFILE))
  {
    ProfileForSelects(name);
  }
}
