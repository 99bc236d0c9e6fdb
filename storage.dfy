/**
 * The JSON file store (`storage.py`). The file system is a map from path to
 * content; a file holds a JSON document, UTF-8 text that is not JSON, or
 * bytes that are not UTF-8. A write goes to `path + ".tmp"` first and then renames that
 * file over `path`.
 */
module Storage {
  import opened Wrappers
  import Dicts
  import opened Json

  const ALARMS_FILE := "data/alarms.json"
  const TASKS_FILE := "data/tasks.json"
  const ALARMS_KEY := "alarms"
  const TASKS_KEY := "tasks"

  /** What a file holds: a JSON document, UTF-8 text that `json.load` rejects, or bytes that are not UTF-8. */
  datatype Content = Document(value: Json.Value) | BadJson | BadEncoding

  type Files = map<string, Content>

  function TmpPath(path: string): (tmp: string)
    ensures tmp != path && |tmp| == |path| + 4
  {
    path + ".tmp"
  }

  /**
   * `_read`: the decoded document, or `{}` when the file is missing or is not
   * JSON. Only `JSONDecodeError` is caught, so bytes that are not UTF-8 make
   * it raise `UnicodeDecodeError`: None.
   */
  function Read(files: Files, path: string): (r: Option<Json.Value>)
    ensures r.None? <==> path in files && files[path].BadEncoding?
    ensures path in files && files[path].Document? ==> r == Some(files[path].value)
  {
    if path !in files then Some(Obj([]))
    else match files[path]
      case Document(v) => Some(v)
      case BadJson => Some(Obj([]))
      case BadEncoding => None
  }

  /** What a load returns, or that it raised. */
  datatype Loaded = Rows(rows: seq<Json.Value>) | Raised

  /**
   * `list(v)` for a JSON value: an array gives its items, a string its
   * characters, an object its keys; any other value makes `list` raise.
   */
  function ListOf(v: Json.Value): (r: Loaded)
    ensures v.Arr? ==> r == Rows(v.items)
    ensures r.Raised? <==> v.Null? || v.Bool? || v.Int?
  {
    match v
    case Arr(items) => Rows(items)
    case Str(s) => Rows(seq(|s|, i requires 0 <= i < |s| => Str([s[i]])))
    case Obj(fields) => Rows(seq(|fields|, i requires 0 <= i < |fields| => Str(fields[i].0)))
    case _ => Raised
  }

  /**
   * `list(_read(path).get(key, []))`. When `_read` raises, or the document
   * is not an object so that `.get` does not exist, the load raises.
   */
  function LoadList(files: Files, path: string, key: string): Loaded
  {
    match Read(files, path)
    case None => Raised
    case Some(doc) =>
      if !doc.Obj? then Raised
      else match Dicts.Get<Value>(doc.fields, key)
        case None => Rows([])
        case Some(v) => ListOf(v)
  }

  function LoadAlarms(files: Files): Loaded
  {
    LoadList(files, ALARMS_FILE, ALARMS_KEY)
  }

  function LoadTasks(files: Files): Loaded
  {
    LoadList(files, TASKS_FILE, TASKS_KEY)
  }

  /** `{"alarms": rows}`, the document `save_alarms` writes. */
  function AlarmsDocument(rows: seq<Json.Value>): Json.Value
  {
    Obj([(ALARMS_KEY, Arr(rows))])
  }

  function TasksDocument(rows: seq<Json.Value>): Json.Value
  {
    Obj([(TASKS_KEY, Arr(rows))])
  }

  /** The first step of `_write`: the whole document goes into the temporary file. */
  function AfterTmp(files: Files, path: string, data: Json.Value): Files
  {
    files[TmpPath(path) := Document(data)]
  }

  /** The second step, `os.replace(tmp, path)`: the temporary file takes the place of `path`. */
  function AfterReplace(files: Files, path: string): Files
    requires TmpPath(path) in files
  {
    (files - {TmpPath(path)})[path := files[TmpPath(path)]]
  }

  /** The file system after a completed `_write(path, data)`. */
  function Written(files: Files, path: string, data: Json.Value): Files
  {
    AfterReplace(AfterTmp(files, path, data), path)
  }

  /** An in-memory file system that the store writes step by step. */
  class FileSystem {
    var files: Files

    constructor(initial: Files)
      ensures files == initial
    {
      files := initial;
    }

    /** `_write(path, data)`: the temporary file first, then the rename. */
    method Write(path: string, data: Json.Value)
      modifies this
      ensures files == Written(old(files), path, data)
    {
      files := AfterTmp(files, path, data);
      files := AfterReplace(files, path);
    }

    method SaveAlarms(rows: seq<Json.Value>)
      modifies this
      ensures files == Written(old(files), ALARMS_FILE, AlarmsDocument(rows))
    {
      Write(ALARMS_FILE, AlarmsDocument(rows));
    }

    method SaveTasks(rows: seq<Json.Value>)
      modifies this
      ensures files == Written(old(files), TASKS_FILE, TasksDocument(rows))
    {
      Write(TASKS_FILE, TasksDocument(rows));
    }
  }

  // ── Properties of a write ────────────────────────────────────────────────

  /** After a write, `path` holds the new document and no temporary file remains. */
  lemma WrittenShape(files: Files, path: string, data: Json.Value)
    ensures Written(files, path, data) == (files - {TmpPath(path)})[path := Document(data)]
    ensures path in Written(files, path, data) && Written(files, path, data)[path] == Document(data)
    ensures TmpPath(path) !in Written(files, path, data)
  {
  }

  /** A crash after the first step leaves `path` exactly as it was. */
  lemma CrashKeepsTarget(files: Files, path: string, data: Json.Value)
    ensures (path in AfterTmp(files, path, data)) == (path in files)
    ensures path in files ==> AfterTmp(files, path, data)[path] == files[path]
    ensures Read(AfterTmp(files, path, data), path) == Read(files, path)
  {
  }

  /** A write touches only `path` and its temporary file. */
  lemma WriteKeepsOthers(files: Files, path: string, data: Json.Value, other: string)
    requires other != path && other != TmpPath(path)
    ensures (other in Written(files, path, data)) == (other in files)
    ensures other in files ==> Written(files, path, data)[other] == files[other]
    ensures Read(Written(files, path, data), other) == Read(files, other)
  {
  }

  /** A second write to the same path supersedes the first. */
  lemma WrittenTwice(files: Files, path: string, first: Json.Value, second: Json.Value)
    ensures Written(Written(files, path, first), path, second) == Written(files, path, second)
  {
    WrittenShape(files, path, first);
    WrittenShape(Written(files, path, first), path, second);
    WrittenShape(files, path, second);
  }

  lemma ReadAfterWrite(files: Files, path: string, data: Json.Value)
    ensures Read(Written(files, path, data), path) == Some(data)
  {
    WrittenShape(files, path, data);
  }

  // ── Properties of the loads ──────────────────────────────────────────────

  /** `save_alarms(rows)` followed by `load_alarms()` returns `rows`. */
  lemma SaveLoadAlarms(files: Files, rows: seq<Json.Value>)
    ensures LoadAlarms(Written(files, ALARMS_FILE, AlarmsDocument(rows))) == Rows(rows)
  {
    ReadAfterWrite(files, ALARMS_FILE, AlarmsDocument(rows));
  }

  lemma SaveLoadTasks(files: Files, rows: seq<Json.Value>)
    ensures LoadTasks(Written(files, TASKS_FILE, TasksDocument(rows))) == Rows(rows)
  {
    ReadAfterWrite(files, TASKS_FILE, TasksDocument(rows));
  }

  /**
   * A missing file, a file that is not JSON and an object without the key
   * all load as `[]`; a file that is not UTF-8 makes the load raise.
   */
  lemma LoadFallbacks(files: Files, path: string, key: string)
    ensures path !in files ==> LoadList(files, path, key) == Rows([])
    ensures path in files && files[path].BadJson? ==> LoadList(files, path, key) == Rows([])
    ensures path in files && files[path].BadEncoding? ==> LoadList(files, path, key) == Raised
    ensures (path in files && files[path].Document? && files[path].value.Obj?
             && !Dicts.HasKey(files[path].value.fields, key)) ==> LoadList(files, path, key) == Rows([])
  {
    if path in files && files[path].Document? && files[path].value.Obj? {
      Dicts.GetFound(files[path].value.fields, key);
    }
  }

  /**
   * A load raises exactly when the file is not UTF-8, the document is not an
   * object, or its entry is a null, a boolean or a number.
   */
  lemma LoadRaises(files: Files, path: string, key: string)
    ensures LoadList(files, path, key).Raised? <==>
      (|| (path in files && files[path].BadEncoding?)
       || (path in files && files[path].Document? && !files[path].value.Obj?)
       || (path in files && files[path].Document? && files[path].value.Obj?
           && Dicts.Get(files[path].value.fields, key).Some?
           && ListOf(Dicts.Get(files[path].value.fields, key).value).Raised?))
  {
  }

  /** Saving alarms leaves the tasks file alone, and saving tasks leaves the alarms file alone. */
  lemma SavesAreIndependent(files: Files, rows: seq<Json.Value>)
    ensures LoadTasks(Written(files, ALARMS_FILE, AlarmsDocument(rows))) == LoadTasks(files)
    ensures LoadAlarms(Written(files, TASKS_FILE, TasksDocument(rows))) == LoadAlarms(files)
  {
    WriteKeepsOthers(files, ALARMS_FILE, AlarmsDocument(rows), TASKS_FILE);
    WriteKeepsOthers(files, TASKS_FILE, TasksDocument(rows), ALARMS_FILE);
  }
}
