/**
 * The versioned file store behind the WebSocket handlers of server/server.js:
 * the `files` table keyed by (project, path) holding content, version and
 * language, and the `projects` table of unique names. Each table becomes a
 * map; every statement a handler runs against them is a function on those
 * maps, and the `Store` class applies them in place.
 */
module FileStore {
  import opened Wrappers

  /** The `UNIQUE(project_id, path)` key of a file row. */
  datatype FileKey = FileKey(project: int, path: string)

  /** The `content`, `version` and `language` columns of a file row. */
  datatype FileRecord = FileRecord(content: string, version: int, language: string)

  type Files = map<FileKey, FileRecord>

  /** `jsdiff.createPatch(fileName, oldText, newText)`, kept as its arguments. */
  datatype Patch = Patch(fileName: string, oldText: string, newText: string)

  predicate EndsWith(s: string, suffix: string) {
    |suffix| <= |s| && s[|s| - |suffix|..] == suffix
  }

  /** The SQL pattern `path%`, read as a plain prefix. */
  predicate StartsWith(s: string, prefix: string) {
    |prefix| <= |s| && s[..|prefix|] == prefix
  }

  /** The extension-to-language chain of server/server.js:192 (and :275, :292). */
  function InferLanguage(path: string): (lang: string)
    ensures lang == "javascript" <==> EndsWith(path, ".js")
    ensures lang == "python" <==> EndsWith(path, ".py")
    ensures lang == "css" <==> EndsWith(path, ".css")
    ensures lang == "plaintext" <==> !EndsWith(path, ".js") && !EndsWith(path, ".py") && !EndsWith(path, ".css")
  {
    ExtensionsExclusive(path);
    if EndsWith(path, ".js") then "javascript"
    else if EndsWith(path, ".py") then "python"
    else if EndsWith(path, ".css") then "css"
    else "plaintext"
  }

  /** No path ends in two of the recognised extensions. */
  lemma ExtensionsExclusive(path: string)
    ensures !(EndsWith(path, ".js") && EndsWith(path, ".py"))
    ensures !(EndsWith(path, ".js") && EndsWith(path, ".css"))
    ensures !(EndsWith(path, ".py") && EndsWith(path, ".css"))
  {
    if EndsWith(path, ".js") {
      assert path[|path| - 1] == 's' && path[|path| - 3] == '.';
    }
    if EndsWith(path, ".py") {
      assert path[|path| - 1] == 'y';
    }
  }

  /** The language depends on the extension only. */
  lemma LanguageOfExtension(stem: string)
    ensures InferLanguage(stem + ".js") == "javascript"
    ensures InferLanguage(stem + ".py") == "python"
    ensures InferLanguage(stem + ".css") == "css"
  {
    assert (stem + ".js")[|stem + ".js"| - 3..] == ".js";
    assert (stem + ".py")[|stem + ".py"| - 3..] == ".py";
    assert (stem + ".css")[|stem + ".css"| - 4..] == ".css";
  }

  /** `existingFile?.content || ''`: the text a write diffs against. */
  function PriorContent(files: Files, key: FileKey): string {
    if key in files then files[key].content else ""
  }

  /** `existingFile?.version || 0`. */
  function PriorVersion(files: Files, key: FileKey): int {
    if key in files then files[key].version else 0
  }

  /** `existingFile?.language || <inferred>`: a stored non-empty language wins. */
  function KeptLanguage(files: Files, key: FileKey): string {
    if key in files && files[key].language != "" then files[key].language else InferLanguage(key.path)
  }

  /**
   * `INSERT OR REPLACE` of server/server.js:194, :258 and :277: the row for
   * `key` is replaced with the new content, the next version and `language`.
   */
  function Written(files: Files, key: FileKey, content: string, language: string): Files {
    files[key := FileRecord(content, PriorVersion(files, key) + 1, language)]
  }

  /** The row `createFile`/`createFolder` inserts: empty content, the default version 1. */
  function NewEntry(path: string): FileRecord {
    FileRecord("", 1, InferLanguage(path))
  }

  /** `UPDATE files SET path = newPath` on one row: the record moves to the new key. */
  function Renamed(files: Files, from: FileKey, to: FileKey): (r: Files)
    requires from in files
    ensures to in r && r[to] == files[from]
    ensures from != to ==> from !in r
    ensures forall k :: k != from && k != to ==> (k in r <==> k in files) && (k in r ==> r[k] == files[k])
  {
    (files - {from})[to := files[from]]
  }

  /** Rows that `DELETE ... WHERE project_id = project AND path LIKE prefix%` removes. */
  predicate Deleted(k: FileKey, project: int, prefix: string) {
    k.project == project && StartsWith(k.path, prefix)
  }

  function WithoutPrefix(files: Files, project: int, prefix: string): Files {
    map k | k in files && !Deleted(k, project, prefix) :: files[k]
  }

  /** The `export` reply of server/server.js:335-338: path to content for one project. */
  function ExportOf(files: Files, project: int): (r: map<string, string>)
    ensures forall path :: path in r <==> FileKey(project, path) in files
    ensures forall path :: path in r ==> r[path] == files[FileKey(project, path)].content
  {
    map k | k in files && k.project == project :: k.path := files[k].content
  }

  /** The `init` payload of server/server.js:175-180: path to the whole row for one project. */
  function Snapshot(files: Files, project: int): (r: map<string, FileRecord>)
    ensures forall path :: path in r <==> FileKey(project, path) in files
    ensures forall path :: path in r ==> r[path] == files[FileKey(project, path)]
  {
    map k | k in files && k.project == project :: k.path := files[k]
  }

  /** The body of `GET /file/:path` (server/server.js:349-357). */
  datatype FileResponse = FileResponse(status: int, content: string, version: int, language: Option<string>,
                                       error: Option<string>)

  /** The 400 reply when `parseInt(projectId)` is missing, not a number, or 0. */
  const MissingProjectId: FileResponse :=
    FileResponse(400, "", 0, None, Some("Missing projectId query parameter"))

  /** The placeholder for a file that does not exist. */
  const Placeholder: FileResponse := FileResponse(200, "", 0, Some("plaintext"), None)

  /**
   * `projectId` is `None` when the query parameter does not parse as an
   * integer. A missing, unparsable or zero id is refused with 400; a path
   * without a row reads as an empty plaintext file at version 0; otherwise
   * the row's content, version and language come back.
   */
  function ReadFile(files: Files, projectId: Option<int>, path: string): (r: FileResponse)
    ensures r.status == 400 <==> projectId.None? || projectId.value == 0
    ensures r.status == 400 ==>
      r.content == "" && r.version == 0 && r.language.None? && r.error == Some("Missing projectId query parameter")
    ensures r.status != 400 ==> r.status == 200 && r.error.None?
    ensures r.status != 400 && FileKey(projectId.value, path) !in files ==>
      r.content == "" && r.version == 0 && r.language == Some("plaintext")
    ensures r.status != 400 && FileKey(projectId.value, path) in files ==>
      var f := files[FileKey(projectId.value, path)];
      r.content == f.content && r.version == f.version && r.language == Some(f.language)
  {
    if projectId.None? || projectId.value == 0 then MissingProjectId
    else if FileKey(projectId.value, path) in files then
      var f := files[FileKey(projectId.value, path)];
      FileResponse(200, f.content, f.version, Some(f.language), None)
    else Placeholder
  }

  /** The default `index.js` of a new project (server/server.js:159). */
  function IndexContent(name: string): string {
    "// New project! console.log(\"Hello from " + name + "\");"
  }

  const IndexPath: string := "/index.js"

  /** What `createProject` did to the tables. */
  datatype ProjectOutcome =
    | DuplicateName
    | IndexClash(id: int)
    | Created(id: int)

  /** How a `rename` ended. */
  datatype RenameOutcome = Moved | NoRecord | Clash

  /** The two tables, and the `AUTOINCREMENT` high-water mark of `projects`. */
  class Store {
    var files: Files
    var projects: map<int, string>
    var lastProjectId: int

    ghost predicate Valid()
      reads this
    {
      && 0 <= lastProjectId
      && (forall id :: id in projects ==> 1 <= id <= lastProjectId)
      && (forall k :: k in files ==> 1 <= files[k].version)
    }

    constructor()
      ensures Valid()
      ensures files == map[] && projects == map[] && lastProjectId == 0
    {
      files, projects, lastProjectId := map[], map[], 0;
    }

    /**
     * A write of `content` to `key` (`update`, `applyCode`, auto-apply): the
     * version goes up by one from the old row or from 0, the patch is taken
     * against the old content or '', and the language is the override when
     * given (auto-apply), else the kept or inferred one.
     */
    method Write(key: FileKey, content: string, language: Option<string>) returns (patch: Patch, stored: string)
      requires Valid()
      modifies this
      ensures Valid()
      ensures stored == (if language.Some? then language.value else KeptLanguage(old(files), key))
      ensures files == Written(old(files), key, content, stored)
      ensures patch == Patch(key.path, PriorContent(old(files), key), content)
      ensures projects == old(projects) && lastProjectId == old(lastProjectId)
    {
      var oldContent := PriorContent(files, key);
      var oldVersion := PriorVersion(files, key);
      stored := if language.Some? then language.value else KeptLanguage(files, key);
      files := files[key := FileRecord(content, oldVersion + 1, stored)];
      patch := Patch(key.path, oldContent, content);
    }

    /** `INSERT INTO files` of server/server.js:293; an existing key violates `UNIQUE` and nothing changes. */
    method CreateEntry(key: FileKey) returns (created: bool)
      requires Valid()
      modifies this
      ensures Valid()
      ensures created <==> key !in old(files)
      ensures files == if created then old(files)[key := NewEntry(key.path)] else old(files)
      ensures projects == old(projects) && lastProjectId == old(lastProjectId)
    {
      created := key !in files;
      if created {
        files := files[key := NewEntry(key.path)];
      }
    }

    /**
     * `rename` (server/server.js:306-310): only the exact key moves; no row
     * means no change; a different target that already exists violates
     * `UNIQUE` and nothing changes.
     */
    method Rename(project: int, path: string, newPath: string) returns (outcome: RenameOutcome)
      requires Valid()
      modifies this
      ensures Valid()
      ensures outcome == NoRecord <==> FileKey(project, path) !in old(files)
      ensures outcome == Clash <==>
        FileKey(project, path) in old(files) && newPath != path && FileKey(project, newPath) in old(files)
      ensures files == if outcome == Moved then Renamed(old(files), FileKey(project, path), FileKey(project, newPath))
                       else old(files)
      ensures projects == old(projects) && lastProjectId == old(lastProjectId)
    {
      var from, to := FileKey(project, path), FileKey(project, newPath);
      if from !in files {
        outcome := NoRecord;
      } else if newPath != path && to in files {
        outcome := Clash;
      } else {
        files := Renamed(files, from, to);
        outcome := Moved;
      }
    }

    /** `delete` (server/server.js:322): every row of the project whose path starts with `prefix`. */
    method DeletePrefix(project: int, prefix: string)
      requires Valid()
      modifies this
      ensures Valid()
      ensures files == WithoutPrefix(old(files), project, prefix)
      ensures projects == old(projects) && lastProjectId == old(lastProjectId)
    {
      files := WithoutPrefix(files, project, prefix);
    }

    /**
     * `createProject` (server/server.js:152-169): a taken name violates
     * `UNIQUE` and changes nothing; otherwise the project gets the next id,
     * and its `/index.js` is inserted unless a row already holds that key.
     */
    method CreateProject(name: string) returns (outcome: ProjectOutcome)
      requires Valid()
      modifies this
      ensures Valid()
      ensures outcome.DuplicateName? <==> name in old(projects).Values
      ensures outcome.DuplicateName? ==>
        files == old(files) && projects == old(projects) && lastProjectId == old(lastProjectId)
      ensures !outcome.DuplicateName? ==>
        && outcome.id == old(lastProjectId) + 1 == lastProjectId
        && outcome.id !in old(projects)
        && projects == old(projects)[outcome.id := name]
        && (outcome.IndexClash? <==> FileKey(outcome.id, IndexPath) in old(files))
        && files == if outcome.Created? then old(files)[FileKey(outcome.id, IndexPath) := FileRecord(IndexContent(name), 1, "javascript")]
                    else old(files)
    {
      if name in projects.Values {
        return DuplicateName;
      }
      lastProjectId := lastProjectId + 1;
      var id := lastProjectId;
      projects := projects[id := name];
      var index := FileKey(id, IndexPath);
      if index in files {
        return IndexClash(id);
      }
      files := files[index := FileRecord(IndexContent(name), 1, "javascript")];
      outcome := Created(id);
    }
  }

  /** A read right after a write returns exactly the written content, version and language. */
  lemma ReadAfterWrite(files: Files, key: FileKey, content: string, language: string)
    requires key.project != 0
    ensures ReadFile(Written(files, key, content, language), Some(key.project), key.path)
      == FileResponse(200, content, PriorVersion(files, key) + 1, Some(language), None)
  {
  }

  /** A write changes nothing that any other key reads. */
  lemma WriteLeavesOthers(files: Files, key: FileKey, content: string, language: string, project: Option<int>, path: string)
    requires project.Some? ==> FileKey(project.value, path) != key
    ensures ReadFile(Written(files, key, content, language), project, path) == ReadFile(files, project, path)
  {
  }

  /**
   * Two writes to a file that did not exist: versions 1 then 2, the first
   * patch against '', the second against the first content, and the
   * inferred language kept.
   */
  lemma SuccessiveWrites(files: Files, key: FileKey, c1: string, c2: string)
    requires key !in files
    ensures var lang := KeptLanguage(files, key);
      var once := Written(files, key, c1, lang);
      && lang == InferLanguage(key.path)
      && once[key] == FileRecord(c1, 1, lang)
      && PriorContent(once, key) == c1
      && KeptLanguage(once, key) == lang
      && Written(once, key, c2, KeptLanguage(once, key))[key] == FileRecord(c2, 2, lang)
  {
    LanguageNotEmpty(key.path);
  }

  lemma LanguageNotEmpty(path: string)
    ensures InferLanguage(path) != ""
  {
  }

  /** A folder delete removes everything under it, and also siblings that merely share the prefix. */
  lemma DeleteRemovesExtensions(files: Files, project: int, prefix: string, suffix: string, other: int, path: string)
    requires other != project
    ensures FileKey(project, prefix + suffix) !in WithoutPrefix(files, project, prefix)
    ensures FileKey(other, path) in files ==> FileKey(other, path) in WithoutPrefix(files, project, prefix)
    ensures FileKey(other, path) in files ==> WithoutPrefix(files, project, prefix)[FileKey(other, path)] == files[FileKey(other, path)]
  {
    assert (prefix + suffix)[..|prefix|] == prefix;
  }

  /** Deleting `/a` removes the sibling `/ab` as well as `/a/x`, but not `/b`. */
  lemma DeleteSibling(files: Files, project: int)
    requires FileKey(project, "/b") in files
    ensures var after := WithoutPrefix(files, project, "/a");
      && FileKey(project, "/a") !in after
      && FileKey(project, "/ab") !in after
      && FileKey(project, "/a/x") !in after
      && FileKey(project, "/b") in after
  {
    DeleteRemovesExtensions(files, project, "/a", "", project + 1, "");
    DeleteRemovesExtensions(files, project, "/a", "b", project + 1, "");
    DeleteRemovesExtensions(files, project, "/a", "/x", project + 1, "");
    assert "/a" + "" == "/a" && "/a" + "b" == "/ab" && "/a" + "/x" == "/a/x";
    assert "/b"[..2][1] != "/a"[1];
  }

  /** Renaming a folder's own row does not move the rows under it. */
  lemma RenameIsExact(files: Files, project: int, path: string, newPath: string, child: string)
    requires FileKey(project, path) in files && FileKey(project, path + child) in files
    requires child != "" && path + child != newPath
    ensures FileKey(project, path + child) in Renamed(files, FileKey(project, path), FileKey(project, newPath))
  {
    assert |path + child| != |path|;
  }

  /** An export right after a write holds the written content under that path. */
  lemma ExportAfterWrite(files: Files, key: FileKey, content: string, language: string)
    ensures var e := ExportOf(Written(files, key, content, language), key.project);
      key.path in e && e[key.path] == content
  {
  }

  /**
   * The round of tests/test_server_integration.js:33-53: a new project, an
   * empty `/hello.py`, a write of its content; export and read then return
   * that content, with language python and version 2.
   */
  lemma CreateWriteReadBack(files: Files, project: int, content: string)
    requires project != 0 && FileKey(project, "/hello.py") !in files
    ensures var key := FileKey(project, "/hello.py");
      var created := files[key := NewEntry(key.path)];
      var after := Written(created, key, content, KeptLanguage(created, key));
      && ExportOf(after, project)["/hello.py"] == content
      && ReadFile(after, Some(project), "/hello.py") == FileResponse(200, content, 2, Some("python"), None)
  {
    LanguageOfExtension("/hello");
    assert "/hello" + ".py" == "/hello.py";
    var key := FileKey(project, "/hello.py");
    var created := files[key := NewEntry(key.path)];
    ExportAfterWrite(created, key, content, KeptLanguage(created, key));
  }
}
