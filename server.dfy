/** The HTTP backend: the open folder shared by the file explorer and the agent,
    the file listing, the guards of the four file endpoints, the chat endpoint and
    the registry of live websockets. */
module Server {
  import opened Strings
  import opened Agent

  const SAFE_EXTENSIONS: seq<string> := [".py", ".txt", ".md", ".html", ".css", ".js", ".json", ".env"]
  const IGNORED_DIRS: seq<string> := ["venv", "venv_gpu", "node_modules", "__pycache__", ".git", ".idea", ".vscode"]
  const NEED_FOLDER_REPLY := "Please open a folder first using the Open Folder button before asking me to create, edit, or delete files."

  /** One entry of `os.scandir`: its name and what `is_file()` / `is_dir()` say. */
  datatype DirEntry = DirEntry(name: string, isFile: bool, isDir: bool)

  /** One row of the explorer listing; `isDir` is `type == "directory"`. */
  datatype Item = Item(name: string, isDir: bool)

  /** The outcome of `os.scandir` over the whole folder. */
  datatype Scan = Scanned(entries: seq<DirEntry>) | ScanFailed(message: string)

  /** The three shapes of the `/api/files` reply. */
  datatype Listing =
    | NoDirectory
    | Listed(files: seq<Item>, currentDir: string)
    | ListError(message: string)

  predicate HasSafeExtension(name: string)
  {
    exists i :: 0 <= i < |SAFE_EXTENSIONS| && EndsWith(name, SAFE_EXTENSIONS[i])
  }

  /** Hidden names are skipped, except `.env`. */
  predicate IsHidden(name: string)
  {
    StartsWith(name, ".") && name != ".env"
  }

  /** The row an entry contributes to the listing, if any. */
  function Classify(e: DirEntry): (r: Option<Item>)
    ensures r.Some? ==> r.value.name == e.name && !IsHidden(e.name)
    ensures r.Some? && !r.value.isDir <==> !IsHidden(e.name) && e.isFile && HasSafeExtension(e.name)
    ensures r.Some? && r.value.isDir <==>
      !IsHidden(e.name) && !(e.isFile && HasSafeExtension(e.name)) && e.isDir && e.name !in IGNORED_DIRS
  {
    if IsHidden(e.name) then None
    else if e.isFile && HasSafeExtension(e.name) then Some(Item(e.name, false))
    else if e.isDir && e.name !in IGNORED_DIRS then Some(Item(e.name, true))
    else None
  }

  /** The rows of the entries, in scan order. */
  function Collected(entries: seq<DirEntry>): seq<Item>
  {
    if entries == [] then []
    else
      var last := Classify(entries[|entries| - 1]);
      Collected(entries[..|entries| - 1]) + (if last.Some? then [last.value] else [])
  }

  lemma {:induction false} CollectedMembers(entries: seq<DirEntry>)
    ensures forall it :: it in Collected(entries) <==>
      exists i :: 0 <= i < |entries| && Classify(entries[i]) == Some(it)
  {
    if entries != [] {
      var init := entries[..|entries| - 1];
      CollectedMembers(init);
      assert forall i :: 0 <= i < |init| ==> init[i] == entries[i];
    }
  }

  /** The sort key `(type != 'directory', name)`: directories first, then by name. */
  predicate ItemLe(a: Item, b: Item)
  {
    (a.isDir && !b.isDir) || (a.isDir == b.isDir && LexLe(a.name, b.name))
  }

  lemma ItemLeTotal(a: Item, b: Item)
    ensures ItemLe(a, b) || ItemLe(b, a)
  {
    LexLeTotal(a.name, b.name);
  }

  lemma ItemLeTransitive(a: Item, b: Item, c: Item)
    requires ItemLe(a, b) && ItemLe(b, c)
    ensures ItemLe(a, c)
  {
    if a.isDir == b.isDir && b.isDir == c.isDir {
      LexLeTransitive(a.name, b.name, c.name);
    }
  }

  predicate SortedItems(s: seq<Item>)
  {
    forall i, j :: 0 <= i < j < |s| ==> ItemLe(s[i], s[j])
  }

  /** Puts `x` into a sorted run of rows. */
  function Insert(x: Item, s: seq<Item>): (r: seq<Item>)
    ensures multiset(r) == multiset(s) + multiset{x}
  {
    if s == [] then [x]
    else if ItemLe(x, s[0]) then [x] + s
    else
      assert s == [s[0]] + s[1..];
      [s[0]] + Insert(x, s[1..])
  }

  /** Each row is at most its successor. */
  predicate Chained(s: seq<Item>)
  {
    forall i :: 0 < i < |s| ==> ItemLe(s[i - 1], s[i])
  }

  lemma {:induction false} ChainedSorted(s: seq<Item>)
    requires Chained(s)
    ensures SortedItems(s)
  {
    if s != [] {
      ChainedSorted(s[1..]);
      assert SortedItems(s[1..]);
      forall j | 1 < j < |s| ensures ItemLe(s[0], s[j]) {
        assert ItemLe(s[0], s[1]);
        assert ItemLe(s[1], s[j]) by { assert s[1..][0] == s[1] && s[1..][j - 1] == s[j]; }
        ItemLeTransitive(s[0], s[1], s[j]);
      }
      forall i, j | 0 <= i < j < |s| ensures ItemLe(s[i], s[j]) {
        if i > 0 {
          assert s[1..][i - 1] == s[i] && s[1..][j - 1] == s[j];
        }
      }
    }
  }

  lemma {:induction false} InsertChained(x: Item, s: seq<Item>)
    requires Chained(s)
    ensures var r := Insert(x, s); |r| == |s| + 1 && Chained(r) && (r[0] == x || r[0] == s[0])
  {
    var r := Insert(x, s);
    assert |r| == |s| + 1 by { assert |multiset(r)| == |multiset(s)| + 1; }
    if s != [] && !ItemLe(x, s[0]) {
      ItemLeTotal(x, s[0]);
      var rest := Insert(x, s[1..]);
      InsertChained(x, s[1..]);
      assert r == [s[0]] + rest;
      assert ItemLe(s[0], rest[0]) by {
        if rest[0] != x { assert rest[0] == s[1]; }
      }
      forall i | 1 < i < |r| ensures ItemLe(r[i - 1], r[i]) {
        assert r[i - 1] == rest[i - 2] && r[i] == rest[i - 1];
      }
    }
  }

  /** `files.sort(key=...)`: an insertion sort by the same key. */
  function SortItems(s: seq<Item>): (r: seq<Item>)
    ensures multiset(r) == multiset(s)
  {
    if s == [] then []
    else
      assert s == [s[0]] + s[1..];
      Insert(s[0], SortItems(s[1..]))
  }

  lemma SortItemsSorted(s: seq<Item>)
    ensures SortedItems(SortItems(s))
  {
    SortItemsChained(s);
    ChainedSorted(SortItems(s));
  }

  lemma {:induction false} SortItemsChained(s: seq<Item>)
    ensures Chained(SortItems(s))
  {
    if s != [] {
      SortItemsChained(s[1..]);
      InsertChained(s[0], SortItems(s[1..]));
    }
  }

  /** The listing shows exactly the rows of the shown entries, directories before
      files and each group by name. */
  lemma ListingIsSortedRows(entries: seq<DirEntry>)
    ensures SortedItems(SortItems(Collected(entries)))
    ensures multiset(SortItems(Collected(entries))) == multiset(Collected(entries))
    ensures forall it :: it in SortItems(Collected(entries)) <==>
      exists i :: 0 <= i < |entries| && Classify(entries[i]) == Some(it)
  {
    SortItemsSorted(Collected(entries));
    CollectedMembers(entries);
    var r := SortItems(Collected(entries));
    forall it ensures it in r <==> it in Collected(entries) {
      assert it in r <==> it in multiset(r);
      assert it in Collected(entries) <==> it in multiset(Collected(entries));
    }
  }

  /** The four endpoints that act on a file of the open folder. */
  datatype FileOp = ReadOp | ServeOp | SaveOp | DeleteOp

  /** What a file endpoint decides before it touches the file: go ahead with a
      resolved path, or the HTTP error it raises. */
  datatype Guarded = Allowed(path: string) | Denied(code: int, detail: string)

  /** When the endpoint answers 404: reading and serving need a regular file,
      deleting only an existing entry, saving nothing. */
  predicate NotFoundFor(op: FileOp, k: Kind)
  {
    match op
    case ReadOp => k != File
    case ServeOp => k != File
    case SaveOp => false
    case DeleteOp => k == Missing
  }

  function NoFolderDetail(op: FileOp): string
  {
    if op == ServeOp then "No folder is open." else "No folder is open. Please open a folder first."
  }

  function DeniedDetail(op: FileOp): string
  {
    if op == ReadOp then "Access denied: Path traversal attempt." else "Access denied."
  }

  function NotFoundDetail(op: FileOp, name: string, wd: string): string
  {
    if op == ReadOp then "File not found: " + name + " in " + wd else "File not found: " + name
  }

  /** The guards of `read_file`, `serve_workspace_file`, `save_file` and `delete_file`:
      no folder (400), then a resolved path outside the resolved folder (403), then
      a missing target (404). The request path is joined to the RESOLVED folder. */
  function FileGuard(env: PathEnv, wd: Option<string>, name: string, op: FileOp): (g: Guarded)
    ensures !IsOpen(wd) <==> g == Denied(400, NoFolderDetail(op))
    ensures IsOpen(wd) ==>
      var base := env.resolve(wd.value);
      var path := env.resolve(JoinPath(env, base, name));
      && (!StartsWith(path, base) <==> g == Denied(403, DeniedDetail(op)))
      && (StartsWith(path, base) && NotFoundFor(op, env.kind(path)) <==>
            g == Denied(404, NotFoundDetail(op, name, wd.value)))
      && (g.Allowed? <==> StartsWith(path, base) && !NotFoundFor(op, env.kind(path)))
      && (g.Allowed? ==> g.path == path)
  {
    if !IsOpen(wd) then Denied(400, NoFolderDetail(op))
    else
      var base := env.resolve(wd.value);
      var path := env.resolve(JoinPath(env, base, name));
      if !StartsWith(path, base) then Denied(403, DeniedDetail(op))
      else if NotFoundFor(op, env.kind(path)) then Denied(404, NotFoundDetail(op, name, wd.value))
      else Allowed(path)
  }

  /** What `delete_file` does to an allowed path: an entry that is neither a file
      nor a directory is left alone, and the reply still says "deleted". */
  datatype Removal = RemoveFile | RemoveTree | RemoveNothing

  function DeleteRemoval(k: Kind): (r: Removal)
    ensures r == RemoveFile <==> k == File
    ensures r == RemoveTree <==> k == Dir
  {
    match k
    case File => RemoveFile
    case Dir => RemoveTree
    case _ => RemoveNothing
  }

  /** The reply of `/api/change_dir`. */
  datatype DirChange = Changed(path: string) | InvalidDirectory(code: int, detail: string)

  /** The reply of `/chat`. */
  datatype ChatReply = NeedFolder(reply: string) | Response(response: string)

  /** The backend's global state: `WORKING_DIRECTORY` of the server and of the
      agent module, and the tasks handed to the agent. */
  class Backend {
    var workingDirectory: Option<string>
    var agentWorkingDirectory: Option<string>
    var tasks: seq<string>

    constructor ()
      ensures workingDirectory == None && agentWorkingDirectory == None && tasks == []
    {
      workingDirectory := None;
      agentWorkingDirectory := None;
      tasks := [];
    }

    /** `change_directory`: only a path that resolves to an existing directory
        becomes the open folder (stored resolved); anything else is a 400 and
        nothing changes. The agent's folder is not touched. */
    method ChangeDirectory(env: PathEnv, path: string) returns (reply: DirChange)
      modifies this
      ensures var target := env.resolve(path);
        if env.kind(target) == Dir then
          && reply == Changed(target)
          && workingDirectory == Some(target)
        else
          && reply == InvalidDirectory(400, "Invalid directory path.")
          && workingDirectory == old(workingDirectory)
      ensures agentWorkingDirectory == old(agentWorkingDirectory) && tasks == old(tasks)
    {
      var target := env.resolve(path);
      if env.kind(target) != Dir {
        reply := InvalidDirectory(400, "Invalid directory path.");
        return;
      }
      workingDirectory := Some(target);
      reply := Changed(target);
    }

    /** `close_folder`: both the server's and the agent's folder are closed. */
    method CloseFolder()
      modifies this
      ensures workingDirectory == None && agentWorkingDirectory == None
      ensures !IsOpen(workingDirectory) && !IsOpen(agentWorkingDirectory)
      ensures tasks == old(tasks)
    {
      workingDirectory := None;
      agentWorkingDirectory := None;
    }

    /** `list_files`: scan the open folder, keep the rows worth showing, sort them. */
    method ListFiles(scan: Scan) returns (r: Listing)
      ensures !IsOpen(workingDirectory) ==> r == NoDirectory
      ensures IsOpen(workingDirectory) && scan.ScanFailed? ==> r == ListError(scan.message)
      ensures IsOpen(workingDirectory) && scan.Scanned? ==>
        && r.Listed? && r.currentDir == workingDirectory.value
        && SortedItems(r.files)
        && multiset(r.files) == multiset(Collected(scan.entries))
        && r.files == SortItems(Collected(scan.entries))
    {
      if !IsOpen(workingDirectory) {
        return NoDirectory;
      }
      if scan.ScanFailed? {
        return ListError(scan.message);
      }
      var entries := scan.entries;
      var files: seq<Item> := [];
      var i := 0;
      while i < |entries|
        invariant 0 <= i <= |entries|
        invariant files == Collected(entries[..i])
      {
        var e := entries[i];
        assert entries[..i + 1][..i] == entries[..i];
        if IsHidden(e.name) {
          i := i + 1;
          continue;
        }
        if e.isFile && HasSafeExtension(e.name) {
          files := files + [Item(e.name, false)];
        } else if e.isDir && e.name !in IGNORED_DIRS {
          files := files + [Item(e.name, true)];
        }
        i := i + 1;
      }
      assert entries[..i] == entries;
      ListingIsSortedRows(entries);
      r := Listed(SortItems(files), workingDirectory.value);
    }

    /** `chat_endpoint`: without an open folder the agent is not run; otherwise the
        agent is pointed at the open folder and its streamed tokens are joined. */
    method Chat(text: string, steps: seq<Step>, raised: Option<string>) returns (reply: ChatReply)
      modifies this
      ensures !IsOpen(old(workingDirectory)) ==>
        && reply == NeedFolder(NEED_FOLDER_REPLY)
        && agentWorkingDirectory == old(agentWorkingDirectory) && tasks == old(tasks)
      ensures IsOpen(old(workingDirectory)) ==>
        && reply == Response(StreamReply(steps, raised))
        && agentWorkingDirectory == old(workingDirectory)
        && tasks == old(tasks) + [text]
      ensures workingDirectory == old(workingDirectory)
    {
      if !IsOpen(workingDirectory) {
        return NeedFolder(NEED_FOLDER_REPLY);
      }
      agentWorkingDirectory := workingDirectory;
      tasks := tasks + [text];
      var tokens := ExecuteStream(steps, raised);
      var full := "";
      var i := 0;
      while i < |tokens|
        invariant 0 <= i <= |tokens|
        invariant full == Concat(tokens[..i])
      {
        assert tokens[..i + 1][..i] == tokens[..i];
        full := full + tokens[i];
        i := i + 1;
      }
      assert tokens[..i] == tokens;
      reply := Response(full);
    }
  }

  /** The tokens of a stream joined in order. */
  function Concat(tokens: seq<string>): (r: string)
    ensures |tokens| == 1 ==> r == tokens[0]
  {
    if tokens == [] then "" else Concat(tokens[..|tokens| - 1]) + tokens[|tokens| - 1]
  }

  /** Joining a stream split in two joins the parts in order. */
  lemma {:induction false} ConcatAppend(a: seq<string>, b: seq<string>)
    ensures Concat(a + b) == Concat(a) + Concat(b)
    decreases |b|
  {
    if b == [] {
      assert a + b == a;
    } else {
      var init := b[..|b| - 1];
      assert (a + b)[..|a + b| - 1] == a + init;
      ConcatAppend(a, init);
    }
  }

  /** Where the first `x` sits in `s`. */
  function FirstIndex(s: seq<nat>, x: nat): (i: nat)
    requires x in s
    ensures i < |s| && s[i] == x && x !in s[..i]
  {
    if s[0] == x then 0
    else
      assert x in s[1..];
      var j := FirstIndex(s[1..], x);
      assert s[..j + 1] == [s[0]] + s[1..][..j];
      j + 1
  }

  /** `list.remove(x)` after the `in` test: drop the first occurrence of `x`. */
  function RemoveFirst(s: seq<nat>, x: nat): (r: seq<nat>)
    ensures x !in s ==> r == s
    ensures x in s ==> |r| == |s| - 1 && multiset(r) == multiset(s) - multiset{x}
    ensures x in s ==> r == s[..FirstIndex(s, x)] + s[FirstIndex(s, x) + 1..]
  {
    if x in s then
      var i := FirstIndex(s, x);
      assert s == s[..i] + [x] + s[i + 1..];
      s[..i] + s[i + 1..]
    else s
  }

  /** A socket that connects and then disconnects leaves the registry as it was. */
  lemma ConnectDisconnect(s: seq<nat>, ws: nat)
    requires ws !in s
    ensures RemoveFirst(s + [ws], ws) == s
  {
    var t := s + [ws];
    assert t[|s|] == ws;
    var i := FirstIndex(t, ws);
    assert i == |s|;
    assert t[..|s|] == s;
  }

  /** `ConnectionManager`: the accepted websockets, identified by number, in order. */
  class ConnectionManager {
    var activeConnections: seq<nat>

    constructor ()
      ensures activeConnections == []
    {
      activeConnections := [];
    }

    /** `connect`: the accepted socket is appended, even if already listed. */
    method Connect(ws: nat)
      modifies this
      ensures activeConnections == old(activeConnections) + [ws]
    {
      activeConnections := activeConnections + [ws];
    }

    /** `disconnect`: the first entry for the socket goes, if there is one. */
    method Disconnect(ws: nat)
      modifies this
      ensures activeConnections == RemoveFirst(old(activeConnections), ws)
      ensures ws !in old(activeConnections) ==> activeConnections == old(activeConnections)
    {
      if ws in activeConnections {
        activeConnections := RemoveFirst(activeConnections, ws);
      }
    }
  }
}
