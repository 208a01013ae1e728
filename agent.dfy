/** The agent backend: the sandbox that roots the agent's file helpers in the open
    folder, the cleaner applied to every code blob the model produces, and the
    selection of the one reply a task streams back. */
module Agent {
  import opened Strings

  /** What the filesystem says about a resolved path. */
  datatype Kind = Missing | File | Dir | Other

  /** The filesystem as the guards see it: `Path.resolve()` (symlinks, `..`),
      `Path.is_absolute()`, and the kind of entry at a path. */
  datatype PathEnv = PathEnv(resolve: string -> string, isAbsolute: string -> bool, kind: string -> Kind)

  datatype Error =
    | NoFolderOpen
    | PathTraversal(name: string)
    | WriteOutsideSandbox(path: string)
    | MkdirOutsideSandbox(path: string)
    | DeleteOutsideSandbox(path: string)
    | NotFound(path: string)
    | CannotDelete(path: string)

  datatype Result<T> = Ok(value: T) | Err(error: Error)

  /** Python truthiness of `WORKING_DIRECTORY`: both `None` and `""` are false. */
  predicate IsOpen(wd: Option<string>)
  {
    wd.Some? && wd.value != ""
  }

  /** `get_base_path`: the open folder, or the "no folder is open" error. */
  function GetBasePath(wd: Option<string>): (r: Result<string>)
    ensures r.Ok? <==> IsOpen(wd)
    ensures r.Ok? ==> r.value == wd.value
    ensures r.Err? ==> r.error == NoFolderOpen
  {
    if IsOpen(wd) then Ok(wd.value) else Err(NoFolderOpen)
  }

  /** `base / p`: an absolute right operand replaces the base. */
  function JoinPath(env: PathEnv, base: string, p: string): string
  {
    if env.isAbsolute(p) then p else base + "/" + p
  }

  /** The containment test of every guard: `str(path).startswith(str(base.resolve()))`. */
  predicate InSandbox(env: PathEnv, base: string, path: string)
  {
    StartsWith(path, env.resolve(base))
  }

  predicate IsSlash(c: char) { c == '/' }

  predicate IsBackslash(c: char) { c == '\\' }

  /** The first `k` characters of `name` are its whole leading run of `/`, of
      length `n`, followed by backslashes only. */
  predicate SlashesThenBackslashes(name: string, k: int, n: nat)
  {
    && n <= k <= |name|
    && (forall i :: 0 <= i < n ==> name[i] == '/')
    && (n < |name| ==> name[n] != '/')
    && (forall i :: n <= i < k ==> name[i] == '\\')
  }

  /** `filename.lstrip("/").lstrip("\\")`: the leading run of `/`, then the run of
      `\\` that follows it, are dropped. A `/` after those backslashes survives. */
  function StripLeadingSeparators(name: string): (r: string)
    ensures EndsWith(name, r)
    ensures r == [] || r[0] != '\\'
    ensures forall i :: 0 <= i < |name| - |r| ==> name[i] == '/' || name[i] == '\\'
    ensures '\\' !in name ==> r == [] || r[0] != '/'
    ensures SlashesThenBackslashes(name, |name| - |r|, LeadingRun(name, IsSlash))
  {
    var n := LeadingRun(name, IsSlash);
    var m := LeadingRun(name[n..], IsBackslash);
    StripRuns(name, n, m);
    name[n + m..]
  }

  /** The two runs `StripLeadingSeparators` drops, seen in `name` itself. */
  lemma StripRuns(name: string, n: nat, m: nat)
    requires n == LeadingRun(name, IsSlash) && m == LeadingRun(name[n..], IsBackslash)
    ensures n + m <= |name|
    ensures SlashesThenBackslashes(name, n + m, n)
    ensures n + m < |name| ==> name[n + m] != '\\'
    ensures '\\' !in name && n + m < |name| ==> name[n + m] != '/'
  {
    var rest := name[n..];
    forall i | n <= i < n + m ensures name[i] == '\\' {
      assert name[i] == rest[i - n];
    }
    if n + m < |name| {
      assert name[n + m] == rest[m];
    }
    if '\\' !in name && n < |name| {
      assert rest[0] == name[n];
      assert !IsBackslash(rest[0]);
    }
  }

  /** Where `safe_write` writes `filename`. */
  function WriteTarget(env: PathEnv, base: string, filename: string): string
  {
    env.resolve(JoinPath(env, base, StripLeadingSeparators(filename)))
  }

  /** `safe_write`, up to the write itself: the resolved path it writes, or why it refuses. */
  function SafeWrite(env: PathEnv, wd: Option<string>, filename: string): (r: Result<string>)
    ensures !IsOpen(wd) <==> r == Err(NoFolderOpen)
    ensures IsOpen(wd) ==>
      var target := WriteTarget(env, wd.value, filename);
      if InSandbox(env, wd.value, target) then r == Ok(target)
      else r == Err(PathTraversal(StripLeadingSeparators(filename)))
  {
    match GetBasePath(wd)
    case Err(e) => Err(e)
    case Ok(base) =>
      var name := StripLeadingSeparators(filename);
      var target := env.resolve(JoinPath(env, base, name));
      if !StartsWith(target, env.resolve(base)) then Err(PathTraversal(name)) else Ok(target)
  }

  /** `any(m in mode for m in ('w', 'a', 'x'))` */
  predicate IsWriteMode(mode: string)
  {
    'w' in mode || 'a' in mode || 'x' in mode
  }

  /** A path the sandboxed helpers accept: relative paths are taken from the base. */
  function Target(env: PathEnv, base: string, p: string): string
  {
    env.resolve(JoinPath(env, base, p))
  }

  /** `safe_open`, up to the `open` call: the path it opens, or the refusal. Only
      modes containing `w`, `a` or `x` are held to the sandbox; any other mode,
      including an update mode such as `r+`, opens anywhere. */
  function SafeOpen(env: PathEnv, wd: Option<string>, p: string, mode: string): (r: Result<string>)
    ensures !IsOpen(wd) <==> r == Err(NoFolderOpen)
    ensures IsOpen(wd) ==>
      (r.Ok? <==> !IsWriteMode(mode) || InSandbox(env, wd.value, Target(env, wd.value, p)))
    ensures IsOpen(wd) && r.Ok? ==> r.value == Target(env, wd.value, p)
    ensures IsOpen(wd) && r.Err? ==> r.error == WriteOutsideSandbox(Target(env, wd.value, p))
  {
    match GetBasePath(wd)
    case Err(e) => Err(e)
    case Ok(base) =>
      var path := env.resolve(JoinPath(env, base, p));
      if IsWriteMode(mode) && !StartsWith(path, env.resolve(base)) then Err(WriteOutsideSandbox(path))
      else Ok(path)
  }

  /** `safe_mkdir`, up to the `mkdir` call. */
  function SafeMkdir(env: PathEnv, wd: Option<string>, p: string): (r: Result<string>)
    ensures !IsOpen(wd) <==> r == Err(NoFolderOpen)
    ensures IsOpen(wd) ==> (r.Ok? <==> InSandbox(env, wd.value, Target(env, wd.value, p)))
    ensures IsOpen(wd) && r.Ok? ==> r.value == Target(env, wd.value, p)
    ensures IsOpen(wd) && r.Err? ==> r.error == MkdirOutsideSandbox(Target(env, wd.value, p))
  {
    match GetBasePath(wd)
    case Err(e) => Err(e)
    case Ok(base) =>
      var path := env.resolve(JoinPath(env, base, p));
      if !StartsWith(path, env.resolve(base)) then Err(MkdirOutsideSandbox(path)) else Ok(path)
  }

  /** `safe_delete`, up to the removal: the message it returns, or why it refuses.
      The sandbox test comes before the existence test. */
  function SafeDelete(env: PathEnv, wd: Option<string>, filename: string): (r: Result<string>)
    ensures !IsOpen(wd) <==> r == Err(NoFolderOpen)
    ensures IsOpen(wd) ==>
      var path := Target(env, wd.value, filename);
      && (!InSandbox(env, wd.value, path) <==> r == Err(DeleteOutsideSandbox(path)))
      && (InSandbox(env, wd.value, path) && env.kind(path) == Missing <==> r == Err(NotFound(path)))
      && (InSandbox(env, wd.value, path) && env.kind(path) == Other <==> r == Err(CannotDelete(path)))
      && (r.Ok? <==> InSandbox(env, wd.value, path) && env.kind(path) in {File, Dir})
      && (r.Ok? && env.kind(path) == File ==> r.value == "Deleted: " + filename)
      && (r.Ok? && env.kind(path) == Dir ==> r.value == "Deleted directory: " + filename)
  {
    match GetBasePath(wd)
    case Err(e) => Err(e)
    case Ok(base) =>
      var path := env.resolve(JoinPath(env, base, filename));
      if !StartsWith(path, env.resolve(base)) then Err(DeleteOutsideSandbox(path))
      else match env.kind(path)
        case Missing => Err(NotFound(path))
        case File => Ok("Deleted: " + filename)
        case Dir => Ok("Deleted directory: " + filename)
        case Other => Err(CannotDelete(path))
  }

  /** A filesystem in which `/w/app/../app2/notes.txt` resolves to the sibling
      folder's file and every other path is already canonical. */
  function SiblingResolve(p: string): string
  {
    if p == "/w/app/../app2/notes.txt" then "/w/app2/notes.txt" else p
  }

  const SIBLING_ENV := PathEnv(SiblingResolve, p => StartsWith(p, "/"), p => File)

  lemma SiblingNameKept()
    ensures StripLeadingSeparators("../app2/notes.txt") == "../app2/notes.txt"
  {
    var n := "../app2/notes.txt";
    var r := StripLeadingSeparators(n);
    assert n[0] == '.';
    assert |n| - |r| == 0;
  }

  lemma SiblingTarget()
    ensures WriteTarget(SIBLING_ENV, "/w/app", "../app2/notes.txt") == "/w/app2/notes.txt"
  {
    SiblingNameKept();
    SiblingJoin();
  }

  lemma SiblingJoin()
    ensures JoinPath(SIBLING_ENV, "/w/app", "../app2/notes.txt") == "/w/app/../app2/notes.txt"
  {
    var n := "../app2/notes.txt";
    assert !SIBLING_ENV.isAbsolute(n) by { assert n[0] != "/"[0]; }
  }

  /** The containment test compares strings, not path components: a sibling folder
      whose name extends the base's name passes it. */
  lemma SiblingFolderPassesSandbox()
    ensures SafeWrite(SIBLING_ENV, Some("/w/app"), "../app2/notes.txt") == Ok("/w/app2/notes.txt")
  {
    var wd := Some("/w/app");
    assert IsOpen(wd);
    SiblingTarget();
    SiblingInSandbox();
  }

  /** A filesystem in which every path resolves to itself. */
  const PLAIN_ENV := PathEnv(p => p, p => StartsWith(p, "/"), p => File)

  /** The mode test looks for `w`, `a` and `x` only: the update mode `r+`, which
      writes, opens a file outside the sandbox. */
  lemma UpdateModeOpensOutside()
    ensures !InSandbox(PLAIN_ENV, "/w/app", "/etc/passwd")
    ensures SafeOpen(PLAIN_ENV, Some("/w/app"), "/etc/passwd", "r+") == Ok("/etc/passwd")
  {
    assert "/etc/passwd"[1] != "/w/app"[1];
    assert !IsWriteMode("r+") by {
      assert forall i :: 0 <= i < |"r+"| ==> "r+"[i] == 'r' || "r+"[i] == '+';
    }
    assert PLAIN_ENV.isAbsolute("/etc/passwd") by {
      assert "/etc/passwd"[..1] == "/";
    }
  }

  lemma SiblingInSandbox()
    ensures InSandbox(SIBLING_ENV, "/w/app", "/w/app2/notes.txt")
  {
    assert SIBLING_ENV.resolve("/w/app") == "/w/app";
    assert "/w/app2/notes.txt"[..6] == "/w/app";
  }

  // ------------------------------------------------------------------
  // The code cleaner
  // ------------------------------------------------------------------

  const FINAL_SUFFIX := "\nfinal_answer(\"Done!\")"

  /** `re.match(r'^\d+\.\s+[A-Z]', s)`: digits, a dot, whitespace, a capital letter.
      Both runs are maximal, so the greedy match needs no backtracking. */
  predicate IsNumberedHeading(s: string)
  {
    var d := LeadingRun(s, IsAsciiDigit);
    && 1 <= d < |s| && s[d] == '.'
    && var rest := s[d + 1..];
       var w := LeadingRun(rest, IsSpace);
       1 <= w < |rest| && IsAsciiUpper(rest[w])
  }

  /** A line of model chatter that the cleaner drops. */
  predicate IsNoiseLine(line: string)
  {
    var t := Strip(line);
    StartsWith(t, "Thought:") || StartsWith(t, "Code:") || IsNumberedHeading(t)
  }

  predicate IsCodeLine(line: string)
  {
    !IsNoiseLine(line)
  }

  /** The lines of `code.split('\n')` that the cleaner keeps, in their order. */
  function KeptLines(code: string): seq<string>
  {
    Filter(Split(code, '\n'), IsCodeLine)
  }

  /** The stripped, newline-joined kept lines. */
  function Cleaned(code: string): string
  {
    Strip(Join(KeptLines(code), "\n"))
  }

  /** `clean_code_output` */
  function CleanCodeOutput(code: string): (r: string)
    ensures var cleaned := Cleaned(code);
      && (cleaned == "" ==> r == code)
      && (cleaned != "" ==> StartsWith(r, cleaned) && Contains(r, "final_answer"))
      && (cleaned != "" ==> (r == cleaned <==> Contains(cleaned, "final_answer")))
      && (cleaned != "" && r != cleaned ==> r == cleaned + FINAL_SUFFIX)
  {
    var result := Cleaned(code);
    if result == "" then code
    else if Contains(result, "final_answer") then result
    else
      CompletedHasFinalAnswer(result);
      result + FINAL_SUFFIX
  }

  /** Appending the suffix keeps the code as a prefix and adds a `final_answer` call. */
  lemma CompletedHasFinalAnswer(code: string)
    ensures StartsWith(code + FINAL_SUFFIX, code)
    ensures Contains(code + FINAL_SUFFIX, "final_answer")
  {
    assert FINAL_SUFFIX[1..1 + |"final_answer"|] == "final_answer";
    ContainsWithin(FINAL_SUFFIX, "final_answer", 1);
    ContainsSuffix(code, FINAL_SUFFIX, "final_answer");
    assert (code + FINAL_SUFFIX)[..|code|] == code;
  }

  /** Every kept line is code, every code line is kept, and the filter keeps order
      across any split of the input lines. */
  lemma {:induction false} KeptLinesExact(a: seq<string>, b: seq<string>)
    ensures Filter(a + b, IsCodeLine) == Filter(a, IsCodeLine) + Filter(b, IsCodeLine)
    ensures forall l :: l in Filter(a + b, IsCodeLine) <==> l in a + b && !IsNoiseLine(l)
  {
    FilterAppend(a, b, IsCodeLine);
    FilterMembers(a + b, IsCodeLine);
  }

  /** A code blob without chatter lines is only stripped, then completed with a
      `final_answer` call when it has none. */
  lemma {:induction false} CleanCodeWithoutNoise(code: string)
    requires forall i :: 0 <= i < |Split(code, '\n')| ==> !IsNoiseLine(Split(code, '\n')[i])
    requires Strip(code) != ""
    ensures CleanCodeOutput(code) ==
      if Contains(Strip(code), "final_answer") then Strip(code) else Strip(code) + FINAL_SUFFIX
  {
    FilterAll(Split(code, '\n'), IsCodeLine);
    JoinSplit(code, '\n');
  }

  // ------------------------------------------------------------------
  // The reply of one task
  // ------------------------------------------------------------------

  /** What `agent.run(task, stream=True)` yields; outputs are already `str(...)`. */
  datatype Step =
    | ToolCallStep(name: string)
    | ActionStep(error: Option<string>, isFinalAnswer: bool, actionOutput: Option<string>)
    | FinalAnswerStep(output: string)
    | ToolOutputStep(observation: string)
    | StreamDelta

  /** The answer a step records, if any. */
  function StepAnswer(s: Step): Option<string>
  {
    match s
    case ActionStep(_, isFinal, out) => if isFinal && out.Some? then out else None
    case FinalAnswerStep(out) => Some(out)
    case _ => None
  }

  /** The answer of the last step that records one. */
  function LastAnswer(steps: seq<Step>): (r: Option<string>)
    ensures r.None? <==> forall i :: 0 <= i < |steps| ==> StepAnswer(steps[i]).None?
  {
    if steps == [] then None
    else
      var last := StepAnswer(steps[|steps| - 1]);
      if last.Some? then last
      else
        var r := LastAnswer(steps[..|steps| - 1]);
        assert forall i :: 0 <= i < |steps| - 1 ==> steps[..|steps| - 1][i] == steps[i];
        r
  }

  /** An answering step followed only by steps without answers supplies the answer. */
  lemma {:induction false} LastAnswerIsLatest(steps: seq<Step>, i: nat)
    requires i < |steps| && StepAnswer(steps[i]).Some?
    requires forall j :: i < j < |steps| ==> StepAnswer(steps[j]).None?
    ensures LastAnswer(steps) == StepAnswer(steps[i])
    decreases |steps|
  {
    if i < |steps| - 1 {
      var init := steps[..|steps| - 1];
      assert StepAnswer(steps[|steps| - 1]).None?;
      assert init[i] == steps[i];
      assert forall j :: i < j < |init| ==> init[j] == steps[j];
      LastAnswerIsLatest(init, i);
    }
  }

  const TASK_COMPLETED := "Task completed."

  /** The single string `execute_stream` yields for a run that produced `steps`
      and then raised `raised`, if it raised. */
  function StreamReply(steps: seq<Step>, raised: Option<string>): string
  {
    if raised.Some? then "Error: " + raised.value
    else match LastAnswer(steps)
      case Some(a) => if a != "" then a else TASK_COMPLETED
      case None => TASK_COMPLETED
  }

  /** Without an exception, the reply is the answer of the last answering step when
      that answer is non-empty, and "Task completed." otherwise. */
  lemma {:induction false} ReplyIsLastAnswer(steps: seq<Step>, i: nat)
    requires i < |steps| && StepAnswer(steps[i]).Some?
    requires forall j :: i < j < |steps| ==> StepAnswer(steps[j]).None?
    ensures var a := StepAnswer(steps[i]).value;
      StreamReply(steps, None) == if a != "" then a else TASK_COMPLETED
  {
    LastAnswerIsLatest(steps, i);
  }

  /** `OmniAgent.execute_stream`: the loop over the steps keeps the latest answer. */
  method ExecuteStream(steps: seq<Step>, raised: Option<string>) returns (yielded: seq<string>)
    ensures yielded == [StreamReply(steps, raised)]
  {
    var finalAnswer: Option<string> := None;
    var i := 0;
    while i < |steps|
      invariant 0 <= i <= |steps|
      invariant finalAnswer == LastAnswer(steps[..i])
    {
      assert steps[..i + 1][..i] == steps[..i];
      match steps[i] {
        case ActionStep(_, isFinal, out) =>
          if isFinal && out.Some? {
            finalAnswer := out;
          }
        case FinalAnswerStep(out) =>
          finalAnswer := Some(out);
        case _ =>
      }
      i := i + 1;
    }
    assert steps[..i] == steps;
    if raised.Some? {
      yielded := ["Error: " + raised.value];
    } else if finalAnswer.Some? && finalAnswer.value != "" {
      yielded := [finalAnswer.value];
    } else {
      yielded := [TASK_COMPLETED];
    }
  }
}
