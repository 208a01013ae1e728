/** The legacy cleanup script: it moves dead files and folders of the backend into
    a backup folder, rewrites `requirements.txt`, and moves everything back when
    the smoke test fails. */
module Cleanup {
  import opened Strings

  const DEAD_FILES: seq<string> := [
    "qa_test_phase2.py", "qa_test_phase3.py", "qa_test_phase4.py", "qa_test_phase45.py",
    "qa_test_phase5_api.py", "qa_test_phase5_staging.py", "qa_test_phase6_router.py",
    "qa_test_autopip.py", "qa_test_memory_phase6.py", "qa_audit.py", "test_analytics.py",
    "test_explainability.py", "test_feedback.py", "test_templates.py", "verify_gatekeeper.py",
    "verify_ux_polish.py", "validate_env.py", "status_report.txt"]
  const DEAD_DIRS: seq<string> := ["myproject", "testproject", "project", "webapp", "book"]
  const DEAD_DEPS: seq<string> := ["huggingface_hub"]
  const REQUIREMENTS := "requirements.txt"
  const REQUIREMENTS_BAK := "requirements.txt.bak"
  const LITELLM_LINE := "litellm\n"

  // ------------------------------------------------------------------
  // Rewriting requirements.txt (lines keep their "\n", as `readlines` gives them)
  // ------------------------------------------------------------------

  /** `any(dep in stripped for dep in DEAD_DEPS)` */
  predicate IsDeadDep(line: string)
  {
    exists k :: 0 <= k < |DEAD_DEPS| && Contains(Strip(line), DEAD_DEPS[k])
  }

  /** `line.strip().startswith("#")` */
  predicate IsComment(line: string)
  {
    StartsWith(Strip(line), "#")
  }

  predicate MentionsSmolagents(line: string) { Contains(line, "smolagents") }

  predicate MentionsLitellm(line: string) { Contains(line, "litellm") }

  function Not(p: string -> bool): string -> bool
  {
    l => !p(l)
  }

  function Neither(p: string -> bool, q: string -> bool): string -> bool
  {
    l => !p(l) && !q(l)
  }

  /** The first loop of `clean_requirements` for any notion of dead line and comment:
      a dead line is dropped together with the comment line most recently kept
      before it. */
  function DropDead(lines: seq<string>, dead: string -> bool, comment: string -> bool): seq<string>
  {
    if lines == [] then []
    else
      var kept := DropDead(lines[..|lines| - 1], dead, comment);
      var line := lines[|lines| - 1];
      if dead(line) then
        if kept != [] && comment(kept[|kept| - 1]) then kept[..|kept| - 1] else kept
      else kept + [line]
  }

  /** Every kept line is an input line and no dead line survives. */
  lemma {:induction false} DropDeadSound(lines: seq<string>, dead: string -> bool, comment: string -> bool)
    ensures forall l :: l in DropDead(lines, dead, comment) ==> l in lines && !dead(l)
  {
    if lines != [] {
      var init := lines[..|lines| - 1];
      DropDeadSound(init, dead, comment);
      var kept := DropDead(init, dead, comment);
      assert forall l :: l in init ==> l in lines;
      if kept != [] {
        assert forall l :: l in kept[..|kept| - 1] ==> l in kept;
      }
    }
  }

  /** Apart from comments, exactly the lines that are neither dead nor comments are
      kept, in their order. */
  lemma {:induction false} DropDeadKeepsLive(lines: seq<string>, dead: string -> bool, comment: string -> bool)
    ensures Filter(DropDead(lines, dead, comment), Not(comment)) == Filter(lines, Neither(dead, comment))
  {
    if lines != [] {
      var init := lines[..|lines| - 1];
      var line := lines[|lines| - 1];
      var kept := DropDead(init, dead, comment);
      DropDeadKeepsLive(init, dead, comment);
      assert lines == init + [line];
      FilterAppend(init, [line], Neither(dead, comment));
      if dead(line) {
        if kept != [] && comment(kept[|kept| - 1]) {
          var head := kept[..|kept| - 1];
          assert kept == head + [kept[|kept| - 1]];
          FilterAppend(head, [kept[|kept| - 1]], Not(comment));
        }
      } else {
        FilterAppend(kept, [line], Not(comment));
      }
    }
  }

  /** Each dead line costs its own line and at most one comment line. */
  lemma {:induction false} DropDeadBounds(lines: seq<string>, dead: string -> bool, comment: string -> bool)
    ensures var n := |Filter(lines, dead)|;
      |lines| - 2 * n <= |DropDead(lines, dead, comment)| <= |lines| - n
  {
    if lines != [] {
      var init := lines[..|lines| - 1];
      var line := lines[|lines| - 1];
      DropDeadBounds(init, dead, comment);
      assert lines == init + [line];
      FilterAppend(init, [line], dead);
    }
  }

  /** One more input line, as the loop sees it. */
  lemma DropDeadSnoc(lines: seq<string>, line: string, dead: string -> bool, comment: string -> bool)
    ensures var kept := DropDead(lines, dead, comment);
      DropDead(lines + [line], dead, comment) ==
        if !dead(line) then kept + [line]
        else if kept != [] && comment(kept[|kept| - 1]) then kept[..|kept| - 1]
        else kept
  {
    assert (lines + [line])[..|lines|] == lines;
  }

  /** Two comments above two dead lines are both taken: the second dead line takes
      the comment that the first one left exposed. */
  lemma CommentsCascade(c1: string, c2: string, d1: string, d2: string, dead: string -> bool, comment: string -> bool)
    requires comment(c1) && comment(c2) && !dead(c1) && !dead(c2) && dead(d1) && dead(d2)
    ensures DropDead([c1, c2, d1, d2], dead, comment) == []
  {
    DropDeadSnoc([], c1, dead, comment);
    assert [] + [c1] == [c1];
    DropDeadSnoc([c1], c2, dead, comment);
    assert [c1] + [c2] == [c1, c2];
    DropDeadSnoc([c1, c2], d1, dead, comment);
    assert [c1, c2] + [d1] == [c1, c2, d1];
    assert [c1, c2][..1] == [c1];
    DropDeadSnoc([c1, c2, d1], d2, dead, comment);
    assert [c1, c2, d1] + [d2] == [c1, c2, d1, d2];
    assert [c1][..0] == [];
  }

  /** The second loop of `clean_requirements` for any marker and added line: `extra`
      after every marked line. */
  function InsertAfter(lines: seq<string>, mark: string -> bool, extra: string): seq<string>
  {
    if lines == [] then []
    else
      var line := lines[|lines| - 1];
      InsertAfter(lines[..|lines| - 1], mark, extra) + [line] + (if mark(line) then [extra] else [])
  }

  function IsNot(x: string): string -> bool
  {
    l => l != x
  }

  /** Dropping the inserted lines gives back the input. */
  lemma {:induction false} InsertAfterRemovable(lines: seq<string>, mark: string -> bool, extra: string)
    requires extra !in lines
    ensures Filter(InsertAfter(lines, mark, extra), IsNot(extra)) == lines
  {
    if lines != [] {
      var init := lines[..|lines| - 1];
      var line := lines[|lines| - 1];
      assert extra !in init;
      InsertAfterRemovable(init, mark, extra);
      var more := if mark(line) then [extra] else [];
      var prev := InsertAfter(init, mark, extra);
      FilterAppend(prev + [line], more, IsNot(extra));
      FilterAppend(prev, [line], IsNot(extra));
      assert Filter([line], IsNot(extra)) == [line] by {
        assert IsNot(extra)(line);
        assert [line][1..] == [];
      }
      assert Filter(more, IsNot(extra)) == [] by {
        if more != [] {
          assert !IsNot(extra)(more[0]);
          assert more[1..] == [];
        }
      }
      assert lines == init + [line];
    }
  }

  /** One inserted line per marked line. */
  lemma {:induction false} InsertAfterCount(lines: seq<string>, mark: string -> bool, extra: string)
    requires extra !in lines
    ensures multiset(InsertAfter(lines, mark, extra))[extra] == |Filter(lines, mark)|
  {
    if lines != [] {
      var init := lines[..|lines| - 1];
      var line := lines[|lines| - 1];
      assert extra !in init;
      InsertAfterCount(init, mark, extra);
      assert lines == init + [line];
      FilterAppend(init, [line], mark);
    }
  }

  /** Every line is an input line or the inserted one. */
  lemma {:induction false} InsertAfterLines(lines: seq<string>, mark: string -> bool, extra: string)
    ensures forall l :: l in InsertAfter(lines, mark, extra) ==> l in lines || l == extra
  {
    if lines != [] {
      var init := lines[..|lines| - 1];
      InsertAfterLines(init, mark, extra);
      assert forall l :: l in init ==> l in lines;
    }
  }

  /** Every marked line is directly followed by `extra`. */
  predicate FollowsEveryMark(r: seq<string>, mark: string -> bool, extra: string)
  {
    forall j :: 0 <= j < |r| && mark(r[j]) ==> j + 1 < |r| && r[j + 1] == extra
  }

  /** Every `extra` line directly follows a marked line. */
  predicate OnlyAfterMarks(r: seq<string>, mark: string -> bool, extra: string)
  {
    forall j :: 0 <= j < |r| && r[j] == extra ==> j > 0 && mark(r[j - 1])
  }

  /** Where the inserted lines go: right after each marked line and nowhere else. */
  lemma {:induction false} InsertAfterPlacement(lines: seq<string>, mark: string -> bool, extra: string)
    requires !mark(extra) && extra !in lines
    ensures FollowsEveryMark(InsertAfter(lines, mark, extra), mark, extra)
    ensures OnlyAfterMarks(InsertAfter(lines, mark, extra), mark, extra)
  {
    if lines != [] {
      var init := lines[..|lines| - 1];
      var line := lines[|lines| - 1];
      assert extra !in init;
      InsertAfterPlacement(init, mark, extra);
      var prev := InsertAfter(init, mark, extra);
      var r := InsertAfter(lines, mark, extra);
      assert r == prev + [line] + (if mark(line) then [extra] else []);
      assert line != extra;
      forall j | 0 <= j < |r| && mark(r[j]) ensures j + 1 < |r| && r[j + 1] == extra {
        if j < |prev| {
          assert prev[j] == r[j];
        }
      }
      forall j | 0 <= j < |r| && r[j] == extra ensures j > 0 && mark(r[j - 1]) {
        if j < |prev| {
          assert prev[j] == r[j];
        }
      }
    }
  }

  predicate HasLitellm(lines: seq<string>)
  {
    exists i :: 0 <= i < |lines| && MentionsLitellm(lines[i])
  }

  /** The new contents of `requirements.txt`. */
  function CleanedRequirements(lines: seq<string>): seq<string>
  {
    var kept := DropDead(lines, IsDeadDep, IsComment);
    if HasLitellm(kept) then kept else InsertAfter(kept, MentionsSmolagents, LITELLM_LINE)
  }

  lemma LitellmLineFacts()
    ensures MentionsLitellm(LITELLM_LINE)
    ensures !IsDeadDep(LITELLM_LINE)
    ensures !MentionsSmolagents(LITELLM_LINE)
  {
    if MentionsSmolagents(LITELLM_LINE) {
      ContainsLength(LITELLM_LINE, "smolagents");
      assert false;
    }
    assert LITELLM_LINE[..7] == "litellm";
    assert StartsWith(LITELLM_LINE, "litellm");
    if Contains(Strip(LITELLM_LINE), DEAD_DEPS[0]) {
      ContainsLength(Strip(LITELLM_LINE), DEAD_DEPS[0]);
      assert false;
    }
  }

  /** No dead dependency is left. When a `litellm` line survives, the kept lines
      are the result. Otherwise the lines other than comments and the added
      `litellm` line are the live requirement lines of the input in order, one
      `litellm` line directly follows each `smolagents` line, and every added line
      directly follows a `smolagents` line. */
  lemma CleanedRequirementsProperties(lines: seq<string>)
    ensures forall l :: l in CleanedRequirements(lines) ==> !IsDeadDep(l)
    ensures var kept := DropDead(lines, IsDeadDep, IsComment);
      HasLitellm(kept) ==> CleanedRequirements(lines) == kept
    ensures var kept := DropDead(lines, IsDeadDep, IsComment);
      !HasLitellm(kept) ==>
        && Filter(Filter(CleanedRequirements(lines), IsNot(LITELLM_LINE)), Not(IsComment))
             == Filter(lines, Neither(IsDeadDep, IsComment))
        && multiset(CleanedRequirements(lines))[LITELLM_LINE] == |Filter(kept, MentionsSmolagents)|
        && FollowsEveryMark(CleanedRequirements(lines), MentionsSmolagents, LITELLM_LINE)
        && OnlyAfterMarks(CleanedRequirements(lines), MentionsSmolagents, LITELLM_LINE)
  {
    var kept := DropDead(lines, IsDeadDep, IsComment);
    DropDeadSound(lines, IsDeadDep, IsComment);
    DropDeadKeepsLive(lines, IsDeadDep, IsComment);
    LitellmLineFacts();
    if !HasLitellm(kept) {
      assert LITELLM_LINE !in kept;
      InsertAfterRemovable(kept, MentionsSmolagents, LITELLM_LINE);
      InsertAfterCount(kept, MentionsSmolagents, LITELLM_LINE);
      InsertAfterLines(kept, MentionsSmolagents, LITELLM_LINE);
      InsertAfterPlacement(kept, MentionsSmolagents, LITELLM_LINE);
    }
  }

  // ------------------------------------------------------------------
  // The backend folder and its backup folder
  // ------------------------------------------------------------------

  /** A path the script touches: `BACKEND_DIR/name` or `BACKUP_DIR/name`. */
  datatype Loc = Live(name: string) | Backup(name: string)

  /** What sits at a path: a file's lines, or a directory tree known by identity. */
  datatype Content = FileContent(lines: seq<string>) | DirContent(tree: nat)

  /** The `(src, dst)` pair a backup returns. */
  datatype Moved = Moved(src: Loc, dst: Loc)

  /** `shutil.move(a, b)`: `b` now holds what `a` held, and `a` is gone. */
  function MoveEntry(m: map<Loc, Content>, a: Loc, b: Loc): (r: map<Loc, Content>)
    requires a in m && a != b
    ensures a !in r && b in r && r[b] == m[a]
  {
    (m - {a})[b := m[a]]
  }

  function LivesOf(s: set<string>): set<Loc> { set n | n in s :: Live(n) }

  function BackupsOf(s: set<string>): set<Loc> { set n | n in s :: Backup(n) }

  /** The folder after every name of `s` present in it was moved to the backup. */
  function Stashed(m: map<Loc, Content>, s: set<string>): map<Loc, Content>
  {
    map l | l in (m.Keys - LivesOf(s)) + (set n | n in s && Live(n) in m :: Backup(n)) ::
      if l.Backup? && l.name in s && Live(l.name) in m then m[Live(l.name)] else m[l]
  }

  /** The folder after every name of `s` with a backup was moved back. */
  function Restored(m: map<Loc, Content>, s: set<string>): map<Loc, Content>
  {
    map l | l in (m.Keys - BackupsOf(s)) + (set n | n in s && Backup(n) in m :: Live(n)) ::
      if l.Live? && l.name in s && Backup(l.name) in m then m[Backup(l.name)] else m[l]
  }

  /** One more backup step extends the stashed set when the name is present. */
  lemma StashStep(m: map<Loc, Content>, s: set<string>, n: string)
    ensures var st := Stashed(m, s);
      && (Live(n) in st <==> Live(n) in m && n !in s)
      && (Live(n) in st ==> MoveEntry(st, Live(n), Backup(n)) == Stashed(m, s + {n}))
      && (Live(n) !in st ==> st == Stashed(m, if Live(n) in m then s + {n} else s))
  {
    var st := Stashed(m, s);
    assert Live(n) in st <==> Live(n) in m && n !in s by {
      assert Live(n) in LivesOf(s) <==> n in s;
    }
    if Live(n) in st {
      var a := MoveEntry(st, Live(n), Backup(n));
      var b := Stashed(m, s + {n});
      assert a.Keys == b.Keys by {
        forall l ensures l in a <==> l in b {
          if l.Live? { assert l in LivesOf(s) <==> l.name in s; assert l in LivesOf(s + {n}) <==> l.name in s + {n}; }
        }
      }
    } else if Live(n) in m {
      var b := Stashed(m, s + {n});
      assert st.Keys == b.Keys by {
        forall l ensures l in st <==> l in b {
          if l.Live? { assert l in LivesOf(s) <==> l.name in s; assert l in LivesOf(s + {n}) <==> l.name in s + {n}; }
        }
      }
      assert s + {n} == s;
    } else {
      var b := Stashed(m, s);
      assert st == b;
    }
  }

  /** One more restore step extends the restored set. */
  lemma RestoreStep(m: map<Loc, Content>, s: set<string>, n: string)
    ensures var rs := Restored(m, s);
      && (Backup(n) in rs <==> Backup(n) in m && n !in s)
      && (Backup(n) in rs ==> MoveEntry(rs, Backup(n), Live(n)) == Restored(m, s + {n}))
      && (Backup(n) !in rs ==> rs == Restored(m, s + {n}))
  {
    var rs := Restored(m, s);
    assert Backup(n) in rs <==> Backup(n) in m && n !in s by {
      assert Backup(n) in BackupsOf(s) <==> n in s;
    }
    if Backup(n) in rs {
      RestoreMoves(m, s, n);
    } else {
      RestoreSkips(m, s, n);
    }
  }

  lemma RestoreMoves(m: map<Loc, Content>, s: set<string>, n: string)
    requires Backup(n) in m && n !in s
    ensures Backup(n) in Restored(m, s)
    ensures MoveEntry(Restored(m, s), Backup(n), Live(n)) == Restored(m, s + {n})
  {
    var rs := Restored(m, s);
    assert Backup(n) !in BackupsOf(s);
    var a := MoveEntry(rs, Backup(n), Live(n));
    var b := Restored(m, s + {n});
    assert a.Keys == b.Keys by {
      forall l ensures l in a <==> l in b {
        if l.Backup? { assert l in BackupsOf(s) <==> l.name in s; assert l in BackupsOf(s + {n}) <==> l.name in s + {n}; }
      }
    }
  }

  lemma RestoreSkips(m: map<Loc, Content>, s: set<string>, n: string)
    requires Backup(n) !in Restored(m, s)
    ensures Restored(m, s) == Restored(m, s + {n})
  {
    var rs := Restored(m, s);
    var b := Restored(m, s + {n});
    assert rs.Keys == b.Keys by {
      forall l ensures l in rs <==> l in b {
        if l.Backup? { assert l in BackupsOf(s) <==> l.name in s; assert l in BackupsOf(s + {n}) <==> l.name in s + {n}; }
      }
    }
    if n in s {
      assert s + {n} == s;
    }
  }

  /** The names of `names` present in the folder `m`. */
  function Present(m: map<Loc, Content>, names: seq<string>): set<string>
  {
    set n | n in names && Live(n) in m
  }

  lemma PresentStep(m: map<Loc, Content>, names: seq<string>, i: nat)
    requires i < |names|
    ensures Present(m, names[..i + 1]) ==
      Present(m, names[..i]) + (if Live(names[i]) in m then {names[i]} else {})
  {
    assert names[..i + 1] == names[..i] + [names[i]];
  }

  /** The names a list of `(src, dst)` pairs moved. */
  function NamesOf(moved: seq<Moved>): set<string>
  {
    if moved == [] then {} else NamesOf(moved[..|moved| - 1]) + {moved[|moved| - 1].dst.name}
  }

  lemma NamesOfSnoc(moved: seq<Moved>, x: Moved)
    ensures NamesOf(moved + [x]) == NamesOf(moved) + {x.dst.name}
  {
    assert (moved + [x])[..|moved|] == moved;
  }

  predicate BackupPairs(moved: seq<Moved>)
  {
    forall k :: 0 <= k < |moved| ==>
      moved[k] == Moved(Live(moved[k].dst.name), Backup(moved[k].dst.name))
  }

  /** Everything the cleanup moves: the dead files and folders present at the start. */
  function DeadPresent(m: map<Loc, Content>): set<string>
  {
    Present(m, DEAD_FILES) + Present(m, DEAD_DIRS)
  }

  predicate RequirementsReadable(m: map<Loc, Content>)
  {
    Live(REQUIREMENTS) in m && m[Live(REQUIREMENTS)].FileContent?
  }

  /** The folder after `clean_requirements` read `lines`. */
  function Rewritten(m: map<Loc, Content>, lines: seq<string>): map<Loc, Content>
  {
    m[Backup(REQUIREMENTS_BAK) := FileContent(lines)][Live(REQUIREMENTS) := FileContent(CleanedRequirements(lines))]
  }

  /** Neither the requirements file nor its backup has a dead name. */
  lemma RequirementsNotDead()
    ensures REQUIREMENTS !in DEAD_FILES && REQUIREMENTS !in DEAD_DIRS
    ensures REQUIREMENTS_BAK !in DEAD_FILES && REQUIREMENTS_BAK !in DEAD_DIRS
  {
    forall k | 0 <= k < |DEAD_FILES| ensures DEAD_FILES[k] != REQUIREMENTS && DEAD_FILES[k] != REQUIREMENTS_BAK {
      assert DEAD_FILES[k][|DEAD_FILES[k]| - 1] != REQUIREMENTS[|REQUIREMENTS| - 1] ||
             |DEAD_FILES[k]| != |REQUIREMENTS|;
    }
  }

  /** When no backup of a moved name existed beforehand, a failed smoke test leaves
      the folder as it was, plus the backup copy of `requirements.txt`. */
  lemma RollbackIsExact(m: map<Loc, Content>)
    requires RequirementsReadable(m)
    requires forall n :: n in DeadPresent(m) ==> Backup(n) !in m
    ensures var p := DeadPresent(m);
      Restored(Rewritten(Stashed(m, p), m[Live(REQUIREMENTS)].lines), p)[Live(REQUIREMENTS) := m[Live(REQUIREMENTS)]]
        == m[Backup(REQUIREMENTS_BAK) := m[Live(REQUIREMENTS)]]
  {
    var p := DeadPresent(m);
    RequirementsNotDead();
    assert REQUIREMENTS !in p && REQUIREMENTS_BAK !in p;
    var req := m[Live(REQUIREMENTS)];
    var st := Stashed(m, p);
    var e := Rewritten(st, req.lines);
    var r := Restored(e, p)[Live(REQUIREMENTS) := req];
    var g := m[Backup(REQUIREMENTS_BAK) := req];
    forall l ensures (l in r <==> l in g) && (l in r ==> r[l] == g[l]) {
      assert l in LivesOf(p) <==> l.Live? && l.name in p;
      assert l in BackupsOf(p) <==> l.Backup? && l.name in p;
      if l.Live? && l.name in p {
        assert Live(l.name) in m;
        assert Backup(l.name) in st && st[Backup(l.name)] == m[l];
        assert Backup(l.name) in e && e[Backup(l.name)] == m[l];
      } else if l.Backup? && l.name in p {
        assert l !in g;
      }
    }
    assert r == g;
  }

  /** What the script ends with. */
  datatype Outcome = Crashed | Exited(code: int)

  /** What `run_smoke_test` does: return True, return False, or raise out of
      `subprocess.run` (a 30-second timeout, or an interpreter that will not
      start), which nothing catches. */
  datatype Smoke = Passed | Failed | Raised

  /** The backend folder and its backup folder. */
  class Workspace {
    var entries: map<Loc, Content>

    constructor (initial: map<Loc, Content>)
      ensures entries == initial
    {
      entries := initial;
    }

    /** `backup_file`: a missing file is skipped; otherwise it moves to the backup,
        replacing a backup of the same name. */
    method BackupFile(name: string) returns (moved: Option<Moved>)
      modifies this
      ensures Live(name) !in old(entries) ==> moved == None && entries == old(entries)
      ensures Live(name) in old(entries) ==>
        && moved == Some(Moved(Live(name), Backup(name)))
        && entries == MoveEntry(old(entries), Live(name), Backup(name))
    {
      if Live(name) !in entries {
        return None;
      }
      entries := MoveEntry(entries, Live(name), Backup(name));
      moved := Some(Moved(Live(name), Backup(name)));
    }

    /** `backup_dir`: as `backup_file`, removing a stale backup tree before the move. */
    method BackupDir(name: string) returns (moved: Option<Moved>)
      modifies this
      ensures Live(name) !in old(entries) ==> moved == None && entries == old(entries)
      ensures Live(name) in old(entries) ==>
        && moved == Some(Moved(Live(name), Backup(name)))
        && entries == MoveEntry(old(entries), Live(name), Backup(name))
    {
      if Live(name) !in entries {
        return None;
      }
      if Backup(name) in entries {
        entries := entries - {Backup(name)};
      }
      entries := entries[Backup(name) := entries[Live(name)]] - {Live(name)};
      moved := Some(Moved(Live(name), Backup(name)));
    }

    /** `backup_dir(name)` when the loop is over folders, else `backup_file(name)`. */
    method BackupEntry(name: string, dirs: bool) returns (moved: Option<Moved>)
      modifies this
      ensures Live(name) !in old(entries) ==> moved == None && entries == old(entries)
      ensures Live(name) in old(entries) ==>
        && moved == Some(Moved(Live(name), Backup(name)))
        && entries == MoveEntry(old(entries), Live(name), Backup(name))
    {
      if dirs {
        moved := BackupDir(name);
      } else {
        moved := BackupFile(name);
      }
    }

    /** `restore_file` and `restore_dir`: move the backup back when it is there. */
    method Restore(src: Loc, dst: Loc)
      requires src != dst
      modifies this
      ensures dst in old(entries) ==> entries == MoveEntry(old(entries), dst, src)
      ensures dst !in old(entries) ==> entries == old(entries)
    {
      if dst in entries {
        entries := MoveEntry(entries, dst, src);
      }
    }

    /** `clean_requirements`: back up the file's lines, then write the cleaned lines. */
    method CleanRequirements() returns (done: bool)
      modifies this
      ensures done <==> RequirementsReadable(old(entries))
      ensures !done ==> entries == old(entries)
      ensures done ==> entries == Rewritten(old(entries), old(entries)[Live(REQUIREMENTS)].lines)
    {
      if !RequirementsReadable(entries) {
        return false;
      }
      var lines := entries[Live(REQUIREMENTS)].lines;
      entries := entries[Backup(REQUIREMENTS_BAK) := FileContent(lines)];
      var cleaned := DropDeadLines(lines, IsDeadDep, IsComment);
      if !HasLitellm(cleaned) {
        cleaned := InsertAfterLoop(cleaned, MentionsSmolagents, LITELLM_LINE);
      }
      entries := entries[Live(REQUIREMENTS) := FileContent(cleaned)];
      done := true;
    }

    /** One of the two backup loops of the main flow, over `names`, with the
        folder so far being `m` with the names of `s` already stashed. */
    method BackupAll(names: seq<string>, dirs: bool, ghost m: map<Loc, Content>, ghost s: set<string>)
      returns (moved: seq<Moved>)
      requires entries == Stashed(m, s)
      modifies this
      ensures entries == Stashed(m, s + Present(m, names))
      ensures s + NamesOf(moved) == s + Present(m, names) && BackupPairs(moved)
    {
      moved := [];
      var i := 0;
      while i < |names|
        invariant 0 <= i <= |names|
        invariant BackedUp(m, s, names[..i], entries, moved)
      {
        ghost var e0 := entries;
        var r := BackupEntry(names[i], dirs);
        var next := if r.Some? then moved + [r.value] else moved;
        BackupLoopStep(m, s, names, i, e0, entries, moved, r, next);
        moved := next;
        i := i + 1;
        assert BackedUp(m, s, names[..i], entries, moved);
      }
      assert names[..i] == names;
    }

    /** One of the two restore loops of the rollback, the folder so far being `e`
        with the names of `t` already restored. */
    method RestoreAll(moved: seq<Moved>, ghost e: map<Loc, Content>, ghost t: set<string>)
      requires BackupPairs(moved) && entries == Restored(e, t)
      modifies this
      ensures entries == Restored(e, t + NamesOf(moved))
    {
      var k := 0;
      while k < |moved|
        invariant 0 <= k <= |moved|
        invariant entries == Restored(e, t + NamesOf(moved[..k]))
      {
        ghost var e0 := entries;
        Restore(moved[k].src, moved[k].dst);
        RestoreLoopStep(e, t, moved, k, e0, entries);
        k := k + 1;
      }
      assert moved[..k] == moved;
    }

    /** The script's main flow. A missing or unreadable `requirements.txt` crashes
        it after the moves, and a smoke test that raises crashes it after the
        rewrite; in both cases nothing is moved back. */
    method RunCleanup(smoke: Smoke) returns (outcome: Outcome)
      modifies this
      ensures var p := DeadPresent(old(entries));
        && (!RequirementsReadable(old(entries)) ==>
              outcome == Crashed && entries == Stashed(old(entries), p))
        && (RequirementsReadable(old(entries)) && smoke.Raised? ==>
              && outcome == Crashed
              && entries == Rewritten(Stashed(old(entries), p), old(entries)[Live(REQUIREMENTS)].lines))
        && (RequirementsReadable(old(entries)) && smoke.Passed? ==>
              && outcome == Exited(0)
              && entries == Rewritten(Stashed(old(entries), p), old(entries)[Live(REQUIREMENTS)].lines))
        && (RequirementsReadable(old(entries)) && smoke.Failed? ==>
              && outcome == Exited(1)
              && entries == Restored(Rewritten(Stashed(old(entries), p), old(entries)[Live(REQUIREMENTS)].lines), p)
                               [Live(REQUIREMENTS) := old(entries)[Live(REQUIREMENTS)]])
    {
      ghost var m := entries;
      ghost var pf := Present(m, DEAD_FILES);
      ghost var p := DeadPresent(m);
      StashedNothing(m);
      var movedFiles := BackupAll(DEAD_FILES, false, m, {});
      assert {} + pf == pf && {} + NamesOf(movedFiles) == NamesOf(movedFiles);
      var movedDirs := BackupAll(DEAD_DIRS, true, m, pf);
      assert entries == Stashed(m, p);
      RequirementsUntouched(m, p);
      var done := CleanRequirements();
      if !done {
        return Crashed;
      }
      match smoke
      case Raised => return Crashed;
      case Passed => return Exited(0);
      case Failed =>
      ghost var e := entries;
      assert e == Rewritten(Stashed(m, p), m[Live(REQUIREMENTS)].lines);
      RestoredNothing(e);
      RestoreAll(movedFiles, e, {});
      assert {} + NamesOf(movedFiles) == NamesOf(movedFiles);
      RestoreAll(movedDirs, e, NamesOf(movedFiles));
      assert NamesOf(movedFiles) + NamesOf(movedDirs) == p;
      RequirementsBackupKept(e, p);
      assert Backup(REQUIREMENTS_BAK) in entries && entries[Backup(REQUIREMENTS_BAK)] == m[Live(REQUIREMENTS)];
      if Backup(REQUIREMENTS_BAK) in entries {
        entries := entries[Live(REQUIREMENTS) := entries[Backup(REQUIREMENTS_BAK)]];
      }
      return Exited(1);
    }
  }

  /** The dead-dependency loop of `clean_requirements`, with its `pop`. */
  method DropDeadLines(lines: seq<string>, dead: string -> bool, comment: string -> bool)
    returns (cleaned: seq<string>)
    ensures cleaned == DropDead(lines, dead, comment)
    ensures forall l :: l in cleaned ==> l in lines && !dead(l)
  {
    cleaned := [];
    var i := 0;
    while i < |lines|
      invariant 0 <= i <= |lines|
      invariant cleaned == DropDead(lines[..i], dead, comment)
    {
      DropDeadSnoc(lines[..i], lines[i], dead, comment);
      assert lines[..i + 1] == lines[..i] + [lines[i]];
      if dead(lines[i]) {
        if cleaned != [] && comment(cleaned[|cleaned| - 1]) {
          cleaned := cleaned[..|cleaned| - 1];
        }
      } else {
        cleaned := cleaned + [lines[i]];
      }
      i := i + 1;
    }
    assert lines[..i] == lines;
    DropDeadSound(lines, dead, comment);
  }

  /** The `litellm` loop of `clean_requirements`. */
  method InsertAfterLoop(lines: seq<string>, mark: string -> bool, extra: string) returns (r: seq<string>)
    ensures r == InsertAfter(lines, mark, extra)
    ensures forall l :: l in r ==> l in lines || l == extra
  {
    r := [];
    var j := 0;
    while j < |lines|
      invariant 0 <= j <= |lines|
      invariant r == InsertAfter(lines[..j], mark, extra)
    {
      assert lines[..j + 1][..j] == lines[..j];
      r := r + [lines[j]];
      if mark(lines[j]) {
        r := r + [extra];
      }
      j := j + 1;
    }
    assert lines[..j] == lines;
    InsertAfterLines(lines, mark, extra);
  }

  /** The state after backing up the `done` prefix of a loop's names: the folder
      has them stashed and `moved` lists them as `(live, backup)` pairs. */
  predicate BackedUp(m: map<Loc, Content>, s: set<string>, done: seq<string>,
                     e: map<Loc, Content>, moved: seq<Moved>)
  {
    && e == Stashed(m, s + Present(m, done))
    && s + NamesOf(moved) == s + Present(m, done)
    && BackupPairs(moved)
  }

  /** One pass of a backup loop keeps its invariant. */
  lemma BackupLoopStep(m: map<Loc, Content>, s: set<string>, names: seq<string>, i: nat,
                       e0: map<Loc, Content>, e1: map<Loc, Content>, moved: seq<Moved>, r: Option<Moved>,
                       next: seq<Moved>)
    requires i < |names|
    requires BackedUp(m, s, names[..i], e0, moved)
    requires Live(names[i]) !in e0 ==> r == None && e1 == e0
    requires Live(names[i]) in e0 ==>
      r == Some(Moved(Live(names[i]), Backup(names[i]))) && e1 == MoveEntry(e0, Live(names[i]), Backup(names[i]))
    requires next == if r.Some? then moved + [r.value] else moved
    ensures BackedUp(m, s, names[..i + 1], e1, next)
  {
    var n := names[i];
    var before := s + Present(m, names[..i]);
    var after := s + Present(m, names[..i + 1]);
    PresentStep(m, names, i);
    assert after == if Live(n) in m then before + {n} else before;
    StashStep(m, before, n);
    if r.Some? {
      NamesOfSnoc(moved, r.value);
    } else if Live(n) in m {
      assert before + {n} == before;
    }
  }

  /** One pass of a restore loop keeps its invariant. */
  lemma RestoreLoopStep(e: map<Loc, Content>, t: set<string>, moved: seq<Moved>, k: nat,
                        e0: map<Loc, Content>, e1: map<Loc, Content>)
    requires k < |moved| && BackupPairs(moved)
    requires e0 == Restored(e, t + NamesOf(moved[..k]))
    requires moved[k].dst in e0 ==> e1 == MoveEntry(e0, moved[k].dst, moved[k].src)
    requires moved[k].dst !in e0 ==> e1 == e0
    ensures e1 == Restored(e, t + NamesOf(moved[..k + 1]))
  {
    var n := moved[k].dst.name;
    assert moved[k] == Moved(Live(n), Backup(n));
    var before := t + NamesOf(moved[..k]);
    var after := t + NamesOf(moved[..k + 1]);
    assert after == before + {n} by {
      assert moved[..k + 1] == moved[..k] + [moved[k]];
      NamesOfSnoc(moved[..k], moved[k]);
    }
    RestoreStep(e, before, n);
  }

  lemma StashedNothing(m: map<Loc, Content>)
    ensures Stashed(m, {}) == m
  {
    assert LivesOf({}) == {};
  }

  lemma RestoredNothing(m: map<Loc, Content>)
    ensures Restored(m, {}) == m
  {
    assert BackupsOf({}) == {};
  }

  /** The moves leave `requirements.txt` alone. */
  lemma RequirementsUntouched(m: map<Loc, Content>, p: set<string>)
    requires p == DeadPresent(m)
    ensures REQUIREMENTS !in p && REQUIREMENTS_BAK !in p
    ensures RequirementsReadable(Stashed(m, p)) <==> RequirementsReadable(m)
    ensures Live(REQUIREMENTS) in m ==> Stashed(m, p)[Live(REQUIREMENTS)] == m[Live(REQUIREMENTS)]
  {
    RequirementsNotDead();
    assert Live(REQUIREMENTS) !in LivesOf(p);
  }

  /** Restoring leaves the backup copy of `requirements.txt` alone. */
  lemma RequirementsBackupKept(e: map<Loc, Content>, p: set<string>)
    requires REQUIREMENTS_BAK !in p
    ensures Backup(REQUIREMENTS_BAK) in e ==>
      Backup(REQUIREMENTS_BAK) in Restored(e, p) && Restored(e, p)[Backup(REQUIREMENTS_BAK)] == e[Backup(REQUIREMENTS_BAK)]
  {
    assert Backup(REQUIREMENTS_BAK) !in BackupsOf(p);
  }
}
