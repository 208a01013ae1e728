/** The production-readiness audit: every check logs one line and bumps the
    counter of its status; the status report lists those lines, a summary and a
    verdict, and the exit code follows the failure count. The checks that probe
    the machine (imports, files, subprocesses, sockets) are reduced to the
    outcome they observe, passed in by the caller. */
module Audit {
  import opened Strings

  const PASS := "PASS"
  const FAIL := "FAIL"
  const WARN := "WARN"
  const INFO := "INFO"

  const BACKEND_PORT: nat := 8000

  /** `c * n`: `n` copies of `c`. */
  function Repeat(c: char, n: nat): (r: string)
    ensures |r| == n && forall i :: 0 <= i < n ==> r[i] == c
  {
    seq(n, _ => c)
  }

  /** `f"{s:w}"` for a string: left-aligned, padded with spaces to width `w`,
      never truncated. */
  function PadRight(s: string, w: nat): (r: string)
    ensures StartsWith(r, s)
    ensures |r| == if |s| < w then w else |s|
    ensures forall i :: |s| <= i < |r| ==> r[i] == ' '
  {
    if |s| < w then s + Repeat(' ', w - |s|) else s
  }

  /** The line `log` records: `f"  [{status:4s}] {category:28s} | {message}"`. */
  function LogLine(status: string, category: string, message: string): string
  {
    "  [" + PadRight(status, 4) + "] " + PadRight(category, 28) + " | " + message
  }

  /** Where the parts of a log line sit: the status right after `"  ["`, the
      closing bracket after the padded status, and the message at the end. */
  lemma LogLineLayout(status: string, category: string, message: string)
    ensures var line := LogLine(status, category, message);
      var w := if |status| < 4 then 4 else |status|;
      && StartsWith(line, "  [")
      && line[3..3 + |status|] == status
      && (forall i :: 3 + |status| <= i < 3 + w ==> line[i] == ' ')
      && line[3 + w] == ']'
      && EndsWith(line, " | " + message)
  {
    var p := PadRight(status, 4);
    var line := LogLine(status, category, message);
    var rest := "] " + PadRight(category, 28) + " | " + message;
    assert line == "  [" + p + rest;
    assert line[3..3 + |p|] == p;
    assert p[..|status|] == status;
    assert line[3 + |p|] == rest[0];
    assert line[|line| - |" | " + message|..] == " | " + message;
  }

  lemma AppendThree<T>(s: seq<T>, a: T, b: T, c: T)
    ensures s + [a] + [b] + [c] == s + [a, b, c]
  {
  }

  /** How many of `statuses` equal `st`. */
  function Tally(statuses: seq<string>, st: string): nat
  {
    if statuses == [] then 0
    else Tally(statuses[..|statuses| - 1], st) + (if statuses[|statuses| - 1] == st then 1 else 0)
  }

  /** Every logged line starts with `"  ["`. */
  predicate IsLogLine(line: string)
  {
    StartsWith(line, "  [")
  }

  /** The audit's global state: the recorded lines and the three counters.
      `statuses` is the ghost record of the status each line was logged with. */
  class Auditor {
    var results: seq<string>
    var passCount: nat
    var failCount: nat
    var warnCount: nat
    ghost var statuses: seq<string>

    /** Each counter is the number of lines logged with its status. */
    ghost predicate Valid()
      reads this
    {
      && |statuses| == |results|
      && (forall i :: 0 <= i < |results| ==> IsLogLine(results[i]))
      && passCount == Tally(statuses, PASS)
      && failCount == Tally(statuses, FAIL)
      && warnCount == Tally(statuses, WARN)
    }

    constructor ()
      ensures Valid() && results == [] && statuses == []
      ensures passCount == 0 && failCount == 0 && warnCount == 0
    {
      results := [];
      passCount := 0;
      failCount := 0;
      warnCount := 0;
      statuses := [];
    }

    /** `log`: one more line; only the counter of `status` moves, and a status
        other than PASS, FAIL and WARN moves none. */
    method Log(status: string, category: string, message: string)
      requires Valid()
      modifies this
      ensures Valid()
      ensures results == old(results) + [LogLine(status, category, message)]
      ensures statuses == old(statuses) + [status]
      ensures passCount == old(passCount) + (if status == PASS then 1 else 0)
      ensures failCount == old(failCount) + (if status == FAIL then 1 else 0)
      ensures warnCount == old(warnCount) + (if status == WARN then 1 else 0)
    {
      var line := LogLine(status, category, message);
      LogLineLayout(status, category, message);
      results := results + [line];
      assert (statuses + [status])[..|statuses|] == statuses;
      statuses := statuses + [status];
      if status == PASS {
        passCount := passCount + 1;
      } else if status == FAIL {
        failCount := failCount + 1;
      } else if status == WARN {
        warnCount := warnCount + 1;
      }
    }

    /** `audit_agent_config`, with the two environment variables and the two file
        tests given: the key line, the agent-module line and the `.env` line. */
    method AuditAgentConfig(apiKey: Option<string>, token: Option<string>, agentFound: bool, envFound: bool)
      requires Valid()
      modifies this
      ensures Valid()
      ensures var key := KeyCheck(ChosenKey(apiKey, token));
        var agent := AgentModuleCheck(agentFound);
        var env := EnvFileCheck(envFound);
        results == old(results) + [LogLine(key.0, "HuggingFace API Key", key.1),
                                   LogLine(agent.0, "Agent Module", agent.1),
                                   LogLine(env.0, "Environment File", env.1)]
      ensures var key := KeyCheck(ChosenKey(apiKey, token));
        var agent := AgentModuleCheck(agentFound);
        var env := EnvFileCheck(envFound);
        statuses == old(statuses) + [key.0, agent.0, env.0]
      ensures var key := KeyCheck(ChosenKey(apiKey, token));
        passCount == old(passCount) + (if key.0 == PASS then 1 else 0) + (if agentFound then 1 else 0)
                                     + (if envFound then 1 else 0)
      ensures failCount == old(failCount) + (if agentFound then 0 else 1)
      ensures var key := KeyCheck(ChosenKey(apiKey, token));
        warnCount == old(warnCount) + (if key.0 == WARN then 1 else 0) + (if envFound then 0 else 1)
    {
      ghost var r0, f0, s0, p0, w0 := results, failCount, statuses, passCount, warnCount;
      var key := KeyCheck(ChosenKey(apiKey, token));
      assert key.0 != FAIL;
      Log(key.0, "HuggingFace API Key", key.1);
      ghost var l1 := LogLine(key.0, "HuggingFace API Key", key.1);
      assert results == r0 + [l1] && failCount == f0 && statuses == s0 + [key.0];
      ghost var p1 := p0 + (if key.0 == PASS then 1 else 0);
      ghost var w1 := w0 + (if key.0 == WARN then 1 else 0);
      assert passCount == p1 && warnCount == w1;
      var agent := AgentModuleCheck(agentFound);
      Log(agent.0, "Agent Module", agent.1);
      ghost var l2 := LogLine(agent.0, "Agent Module", agent.1);
      assert results == r0 + [l1] + [l2];
      assert failCount == f0 + (if agentFound then 0 else 1);
      assert statuses == s0 + [key.0] + [agent.0];
      assert passCount == p1 + (if agentFound then 1 else 0) && warnCount == w1;
      var env := EnvFileCheck(envFound);
      assert env.0 != FAIL;
      Log(env.0, "Environment File", env.1);
      ghost var l3 := LogLine(env.0, "Environment File", env.1);
      assert results == r0 + [l1] + [l2] + [l3];
      AppendThree(r0, l1, l2, l3);
      assert statuses == s0 + [key.0] + [agent.0] + [env.0];
      AppendThree(s0, key.0, agent.0, env.0);
    }

    /** `audit_port`: one line, never a failure. */
    method AuditPort(probe: Probe)
      requires Valid()
      modifies this
      ensures Valid()
      ensures results == old(results) + [LogLine(PortCheck(probe).0, "Port 8000", PortCheck(probe).1)]
      ensures statuses == old(statuses) + [PortCheck(probe).0]
      ensures passCount == old(passCount) + (if PortCheck(probe).0 == PASS then 1 else 0)
      ensures failCount == old(failCount)
      ensures warnCount == old(warnCount) + (if PortCheck(probe).0 == WARN then 1 else 0)
      ensures passCount + warnCount == old(passCount) + old(warnCount) + 1
    {
      var r := PortCheck(probe);
      Log(r.0, "Port 8000", r.1);
    }

    /** `generate_report`, up to writing the file: the report text, whose lines
        carry the action notice exactly when something failed, the advisory
        exactly when something warned, and the action notice exactly when the
        script exits with 1. */
    method GenerateReport(date: string, platform: string, version: string) returns (text: string)
      requires Valid()
      ensures text == Join(ReportLines(date, platform, version, results, passCount, failCount, warnCount), "\n")
      ensures var lines := ReportLines(date, platform, version, results, passCount, failCount, warnCount);
        && (ACTION in lines <==> failCount > 0)
        && (ADVISORY in lines <==> warnCount > 0)
        && (ExitCode(failCount) == 1 <==> ACTION in lines)
    {
      ReportNotices(date, platform, version, results, passCount, failCount, warnCount);
      ExitCodeMatchesReport(date, platform, version, results, passCount, failCount, warnCount);
      var verdict := Verdict(failCount);
      var report := [RULE, TITLE, RULE, "  Date:       " + date, "  Platform:   " + platform,
                     "  Python:     " + version, AUDITOR, RULE, "", DETAILED, THIN_RULE];
      report := report + results;
      report := report + ["", THIN_RULE, SummaryLine(passCount, failCount, warnCount), THIN_RULE, "",
                          "  VERDICT:  " + verdict, ""];
      ghost var upper := report;
      if failCount > 0 {
        report := report + [ACTION];
      }
      if warnCount > 0 {
        report := report + [ADVISORY];
      }
      assert report == upper + Notices(failCount, warnCount);
      report := report + ["", RULE, SIGNED, RULE];
      assert report == ReportLines(date, platform, version, results, passCount, failCount, warnCount);
      text := Join(report, "\n");
    }
  }

  // ------------------------------------------------------------------
  // The agent-key and port checks
  // ------------------------------------------------------------------

  /** `os.environ.get("HUGGINGFACE_API_KEY") or os.environ.get("HF_TOKEN")`: an
      unset or empty first variable falls through to the second. */
  function ChosenKey(apiKey: Option<string>, token: Option<string>): (r: Option<string>)
    ensures apiKey.Some? && apiKey.value != "" ==> r == apiKey
    ensures !(apiKey.Some? && apiKey.value != "") ==> r == token
  {
    if apiKey.Some? && apiKey.value != "" then apiKey else token
  }

  /** `hf_key[:4] + "****" + hf_key[-4:]` */
  function MaskKey(k: string): (r: string)
    ensures var n := if |k| < 4 then |k| else 4;
      && |r| == 2 * n + 4
      && r[..n] == k[..n]
      && r[n..n + 4] == "****"
      && r[n + 4..] == k[|k| - n..]
  {
    var n := if |k| < 4 then |k| else 4;
    k[..n] + "****" + k[|k| - n..]
  }

  /** A key's mask depends only on its first and last four characters. */
  lemma MaskHidesMiddle(k1: string, k2: string)
    requires 4 <= |k1| && 4 <= |k2|
    requires k1[..4] == k2[..4] && k1[|k1| - 4..] == k2[|k2| - 4..]
    ensures MaskKey(k1) == MaskKey(k2)
  {
  }

  /** Reads a key of length `n` back from its mask, when `n` is at most 8. */
  function Unmask(r: string, n: nat): string
    requires n <= 8 && |r| == 2 * (if n < 4 then n else 4) + 4
  {
    if n < 4 then r[..n] else r[..4] + r[|r| - (n - 4)..]
  }

  /** A key of at most eight characters is shown in full: the mask, with the
      key's length, gives the key back. */
  lemma MaskRevealsShortKey(k: string)
    requires |k| <= 8
    ensures |MaskKey(k)| == 2 * (if |k| < 4 then |k| else 4) + 4
    ensures Unmask(MaskKey(k), |k|) == k
  {
    var r := MaskKey(k);
    if |k| >= 4 {
      assert r[8..] == k[|k| - 4..];
      assert r[16 - |k|..] == r[8..][8 - |k|..];
      assert k[|k| - 4..][8 - |k|..] == k[4..];
      assert k == k[..4] + k[4..];
    }
  }

  /** The status and message the key check logs: PASS with the masked key when
      the chosen key is non-empty, WARN otherwise. */
  function KeyCheck(hf: Option<string>): (r: (string, string))
    ensures r.0 == PASS <==> hf.Some? && hf.value != ""
    ensures r.0 == PASS ==> r.1 == "Key loaded: " + MaskKey(hf.value)
    ensures r.0 != PASS ==> r.0 == WARN
  {
    if hf.Some? && hf.value != "" then (PASS, "Key loaded: " + MaskKey(hf.value))
    else (WARN, "Not set \U{2014} user must provide their own key")
  }

  const OCCUPIED := " is OCCUPIED \U{2014} another instance may be running"
  const FREE := " is free and available"

  lemma PortDigits()
    ensures NatToString(BACKEND_PORT) == "8000"
  {
    assert NatToString(8) == "8" by { assert DigitChar(8) == '8'; }
    assert NatToString(80) == "80" by { assert DigitChar(0) == '0'; }
    assert NatToString(800) == "800";
  }

  /** The agent-module line: a missing `agent.py` is a failure. */
  function AgentModuleCheck(found: bool): (r: (string, string))
    ensures r.0 == FAIL <==> !found
    ensures r.0 == PASS <==> found
  {
    if found then (PASS, "agent.py found") else (FAIL, "agent.py is MISSING from backend/")
  }

  /** The `.env` line: a missing file is only a warning. */
  function EnvFileCheck(found: bool): (r: (string, string))
    ensures r.0 == WARN <==> !found
    ensures r.0 == PASS <==> found
  {
    if found then (PASS, ".env file found") else (WARN, ".env file not found \U{2014} relying on system env vars")
  }

  /** What `sock.connect_ex` gave: an error number (0 when something accepted the
      connection), or an exception. */
  datatype Probe = Connected(errno: int) | ProbeError(reason: string)

  /** The status and message of the port check: the port is reported free (PASS)
      exactly when `connect_ex` returned a non-zero error number, whether the
      connection was refused, timed out or could not reach the host; an accepted
      connection or a failed probe is only a warning. */
  function PortCheck(probe: Probe): (r: (string, string))
    ensures r.0 == PASS <==> probe.Connected? && probe.errno != 0
    ensures r.0 == WARN <==> !(probe.Connected? && probe.errno != 0)
    ensures probe == Connected(0) ==> r.1 == "Port 8000" + OCCUPIED
    ensures probe.Connected? && probe.errno != 0 ==> r.1 == "Port 8000" + FREE
    ensures probe.ProbeError? ==> r.1 == "Could not probe port: " + probe.reason
  {
    PortDigits();
    match probe
    case Connected(e) =>
      if e == 0 then (WARN, "Port " + NatToString(BACKEND_PORT) + OCCUPIED)
      else (PASS, "Port " + NatToString(BACKEND_PORT) + FREE)
    case ProbeError(reason) => (WARN, "Could not probe port: " + reason)
  }

  // ------------------------------------------------------------------
  // The status report
  // ------------------------------------------------------------------

  const RULE := Repeat('=', 62)
  const THIN_RULE := Repeat('\U{2500}', 62)
  const TITLE := "  OMNI-IDE \U{2014} PRODUCTION READINESS STATUS REPORT"
  const AUDITOR := "  Auditor:    production_audit.py v1.0.0"
  const DETAILED := "  DETAILED RESULTS"
  const SIGNED := "  Signed: Omni-IDE QA Pipeline"
  const GO_VERDICT := "\U{1F7E2} GO \U{2014} All critical checks passed"
  const NO_GO_VERDICT := "\U{1F534} NO-GO \U{2014} Critical failures detected"
  const ACTION := "  \U{26A0}\U{FE0F}  " + "ACTION REQUIRED: Fix all FAIL items before shipping."
  const ADVISORY := "  \U{1F4A1} " + "ADVISORY: Review WARN items \U{2014} they may affect some users."

  /** The verdict: GO exactly when nothing failed. */
  function Verdict(fails: nat): (v: string)
    ensures v == GO_VERDICT <==> fails == 0
    ensures v == NO_GO_VERDICT <==> fails > 0
  {
    if fails == 0 then GO_VERDICT else NO_GO_VERDICT
  }

  function SummaryLine(passes: nat, fails: nat, warns: nat): string
  {
    "  SUMMARY:  " + NatToString(passes) + " PASS  |  " + NatToString(fails) + " FAIL  |  " +
    NatToString(warns) + " WARN"
  }

  /** The report's fixed opening, through the rule above the detailed results. */
  function Header(date: string, platform: string, version: string): (h: seq<string>)
    ensures |h| == 11
  {
    [RULE, TITLE, RULE, "  Date:       " + date, "  Platform:   " + platform,
     "  Python:     " + version, AUDITOR, RULE, "", DETAILED, THIN_RULE]
  }

  /** The summary and the verdict. */
  function Summary(passes: nat, fails: nat, warns: nat): (f: seq<string>)
    ensures |f| == 7
  {
    ["", THIN_RULE, SummaryLine(passes, fails, warns), THIN_RULE, "", "  VERDICT:  " + Verdict(fails), ""]
  }

  /** The notices the counters call for. */
  function Notices(fails: nat, warns: nat): seq<string>
  {
    (if fails > 0 then [ACTION] else []) + (if warns > 0 then [ADVISORY] else [])
  }

  const CLOSING := ["", RULE, SIGNED, RULE]

  function Footer(passes: nat, fails: nat, warns: nat): seq<string>
  {
    Summary(passes, fails, warns) + Notices(fails, warns) + CLOSING
  }

  /** The lines of the status report, in order. */
  function ReportLines(date: string, platform: string, version: string, results: seq<string>,
                       passes: nat, fails: nat, warns: nat): seq<string>
  {
    Header(date, platform, version) + results + Footer(passes, fails, warns)
  }

  /** The logged lines appear in the report in the order they were logged, right
      after the header, and the summary and verdict follow them. */
  lemma ReportKeepsResults(date: string, platform: string, version: string, results: seq<string>,
                           passes: nat, fails: nat, warns: nat)
    ensures var r := ReportLines(date, platform, version, results, passes, fails, warns);
      var k := 11 + |results|;
      && |r| > k + 5
      && r[11..k] == results
      && r[k + 2] == SummaryLine(passes, fails, warns)
      && r[k + 5] == "  VERDICT:  " + Verdict(fails)
  {
    var h := Header(date, platform, version);
    var f := Footer(passes, fails, warns);
    var r := h + results + f;
    assert r[11..11 + |results|] == results;
    assert r[11 + |results| + 2] == f[2];
    assert r[11 + |results| + 5] == f[5];
  }

  /** A line whose third character is `c` is neither notice unless `c` is the
      notice's own third character. */
  lemma NotNotice(l: string, c: char)
    requires |l| > 2 && l[2] == c && c != '\U{26A0}' && c != '\U{1F4A1}'
    ensures l != ACTION && l != ADVISORY
  {
    assert ACTION[2] == '\U{26A0}' && ADVISORY[2] == '\U{1F4A1}';
  }

  /** A line of another length is neither notice. */
  lemma NotNoticeByLength(l: string)
    requires |l| != 58 && |l| != 61
    ensures l != ACTION && l != ADVISORY
  {
    assert |ACTION| == 58 && |ADVISORY| == 61;
  }

  lemma HeaderHasNoNotice(date: string, platform: string, version: string)
    ensures ACTION !in Header(date, platform, version) && ADVISORY !in Header(date, platform, version)
  {
    assert |ACTION| > 2 && |ADVISORY| > 2;
    NotNoticeByLength(RULE);
    NotNoticeByLength(TITLE);
    NotNotice("  Date:       " + date, 'D');
    NotNotice("  Platform:   " + platform, 'P');
    NotNotice("  Python:     " + version, 'P');
    NotNoticeByLength(AUDITOR);
    NotNoticeByLength(DETAILED);
    NotNoticeByLength(THIN_RULE);
  }

  lemma SummaryHasNoNotice(passes: nat, fails: nat, warns: nat)
    ensures ACTION !in Summary(passes, fails, warns) && ADVISORY !in Summary(passes, fails, warns)
  {
    assert |ACTION| > 2 && |ADVISORY| > 2;
    NotNoticeByLength(THIN_RULE);
    NotNotice(SummaryLine(passes, fails, warns), 'S');
    NotNotice("  VERDICT:  " + Verdict(fails), 'V');
  }

  lemma ClosingHasNoNotice()
    ensures ACTION !in CLOSING && ADVISORY !in CLOSING
  {
    assert |ACTION| > 2 && |ADVISORY| > 2;
    NotNoticeByLength(RULE);
    NotNoticeByLength(SIGNED);
  }

  lemma ResultsHaveNoNotice(results: seq<string>)
    requires forall i :: 0 <= i < |results| ==> IsLogLine(results[i])
    ensures ACTION !in results && ADVISORY !in results
  {
    forall i | 0 <= i < |results| ensures results[i] != ACTION && results[i] != ADVISORY {
      assert results[i][..3][2] == results[i][2];
      NotNotice(results[i], '[');
    }
  }

  /** When the detailed results are log lines, the report carries the ACTION
      REQUIRED notice exactly when something failed, and the ADVISORY notice
      exactly when something warned. */
  lemma ReportNotices(date: string, platform: string, version: string, results: seq<string>,
                      passes: nat, fails: nat, warns: nat)
    requires forall i :: 0 <= i < |results| ==> IsLogLine(results[i])
    ensures var r := ReportLines(date, platform, version, results, passes, fails, warns);
      && (ACTION in r <==> fails > 0)
      && (ADVISORY in r <==> warns > 0)
  {
    HeaderHasNoNotice(date, platform, version);
    ResultsHaveNoNotice(results);
    SummaryHasNoNotice(passes, fails, warns);
    ClosingHasNoNotice();
    assert ACTION != ADVISORY by { assert ACTION[2] != ADVISORY[2]; }
    var r := ReportLines(date, platform, version, results, passes, fails, warns);
    assert r == Header(date, platform, version) + results + Summary(passes, fails, warns) +
                Notices(fails, warns) + CLOSING;
  }

  /** `sys.exit(1 if fail_count > 0 else 0)` */
  function ExitCode(fails: nat): (code: int)
    ensures code == 0 || code == 1
  {
    if fails > 0 then 1 else 0
  }

  /** The process succeeds exactly when the verdict is GO, and fails exactly when
      the report asks for action. */
  lemma ExitCodeMatchesReport(date: string, platform: string, version: string, results: seq<string>,
                              passes: nat, fails: nat, warns: nat)
    requires forall i :: 0 <= i < |results| ==> IsLogLine(results[i])
    ensures ExitCode(fails) == 0 <==> Verdict(fails) == GO_VERDICT
    ensures ExitCode(fails) == 1 <==> ACTION in ReportLines(date, platform, version, results, passes, fails, warns)
  {
    ReportNotices(date, platform, version, results, passes, fails, warns);
  }
}
