/** The first-run setup wizard of the frontend: a status fetch decides whether the
    wizard shows, the user either saves a cloud key or starts a local model install,
    and an interval polls install progress until a terminal status.
    Every `fetch` is an abstract outcome passed in by the caller; timers are explicit
    flags fired by separate methods. */
module Onboarding {
  import opened Strings

  /** One `fetch` followed by `res.json()`: the parsed body, or a rejection
      (transport failure or unparsable body). A non-2xx reply is still `Ok`,
      because `fetch` resolves on any HTTP status. */
  datatype Fetch<T> = Ok(data: T) | Fail

  /** Body of GET /api/setup/status. */
  datatype SetupStatus = SetupStatus(
    ramGb: int,
    recommendation: string,
    ollamaRunning: bool,
    models: seq<string>,
    hasGeminiKey: bool)

  /** Body of GET /api/setup/progress. */
  datatype Progress = Progress(status: string, message: string)

  const MODEL_PRO := "qwen2.5-coder:7b"
  const MODEL_LITE := "qwen2.5-coder:3b"
  const POLL_INTERVAL_MS := 1000
  const HIDE_DELAY_MS := 2000
  const START_FAILED := "Failed to start installation."

  /** The model the Install Hybrid button installs, and the profile it displays. */
  function InstallTarget(recommendation: string): (model: string)
    ensures model == MODEL_PRO <==> recommendation == "HYBRID_PRO"
    ensures model == MODEL_LITE <==> recommendation != "HYBRID_PRO"
  {
    if recommendation == "HYBRID_PRO" then MODEL_PRO else MODEL_LITE
  }

  function StartMessage(model: string): string
  {
    "Starting download for " + model + "..."
  }

  predicate IsTerminal(progressStatus: string)
  {
    progressStatus == "completed" || progressStatus == "error"
  }

  /** How one interval tick ends. */
  datatype Finish = NoFinish | SaveCapturedKey | HideAfterDelay
  datatype TickEffect = KeepPolling | Stop(finish: Finish)

  /** The decision `pollProgress` makes from one poll result and the key its
      closure captured: continue, or stop and possibly finish the setup. */
  function TickDecision(r: Fetch<Progress>, key: string): (e: TickEffect)
    ensures e.KeepPolling? <==> r.Ok? && !IsTerminal(r.data.status)
    ensures e == Stop(SaveCapturedKey) <==> r.Ok? && r.data.status == "completed" && key != ""
    ensures e == Stop(HideAfterDelay) <==> r.Ok? && r.data.status == "completed" && key == ""
    ensures e == Stop(NoFinish) <==> r.Fail? || r.data.status == "error"
  {
    match r
    case Fail => Stop(NoFinish)
    case Ok(p) =>
      if !IsTerminal(p.status) then KeepPolling
      else if p.status == "error" then Stop(NoFinish)
      else if key != "" then Stop(SaveCapturedKey)
      else Stop(HideAfterDelay)
  }

  /** The render gate: nothing is drawn while loading, when hidden, or without a status. */
  predicate Renders(loading: bool, showWizard: bool, status: Option<SetupStatus>)
  {
    !(loading || !showWizard || status.None?)
  }

  /** A snapshot of every field of `Wizard`. */
  datatype WizardState = WizardState(
    status: Option<SetupStatus>,
    loading: bool,
    showWizard: bool,
    geminiKey: string,
    savingKey: bool,
    installingLocal: bool,
    installProgress: string,
    installPending: bool,
    polling: bool,
    capturedKey: string,
    hidePending: bool,
    installRequests: seq<string>,
    saveRequests: seq<string>,
    reloads: nat)

  class Wizard {
    var status: Option<SetupStatus>
    var loading: bool
    var showWizard: bool
    var geminiKey: string
    var savingKey: bool
    var installingLocal: bool
    var installProgress: string
    /** The install_local request is posted and has not settled yet. */
    var installPending: bool
    /** The interval started by a successful install request is live. */
    var polling: bool
    /** The key the interval callback sees: `geminiKey` when Install was clicked. */
    var capturedKey: string
    /** The 2000 ms timeout of the completion branch is scheduled. */
    var hidePending: bool
    /** Effects: bodies posted to install_local and save_key, page reloads. */
    var installRequests: seq<string>
    var saveRequests: seq<string>
    var reloads: nat

    function State(): WizardState
      reads this
    {
      WizardState(status, loading, showWizard, geminiKey, savingKey, installingLocal,
                  installProgress, installPending, polling, capturedKey, hidePending,
                  installRequests, saveRequests, reloads)
    }

    /** A pending install request and a live interval both belong to a running
        install started from a fetched status; the interval starts only once the
        request has settled. */
    ghost predicate Valid()
      reads this
    {
      && (polling ==> installingLocal && status.Some? && !installPending)
      && (installPending ==> installingLocal && status.Some?)
    }

    /** A pending install and a live interval captured a non-empty key: the
        Install button is disabled while the key field is empty. */
    ghost predicate KeyCaptured()
      reads this
    {
      polling || installPending ==> capturedKey != ""
    }

    predicate Visible()
      reads this
    {
      Renders(loading, showWizard, status)
    }

    /** `disabled={!status.ollama_running || !geminiKey}` negated. */
    predicate InstallEnabled()
      reads this
    {
      status.Some? && status.value.ollamaRunning && geminiKey != ""
    }

    /** `disabled={savingKey || !geminiKey}` negated. */
    predicate SaveEnabled()
      reads this
    {
      !savingKey && geminiKey != ""
    }

    /** The initial `useState` values. */
    constructor ()
      ensures Valid() && KeyCaptured() && !Visible()
      ensures State() == WizardState(None, true, false, "", false, false, "", false, false, "", false, [], [], 0)
    {
      status, loading, showWizard, geminiKey := None, true, false, "";
      savingKey, installingLocal, installProgress, installPending := false, false, "", false;
      polling, capturedKey, hidePending := false, "", false;
      installRequests, saveRequests, reloads := [], [], 0;
    }

    /** The key input's `onChange`. The interval keeps the key it captured. */
    method EditKey(key: string)
      requires Valid()
      modifies this
      ensures Valid() && (old(KeyCaptured()) ==> KeyCaptured())
      ensures State() == old(State()).(geminiKey := key)
    {
      geminiKey := key;
    }

    /** `checkStatus`, run once at mount. */
    method CheckStatus(r: Fetch<SetupStatus>)
      requires Valid()
      modifies this
      ensures Valid() && (old(KeyCaptured()) ==> KeyCaptured()) && !loading
      ensures r.Ok? ==> State() == old(State()).(status := Some(r.data), loading := false,
                                                 showWizard := old(showWizard) || !r.data.hasGeminiKey)
      ensures r.Fail? ==> State() == old(State()).(loading := false)
      ensures !old(showWizard) ==> (Visible() <==> r.Ok? && !r.data.hasGeminiKey)
    {
      if r.Ok? {
        status := Some(r.data);
        if !r.data.hasGeminiKey {
          showWizard := true;
        }
      }
      loading := false;
    }

    /** `saveKeySilently` with the key its closure sees. */
    method SaveKeySilently(key: string, save: Fetch<()>)
      modifies this
      ensures save.Ok? ==> State() == old(State()).(saveRequests := old(saveRequests) + [key],
                                                    showWizard := false, reloads := old(reloads) + 1)
      ensures save.Fail? ==> State() == old(State()).(saveRequests := old(saveRequests) + [key])
    {
      saveRequests := saveRequests + [key];
      if save.Ok? {
        showWizard := false;
        reloads := reloads + 1;
      }
    }

    /** The Install Hybrid button and the synchronous part of `handleInstallLocal`:
        the button is drawn only while the wizard is visible and no install is
        running, and is enabled only when the daemon runs and a key was entered.
        The click shows the start message and posts the install request; the
        interval it will start captures the key typed at the click. */
    method HandleInstallLocal()
      requires Valid() && Visible() && !installingLocal && InstallEnabled()
      modifies this
      ensures Valid() && KeyCaptured()
      ensures !old(polling) && !old(installPending)
      ensures var model := InstallTarget(old(status).value.recommendation);
        State() == old(State()).(installingLocal := true, installProgress := StartMessage(model),
                                 installPending := true, capturedKey := old(geminiKey),
                                 installRequests := old(installRequests) + [model])
    {
      var model := InstallTarget(status.value.recommendation);
      installingLocal := true;
      installProgress := StartMessage(model);
      installRequests := installRequests + [model];
      installPending := true;
      capturedKey := geminiKey;
    }

    /** The install request settles: on success the interval starts, on a failed
        request the install is re-offered with the failure message. Without a
        pending request nothing happens. */
    method InstallSettles(r: Fetch<()>)
      requires Valid()
      modifies this
      ensures Valid() && (old(KeyCaptured()) ==> KeyCaptured())
      ensures !old(installPending) ==> State() == old(State())
      ensures old(installPending) && r.Ok? ==>
        State() == old(State()).(installPending := false, polling := true)
      ensures old(installPending) && r.Fail? ==>
        State() == old(State()).(installPending := false, installingLocal := false,
                                 installProgress := START_FAILED)
    {
      if !installPending {
        return;
      }
      installPending := false;
      if r.Ok? {
        polling := true;
      } else {
        installingLocal := false;
        installProgress := START_FAILED;
      }
    }

    /** One firing of the interval: `pollProgress` and, on a stop, `clearInterval`.
        A cleared interval never fires, so a tick after a stop changes nothing. */
    method IntervalTick(r: Fetch<Progress>, save: Fetch<()>)
      requires Valid()
      modifies this
      ensures Valid()
      ensures !old(polling) ==> State() == old(State())
      ensures old(polling) ==>
        var e := TickDecision(r, old(capturedKey));
        var s := old(State()).(installProgress := if r.Ok? then r.data.message else old(installProgress),
                               installingLocal := r.Fail? || !IsTerminal(r.data.status),
                               polling := e.KeepPolling?);
        match e
        case KeepPolling => State() == s
        case Stop(NoFinish) => State() == s
        case Stop(HideAfterDelay) => State() == s.(hidePending := true)
        case Stop(SaveCapturedKey) =>
          if save.Ok? then
            State() == s.(saveRequests := old(saveRequests) + [old(capturedKey)],
                          showWizard := false, reloads := old(reloads) + 1)
          else
            State() == s.(saveRequests := old(saveRequests) + [old(capturedKey)])
      ensures old(KeyCaptured()) ==> KeyCaptured()
      ensures old(KeyCaptured()) && old(polling) && r.Ok? && r.data.status == "completed" ==>
        TickDecision(r, old(capturedKey)) == Stop(SaveCapturedKey) && hidePending == old(hidePending)
    {
      if !polling {
        return;
      }
      var key := capturedKey;
      var e := TickDecision(r, key);
      if r.Ok? {
        installProgress := r.data.message;
        if IsTerminal(r.data.status) {
          installingLocal := false;
        }
      }
      polling := e.KeepPolling?;
      match e
      case KeepPolling =>
      case Stop(NoFinish) =>
      case Stop(HideAfterDelay) =>
        hidePending := true;
      case Stop(SaveCapturedKey) =>
        SaveKeySilently(key, save);
    }

    /** The 2000 ms timeout of the completion branch. */
    method HideTimerFires()
      requires Valid()
      modifies this
      ensures Valid() && (old(KeyCaptured()) ==> KeyCaptured())
      ensures old(hidePending) ==> State() == old(State()).(hidePending := false, showWizard := false,
                                                           reloads := old(reloads) + 1)
      ensures !old(hidePending) ==> State() == old(State())
    {
      if hidePending {
        hidePending := false;
        showWizard := false;
        reloads := reloads + 1;
      }
    }

    /** A click on the Use Cloud Only button and the synchronous part of
        `handleSaveKey`. The button is drawn only while the wizard is visible,
        and it is disabled while a save is pending or the key
        field is empty, and `handleSaveKey` itself returns on an empty key, so
        such a click changes nothing; otherwise the click marks a save as pending
        and posts the typed key. A second click before the first save settles
        posts nothing. */
    method HandleSaveKey()
      requires Valid() && Visible()
      modifies this
      ensures Valid() && (old(KeyCaptured()) ==> KeyCaptured())
      ensures !old(SaveEnabled()) ==> State() == old(State())
      ensures old(SaveEnabled()) ==>
        State() == old(State()).(savingKey := true, saveRequests := old(saveRequests) + [old(geminiKey)])
      ensures savingKey ==> !SaveEnabled()
    {
      if savingKey || geminiKey == "" {
        return;
      }
      savingKey := true;
      saveRequests := saveRequests + [geminiKey];
    }

    /** The pending save settles: a successful post hides the wizard and reloads
        the page, and `savingKey` ends false whatever the outcome. Without a
        pending save nothing happens. */
    method SaveSettles(save: Fetch<()>)
      requires Valid()
      modifies this
      ensures Valid() && (old(KeyCaptured()) ==> KeyCaptured()) && !savingKey
      ensures !old(savingKey) ==> State() == old(State())
      ensures old(savingKey) && save.Ok? ==>
        State() == old(State()).(savingKey := false, showWizard := false, reloads := old(reloads) + 1)
      ensures old(savingKey) && save.Fail? ==> State() == old(State()).(savingKey := false)
    {
      if !savingKey {
        return;
      }
      if save.Ok? {
        showWizard := false;
        reloads := reloads + 1;
      }
      savingKey := false;
    }
  }

  /** The hybrid path on a host without a stored key: two running polls and a
      completion post the typed key exactly once and finish the setup. */
  method HybridInstallScenario(key: string)
    requires key != ""
  {
    var w := new Wizard();
    w.CheckStatus(Ok(SetupStatus(16, "HYBRID_LITE", true, [], false)));
    assert w.Visible();
    w.EditKey(key);
    assert w.InstallEnabled();
    w.HandleInstallLocal();
    assert w.installRequests == [MODEL_LITE] && !w.polling;
    w.IntervalTick(Ok(Progress("running", "Downloading 1%")), Fail);
    assert w.installProgress == StartMessage(MODEL_LITE);
    w.InstallSettles(Ok(()));
    w.IntervalTick(Ok(Progress("running", "Downloading 10%")), Fail);
    w.IntervalTick(Ok(Progress("running", "Downloading 90%")), Fail);
    assert w.polling && w.installProgress == "Downloading 90%";
    w.IntervalTick(Ok(Progress("completed", "Done")), Ok(()));
    assert w.saveRequests == [key] && !w.showWizard && w.reloads == 1;
    w.IntervalTick(Ok(Progress("completed", "Done")), Ok(()));
    assert w.saveRequests == [key];
  }

  /** A server-reported error stops polling, re-offers the install and finishes nothing. */
  method InstallErrorScenario(key: string)
    requires key != ""
  {
    var w := new Wizard();
    w.CheckStatus(Ok(SetupStatus(32, "HYBRID_PRO", true, [], false)));
    w.EditKey(key);
    w.HandleInstallLocal();
    w.InstallSettles(Ok(()));
    assert w.installRequests == [MODEL_PRO];
    w.IntervalTick(Ok(Progress("running", "Downloading")), Fail);
    w.IntervalTick(Ok(Progress("error", "disk full")), Fail);
    assert !w.polling && !w.installingLocal && w.installProgress == "disk full";
    assert w.Visible() && w.InstallEnabled() && w.saveRequests == [] && w.reloads == 0;
  }

  /** With a stored key the wizard stays hidden; without a running daemon the
      install button is disabled whatever key is typed. */
  method HiddenAndDisabledScenario(key: string)
  {
    var w := new Wizard();
    w.CheckStatus(Ok(SetupStatus(8, "CLOUD_ONLY", false, ["llama3"], true)));
    assert !w.Visible();
    var v := new Wizard();
    v.CheckStatus(Ok(SetupStatus(8, "HYBRID_LITE", false, [], false)));
    v.EditKey(key);
    assert v.Visible() && !v.InstallEnabled();
  }

  /** A failed install request re-offers the install with the failure message and
      starts no interval. */
  method InstallStartFailsScenario(key: string)
    requires key != ""
  {
    var w := new Wizard();
    w.CheckStatus(Ok(SetupStatus(16, "HYBRID_LITE", true, [], false)));
    w.EditKey(key);
    w.HandleInstallLocal();
    w.InstallSettles(Fail);
    assert !w.polling && !w.installingLocal && w.installProgress == START_FAILED;
    assert w.Visible() && w.InstallEnabled() && w.installRequests == [MODEL_LITE];
  }

  /** The cloud path: while the first save is pending the button is disabled and a
      second click posts nothing; the settled save hides the wizard once. */
  method CloudSaveScenario(key: string)
    requires key != ""
  {
    var w := new Wizard();
    w.CheckStatus(Ok(SetupStatus(8, "CLOUD_ONLY", false, [], false)));
    w.HandleSaveKey();
    assert w.saveRequests == [] && !w.savingKey;
    w.EditKey(key);
    assert w.SaveEnabled();
    w.HandleSaveKey();
    assert w.savingKey && !w.SaveEnabled() && w.saveRequests == [key];
    w.HandleSaveKey();
    assert w.saveRequests == [key];
    w.SaveSettles(Ok(()));
    assert !w.savingKey && !w.showWizard && w.reloads == 1 && w.saveRequests == [key];
  }
}
