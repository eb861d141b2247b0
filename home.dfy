/** The job-lifecycle controller of the Home page: the modal and its textarea,
    the start action, and the progress poller that the `processing` flag
    switches on and off. Requests, alerts, timers and navigation are recorded
    as the fields below instead of being performed. */
module HomeController {
  import opened TextInput
  import opened Progress

  /** Where the page goes once the report is ready. */
  const SUMMARY_PATH := "/summary"

  /** The two messages the page shows with `alert`. */
  datatype Alert = EnterVmNames | FailedToStart

  /** The body of the POST to /api/check. */
  datatype StartRequest = StartRequest(hostnames: string)

  /** How the start request settled: an ok response, a response that is not
      ok, or an exception from `fetch`. */
  datatype StartOutcome = Accepted | NotOk | Threw

  /** Where one polling loop stands. Each run of the effect with `processing`
      true starts a loop by calling `poll`, whose read of /api/progress is then
      in flight (`Reading`). A read that does not complete the job arms the
      loop's timer (`Armed`), and the timer firing issues the next read. A loop
      ends when a read completes the job (`Stopped(true)`) or when the effect's
      cleanup clears its armed timer (`Stopped(false)`). */
  datatype Loop = Reading | Armed | Stopped(completed: bool)

  /** 1 for a loop that completed the job, 0 otherwise. */
  function Weight(l: Loop): nat {
    if l == Stopped(true) then 1 else 0
  }

  /** The number of loops that completed the job. */
  function CompletedLoops(loops: seq<Loop>): nat
    decreases |loops|
  {
    if loops == [] then 0
    else CompletedLoops(loops[..|loops| - 1]) + Weight(loops[|loops| - 1])
  }

  /** Replacing one loop's state changes the count by that loop's weight alone. */
  lemma {:induction false} CompletedUpdate(loops: seq<Loop>, k: int, l: Loop)
    requires 0 <= k < |loops|
    ensures CompletedLoops(loops[k := l]) == CompletedLoops(loops) - Weight(loops[k]) + Weight(l)
    decreases |loops|
  {
    var n := |loops| - 1;
    if k < n {
      assert loops[k := l][..n] == loops[..n][k := l];
      CompletedUpdate(loops[..n], k, l);
    } else {
      assert loops[k := l][..n] == loops[..n];
    }
  }

  /** A new loop adds its own weight to the count. */
  lemma CompletedAppend(loops: seq<Loop>, l: Loop)
    ensures CompletedLoops(loops + [l]) == CompletedLoops(loops) + Weight(l)
  {
    assert (loops + [l])[..|loops|] == loops;
  }

  /** The effect's cleanup `timer && clearTimeout(timer)` for the loop of the
      current run (the last one, when `live`): an armed timer is cleared and the
      loop stops; a read in flight is not touched, and every other loop goes on
      as before. */
  function Cleanup(loops: seq<Loop>, live: bool): (r: seq<Loop>)
    ensures |r| == |loops| && CompletedLoops(r) == CompletedLoops(loops)
    ensures forall i :: 0 <= i < |loops| && r[i] != loops[i] ==>
      live && i == |loops| - 1 && loops[i] == Armed && r[i] == Stopped(false)
    ensures live && loops != [] && loops[|loops| - 1] == Armed ==> r[|loops| - 1] == Stopped(false)
  {
    if live && loops != [] && loops[|loops| - 1] == Armed then
      CompletedUpdate(loops, |loops| - 1, Stopped(false));
      loops[|loops| - 1 := Stopped(false)]
    else loops
  }

  /** Every observable field of the page, for stating whole-state updates. */
  datatype PageState = PageState(
    isModalOpen: bool,
    vmInput: string,
    processing: bool,
    progressText: ProgressText,
    progressPct: int,
    mounted: bool,
    loops: seq<Loop>,
    live: bool,
    navigations: seq<string>,
    requests: seq<StartRequest>,
    alerts: seq<Alert>,
    startsInFlight: nat)

  class Home {
    // the component's state hooks
    var isModalOpen: bool
    var vmInput: string
    var processing: bool
    var progressText: ProgressText
    var progressPct: int
    // the page is on screen; its effect cleanup has not run for the last time
    var mounted: bool
    // every polling loop the effect has started, oldest first
    var loops: seq<Loop>
    // the last loop belongs to the effect run whose cleanup has not run yet
    var live: bool
    // the paths handed to `navigate` by the delayed navigations, in order
    var navigations: seq<string>
    // the start requests sent, in order
    var requests: seq<StartRequest>
    // the alerts shown, in order
    var alerts: seq<Alert>
    // start requests sent whose response has not settled yet
    var startsInFlight: nat

    ghost function State(): PageState
      reads this
    {
      PageState(isModalOpen, vmInput, processing, progressText, progressPct,
                mounted, loops, live, navigations, requests, alerts, startsInFlight)
    }

    /** The current effect run has a loop exactly while the mounted page is
        processing; each navigation comes from a loop that completed the job,
        and a completed loop is stopped, so it navigates once; the page only
        ever navigates to the summary. Loops other than the live one are not
        bound to `processing`: an orphan loop may still be reading or armed. */
    ghost predicate Valid()
      reads this`processing, this`mounted, this`loops, this`live, this`navigations
    {
      && (live ==> processing && mounted && loops != [])
      && (mounted && processing ==> live)
      && |navigations| == CompletedLoops(loops)
      && (forall i :: 0 <= i < |navigations| ==> navigations[i] == SUMMARY_PATH)
    }

    /** `display: processing ? "none" : "flex"` on the main content: it is
        shown exactly when the processing screen is not. */
    predicate MainContentVisible(): (visible: bool)
      reads this
      ensures visible <==> !ProcessingScreenVisible()
    {
      !processing
    }

    /** `{processing && ...}`: on the mounted page the processing screen is
        shown exactly while the current effect run's polling loop is live. */
    predicate ProcessingScreenVisible(): (visible: bool)
      reads this
      ensures Valid() && mounted ==> (visible <==> live)
    {
      processing
    }

    /** The initial values of the state hooks; the effect's first run finds
        `processing` false and starts nothing. */
    constructor ()
      ensures Valid()
      ensures State() == PageState(false, "", false, StartedMsg, 0, true, [], false, [], [], [], 0)
    {
      isModalOpen, vmInput, processing := false, "", false;
      progressText, progressPct := StartedMsg, 0;
      mounted, loops, live := true, [], false;
      navigations, requests, alerts, startsInFlight := [], [], [], 0;
    }

    /** "Create a new report". */
    method OpenModal()
      requires Valid() && mounted
      modifies this
      ensures Valid()
      ensures State() == old(State()).(isModalOpen := true)
    {
      isModalOpen := true;
    }

    /** The overlay, the close mark and "Cancel" all close the modal. */
    method CloseModal()
      requires Valid() && mounted
      modifies this
      ensures Valid()
      ensures State() == old(State()).(isModalOpen := false)
    {
      isModalOpen := false;
    }

    /** Typing in the textarea. */
    method EditInput(text: string)
      requires Valid() && mounted
      modifies this
      ensures Valid()
      ensures State() == old(State()).(vmInput := text)
    {
      vmInput := text;
    }

    /** `setProcessing` together with the effect that depends on `processing`.
        On the mounted page a change of value runs the previous run's cleanup,
        which clears that loop's timer if one is armed and nothing else, and a
        new run with `processing` true starts a loop whose first read is at
        once in flight. Turning processing off always leaves no live loop. */
    method SetProcessing(value: bool)
      requires Valid()
      modifies this
      ensures Valid()
      ensures !value ==>
        State() == old(State()).(processing := false, loops := Cleanup(old(loops), old(live)), live := false)
      ensures value && (old(processing) || !old(mounted)) ==>
        State() == old(State()).(processing := true)
      ensures value && !old(processing) && old(mounted) ==>
        State() == old(State()).(processing := true, loops := old(loops) + [Reading], live := true)
    {
      if value != processing && mounted {
        loops := Cleanup(loops, live);
        live := false;
        if value {
          CompletedAppend(loops, Reading);
          loops := loops + [Reading];
          live := true;
        }
      }
      processing := value;
    }

    /** The synchronous part of "Generate Now", up to the awaited POST: a blank
        value only raises an alert; otherwise the modal closes, processing
        begins (with a new loop if it was off) with the progress reset, and the
        trimmed text is sent whole. */
    method StartGeneration()
      requires Valid() && mounted
      modifies this
      ensures Valid()
      ensures IsBlank(old(vmInput)) ==>
        State() == old(State()).(alerts := old(alerts) + [EnterVmNames])
      ensures !IsBlank(old(vmInput)) ==>
        State() == old(State()).(
          isModalOpen := false,
          processing := true,
          progressText := ZeroPct,
          progressPct := 0,
          loops := if old(processing) then old(loops) else old(loops) + [Reading],
          live := true,
          requests := old(requests) + [StartRequest(Trim(old(vmInput)))],
          startsInFlight := old(startsInFlight) + 1)
    {
      var value := Trim(vmInput);
      if value == [] {
        alerts := alerts + [EnterVmNames];
      } else {
        Begin(value);
      }
    }

    /** Lines 54-63 once the value passed the check: close the modal, start
        processing, reset the progress display and send the request. */
    method Begin(value: string)
      requires Valid() && mounted
      modifies this
      ensures Valid()
      ensures State() == old(State()).(
        isModalOpen := false,
        processing := true,
        progressText := ZeroPct,
        progressPct := 0,
        loops := if old(processing) then old(loops) else old(loops) + [Reading],
        live := true,
        requests := old(requests) + [StartRequest(value)],
        startsInFlight := old(startsInFlight) + 1)
    {
      isModalOpen := false;
      SetProcessing(true);
      progressText, progressPct := ZeroPct, 0;
      requests := requests + [StartRequest(value)];
      startsInFlight := startsInFlight + 1;
    }

    /** The awaited POST settles: an ok response changes nothing; otherwise the
        page alerts and stops processing, whose cleanup clears the live loop's
        armed timer but not a read it has in flight. The modal is left as it
        is. */
    method StartSettled(outcome: StartOutcome)
      requires Valid() && startsInFlight > 0
      modifies this
      ensures Valid()
      ensures outcome == Accepted ==>
        State() == old(State()).(startsInFlight := old(startsInFlight) - 1)
      ensures outcome != Accepted ==>
        State() == old(State()).(
          startsInFlight := old(startsInFlight) - 1,
          alerts := old(alerts) + [FailedToStart],
          processing := false,
          loops := Cleanup(old(loops), old(live)),
          live := false)
    {
      startsInFlight := startsInFlight - 1;
      if outcome != Accepted {
        alerts := alerts + [FailedToStart];
        SetProcessing(false);
      }
    }

    /** The timer of loop `k` fires and `poll` issues its next read. */
    method TimerFires(k: int)
      requires Valid() && 0 <= k < |loops| && loops[k] == Armed
      modifies this
      ensures Valid()
      ensures State() == old(State()).(loops := old(loops)[k := Reading])
    {
      CompletedUpdate(loops, k, Reading);
      loops := loops[k := Reading];
    }

    /** The read in flight of loop `k` settles with `sample`: the display, the
        re-arm and the navigation are those of `StepPoll`, whether or not the
        page is still processing. */
    method ReadSettles(k: int, sample: Sample)
      requires Valid() && 0 <= k < |loops| && loops[k] == Reading
      modifies this
      ensures Valid()
      ensures var s := StepPoll(sample, Display(old(progressText), old(progressPct)));
        State() == old(State()).(
          progressText := s.display.text,
          progressPct := s.display.pct,
          loops := old(loops)[k := if s.rearm then Armed else Stopped(true)],
          navigations := old(navigations) + if s.navigate then [SUMMARY_PATH] else [])
    {
      var s := StepPoll(sample, Display(progressText, progressPct));
      var next := if s.rearm then Armed else Stopped(true);
      CompletedUpdate(loops, k, next);
      progressText, progressPct := s.display.text, s.display.pct;
      loops := loops[k := next];
      if s.navigate {
        navigations := navigations + [SUMMARY_PATH];
      }
    }

    /** The read in flight of loop `k` settles with `sample` and, if that
        re-armed the timer, the timer fires and the next read is in flight. */
    method Feed(k: int, sample: Sample)
      requires Valid() && 0 <= k < |loops| && loops[k] == Reading
      modifies this
      ensures Valid()
      ensures var s := StepPoll(sample, Display(old(progressText), old(progressPct)));
        State() == old(State()).(
          progressText := s.display.text,
          progressPct := s.display.pct,
          loops := old(loops)[k := if s.rearm then Reading else Stopped(true)],
          navigations := old(navigations) + if s.navigate then [SUMMARY_PATH] else [])
    {
      ReadSettles(k, sample);
      if loops[k] == Armed {
        TimerFires(k);
      }
    }

    /** Loop `k`, with its read in flight, fed the responses `samples` in order:
        each response that does not complete re-arms the timer, which fires and
        issues the next read; after a completing response the loop is stopped
        and the remaining responses are never read. The display, the loop's
        state and the navigations are those of `RunPolls`. */
    method RunLoop(k: int, samples: seq<Sample>)
      requires Valid() && 0 <= k < |loops| && loops[k] == Reading
      modifies this
      ensures Valid()
      ensures var c := RunPolls(samples, Display(old(progressText), old(progressPct)));
        State() == old(State()).(
          progressText := c.display.text,
          progressPct := c.display.pct,
          loops := old(loops)[k := if c.polling then Reading else Stopped(true)],
          navigations := old(navigations) + if c.polling then [] else [SUMMARY_PATH])
    {
      ghost var d := Display(progressText, progressPct);
      var i := 0;
      while i < |samples|
        invariant 0 <= i <= |samples| && Valid()
        invariant var c := RunPolls(samples[..i], d);
          State() == old(State()).(
            progressText := c.display.text,
            progressPct := c.display.pct,
            loops := old(loops)[k := if c.polling then Reading else Stopped(true)],
            navigations := old(navigations) + if c.polling then [] else [SUMMARY_PATH])
      {
        RunPollsSnoc(samples[..i], samples[i], d);
        assert samples[..i + 1] == samples[..i] + [samples[i]];
        if loops[k] == Reading {
          Feed(k, samples[i]);
        }
        i := i + 1;
      }
      assert samples[..i] == samples;
    }

    /** The effect's cleanup when the page goes away: the live loop's armed
        timer is cleared; its read in flight, orphan loops and navigations
        already scheduled go on. */
    method Unmount()
      requires Valid() && mounted
      modifies this
      ensures Valid()
      ensures State() == old(State()).(mounted := false, loops := Cleanup(old(loops), old(live)), live := false)
    {
      loops := Cleanup(loops, live);
      live := false;
      mounted := false;
    }
  }

  /** Generate Now on whitespace only: an alert, nothing sent, nothing started. */
  method BlankInputScenario() returns (sent: nat, processing: bool, alerts: seq<Alert>)
    ensures sent == 0 && !processing && alerts == [EnterVmNames]
  {
    var home := new Home();
    home.OpenModal();
    home.EditInput(" \t\n ");
    home.StartGeneration();
    sent, processing, alerts := |home.requests|, home.processing, home.alerts;
  }

  /** The value sent for the text "  vm1, vm2\n". */
  lemma TrimmedExample()
    ensures Trim("  vm1, vm2\n") == "vm1, vm2" && !IsBlank("  vm1, vm2\n")
  {
  }

  /** A start request that fails while the loop's first read is in flight:
      processing stops and the modal stays closed, but the cleanup finds no
      armed timer, so the read is still pending. */
  method FailedStartScenario() returns (processing: bool, modalOpen: bool, body: string, firstLoop: Loop)
    ensures !processing && !modalOpen
    ensures body == "vm1, vm2"
    ensures firstLoop == Reading
  {
    var home := new Home();
    home.OpenModal();
    home.EditInput("  vm1, vm2\n");
    TrimmedExample();
    home.StartGeneration();
    home.StartSettled(Threw);
    processing, modalOpen := home.processing, home.isModalOpen;
    body := home.requests[0].hostnames;
    firstLoop := home.loops[0];
  }

  /** "vm1" is submitted and the start request fails before the loop's first
      read settles: the page is back on its main content, and that read is
      still in flight in a loop that is no longer live. */
  method StartFailsWhileReading() returns (home: Home)
    ensures fresh(home) && home.Valid()
    ensures home.State() == PageState(false, "vm1", false, ZeroPct, 0, true, [Reading], false,
                                      [], [StartRequest("vm1")], [FailedToStart], 0)
  {
    home := new Home();
    home.EditInput("vm1");
    assert !IsWhitespace(home.vmInput[0]);
    home.StartGeneration();
    home.StartSettled(NotOk);
  }

  /** The pending read of that failed start settles later: it shows its count
      and re-arms a timer that nothing clears, and the loop goes on until a
      read completes and the page navigates to the summary, all while it is
      not processing. */
  method OrphanLoopScenario() returns (processing: bool, midway: Display, last: Display, navigations: seq<string>)
    ensures !processing
    ensures midway == Display(Count(1, 3), 33)
    ensures last == Display(Success, 100) && navigations == [SUMMARY_PATH]
  {
    var home := StartFailsWhileReading();
    home.ReadSettles(0, Read(Num(3), Num(1)));
    midway := Display(home.progressText, home.progressPct);
    home.TimerFires(0);
    home.ReadSettles(0, Read(Num(3), Num(3)));
    processing, last, navigations := home.processing, Display(home.progressText, home.progressPct), home.navigations;
  }

  /** A failed start after the first read re-armed the timer: the cleanup
      clears it, the loop stops and nothing is left to poll. */
  method ClearedTimerScenario() returns (processing: bool, loops: seq<Loop>, navigations: seq<string>)
    ensures !processing && loops == [Stopped(false)] && navigations == []
  {
    var home := new Home();
    home.EditInput("vm1");
    assert !IsWhitespace(home.vmInput[0]);
    home.StartGeneration();
    home.ReadSettles(0, ReadFailed);
    home.StartSettled(Threw);
    processing, loops, navigations := home.processing, home.loops, home.navigations;
  }

  /** A retry after a failed start whose read was in flight: the orphan loop
      and the new one both run, and each navigates once when its read
      completes. */
  method TwoLoopsScenario() returns (loops: seq<Loop>, navigations: seq<string>)
    ensures loops == [Stopped(true), Stopped(true)]
    ensures navigations == [SUMMARY_PATH, SUMMARY_PATH]
  {
    var home := StartFailsWhileReading();
    assert !IsWhitespace(home.vmInput[0]);
    home.StartGeneration();
    home.ReadSettles(1, Read(Num(1), Num(1)));
    home.ReadSettles(0, Read(Num(1), Num(1)));
    loops, navigations := home.loops, home.navigations;
  }

  /** "vm1" is submitted and the start request is accepted: the page is
      processing, the progress is reset and the loop's first read is in
      flight. */
  method StartAccepted() returns (home: Home)
    ensures fresh(home) && home.Valid()
    ensures home.State() == PageState(false, "vm1", true, ZeroPct, 0, true, [Reading], true,
                                      [], [StartRequest("vm1")], [], 0)
  {
    home := new Home();
    home.EditInput("vm1");
    assert !IsWhitespace(home.vmInput[0]);
    home.StartGeneration();
    home.StartSettled(Accepted);
  }

  /** Three reads reporting 1 of 3, 1 of 3 again, and 3 of 3: the count is shown
      while it runs, then success at 100%, one navigation, and the loop stops. */
  method CompletionScenario() returns (midway: Display, last: Display, navigations: seq<string>, loop: Loop)
    ensures midway == Display(Count(1, 3), 33)
    ensures last == Display(Success, 100) && navigations == [SUMMARY_PATH] && loop == Stopped(true)
  {
    var home := StartAccepted();
    home.ReadSettles(0, Read(Num(3), Num(1)));
    home.TimerFires(0);
    home.ReadSettles(0, Read(Num(3), Num(1)));
    midway := Display(home.progressText, home.progressPct);
    home.TimerFires(0);
    home.ReadSettles(0, Read(Num(3), Num(3)));
    last := Display(home.progressText, home.progressPct);
    navigations, loop := home.navigations, home.loops[0];
  }

  /** A failed read followed by a completing one, run through `RunLoop`: the
      loop retries once, then completes, and no alert is raised. */
  method RetryScenario() returns (last: Display, alerts: seq<Alert>, navigations: nat)
    ensures last == Display(Success, 100) && alerts == [] && navigations == 1
  {
    var home := new Home();
    home.EditInput("vm1");
    assert !IsWhitespace(home.vmInput[0]);
    home.StartGeneration();
    home.RunLoop(0, [ReadFailed, Read(Num(3), Num(3))]);
    home.StartSettled(Accepted);
    last := Display(home.progressText, home.progressPct);
    alerts, navigations := home.alerts, |home.navigations|;
  }
}
