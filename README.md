# Fitment check Home page: job-lifecycle controller

This project models the client-side controller of the fitment-check web app's
Home page (`webapp/src/pages/Home.jsx`). The user types VM names into a modal,
presses "Generate Now", and the page starts a backend job with a POST to
`/api/check`. It then polls `/api/progress` once a second, showing
"`processed` / `total` VMs complete" and a percentage bar. When the job reports
completion, the page shows "Report generated successfully!" at 100% and
navigates to `/summary` a moment later.

The model has three modules:

- `TextInput` (`text_input.dfy`): JavaScript's `String.prototype.trim` over the
  ECMAScript whitespace and line-terminator characters, and the blank test the
  start action applies to the trimmed value.
- `Progress` (`progress.dfy`): the pure part of the poller. It covers how a
  progress response is read (absent or falsy fields count as 0), the
  percentage, the completion rule, one poll step, and `RunPolls`, the chain of
  polls that re-arms itself until a response completes.
- `HomeController` (`home.dfy`): the class `Home`. Its fields are the
  component's state hooks (`isModalOpen`, `vmInput`, `processing`,
  `progressText`, `progressPct`). Further fields record what the page does to
  the outside world:
  - the polling loops the effect has started, each `Reading` (a read of
    /api/progress in flight), `Armed` (its timer set) or `Stopped`;
  - whether the last loop is `live`, that is, its effect run has not been
    cleaned up yet;
  - whether the page is mounted;
  - the navigations scheduled, the start requests sent, the alerts shown, and
    the start requests still in flight.

  Each user action, timer firing and settled network read is one method, and
  each method states the whole new state as an update of the old one. User
  actions require a mounted page; reads and start responses may settle after
  it is gone.
  `Valid()` is the invariant every method keeps:
  - the live loop exists exactly while the mounted page is processing;
  - the number of navigations equals the number of loops that completed the
    job, and a completed loop is stopped, so each loop navigates at most once;
  - the page only navigates to `/summary`.

  `Valid()` does not tie the other loops to `processing`. The scenario methods
  at the end run whole event sequences, including loops that outlive their
  effect run.

The `useEffect` keyed on `processing` is folded into `Home.SetProcessing`. When
the value changes, the previous run's cleanup (`Cleanup`) clears that loop's
timer if one is armed. A read still in flight is not cleared: the variable
`timer` is only assigned when a read settles (line 41), and the cleanup on line
45 clears whatever it holds at that moment. Such a read settles later, updates
the progress display and re-arms a timer that no cleanup will ever clear. That
orphan loop runs until a read completes the job, and then it navigates to the
summary even though the page is no longer processing (`OrphanLoopScenario`).
The new effect run starts a loop, with its first read in flight, if and only if
`processing` is now true.

`progressText` is the datatype `ProgressText`:

- `StartedMsg` is "Checks started...";
- `ZeroPct` is "0%";
- `Count(processed, total)` is "… / … VMs complete";
- `Success` is "Report generated successfully!".

Where the behaviour described for the system and the code differ, the model
follows the code:

- The textarea value is trimmed and sent whole as `hostnames`. It is not split
  on commas.
- The initial status text is "Checks started...".
- A sample's `processed` may go down.
- Samples carry no job generation, and none is checked.
- A failed start only sets `processing` to false. The modal is not reopened.
- Turning `processing` off does not stop a loop whose read is in flight, as
  described above, so progress updates and a navigation can follow a failed
  start.

## Model

| member | source | states |
|---|---|---|
| `TextInput.TrimStartSpec` | webapp/src/pages/Home.jsx:49 | `TrimStart` keeps the suffix of the input that follows its leading whitespace, and it does not start with whitespace |
| `TextInput.TrimEndSpec` | webapp/src/pages/Home.jsx:49 | `TrimEnd` keeps the prefix of the input before its trailing whitespace, and it does not end with whitespace |
| `TextInput.TrimSpec` | webapp/src/pages/Home.jsx:49 | `vmInput.trim()` is a slice of the input with only whitespace on either side, and neither end of it is whitespace |
| `TextInput.TrimUnique` | webapp/src/pages/Home.jsx:49 | that property determines the trimmed value: any slice with whitespace around it and non-whitespace ends equals `Trim` |
| `TextInput.TrimIdempotent` | webapp/src/pages/Home.jsx:49 | trimming an already trimmed value changes nothing |
| `TextInput.BlankIffAllWhitespace` | webapp/src/pages/Home.jsx:49-50 | the check `!value` fails exactly for inputs made only of whitespace, the empty input included |
| `Progress.Percent` | webapp/src/pages/Home.jsx:30 | for a positive total the percentage is the floor of processed * 100 / total (pct * total <= processed * 100 < (pct + 1) * total); otherwise it is 0 |
| `Progress.PercentBelowHundred` | webapp/src/pages/Home.jsx:30 | for 0 <= processed < total the floored percentage lies in [0, 100) |
| `Progress.StepPoll` | webapp/src/pages/Home.jsx:24-41 | a poll either re-arms or schedules navigation, never both; navigation happens exactly for a read with processed >= total > 0 and shows Success at 100; a failed read keeps the display and re-arms; a total of 0 (also a missing one) never completes and shows 0%; otherwise the display is the count and its percentage |
| `Progress.PollPercentInRange` | webapp/src/pages/Home.jsx:30-35 | with processed >= 0, the percentage after any successful read lies in [0, 100]: below the total the floor stays under 100, at or above it completion shows 100 |
| `Progress.RunPolls` | webapp/src/pages/Home.jsx:23-43 | over any sequence of responses the chain schedules navigation at most once; it stops exactly when some response completes, and then shows Success at 100 |
| `Progress.RunPollsOnlyFailures` | webapp/src/pages/Home.jsx:26-41 | failed reads alone never change the display and never stop the chain |
| `Progress.RunPollsShowsLast` | webapp/src/pages/Home.jsx:26-41 | while no response completes, the display is the count and percentage of the last successful read, whatever came before it and however many failed reads follow it |
| `Progress.RunPollsSnoc` | webapp/src/pages/Home.jsx:23-43 | one more response is read only if the chain is still polling, and then it takes one `StepPoll` from the display left so far |
| `HomeController.Cleanup` | webapp/src/pages/Home.jsx:45 | the effect's cleanup changes at most the live loop, and only from `Armed` to stopped: a read in flight, and every other loop, are left as they are; no loop becomes completed |
| `HomeController.Home.MainContentVisible` | webapp/src/pages/Home.jsx:83 | the main content is shown exactly when the processing screen is not |
| `HomeController.Home.ProcessingScreenVisible` | webapp/src/pages/Home.jsx:109 | on the mounted page, the processing screen is shown exactly while the current effect run's polling loop is live |
| `HomeController.Home.constructor` | webapp/src/pages/Home.jsx:12-16 | the initial hook values: modal closed, empty input, not processing, "Checks started...", 0%, mounted, no loop, nothing scheduled or sent |
| `HomeController.Home.OpenModal` | webapp/src/pages/Home.jsx:104 | only `isModalOpen` changes, to true |
| `HomeController.Home.CloseModal` | webapp/src/pages/Home.jsx:131-163 | the overlay, the close mark and Cancel change only `isModalOpen`, to false |
| `HomeController.Home.EditInput` | webapp/src/pages/Home.jsx:156 | only `vmInput` changes, to the new text |
| `HomeController.Home.SetProcessing` | webapp/src/pages/Home.jsx:20-46 | `processing` takes the new value. Turning it off runs the cleanup and leaves no live loop. Turning it on while it was off on the mounted page starts a new live loop with its read in flight. Otherwise the loops are unchanged |
| `HomeController.Home.StartGeneration` | webapp/src/pages/Home.jsx:48-63 | blank input only adds the "Please enter VM names" alert and sends nothing. Otherwise the modal is closed and processing is true. The text is "0%" and the percentage 0. A new loop starts if processing was off. Exactly one request is sent, and its `hostnames` is the whole trimmed input |
| `HomeController.Home.Begin` | webapp/src/pages/Home.jsx:54-63 | the updates made once the value passed the check, as listed for `StartGeneration` |
| `HomeController.Home.StartSettled` | webapp/src/pages/Home.jsx:64-67 | an ok response changes nothing else. A non-ok response or an exception adds the "Failed to start report" alert, sets processing to false and runs the cleanup, which leaves a read in flight running. The modal is left as it is |
| `HomeController.Home.TimerFires` | webapp/src/pages/Home.jsx:23-41 | an armed loop's timer fires and its next read is in flight; nothing else changes |
| `HomeController.Home.ReadSettles` | webapp/src/pages/Home.jsx:25-41 | the display, the re-arm and the navigation are those of `StepPoll`, whether or not the page is still processing; only that loop's state changes; `Valid()` is kept |
| `HomeController.Home.Feed` | webapp/src/pages/Home.jsx:23-41 | a read settles and, if it re-armed, the timer fires: the state is that of one `StepPoll`, with the loop reading again or completed |
| `HomeController.Home.RunLoop` | webapp/src/pages/Home.jsx:23-43 | feeding a loop a sequence of responses leaves the display, the loop's state and the navigations that `RunPolls` computes for them |
| `HomeController.Home.Unmount` | webapp/src/pages/Home.jsx:45 | teardown marks the page unmounted and runs the cleanup; a read in flight, orphan loops and scheduled navigations go on |
| `HomeController.BlankInputScenario` | webapp/src/pages/Home.jsx:49-53 | whitespace-only input: one alert, no request, not processing |
| `HomeController.TrimmedExample` | webapp/src/pages/Home.jsx:49 | "  vm1, vm2\n" is not blank and trims to "vm1, vm2" |
| `HomeController.FailedStartScenario` | webapp/src/pages/Home.jsx:54-67 | after a start that fails before the first read settles, the page is not processing and the modal is closed. The request carried the trimmed text. The loop's read is still in flight |
| `HomeController.StartFailsWhileReading` | webapp/src/pages/Home.jsx:48-67 | the exact page state after "vm1" is submitted and the start fails before the first read settles |
| `HomeController.OrphanLoopScenario` | webapp/src/pages/Home.jsx:20-46 | that pending read later shows "1 / 3" at 33% and re-arms. The loop goes on and navigates to /summary with Success at 100%, all while the page is not processing |
| `HomeController.ClearedTimerScenario` | webapp/src/pages/Home.jsx:41-45 | a start that fails after the first read re-armed the timer: the cleanup stops the loop, and nothing navigates |
| `HomeController.TwoLoopsScenario` | webapp/src/pages/Home.jsx:20-67 | a retry while the failed start's read is in flight runs two loops, and each navigates once |
| `HomeController.StartAccepted` | webapp/src/pages/Home.jsx:48-67 | the exact page state after "vm1" is submitted and the start is accepted |
| `HomeController.CompletionScenario` | webapp/src/pages/Home.jsx:28-37 | reads of 1/3, 1/3 and 3/3 show "1 / 3" at 33%, then Success at 100% with one navigation to /summary, and the loop stops |
| `HomeController.RetryScenario` | webapp/src/pages/Home.jsx:24-41 | through `RunLoop`, a failed read then a read of 3/3 complete with one navigation and no alert |

## Left out

- Rendering (`webapp/src/pages/Home.jsx`, lines 71-175) is reduced to the predicates `Home.MainContentVisible` and `Home.ProcessingScreenVisible`. `webapp/src/components/Header.jsx` and `webapp/src/components/Layout.jsx` are presentation only and are not part of this model.
- `fetch`, `res.json()`, `alert`, `navigate`, `setTimeout`/`clearTimeout` and React's hooks are library calls. They appear as method inputs (`Sample`, `StartOutcome`) and as recorded outputs (`requests`, `alerts`, `navigations`, `loops`).
- The 1000 ms poll interval and the 800 ms navigation delay are not modelled. An armed timer is a loop in state `Armed` that fires whenever `TimerFires` is called, and a scheduled navigation is an entry in `navigations`.
- Progress.Percent: computes `processed * 100 / total` over the integers, which is the exact floor. The page computes `Math.floor((processed / total) * 100)` in IEEE doubles, which can land one lower (29 of 100 shows 28%). Floating point is not modelled.
- Progress.OrZero: a response field is either a number or falsy (`Missing`). Truthy non-numbers (a string such as "3") and fractional numbers are not modelled.
- Concurrency: the scheduling of timers and reads is the caller's choice of method and loop index. Each settled read, timer firing and start outcome is one atomic step. Interleavings that those steps cannot express (for example, JavaScript running between `res.json()` and the setters) are not modelled.
- After `Unmount`, React ignores the setters of the unmounted page. The model still applies them to its fields, and nothing observes those fields any more. A navigation scheduled by a loop that runs on after unmounting is recorded like any other.
- React's batching of state updates is not modelled: the setters of one handler take effect together, and intermediate renders are not observed.
- `trim` works on UTF-16 code units and Dafny strings hold Unicode scalar values. Every whitespace character is a single code unit, so the trimmed result is the same.
