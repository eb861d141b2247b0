/** The pure part of the progress poller: how one response of the progress
    endpoint is read, the percentage, the completion rule, and the chain of
    polls that re-arms itself until a response reports completion. */
module Progress {

  /** A numeric field of the progress response as `field || 0` sees it:
      `Missing` stands for an absent field and for every falsy value. */
  datatype Field = Missing | Num(n: int)

  /** The outcome of one read of the progress endpoint: the response was not ok
      or something threw (`ReadFailed`), or the body was parsed. */
  datatype Sample = ReadFailed | Read(total: Field, processed: Field)

  /** The status line under the spinner: "Checks started..." (the initial
      value), "0%", "{processed} / {total} VMs complete" and
      "Report generated successfully!". */
  datatype ProgressText = StartedMsg | ZeroPct | Count(processed: int, total: int) | Success

  /** The two displayed progress values. */
  datatype Display = Display(text: ProgressText, pct: int)

  /** What one poll does: the display it leaves, whether it arms the timer
      for the next poll, and whether it schedules the navigation to the summary. */
  datatype Step = Step(display: Display, rearm: bool, navigate: bool)

  /** The state of the chain of polls after some responses: what is displayed,
      whether a next poll is still armed, and how many navigations it scheduled. */
  datatype Chain = Chain(display: Display, polling: bool, navigations: nat)

  /** `field || 0` */
  function OrZero(f: Field): int {
    match f
    case Missing => 0
    case Num(n) => n
  }

  /** `total > 0 ? Math.floor((processed / total) * 100) : 0`, read over the
      rationals: for a positive total the result is the floor of
      processed * 100 / total, otherwise 0. */
  function Percent(processed: int, total: int): (pct: int)
    ensures total <= 0 ==> pct == 0
    ensures total > 0 ==> pct * total <= processed * 100 < (pct + 1) * total
  {
    if total > 0 then processed * 100 / total else 0
  }

  /** The completion test `processed >= total && total > 0`. */
  predicate IsComplete(processed: int, total: int) {
    processed >= total && total > 0
  }

  /** A response that ends the polling. */
  predicate Completes(sample: Sample) {
    sample.Read? && IsComplete(OrZero(sample.processed), OrZero(sample.total))
  }

  /** The count text and percentage shown for a response that does not complete. */
  function Shown(processed: int, total: int): Display {
    Display(Count(processed, total), Percent(processed, total))
  }

  /** One run of `poll` after its read settled, starting from the display `d`. */
  function StepPoll(sample: Sample, d: Display): (s: Step)
    // exactly one of the two: the loop re-arms or it hands over to the summary
    ensures s.rearm <==> !s.navigate
    ensures s.navigate <==> Completes(sample)
    // a failed read changes nothing on screen and never stops the loop
    ensures sample.ReadFailed? ==> s.display == d && s.rearm
    // an unsized job (total 0, also when the field is missing) never completes
    ensures sample.Read? && OrZero(sample.total) == 0 ==> s.rearm && s.display == Display(Count(OrZero(sample.processed), 0), 0)
    ensures s.navigate ==> s.display == Display(Success, 100)
    ensures sample.Read? && !s.navigate ==> s.display == Shown(OrZero(sample.processed), OrZero(sample.total))
  {
    match sample
    case ReadFailed => Step(d, true, false)
    case Read(totalField, processedField) =>
      var total := OrZero(totalField);
      var processed := OrZero(processedField);
      if IsComplete(processed, total) then Step(Display(Success, 100), false, true)
      else Step(Shown(processed, total), true, false)
  }

  /** Below the total the floored percentage lies in [0, 100). */
  lemma PercentBelowHundred(processed: int, total: int)
    requires 0 <= processed < total
    ensures 0 <= Percent(processed, total) < 100
  {
  }

  /** With a non-negative processed count, the percentage left by a successful
      read lies in [0, 100]: the floor stays under 100 below the total, and at
      or above it the completion branch shows 100. */
  lemma PollPercentInRange(sample: Sample, d: Display)
    requires sample.Read? && OrZero(sample.processed) >= 0
    ensures 0 <= StepPoll(sample, d).display.pct <= 100
  {
    var total, processed := OrZero(sample.total), OrZero(sample.processed);
    if total > 0 && processed < total {
      PercentBelowHundred(processed, total);
    }
  }

  /** The chain of polls fed with `samples` in order, starting from the display
      `d`: each response that does not complete re-arms the timer for the next
      one; the first completing response stops the chain and the later ones are
      never read. */
  function RunPolls(samples: seq<Sample>, d: Display): (c: Chain)
    // navigation is scheduled at most once, and exactly when the chain stopped
    ensures c.navigations <= 1
    ensures c.polling <==> c.navigations == 0
    ensures c.polling <==> forall i :: 0 <= i < |samples| ==> !Completes(samples[i])
    ensures !c.polling ==> c.display == Display(Success, 100)
    decreases |samples|
  {
    if samples == [] then Chain(d, true, 0)
    else
      var s := StepPoll(samples[0], d);
      if s.navigate then Chain(s.display, false, 1)
      else
        var c := RunPolls(samples[1..], s.display);
        assert forall i :: 1 <= i < |samples| ==> samples[i] == samples[1..][i - 1];
        c
  }

  /** Failed reads alone leave the display as it was and the chain still running. */
  lemma {:induction false} RunPollsOnlyFailures(samples: seq<Sample>, d: Display)
    requires forall i :: 0 <= i < |samples| ==> samples[i].ReadFailed?
    ensures RunPolls(samples, d) == Chain(d, true, 0)
    decreases |samples|
  {
    if samples != [] {
      RunPollsOnlyFailures(samples[1..], d);
    }
  }

  /** While no response completes, the display shows the count and percentage of
      the last successful read, whatever the earlier ones reported; failed reads
      after it leave it on screen. */
  lemma {:induction false} RunPollsShowsLast(samples: seq<Sample>, d: Display, j: int)
    requires forall i :: 0 <= i < |samples| ==> !Completes(samples[i])
    requires 0 <= j < |samples| && samples[j].Read?
    requires forall i :: j < i < |samples| ==> samples[i].ReadFailed?
    ensures RunPolls(samples, d) == Chain(Shown(OrZero(samples[j].processed), OrZero(samples[j].total)), true, 0)
    decreases |samples|
  {
    var s := StepPoll(samples[0], d);
    if j == 0 {
      assert forall i :: 0 <= i < |samples| - 1 ==> samples[1..][i] == samples[i + 1];
      RunPollsOnlyFailures(samples[1..], s.display);
    } else {
      assert samples[1..][j - 1] == samples[j];
      RunPollsShowsLast(samples[1..], s.display, j - 1);
    }
  }

  /** One more response at the end of the chain: it is read only if the chain
      was still polling, and then it takes one more step from the display left
      so far. */
  lemma {:induction false} RunPollsSnoc(samples: seq<Sample>, sample: Sample, d: Display)
    ensures var c := RunPolls(samples, d);
      RunPolls(samples + [sample], d) ==
        if !c.polling then c
        else
          var s := StepPoll(sample, c.display);
          Chain(s.display, s.rearm, if s.navigate then 1 else 0)
    decreases |samples|
  {
    if samples != [] {
      assert (samples + [sample])[1..] == samples[1..] + [sample];
      RunPollsSnoc(samples[1..], sample, StepPoll(samples[0], d).display);
    }
  }
}
