/** What the counts of a log are, when an event is appended, when a log is completed, and what the validator
    accepts, said of the events themselves. */
module ArtifactMeaning {
  import opened Common
  import opened RunArtifact

  // ----- counts -----

  datatype Kind =
    | Verification | Repetition | Timeout | Rejection | SendingFailure | BadChunk | Cancellation | HighMark | LowMark
    | Writing | Resuming | ResumeFailure | IntegrityFailure | FramingFailure | Leak

  /** The events that a count is about. */
  predicate Is(kind: Kind, b: Body) {
    match kind
    case Verification => b.Terminal? && b.reason == VerifiedOk
    case Repetition => b.Terminal? && b.willRetry
    case Timeout => b.Terminal? && b.reason == RequestTimeout
    case Rejection => b.Terminal? && b.reason == ProviderReject
    case SendingFailure => b.Terminal? && b.reason == SendFailed
    case BadChunk => b.Terminal? && b.reason == InvalidChunk
    case Cancellation => b.Terminal? && b.reason == RequestCancelled
    case HighMark => b.Watermark? && b.isHigh
    case LowMark => b.Watermark? && !b.isHigh
    case Writing => b.StorageWrite?
    case Resuming => b.ResumeValidation?
    case ResumeFailure => b.ResumeValidation? && !b.passed
    case IntegrityFailure => (b.Terminal? && b.reason == HashMismatch) || (b.LifecycleError? && (b.phase == StoragePhase || b.phase == PersistPhase))
    case FramingFailure => b.LifecycleError? && b.phase == ReceivePhase
    case Leak => b.LifecycleError?
  }

  function CountOf(c: Counts, kind: Kind): int {
    match kind
    case Verification => c.verified
    case Repetition => c.retries
    case Timeout => c.timeouts
    case Rejection => c.rejects
    case SendingFailure => c.sendFailures
    case BadChunk => c.invalidChunks
    case Cancellation => c.cancellations
    case HighMark => c.watermarkHigh
    case LowMark => c.watermarkLow
    case Writing => c.storageWrites
    case Resuming => c.resumeValidations
    case ResumeFailure => c.resumeFailures
    case IntegrityFailure => c.integrityFailures
    case FramingFailure => c.framingFailures
    case Leak => c.lifecycleLeaks
  }

  function Number(events: seq<Entry>, kind: Kind): nat {
    |set i | 0 <= i < |events| && Is(kind, events[i].body)|
  }

  function Requested(events: seq<Entry>): int {
    if events == [] then 0
    else Requested(events[..|events| - 1]) + if events[|events| - 1].body.Scheduled? then events[|events| - 1].body.requested else 0
  }

  lemma NumberSnoc(events: seq<Entry>, kind: Kind)
    requires events != []
    ensures var n := |events| - 1;
      Number(events, kind) == Number(events[..n], kind) + if Is(kind, events[n].body) then 1 else 0
  {
    hide Is;
    var n := |events| - 1;
    var before, all := set i | 0 <= i < n && Is(kind, events[..n][i].body), set i | 0 <= i < |events| && Is(kind, events[i].body);
    forall i | 0 <= i < n
      ensures i in all <==> i in before
    {
      assert events[..n][i] == events[i];
    }
    assert all == if Is(kind, events[n].body) then before + {n} else before;
  }

  lemma OneCounted(c: Counts, b: Body, kind: Kind)
    ensures CountOf(CountOne(c, b), kind) == CountOf(c, kind) + if Is(kind, b) then 1 else 0
    ensures CountOne(c, b).scheduled == c.scheduled + if b.Scheduled? then b.requested else 0
  {
  }

  lemma {:induction false} CountedFirst(events: seq<Entry>, kind: Kind)
    ensures CountOf(CountEvents(events), kind) == Number(events, kind)
    ensures CountEvents(events).scheduled == Requested(events)
  {
    hide Is, CountOne, CountOf;
    if events == [] {
      NothingCounted(kind);
    } else {
      var n := |events| - 1;
      CountedFirst(events[..n], kind);
      OneCounted(CountEvents(events[..n]), events[n].body, kind);
      NumberSnoc(events, kind);
    }
  }

  lemma NothingCounted(kind: Kind)
    ensures Number([], kind) == 0 && CountOf(NoCounts, kind) == 0 && CountEvents([]) == NoCounts
  {
    var none: seq<Entry> := [];
    assert (set i | 0 <= i < |none| && Is(kind, none[i].body)) == {};
  }

  predicate Disposes(b: Body) {
    b.Lifecycle? && b.status == DisposeCompleted
  }

  /** Nothing was left behind: no lifecycle error, and one disposal, with no request and no timer. */
  ghost predicate Tidy(events: seq<Entry>) {
    && (forall i :: 0 <= i < |events| ==> !events[i].body.LifecycleError?)
    && exists d :: 0 <= d < |events| && Disposes(events[d].body)
         && events[d].body.outstandingDirect == 0 && events[d].body.activeTimers == 0
         && forall i :: 0 <= i < |events| && i != d ==> !Disposes(events[i].body)
  }

  /** Each count but the last is the number of the events it is about, requests summed up; the last is zero
      exactly if nothing was left behind, and one otherwise. */
  lemma CountsMeaning(events: seq<Entry>, kind: Kind)
    ensures var c := DeriveCounts(events);
      && (kind != Leak ==> CountOf(c, kind) == Number(events, kind)) && c.scheduled == Requested(events)
      && c.lifecycleLeaks == if Tidy(events) then 0 else 1
  {
    hide Number, Is, CountEvents, Disposals;
    CountedFirst(events, kind);
    CountedFirst(events, Leak);
    NoneOf(events);
    DisposalsAre(events);
  }

  lemma NoneOf(events: seq<Entry>)
    ensures Number(events, Leak) == 0 <==> forall i :: 0 <= i < |events| ==> !events[i].body.LifecycleError?
  {
    var all := set i | 0 <= i < |events| && Is(Leak, events[i].body);
    if i :| 0 <= i < |events| && events[i].body.LifecycleError? {
      assert i in all;
    } else {
      assert all == {};
    }
  }

  /** The disposals of a log, by their places. */
  lemma {:induction false} DisposalsAre(events: seq<Entry>)
    ensures Disposals(events) == [] <==> forall i :: 0 <= i < |events| ==> !Disposes(events[i].body)
    ensures |Disposals(events)| == 1 <==> exists d :: OnlyDisposal(events, d)
    ensures forall d :: OnlyDisposal(events, d) ==> Disposals(events) == [events[d]]
  {
    if events != [] {
      var n := |events| - 1;
      DisposalsAre(events[..n]);
      assert forall i :: 0 <= i < n ==> events[..n][i] == events[i];
      hide Disposes;
      assert Disposal(events[n]) <==> Disposes(events[n].body) by { DisposalDisposes(events[n]); }
      if Disposes(events[n].body) {
        assert Disposals(events[..n]) == [] <==> OnlyDisposal(events, n);
      } else {
        assert Disposals(events) == Disposals(events[..n]);
        assert forall d :: OnlyDisposal(events, d) <==> OnlyDisposal(events[..n], d);
      }
    }
  }

  lemma DisposalDisposes(e: Entry)
    ensures Disposal(e) <==> Disposes(e.body)
  {
  }

  ghost predicate OnlyDisposal(events: seq<Entry>, d: int) {
    0 <= d < |events| && Disposes(events[d].body) && forall i :: 0 <= i < |events| && i != d ==> !Disposes(events[i].body)
  }

  // ----- appending -----

  /** The numbers that an event carries. */
  function NumbersOf(b: Body): seq<int> {
    match b
    case Controller(_) => []
    case Scheduled(requested, outstandingAfter) => [requested, outstandingAfter]
    case Terminal(_, retryCount, _) => [retryCount]
    case WindowExhausted => []
    case Watermark(_, buffered, high, low) => [buffered, high, low]
    case StorageWrite(bytes) => [bytes]
    case ResumeValidation(verified, discarded, _) => [verified, discarded]
    case Lifecycle(_, outstanding, timers) => [outstanding, timers]
    case LifecycleError(_, _) => []
  }

  /** Numbered, timed and filled in with non-negative safe integers, and any error code well formed. */
  predicate WellFormed(e: Entry) {
    && 0 <= e.number <= 9_007_199_254_740_991 && 0 <= e.at <= 9_007_199_254_740_991
    && (forall k :: 0 <= k < |NumbersOf(e.body)| ==> 0 <= NumbersOf(e.body)[k] <= 9_007_199_254_740_991)
    && (e.body.LifecycleError? ==> e.body.codeOk)
  }

  lemma WellFormedIsValid(e: Entry)
    ensures EventValid(e) <==> WellFormed(e)
  {
    var numbers := NumbersOf(e.body);
    assert |numbers| >= 1 && WellFormed(e) ==> Integer(numbers[0]);
    assert |numbers| >= 2 && WellFormed(e) ==> Integer(numbers[1]);
    assert |numbers| >= 3 && WellFormed(e) ==> Integer(numbers[2]);
  }

  /** The entry that an event becomes: numbered from one, its time taken as an offset if it lies before the start. */
  function EntryFor(a: Artifact, b: Body, at: int): Entry {
    Entry(|a.events| + 1, if at < a.startedAt then a.startedAt + at else at, b)
  }

  /** An event is appended exactly if the log holds no disposal and the entry is well formed; then it is the
      last, the log ends no earlier, and the counts are those of all events. */
  lemma AppendMeaning(a: Artifact, b: Body, at: int)
    ensures var r, e := Append(a, b, at), EntryFor(a, b, at);
      && (r.Some? <==> (forall i :: 0 <= i < |a.events| ==> !Disposes(a.events[i].body)) && WellFormed(e))
      && (r.Some? ==>
            && r.value.events == a.events + [e] && r.value.endedAt == (if e.at > a.endedAt then e.at else a.endedAt)
            && r.value.counts == DeriveCounts(a.events + [e])
            && r.value == a.(events := r.value.events, endedAt := r.value.endedAt, counts := r.value.counts))
  {
    hide EventValid, WellFormed, DeriveCounts;
    WellFormedIsValid(EntryFor(a, b, at));
    forall i | 0 <= i < |a.events|
      ensures Disposal(a.events[i]) <==> Disposes(a.events[i].body)
    {
    }
  }

  // ----- the controller -----

  /** A controller keeps a terminal state, and logs each other change of state as it makes it. */
  lemma StateMeaning(c: Control, s: State, now: int)
    ensures var r := SetState(c, s, now);
      if c.state.Over? || c.state == s then r == Some(c)
      else
        && (r.Some? <==> (forall i :: 0 <= i < |c.artifact.events| ==> !Disposes(c.artifact.events[i].body)) && WellFormed(EntryFor(c.artifact, Controller(s), now)))
        && (r.Some? ==>
              && r.value.state == s && r.value.disposed == c.disposed
              && r.value.artifact.events == c.artifact.events + [EntryFor(c.artifact, Controller(s), now)])
  {
    hide Append, WellFormed, EntryFor;
    AppendMeaning(c.artifact, Controller(s), now);
  }

  /** Disposing a controller twice does nothing more. The first time it enters the given outcome, unless it is
      in a terminal state already, and completes its log with the state it is in, if it can. */
  lemma DisposeMeaning(c: Control, outcome: Outcome, evidence: Evidence, now: int)
    ensures var r := Dispose(c, outcome, evidence, now);
      if c.disposed then r == Some(c)
      else if c.state.Over? then
        var done := Complete(c.artifact, evidence, c.state.outcome, c.state, now);
        r == if done.None? then None else Some(Control(c.state, done.value, true))
      else
        var entered := Append(c.artifact, Controller(Over(outcome)), now);
        var done := if entered.None? then None else Complete(entered.value, evidence, outcome, Over(outcome), now);
        r == if done.None? then None else Some(Control(Over(outcome), done.value, true))
  {
    hide Append, Complete;
  }

  /** A controller opens idle, with that as its first event, and records all other events as they come. */
  lemma RecordMeaning(a: Artifact, c: Control, b: Body, at: int)
    ensures Opened(a, at) ==
      (if Append(a, Controller(Idle), at).None? then None else Some(Control(Idle, Append(a, Controller(Idle), at).value, false)))
    ensures Happen(c, Records(b, at)) ==
      if b.Controller? || Disposes(b) || Append(c.artifact, b, at).None? then None
      else Some(Control(c.state, Append(c.artifact, b, at).value, c.disposed))
  {
    hide Append;
  }

  // ----- completing -----

  /** What a run must show to be completed: a clean end of the engine and, to succeed, as many verified pieces
      as there are, and a passed validation of the resume that found all of them and discarded none. */
  ghost predicate Completable(a: Artifact, evidence: Evidence, outcome: Outcome) {
    && evidence.engineDisposed && evidence.flushCompleted && evidence.outstandingDirect == 0 && evidence.activeTimers == 0
    && (outcome == Succeeded ==>
          && a.counts.verified == a.provenance.pieceCount
          && exists i :: 0 <= i < |a.events| && a.events[i].body == ResumeValidation(a.provenance.pieceCount, 0, true))
  }

  /** The events that completion adds: the final state, unless it was entered before, and the disposal. */
  function Closing(a: Artifact, finalState: State, at: int): seq<Entry> {
    var time := if at < a.startedAt then a.startedAt + at else at;
    var gone := Lifecycle(DisposeCompleted, 0, 0);
    if exists i :: 0 <= i < |a.events| && a.events[i].body == Controller(finalState) then [Entry(|a.events| + 1, time, gone)]
    else [Entry(|a.events| + 1, time, Controller(finalState)), Entry(|a.events| + 2, time, gone)]
  }

  /** A log is completed exactly if the run shows what it must, no disposal was logged before, and the events
      added are well formed; it then ends with them. */
  lemma CompleteMeaning(a: Artifact, evidence: Evidence, outcome: Outcome, finalState: State, now: int)
    ensures var r, at := Complete(a, evidence, outcome, finalState, now), if now > a.endedAt then now else a.endedAt;
      var added := Closing(a, finalState, at);
      && (r.Some? <==>
            && Completable(a, evidence, outcome) && (forall i :: 0 <= i < |a.events| ==> !Disposes(a.events[i].body))
            && forall k :: 0 <= k < |added| ==> WellFormed(added[k]))
      && (r.Some? ==>
            && r.value.events == a.events + added && r.value.outcome == outcome && r.value.endedAt == added[|added| - 1].at
            && r.value.counts == DeriveCounts(a.events + added)
            && r.value.provenance == a.provenance && r.value.startedAt == a.startedAt)
  {
    hide Append, WellFormed, DeriveCounts, Disposes, Clean, Entered;
    EnteredIs(a.events, finalState);
    var at := if now > a.endedAt then now else a.endedAt;
    CompletableIs(a, evidence, outcome);
    hide Completable, Validated;
    var gone := Lifecycle(DisposeCompleted, 0, 0);
    AppendMeaning(a, gone, at);
    if !Entered(a.events, finalState) {
      AppendMeaning(a, Controller(finalState), at);
      if Append(a, Controller(finalState), at).Some? {
        var s, added := Append(a, Controller(finalState), at).value, Closing(a, finalState, at);
        AppendMeaning(s, gone, at);
        assert added == [EntryFor(a, Controller(finalState), at), EntryFor(s, gone, at)];
        assert (forall k :: 0 <= k < |added| ==> WellFormed(added[k])) <==> WellFormed(added[0]) && WellFormed(added[1]);
        StateDisposesNot(a.events, EntryFor(a, Controller(finalState), at), finalState);
        assert a.events + [EntryFor(a, Controller(finalState), at)] + [EntryFor(s, gone, at)] == a.events + Closing(a, finalState, at);
      } else {
        assert Closing(a, finalState, at)[0] == EntryFor(a, Controller(finalState), at);
      }
    } else {
      assert Closing(a, finalState, at) == [EntryFor(a, gone, at)];
      assert Closing(a, finalState, at)[0] == EntryFor(a, gone, at);
    }
  }

  lemma EnteredIs(events: seq<Entry>, s: State)
    ensures Entered(events, s) <==> exists i :: 0 <= i < |events| && events[i].body == Controller(s)
  {
  }

  lemma StateDisposesNot(events: seq<Entry>, e: Entry, s: State)
    requires e.body == Controller(s)
    ensures (forall i :: 0 <= i < |events| ==> !Disposes(events[i].body)) <==>
            forall i :: 0 <= i < |events + [e]| ==> !Disposes((events + [e])[i].body)
  {
    var all := events + [e];
    assert forall i :: 0 <= i < |events| ==> all[i] == events[i];
  }

  lemma CompletableIs(a: Artifact, evidence: Evidence, outcome: Outcome)
    ensures Completable(a, evidence, outcome) <==>
      && Clean(evidence)
      && (outcome.Succeeded? ==> a.counts.verified == a.provenance.pieceCount && Validated(a.events, a.provenance.pieceCount))
    ensures Clean(evidence) ==> evidence.outstandingDirect == 0 && evidence.activeTimers == 0
  {
    if outcome.Succeeded? {
      forall i | 0 <= i < |a.events|
        ensures CleanValidation(a.events[i], a.provenance.pieceCount) <==> a.events[i].body == ResumeValidation(a.provenance.pieceCount, 0, true)
      {
      }
    }
  }

  // ----- validating -----

  /** The log of a run that a validator may accept, check by check. */
  ghost predicate Acceptable(a: Artifact) {
    var last := |a.events| - 1;
    && a.provenance.idsOk && 1 <= a.provenance.window <= 2 && 1 <= a.provenance.attempt <= 10
    && 0 <= a.provenance.fileBytes <= 9_007_199_254_740_991 && 0 <= a.provenance.pieceBytes <= 9_007_199_254_740_991
    && 0 <= a.provenance.pieceCount <= 9_007_199_254_740_991
    && 0 <= a.startedAt <= a.endedAt <= 9_007_199_254_740_991
    // events numbered from one, in the time of the run
    && |a.events| > 0
    && (forall i :: 0 <= i < |a.events| ==>
          WellFormed(a.events[i]) && a.events[i].number == i + 1 && a.startedAt <= a.events[i].at <= a.endedAt)
    // one disposal, at the end
    && OnlyDisposal(a.events, last)
    // the last state is the outcome
    && (exists k :: 0 <= k < |a.events| && a.events[k].body == Controller(Over(a.outcome))
         && forall j :: k < j < |a.events| ==> !a.events[j].body.Controller?)
    && (a.outcome != Succeeded ==> forall i :: 0 <= i < |a.events| ==> a.events[i].body != Controller(Over(Succeeded)))
    // a run that succeeded verified every piece and reports no failure
    && (a.outcome == Succeeded ==>
          && Number(a.events, Verification) == a.provenance.pieceCount
          && (exists i :: 0 <= i < |a.events| && a.events[i].body == ResumeValidation(a.provenance.pieceCount, 0, true))
          && (forall i :: 0 <= i < |a.events| ==> !Failure(a.events[i].body)))
    // the counts are those of the events
    && CountsFit(a)
  }

  ghost predicate CountsFit(a: Artifact) {
    && (forall kind :: kind != Leak ==> CountOf(a.counts, kind) == Number(a.events, kind))
    && a.counts.scheduled == Requested(a.events) && a.counts.lifecycleLeaks == if Tidy(a.events) then 0 else 1
  }

  lemma CountsFitExactly(a: Artifact)
    ensures CountsFit(a) <==> a.counts == DeriveCounts(a.events)
  {
    hide Number, Requested, Tidy, DeriveCounts;
    CountsMeaning(a.events, Verification);
    forall kind
      ensures kind != Leak ==> CountOf(DeriveCounts(a.events), kind) == Number(a.events, kind)
    {
      CountsMeaning(a.events, kind);
    }
    if CountsFit(a) {
      SameCounts(a.counts, DeriveCounts(a.events));
    }
  }

  lemma SameCounts(a: Counts, b: Counts)
    requires (forall kind :: kind != Leak ==> CountOf(a, kind) == CountOf(b, kind))
    requires a.scheduled == b.scheduled && a.lifecycleLeaks == b.lifecycleLeaks
    ensures a == b
  {
    assert CountOf(a, Verification) == CountOf(b, Verification) && CountOf(a, Repetition) == CountOf(b, Repetition);
    assert CountOf(a, Timeout) == CountOf(b, Timeout) && CountOf(a, Rejection) == CountOf(b, Rejection);
    assert CountOf(a, SendingFailure) == CountOf(b, SendingFailure) && CountOf(a, BadChunk) == CountOf(b, BadChunk);
    assert CountOf(a, Cancellation) == CountOf(b, Cancellation) && CountOf(a, HighMark) == CountOf(b, HighMark);
    assert CountOf(a, LowMark) == CountOf(b, LowMark) && CountOf(a, Writing) == CountOf(b, Writing);
    assert CountOf(a, Resuming) == CountOf(b, Resuming) && CountOf(a, ResumeFailure) == CountOf(b, ResumeFailure);
    assert CountOf(a, IntegrityFailure) == CountOf(b, IntegrityFailure) && CountOf(a, FramingFailure) == CountOf(b, FramingFailure);
  }

  lemma {:induction false} LastStateIs(events: seq<Entry>, s: State)
    ensures LastState(events) == Some(s) <==>
      exists k :: 0 <= k < |events| && events[k].body == Controller(s) && forall j :: k < j < |events| ==> !events[j].body.Controller?
  {
    if events != [] {
      var n := |events| - 1;
      LastStateIs(events[..n], s);
      assert forall i :: 0 <= i < n ==> events[..n][i] == events[i];
      if events[n].body.Controller? {
        assert !(forall j :: n - 1 < j < |events| ==> !events[j].body.Controller?);
      } else if LastState(events[..n]) == Some(s) {
        var k :| 0 <= k < n && events[..n][k].body == Controller(s) && forall j :: k < j < n ==> !events[..n][j].body.Controller?;
        assert events[k].body == Controller(s) && forall j :: k < j < |events| ==> !events[j].body.Controller?;
      }
    }
  }

  /** The one disposal is the last event. */
  lemma DisposalIsLast(events: seq<Entry>)
    requires events != [] && forall i :: 0 <= i < |events| ==> events[i].number == i + 1
    ensures |Disposals(events)| == 1 && Disposals(events)[0] == events[|events| - 1] <==> OnlyDisposal(events, |events| - 1)
  {
    hide Disposes;
    DisposalsAre(events);
    if |Disposals(events)| == 1 {
      var d :| OnlyDisposal(events, d);
      assert Disposals(events) == [events[d]];
    }
  }

  lemma StatesAre(events: seq<Entry>, pieceCount: int)
    ensures Entered(events, Over(Succeeded)) <==> exists i :: 0 <= i < |events| && events[i].body == Controller(Over(Succeeded))
    ensures Validated(events, pieceCount) <==> exists i :: 0 <= i < |events| && events[i].body == ResumeValidation(pieceCount, 0, true)
  {
    forall i | 0 <= i < |events|
      ensures CleanValidation(events[i], pieceCount) <==> events[i].body == ResumeValidation(pieceCount, 0, true)
    {
    }
  }

  /** The validator accepts exactly the acceptable logs. */
  lemma ValidateExactly(a: Artifact)
    ensures Validate(a) <==> Acceptable(a)
  {
    hide WellFormed, EventValid, DeriveCounts, Disposals, LastState, Entered, Validated, Failure, CountsFit, Number, OnlyDisposal, Tidy;
    forall i | 0 <= i < |a.events|
      ensures EventValid(a.events[i]) <==> WellFormed(a.events[i])
    {
      WellFormedIsValid(a.events[i]);
    }
    CountsFitExactly(a);
    LastStateIs(a.events, Over(a.outcome));
    StatesAre(a.events, a.provenance.pieceCount);
    FailureCounts(a.events);
    CountsMeaning(a.events, Verification);
    if a.events != [] && forall i :: 0 <= i < |a.events| ==> a.events[i].number == i + 1 {
      DisposalIsLast(a.events);
    }
  }

  /** An accepted log is not accepted with any one thing about it changed: other counts, another outcome, an
      event taken out or one added. */
  lemma TamperingIsRefused(a: Artifact, counts: Counts, outcome: Outcome, k: nat, e: Entry)
    requires Validate(a) && counts != a.counts && outcome != a.outcome && k < |a.events|
    ensures !Validate(a.(counts := counts)) && !Validate(a.(outcome := outcome))
    ensures !Validate(a.(events := a.events[..k] + a.events[k + 1..])) && !Validate(a.(events := a.events + [e]))
  {
    hide EventValid, DeriveCounts, Entered, Validated, CountsFit;
    ValidateExactly(a);
    var fewer, more := a.(events := a.events[..k] + a.events[k + 1..]), a.(events := a.events + [e]);
    ValidateExactly(fewer);
    ValidateExactly(more);
  }
}
