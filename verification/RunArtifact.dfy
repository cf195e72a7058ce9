/** The event log of a direct transfer: how it is built, how it is completed, and what the independent
    validator accepts. */
module RunArtifact {
  import opened Common

  const MAX_SAFE_INTEGER: int := 0x1f_ffff_ffff_ffff

  predicate Integer(v: int) {
    0 <= v <= MAX_SAFE_INTEGER
  }

  datatype Outcome = Succeeded | Failed | Cancelled

  datatype State = Idle | Starting | Running | Over(outcome: Outcome)

  datatype Reason = VerifiedOk | Acknowledged | SendFailed | RequestTimeout | RequestCancelled | ProviderReject | HashMismatch | InvalidChunk

  datatype Phase = SendPhase | ReceivePhase | StoragePhase | PersistPhase | FinalizePhase

  datatype Status = FlushStarted | FlushCompleted | DisposeCompleted

  /** `codeOk` says whether an error code has the form the validator asks for. */
  datatype Body =
    | Controller(state: State)
    | Scheduled(requested: int, outstandingAfter: int)
    | Terminal(reason: Reason, retryCount: int, willRetry: bool)
    | WindowExhausted
    | Watermark(isHigh: bool, bufferedAmount: int, highWaterMark: int, lowWaterMark: int)
    | StorageWrite(bytes: int)
    | ResumeValidation(verifiedPieces: int, discardedPieces: int, passed: bool)
    | Lifecycle(status: Status, outstandingDirect: int, activeTimers: int)
    | LifecycleError(phase: Phase, codeOk: bool)

  datatype Entry = Entry(number: int, at: int, body: Body)

  datatype Counts = Counts(
    scheduled: int, verified: int, retries: int, timeouts: int, rejects: int, sendFailures: int, invalidChunks: int,
    cancellations: int, watermarkHigh: int, watermarkLow: int, storageWrites: int, resumeValidations: int,
    resumeFailures: int, integrityFailures: int, framingFailures: int, lifecycleLeaks: int)

  const NoCounts := Counts(0, 0, 0, 0, 0, 0, 0, 0, 0, 0, 0, 0, 0, 0, 0, 0)

  /** `idsOk` sums up the checks on identifiers, hashes and names, which are string patterns. */
  datatype Provenance = Provenance(idsOk: bool, window: int, attempt: int, fileBytes: int, pieceBytes: int, pieceCount: int)

  datatype Artifact = Artifact(
    provenance: Provenance, startedAt: int, endedAt: int, outcome: Outcome, counts: Counts, events: seq<Entry>)

  // ----- counting -----

  function CountOne(c: Counts, b: Body): Counts {
    match b
    case Scheduled(requested, _) => c.(scheduled := c.scheduled + requested)
    case Terminal(reason, _, willRetry) =>
      var d := if willRetry then c.(retries := c.retries + 1) else c;
      (match reason
       case VerifiedOk => d.(verified := d.verified + 1)
       case RequestTimeout => d.(timeouts := d.timeouts + 1)
       case ProviderReject => d.(rejects := d.rejects + 1)
       case SendFailed => d.(sendFailures := d.sendFailures + 1)
       case InvalidChunk => d.(invalidChunks := d.invalidChunks + 1)
       case RequestCancelled => d.(cancellations := d.cancellations + 1)
       case HashMismatch => d.(integrityFailures := d.integrityFailures + 1)
       case Acknowledged => d)
    case Watermark(isHigh, _, _, _) =>
      if isHigh then c.(watermarkHigh := c.watermarkHigh + 1) else c.(watermarkLow := c.watermarkLow + 1)
    case StorageWrite(_) => c.(storageWrites := c.storageWrites + 1)
    case ResumeValidation(_, _, passed) =>
      c.(resumeValidations := c.resumeValidations + 1, resumeFailures := c.resumeFailures + if passed then 0 else 1)
    case LifecycleError(phase, _) =>
      var d := c.(lifecycleLeaks := c.lifecycleLeaks + 1);
      if phase.ReceivePhase? then d.(framingFailures := d.framingFailures + 1)
      else if phase.StoragePhase? || phase.PersistPhase? then d.(integrityFailures := d.integrityFailures + 1)
      else d
    case _ => c
  }

  function CountEvents(events: seq<Entry>): Counts {
    if events == [] then NoCounts else CountOne(CountEvents(events[..|events| - 1]), events[|events| - 1].body)
  }

  predicate Disposal(e: Entry) {
    e.body.Lifecycle? && e.body.status.DisposeCompleted?
  }

  function Disposals(events: seq<Entry>): (r: seq<Entry>)
    ensures forall k :: 0 <= k < |r| ==> Disposal(r[k])
  {
    if events == [] then []
    else Disposals(events[..|events| - 1]) + if Disposal(events[|events| - 1]) then [events[|events| - 1]] else []
  }

  /** `deriveCounts`. */
  function DeriveCounts(events: seq<Entry>): Counts {
    var c, disposals := CountEvents(events), Disposals(events);
    c.(lifecycleLeaks :=
      if c.lifecycleLeaks > 0 || |disposals| != 1 || disposals[0].body.outstandingDirect != 0 || disposals[0].body.activeTimers != 0
      then 1 else 0)
  }

  method DeriveCountsLoop(events: seq<Entry>) returns (counts: Counts)
    ensures counts == DeriveCounts(events)
  {
    counts := NoCounts;
    var disposals: seq<Entry> := [];
    for i := 0 to |events|
      invariant counts == CountEvents(events[..i]) && disposals == Disposals(events[..i])
    {
      assert events[..i + 1][..i] == events[..i];
      var b := events[i].body;
      match b {
        case Scheduled(requested, _) => counts := counts.(scheduled := counts.scheduled + requested);
        case Terminal(reason, _, willRetry) =>
          if reason.VerifiedOk? { counts := counts.(verified := counts.verified + 1); }
          if willRetry { counts := counts.(retries := counts.retries + 1); }
          if reason.RequestTimeout? { counts := counts.(timeouts := counts.timeouts + 1); }
          if reason.ProviderReject? { counts := counts.(rejects := counts.rejects + 1); }
          if reason.SendFailed? { counts := counts.(sendFailures := counts.sendFailures + 1); }
          if reason.InvalidChunk? { counts := counts.(invalidChunks := counts.invalidChunks + 1); }
          if reason.RequestCancelled? { counts := counts.(cancellations := counts.cancellations + 1); }
          if reason.HashMismatch? { counts := counts.(integrityFailures := counts.integrityFailures + 1); }
        case Watermark(isHigh, _, _, _) =>
          if isHigh { counts := counts.(watermarkHigh := counts.watermarkHigh + 1); }
          else { counts := counts.(watermarkLow := counts.watermarkLow + 1); }
        case StorageWrite(_) => counts := counts.(storageWrites := counts.storageWrites + 1);
        case ResumeValidation(_, _, passed) =>
          counts := counts.(resumeValidations := counts.resumeValidations + 1);
          if !passed { counts := counts.(resumeFailures := counts.resumeFailures + 1); }
        case LifecycleError(phase, _) =>
          counts := counts.(lifecycleLeaks := counts.lifecycleLeaks + 1);
          if phase.ReceivePhase? { counts := counts.(framingFailures := counts.framingFailures + 1); }
          else if phase.StoragePhase? || phase.PersistPhase? { counts := counts.(integrityFailures := counts.integrityFailures + 1); }
        case _ =>
      }
      if Disposal(events[i]) {
        disposals := disposals + [events[i]];
      }
    }
    assert events[..|events|] == events;
    counts := counts.(lifecycleLeaks :=
      if counts.lifecycleLeaks > 0 || |disposals| != 1 || disposals[0].body.outstandingDirect != 0 || disposals[0].body.activeTimers != 0
      then 1 else 0);
  }

  // ----- building -----

  predicate EventValid(e: Entry) {
    && Integer(e.number) && Integer(e.at)
    && match e.body
       case Controller(_) => true
       case Scheduled(requested, outstandingAfter) => Integer(requested) && Integer(outstandingAfter)
       case Terminal(_, retryCount, _) => Integer(retryCount)
       case WindowExhausted => true
       case Watermark(_, buffered, high, low) => Integer(buffered) && Integer(high) && Integer(low)
       case StorageWrite(bytes) => Integer(bytes)
       case ResumeValidation(verified, discarded, _) => Integer(verified) && Integer(discarded)
       case Lifecycle(_, outstanding, timers) => Integer(outstanding) && Integer(timers)
       case LifecycleError(_, codeOk) => codeOk
  }

  predicate IsDisposed(events: seq<Entry>) {
    exists i :: 0 <= i < |events| && Disposal(events[i])
  }

  function Normalized(at: int, startedAt: int): int {
    if at < startedAt then startedAt + at else at
  }

  function Create(p: Provenance, startedAt: int, endedAt: int, outcome: Outcome): Artifact {
    Artifact(p, startedAt, endedAt, outcome, NoCounts, [])
  }

  /** `appendDirectArtifactEvent`; `None` where it throws. */
  function Append(a: Artifact, b: Body, at: int): Option<Artifact> {
    var e := Entry(|a.events| + 1, Normalized(at, a.startedAt), b);
    if IsDisposed(a.events) || !EventValid(e) then None
    else Some(a.(endedAt := Max(a.endedAt, e.at), counts := DeriveCounts(a.events + [e]), events := a.events + [e]))
  }

  datatype Evidence = Evidence(engineDisposed: bool, flushCompleted: bool, outstandingDirect: int, activeTimers: int)

  predicate Clean(e: Evidence) {
    e.engineDisposed && e.flushCompleted && e.outstandingDirect == 0 && e.activeTimers == 0
  }

  predicate CleanValidation(e: Entry, pieceCount: int) {
    e.body.ResumeValidation? && e.body.passed && e.body.verifiedPieces == pieceCount && e.body.discardedPieces == 0
  }

  predicate Validated(events: seq<Entry>, pieceCount: int) {
    exists i :: 0 <= i < |events| && CleanValidation(events[i], pieceCount)
  }

  predicate Entered(events: seq<Entry>, s: State) {
    exists i :: 0 <= i < |events| && events[i].body == Controller(s)
  }

  /** `completeDirectRunArtifact`; `None` where it throws. */
  function Complete(a: Artifact, evidence: Evidence, outcome: Outcome, finalState: State, now: int): Option<Artifact> {
    if !Clean(evidence) then None
    else if outcome.Succeeded? && (a.counts.verified != a.provenance.pieceCount || !Validated(a.events, a.provenance.pieceCount)) then None
    else
      var at := Max(now, a.endedAt);
      var stated := if Entered(a.events, finalState) then Some(a) else Append(a, Controller(finalState), at);
      if stated.None? then None
      else
        var disposed := Append(stated.value, Lifecycle(DisposeCompleted, evidence.outstandingDirect, evidence.activeTimers), at);
        if disposed.None? then None
        else
          var d := disposed.value;
          Some(d.(outcome := outcome, endedAt := d.events[|d.events| - 1].at, counts := DeriveCounts(d.events)))
  }

  // ----- validating -----

  predicate ProvenanceValid(p: Provenance) {
    && p.idsOk && (p.window == 1 || p.window == 2) && Integer(p.attempt) && 1 <= p.attempt <= 10
    && Integer(p.fileBytes) && Integer(p.pieceBytes) && Integer(p.pieceCount)
  }

  function LastState(events: seq<Entry>): Option<State> {
    if events == [] then None
    else if events[|events| - 1].body.Controller? then Some(events[|events| - 1].body.state)
    else LastState(events[..|events| - 1])
  }

  /** `validateDirectRunArtifact`, on values of the right shape. */
  predicate Validate(a: Artifact) {
    && ProvenanceValid(a.provenance) && Integer(a.startedAt) && Integer(a.endedAt) && a.endedAt >= a.startedAt
    && a.events != []
    && (forall i :: 0 <= i < |a.events| ==>
          EventValid(a.events[i]) && a.events[i].number == i + 1 && a.startedAt <= a.events[i].at <= a.endedAt)
    && |Disposals(a.events)| == 1 && Disposals(a.events)[0] == a.events[|a.events| - 1]
    && LastState(a.events) == Some(Over(a.outcome))
    && (!a.outcome.Succeeded? ==> !Entered(a.events, Over(Succeeded)))
    && (a.outcome.Succeeded? ==> a.counts.resumeFailures + a.counts.integrityFailures + a.counts.framingFailures <= 0)
    && (a.outcome.Succeeded? ==> a.counts.verified == a.provenance.pieceCount && Validated(a.events, a.provenance.pieceCount))
    && a.counts == DeriveCounts(a.events)
  }

  // ----- what appending keeps -----

  /** A log as appending builds it. */
  ghost predicate Built(a: Artifact) {
    && (forall i :: 0 <= i < |a.events| ==> EventValid(a.events[i]) && a.events[i].number == i + 1 && a.events[i].at <= a.endedAt)
    && (a.events != [] ==> a.counts == DeriveCounts(a.events)) && (a.events == [] ==> a.counts == NoCounts)
  }

  lemma AppendBuilds(a: Artifact, b: Body, at: int)
    requires Built(a) && Append(a, b, at).Some?
    ensures var r := Append(a, b, at).value;
      && Built(r) && r.provenance == a.provenance && r.startedAt == a.startedAt && r.endedAt >= a.endedAt
      && |r.events| == |a.events| + 1 && r.events[..|a.events|] == a.events
      && r.events[|a.events|] == Entry(|a.events| + 1, Normalized(at, a.startedAt), b)
      && !IsDisposed(a.events)
  {
    hide DeriveCounts, EventValid;
  }

  lemma {:induction false} NoDisposals(events: seq<Entry>)
    requires !IsDisposed(events)
    ensures Disposals(events) == []
  {
    if events != [] {
      var n := |events| - 1;
      assert forall i :: 0 <= i < n ==> events[..n][i] == events[i];
      NoDisposals(events[..n]);
    }
  }

  lemma VerifiedIgnoresRest(events: seq<Entry>, e: Entry)
    ensures Disposals(events + [e]) == Disposals(events) + if Disposal(e) then [e] else []
    ensures e.body.Controller? || e.body.Lifecycle? ==> CountEvents(events + [e]) == CountEvents(events)
    ensures LastState(events + [e]) == if e.body.Controller? then Some(e.body.state) else LastState(events)
  {
    assert (events + [e])[..|events|] == events;
  }

  lemma EnteredSnoc(events: seq<Entry>, e: Entry, s: State, pieceCount: int)
    ensures Entered(events + [e], s) <==> Entered(events, s) || e.body == Controller(s)
    ensures Validated(events + [e], pieceCount) <==> Validated(events, pieceCount) || CleanValidation(e, pieceCount)
    ensures IsDisposed(events + [e]) <==> IsDisposed(events) || Disposal(e)
  {
    var all := events + [e];
    assert all[|events|] == e;
    assert forall i :: 0 <= i < |events| ==> all[i] == events[i];
  }

  // ----- failures -----

  /** An event that speaks of a failed resume, of corrupt or lost bytes, or of broken framing. */
  predicate Failure(b: Body) {
    || (b.ResumeValidation? && !b.passed)
    || (b.Terminal? && b.reason.HashMismatch?)
    || (b.LifecycleError? && (b.phase.ReceivePhase? || b.phase.StoragePhase? || b.phase.PersistPhase?))
  }

  predicate FailureFree(events: seq<Entry>) {
    forall i :: 0 <= i < |events| ==> !Failure(events[i].body)
  }

  /** The three failure counts are zero exactly when no event reports such a failure. */
  lemma {:induction false} FailureCounts(events: seq<Entry>)
    ensures var c := DeriveCounts(events);
      && c.resumeFailures >= 0 && c.integrityFailures >= 0 && c.framingFailures >= 0
      && (c.resumeFailures + c.integrityFailures + c.framingFailures == 0 <==> FailureFree(events))
  {
    if events != [] {
      var n := |events| - 1;
      FailureCounts(events[..n]);
      assert forall i :: 0 <= i < n ==> events[..n][i] == events[i];
    }
  }

  // ----- producer meets validator -----

  /** The event log with which a run starts. */
  ghost predicate Fresh(a: Artifact) {
    a.events == [] && a.counts == NoCounts && ProvenanceValid(a.provenance) && Integer(a.startedAt) && Integer(a.endedAt) && a.startedAt <= a.endedAt
  }

  /** What holds of a log built from a fresh one. */
  ghost predicate Sound(a: Artifact) {
    Built(a) && ProvenanceValid(a.provenance) && Integer(a.startedAt) && Integer(a.endedAt) && a.startedAt <= a.endedAt
  }

  lemma FreshIsSound(a: Artifact)
    requires Fresh(a)
    ensures Sound(a)
  {
  }

  lemma AppendKeepsSound(a: Artifact, b: Body, at: int)
    requires Sound(a) && Append(a, b, at).Some?
    ensures Sound(Append(a, b, at).value)
  {
    AppendBuilds(a, b, at);
  }

  predicate InTime(a: Artifact) {
    forall i :: 0 <= i < |a.events| ==> a.events[i].at >= a.startedAt
  }

  /** The last controller state is the outcome, and success was not entered on a run that did not succeed. */
  ghost predicate StatesFit(events: seq<Entry>, outcome: Outcome) {
    LastState(events) == Some(Over(outcome)) && (!outcome.Succeeded? ==> !Entered(events, Over(Succeeded)))
  }

  /** The log that completion appends to: with the final state entered. */
  function Stated(a: Artifact, outcome: Outcome, now: int): Option<Artifact> {
    if Entered(a.events, Over(outcome)) then Some(a) else Append(a, Controller(Over(outcome)), Max(now, a.endedAt))
  }

  lemma StatedSound(a: Artifact, outcome: Outcome, now: int)
    requires Sound(a) && Stated(a, outcome, now).Some?
    ensures var s := Stated(a, outcome, now).value;
      && Sound(s) && s.provenance == a.provenance && s.startedAt == a.startedAt
      && s.endedAt == (if Entered(a.events, Over(outcome)) then a.endedAt else Max(now, a.endedAt))
      && (InTime(s) <==> InTime(a)) && (FailureFree(s.events) <==> FailureFree(a.events))
      && CountEvents(s.events).verified == CountEvents(a.events).verified
      && (Validated(s.events, a.provenance.pieceCount) <==> Validated(a.events, a.provenance.pieceCount))
  {
    if !Entered(a.events, Over(outcome)) {
      var at := Max(now, a.endedAt);
      AppendBuilds(a, Controller(Over(outcome)), at);
      var e := Entry(|a.events| + 1, at, Controller(Over(outcome)));
      VerifiedIgnoresRest(a.events, e);
      EnteredSnoc(a.events, e, Idle, a.provenance.pieceCount);
      hide DeriveCounts, CountEvents, EventValid;
    }
  }

  /** For every log built by appending: whenever it is completed with its final state the outcome, the
      validator accepts the result exactly when no event lies before the start, the states fit, and a
      succeeded run reports no failure. */
  lemma CompletedIsValid(a: Artifact, evidence: Evidence, outcome: Outcome, now: int)
    requires Sound(a)
    ensures var r := Complete(a, evidence, outcome, Over(outcome), now);
      r.Some? ==> (Validate(r.value) <==>
        InTime(a) && StatesFit(Stated(a, outcome, now).value.events, outcome) && (outcome.Succeeded? ==> FailureFree(a.events)))
  {
    var r := Complete(a, evidence, outcome, Over(outcome), now);
    if r.Some? {
      var s := Stated(a, outcome, now).value;
      StatedSound(a, outcome, now);
      var at := Max(now, a.endedAt);
      var body := Lifecycle(DisposeCompleted, 0, 0);
      AppendBuilds(s, body, at);
      var e := Entry(|s.events| + 1, at, body);
      var v := r.value;
      assert v.events == s.events + [e];
      VerifiedIgnoresRest(s.events, e);
      NoDisposals(s.events);
      EnteredSnoc(s.events, e, Over(Succeeded), a.provenance.pieceCount);
      FailureCounts(v.events);
      FailureSnoc(s.events, e);
      InTimeSnoc(s, v, e);
      CompletedParts(a, s, v, e, outcome);
    }
  }

  lemma FailureSnoc(events: seq<Entry>, e: Entry)
    requires !Failure(e.body)
    ensures FailureFree(events + [e]) <==> FailureFree(events)
  {
    var all := events + [e];
    assert forall i :: 0 <= i < |events| ==> all[i] == events[i];
  }

  lemma InTimeSnoc(s: Artifact, v: Artifact, e: Entry)
    requires v.events == s.events + [e] && v.startedAt == s.startedAt && e.at >= s.startedAt
    ensures InTime(v) <==> InTime(s)
  {
    assert forall i :: 0 <= i < |s.events| ==> v.events[i] == s.events[i];
  }

  lemma CompletedParts(a: Artifact, s: Artifact, v: Artifact, e: Entry, outcome: Outcome)
    requires Sound(s) && v.events == s.events + [e] && v.outcome == outcome && v.counts == DeriveCounts(v.events)
    requires v.provenance == s.provenance && v.startedAt == s.startedAt && v.endedAt == e.at >= s.endedAt
    requires EventValid(e) && e.number == |s.events| + 1 && Disposal(e) && Disposals(v.events) == [e]
    requires LastState(v.events) == LastState(s.events) && (Entered(v.events, Over(Succeeded)) <==> Entered(s.events, Over(Succeeded)))
    requires InTime(v) <==> InTime(s)
    requires FailureFree(v.events) <==> FailureFree(s.events)
    requires var c := v.counts; c.resumeFailures + c.integrityFailures + c.framingFailures >= 0 && (c.resumeFailures + c.integrityFailures + c.framingFailures == 0 <==> FailureFree(v.events))
    requires outcome.Succeeded? ==> v.counts.verified == v.provenance.pieceCount && Validated(v.events, v.provenance.pieceCount)
    ensures Validate(v) <==> InTime(s) && StatesFit(s.events, outcome) && (outcome.Succeeded? ==> FailureFree(s.events))
  {
    hide DeriveCounts, Disposals, LastState, Entered, Validated, EventValid, FailureFree, Disposal;
    assert forall i :: 0 <= i < |s.events| ==> v.events[i] == s.events[i];
    assert v.events[|s.events|] == e;
    assert Integer(e.at) by { ValidTimes(e); }
    assert forall i :: 0 <= i < |v.events| ==> EventValid(v.events[i]) && v.events[i].number == i + 1 && v.events[i].at <= v.endedAt;
    if InTime(s) {
      assert v.endedAt >= v.startedAt;
    }
  }

  lemma ValidTimes(e: Entry)
    requires EventValid(e)
    ensures Integer(e.at)
  {
  }

  // ----- the controller -----

  /** What the controller knows: its state, the log, and whether it was disposed. */
  datatype Control = Control(state: State, artifact: Artifact, disposed: bool)

  /** A new controller: idle, with that as the first event of its log. */
  function Opened(a: Artifact, now: int): Option<Control> {
    var first := Append(a, Controller(Idle), now);
    if first.None? then None else Some(Control(Idle, first.value, false))
  }

  /** `setState`: a terminal state absorbs. */
  function SetState(c: Control, s: State, now: int): Option<Control> {
    if c.state == s || c.state.Over? then Some(c)
    else
      var next := Append(c.artifact, Controller(s), now);
      if next.None? then None else Some(c.(state := s, artifact := next.value))
  }

  /** `disposeSerialized`, up to the outcome of the engine's own cleanup. */
  function Dispose(c: Control, outcome: Outcome, evidence: Evidence, now: int): Option<Control> {
    if c.disposed then Some(c)
    else
      var s := SetState(c.(disposed := true), Over(outcome), now);
      if s.None? || !s.value.state.Over? then None
      else
        var r := Complete(s.value.artifact, evidence, s.value.state.outcome, s.value.state, now);
        if r.None? then None else Some(s.value.(artifact := r.value))
  }

  datatype Happening = Enters(state: State, now: int) | Records(body: Body, at: int)

  /** Events other than controller states and the final disposal are recorded as they come. */
  predicate Recordable(b: Body) {
    !b.Controller? && !(b.Lifecycle? && b.status.DisposeCompleted?)
  }

  function Happen(c: Control, h: Happening): Option<Control> {
    match h
    case Enters(s, now) => SetState(c, s, now)
    case Records(b, at) =>
      if !Recordable(b) then None
      else
        var next := Append(c.artifact, b, at);
        if next.None? then None else Some(c.(artifact := next.value))
  }

  /** A call that throws leaves everything as it was. */
  function Run(c: Control, hs: seq<Happening>): Control {
    if hs == [] then c
    else
      var before := Run(c, hs[..|hs| - 1]);
      var after := Happen(before, hs[|hs| - 1]);
      if after.None? then before else after.value
  }

  class DirectTransferController {
    var state: State
    var artifact: Artifact
    var disposed: bool

    ghost function Abs(): Control
      reads this
    {
      Control(state, artifact, disposed)
    }

    constructor (artifact: Artifact)
      ensures Abs() == Control(Idle, artifact, false)
    {
      state, this.artifact, disposed := Idle, artifact, false;
    }

    /** A controller starts its log with the state it is in; `None` where that throws. */
    static method Open(artifact: Artifact, now: int) returns (c: Option<DirectTransferController>)
      ensures c.Some? <==> Opened(artifact, now).Some?
      ensures c.Some? ==> fresh(c.value) && c.value.Abs() == Opened(artifact, now).value
    {
      var first := Append(artifact, Controller(Idle), now);
      if first.None? {
        return None;
      }
      var controller := new DirectTransferController(first.value);
      c := Some(controller);
    }

    method EnterState(s: State, now: int) returns (ok: bool)
      modifies this
      ensures ok <==> SetState(old(Abs()), s, now).Some?
      ensures Abs() == if ok then SetState(old(Abs()), s, now).value else old(Abs())
    {
      ok := true;
      if state == s {
        return;
      }
      if state.Over? {
        return;
      }
      var next := Append(artifact, Controller(s), now);
      if next.None? {
        return false;
      }
      state := s;
      artifact := next.value;
    }

    method DisposeSerialized(outcome: Outcome, evidence: Evidence, now: int) returns (ok: bool)
      modifies this
      ensures ok <==> Dispose(old(Abs()), outcome, evidence, now).Some?
      ensures ok ==> Abs() == Dispose(old(Abs()), outcome, evidence, now).value
    {
      if disposed {
        return true;
      }
      disposed := true;
      ok := EnterState(Over(outcome), now);
      if !ok || !state.Over? {
        return false;
      }
      var completed := Complete(artifact, evidence, state.outcome, state, now);
      if completed.None? {
        return false;
      }
      artifact := completed.value;
      ok := true;
    }
  }

  // ----- what a log contains -----

  /** The event a happening adds to the log, with the time it was given: none for a state that is absorbed
      or entered already, nor where the call throws. */
  function LoggedBy(c: Control, h: Happening): seq<(Body, int)> {
    match h
    case Enters(s, now) =>
      if c.state == s || c.state.Over? || Append(c.artifact, Controller(s), now).None? then [] else [(Controller(s), now)]
    case Records(b, at) => if !Recordable(b) || Append(c.artifact, b, at).None? then [] else [(b, at)]
  }

  function Logged(c: Control, hs: seq<Happening>): seq<(Body, int)> {
    if hs == [] then [] else Logged(c, hs[..|hs| - 1]) + LoggedBy(Run(c, hs[..|hs| - 1]), hs[|hs| - 1])
  }

  /** The events after the first `n` are those in `logged`. */
  ghost predicate Carries(a: Artifact, n: nat, logged: seq<(Body, int)>) {
    && |a.events| == n + |logged|
    && forall k :: 0 <= k < |logged| ==> a.events[n + k] == Entry(n + k + 1, Normalized(logged[k].1, a.startedAt), logged[k].0)
  }

  lemma AppendCarries(a: Artifact, n: nat, logged: seq<(Body, int)>, b: Body, at: int)
    requires Carries(a, n, logged) && Append(a, b, at).Some?
    ensures Carries(Append(a, b, at).value, n, logged + [(b, at)])
  {
    hide DeriveCounts, EventValid;
  }

  lemma AppendFrame(a: Artifact, b: Body, at: int)
    requires Append(a, b, at).Some?
    ensures var r := Append(a, b, at).value;
      r.startedAt == a.startedAt && r.provenance == a.provenance && a.events <= r.events
  {
    hide DeriveCounts, EventValid;
  }

  lemma {:induction false} RunCarries(c: Control, hs: seq<Happening>)
    ensures var r := Run(c, hs);
      && Carries(r.artifact, |c.artifact.events|, Logged(c, hs))
      && r.artifact.startedAt == c.artifact.startedAt && c.artifact.events <= r.artifact.events
  {
    hide Append;
    if hs != [] {
      var n := |hs| - 1;
      var b, h := Run(c, hs[..n]), hs[n];
      RunCarries(c, hs[..n]);
      match h
      case Enters(s, now) =>
        if b.state != s && !b.state.Over? && Append(b.artifact, Controller(s), now).Some? {
          AppendCarries(b.artifact, |c.artifact.events|, Logged(c, hs[..n]), Controller(s), now);
          AppendFrame(b.artifact, Controller(s), now);
        }
      case Records(body, at) =>
        if Recordable(body) && Append(b.artifact, body, at).Some? {
          AppendCarries(b.artifact, |c.artifact.events|, Logged(c, hs[..n]), body, at);
          AppendFrame(b.artifact, body, at);
        }
    }
  }

  predicate Clocked(logged: seq<(Body, int)>) {
    forall k :: 0 <= k < |logged| ==> logged[k].1 >= 0
  }

  predicate Untroubled(logged: seq<(Body, int)>) {
    forall k :: 0 <= k < |logged| ==> !Failure(logged[k].0)
  }

  /** No event of a log lies before the start exactly if all times given to it were non-negative. */
  lemma CarriedTimes(a: Artifact, n: nat, logged: seq<(Body, int)>)
    requires Carries(a, n, logged) && a.startedAt >= 0
    ensures InTime(a) <==> Clocked(logged) && forall i :: 0 <= i < n ==> a.events[i].at >= a.startedAt
    ensures FailureFree(a.events) <==> Untroubled(logged) && forall i :: 0 <= i < n ==> !Failure(a.events[i].body)
  {
    if InTime(a) {
      forall k | 0 <= k < |logged|
        ensures logged[k].1 >= 0
      {
        assert a.events[n + k].at >= a.startedAt;
      }
    }
    if Clocked(logged) && forall i :: 0 <= i < n ==> a.events[i].at >= a.startedAt {
      forall i | 0 <= i < |a.events|
        ensures a.events[i].at >= a.startedAt
      {
        if i >= n {
          assert a.events[n + (i - n)].at == Normalized(logged[i - n].1, a.startedAt);
        }
      }
    }
    if FailureFree(a.events) {
      forall k | 0 <= k < |logged|
        ensures !Failure(logged[k].0)
      {
        assert !Failure(a.events[n + k].body);
      }
    }
    if Untroubled(logged) && forall i :: 0 <= i < n ==> !Failure(a.events[i].body) {
      forall i | 0 <= i < |a.events|
        ensures !Failure(a.events[i].body)
      {
        if i >= n {
          assert a.events[n + (i - n)].body == logged[i - n].0;
        }
      }
    }
  }

  /** The log agrees with the controller: its last state, if any, is the controller's, and terminal states
      were entered only as that. */
  ghost predicate Agrees(c: Control) {
    && Sound(c.artifact) && !IsDisposed(c.artifact.events)
    && LastState(c.artifact.events) == Some(c.state)
    && (forall s: State :: s.Over? && Entered(c.artifact.events, s) ==> s == c.state)
  }

  lemma AppendAgrees(c: Control, b: Body, at: int)
    requires Agrees(c) && Append(c.artifact, b, at).Some? && (Recordable(b) || (b.Controller? && !c.state.Over?))
    ensures Agrees(Control(if b.Controller? then b.state else c.state, Append(c.artifact, b, at).value, c.disposed))
  {
    AppendBuilds(c.artifact, b, at);
    AppendKeepsSound(c.artifact, b, at);
    var events, e := c.artifact.events, Entry(|c.artifact.events| + 1, Normalized(at, c.artifact.startedAt), b);
    var r := Append(c.artifact, b, at).value;
    assert r.events == events + [e];
    VerifiedIgnoresRest(events, e);
    hide Sound, EventValid, Built;
    EnteredSnoc(events, e, Idle, 0);
    forall s: State | s.Over? && Entered(r.events, s)
      ensures s == if b.Controller? then b.state else c.state
    {
      EnteredSnoc(events, e, s, 0);
    }
  }

  lemma OpenedAgrees(a: Artifact, at: int)
    requires Fresh(a) && Opened(a, at).Some?
    ensures var c := Opened(a, at).value;
      && Agrees(c) && |c.artifact.events| == 1 && c.artifact.events[0] == Entry(1, Normalized(at, a.startedAt), Controller(Idle))
      && c.artifact.startedAt == a.startedAt
  {
    FreshIsSound(a);
    AppendBuilds(a, Controller(Idle), at);
    AppendKeepsSound(a, Controller(Idle), at);
    hide Sound, Built, DeriveCounts, EventValid;
  }

  lemma {:induction false} RunAgrees(c: Control, hs: seq<Happening>)
    requires Agrees(c) && !c.disposed
    ensures Agrees(Run(c, hs)) && !Run(c, hs).disposed
  {
    hide Append;
    if hs != [] {
      var b, h := Run(c, hs[..|hs| - 1]), hs[|hs| - 1];
      RunAgrees(c, hs[..|hs| - 1]);
      if Happen(b, h).Some? {
        match h
        case Enters(s, now) =>
          if b.state != s && !b.state.Over? {
            AppendAgrees(b, Controller(s), now);
          }
        case Records(body, at) => AppendAgrees(b, body, at);
      }
    }
  }

  lemma TerminalFits(c: Control, outcome: Outcome, now: int)
    requires Agrees(c) && c.state == Over(outcome)
    ensures Stated(c.artifact, outcome, now) == Some(c.artifact) && StatesFit(c.artifact.events, outcome)
  {
    hide Sound;
    LastIsEntered(c.artifact.events);
  }

  lemma {:induction false} LastIsEntered(events: seq<Entry>)
    ensures LastState(events).Some? ==> Entered(events, LastState(events).value)
  {
    if events != [] {
      var n := |events| - 1;
      if events[n].body.Controller? {
        assert events[n].body == Controller(LastState(events).value);
      } else {
        LastIsEntered(events[..n]);
        if LastState(events).Some? {
          var i :| 0 <= i < n && events[..n][i].body == Controller(LastState(events).value);
          assert events[i].body == Controller(LastState(events).value);
        }
      }
    }
  }

  /** The times and events given to a controller over a run that ends with its disposal. */
  function AllLogged(c: Control, hs: seq<Happening>, outcome: Outcome, now: int): seq<(Body, int)> {
    Logged(c, hs + [Enters(Over(outcome), now)])
  }

  /** Producer meets validator: whatever a controller went through since it was opened, if disposing it
      completes the log then its state is final and is the log's outcome, and the independent validator
      accepts the log exactly when no negative time was given for any logged event and the run either did
      not succeed or logged no failed resume, no integrity failure and no framing failure. */
  lemma ControllerLogIsValid(a: Artifact, at: int, hs: seq<Happening>, outcome: Outcome, evidence: Evidence, now: int)
    requires Fresh(a) && Opened(a, at).Some?
    ensures var c0 := Opened(a, at).value; var c := Run(c0, hs); var d := Dispose(c, outcome, evidence, now);
      d.Some? ==>
        && d.value.state == Over(d.value.artifact.outcome)
        && (c.state.Over? ==> d.value.state == c.state) && (!c.state.Over? ==> d.value.artifact.outcome == outcome)
        && (Validate(d.value.artifact) <==>
              at >= 0 && Clocked(AllLogged(c0, hs, outcome, now))
              && (d.value.artifact.outcome.Succeeded? ==> Untroubled(AllLogged(c0, hs, outcome, now))))
  {
    hide Append, Validate, Sound, FailureFree, InTime, Agrees, Complete;
    var c0 := Opened(a, at).value;
    var c := Run(c0, hs);
    var d := Dispose(c, outcome, evidence, now);
    OpenedAgrees(a, at);
    OpenedUndisposed(a, at);
    RunAgrees(c0, hs);
    if d.Some? {
      var s := SetState(c.(disposed := true), Over(outcome), now).value;
      SetStateAgrees(c, Over(outcome), now);
      TerminalFits(s, s.state.outcome, now);
      assert Sound(s.artifact) by { AgreesSound(s); }
      CompletedIsValid(s.artifact, evidence, s.state.outcome, now);
      CompleteOutcome(s.artifact, evidence, s.state.outcome, s.state, now);
      LastStateLogged(c0, hs, outcome, now);
      LogConditions(c0, a, at, hs + [Enters(Over(outcome), now)], s.artifact);
    }
  }

  lemma OpenedUndisposed(a: Artifact, at: int)
    requires Opened(a, at).Some?
    ensures !Opened(a, at).value.disposed
  {
    hide Append;
  }

  lemma AgreesSound(c: Control)
    requires Agrees(c)
    ensures Sound(c.artifact)
  {
  }

  lemma LastStateLogged(c0: Control, hs: seq<Happening>, outcome: Outcome, now: int)
    requires var c := Run(c0, hs); SetState(c.(disposed := true), Over(outcome), now).Some?
    ensures var c := Run(c0, hs);
      SetState(c.(disposed := true), Over(outcome), now).value.artifact == Run(c0, hs + [Enters(Over(outcome), now)]).artifact
  {
    hide Append;
    var all := hs + [Enters(Over(outcome), now)];
    assert all[..|all| - 1] == hs;
  }

  lemma LogConditions(c0: Control, a: Artifact, at: int, hs: seq<Happening>, s: Artifact)
    requires Fresh(a) && Opened(a, at) == Some(c0) && s == Run(c0, hs).artifact
    ensures InTime(s) <==> at >= 0 && Clocked(Logged(c0, hs))
    ensures FailureFree(s.events) <==> Untroubled(Logged(c0, hs))
  {
    OpenedAgrees(a, at);
    RunCarries(c0, hs);
    CarriedTimes(s, 1, Logged(c0, hs));
    hide Run, Logged, Append, Opened, InTime, FailureFree, Agrees;
    assert s.events[0] == c0.artifact.events[0];
  }

  lemma CompleteOutcome(a: Artifact, evidence: Evidence, outcome: Outcome, finalState: State, now: int)
    ensures Complete(a, evidence, outcome, finalState, now).Some? ==> Complete(a, evidence, outcome, finalState, now).value.outcome == outcome
  {
    hide Append;
  }

  lemma SetStateAgrees(c: Control, s: State, now: int)
    requires Agrees(c) && !c.disposed && SetState(c.(disposed := true), s, now).Some?
    ensures Agrees(SetState(c.(disposed := true), s, now).value)
    ensures SetState(c, s, now).Some? && SetState(c, s, now).value.artifact == SetState(c.(disposed := true), s, now).value.artifact
  {
    hide Append, Sound;
    if c.state != s && !c.state.Over? {
      AppendAgrees(c, Controller(s), now);
    }
  }

  /** A negative time puts an event before the start: the log is completed and then refused. */
  lemma NegativeTimeIsRefused(a: Artifact)
    requires Fresh(a) && a.startedAt == 100 && a.endedAt == 100
    ensures var r := Append(a, WindowExhausted, -10);
      && r.Some? && Complete(r.value, Evidence(true, true, 0, 0), Failed, Over(Failed), 200).Some?
      && !Validate(Complete(r.value, Evidence(true, true, 0, 0), Failed, Over(Failed), 200).value)
  {
    hide DeriveCounts;
    FreshIsSound(a);
    var r := Append(a, WindowExhausted, -10);
    assert r.Some?;
    AppendKeepsSound(a, WindowExhausted, -10);
    assert r.value.events[0].at == 90;
    assert !InTime(r.value);
    CompletedIsValid(r.value, Evidence(true, true, 0, 0), Failed, 200);
  }
}
