/** The error boundary that wraps the page: it catches a render failure below
    it, shows a fallback or a recovery card, and lets the user retry in place
    at most `MaxRetries` times. */
module ErrorBoundary {
  import opened Options
  import opened Strings
  import opened Dom

  /** `maxRetries`. */
  const MaxRetries: nat := 3

  datatype Error = Error(message: string, stack: string)
  datatype ErrorInfo = ErrorInfo(componentStack: string)

  /** The component's React state. */
  datatype State = State(hasError: bool, error: Option<Error>, errorInfo: Option<ErrorInfo>, errorId: string)

  /** The initial state, and the state a successful retry returns to. */
  const Healthy := State(false, None, None, "")

  /** Everything the boundary keeps: its React state and the `retryCount`
      instance field, which lives outside React state and survives retries. */
  datatype Snapshot = Snapshot(state: State, retryCount: nat)

  const Initial := Snapshot(Healthy, 0)

  /** The invariant the boundary keeps: the retry counter is within the cap;
      a failed state holds the error and an id beginning with `ERR_`; a
      healthy state is exactly the initial state. */
  ghost predicate ValidSnapshot(b: Snapshot) {
    && b.retryCount <= MaxRetries
    && (b.state.hasError ==> b.state.error.Some? && StartsWith(b.state.errorId, "ERR_"))
    && (!b.state.hasError ==> b.state == Healthy)
  }

  /** The tracking id `ERR_<Date.now()>_<random suffix>`, with the clock
      reading and the random text as parameters. */
  function ErrorId(now: nat, suffix: string): (id: string)
    ensures StartsWith(id, "ERR_")
  {
    "ERR_" + NatToString(now) + "_" + suffix
  }

  /** Two ids are equal only when both the clock reading and the suffix are:
      an id tells apart any two failures that differ in either. */
  lemma ErrorIdInjective(now1: nat, suffix1: string, now2: nat, suffix2: string)
    requires ErrorId(now1, suffix1) == ErrorId(now2, suffix2)
    ensures now1 == now2 && suffix1 == suffix2
  {
    var a, b := NatToString(now1), NatToString(now2);
    assert "ERR_" + a + "_" + suffix1 == "ERR_" + (a + "_" + suffix1);
    assert "ERR_" + b + "_" + suffix2 == "ERR_" + (b + "_" + suffix2);
    assert a + "_" + suffix1 == ("ERR_" + (a + "_" + suffix1))[4..];
    assert b + "_" + suffix2 == ("ERR_" + (b + "_" + suffix2))[4..];
    DigitsAvoid(a, '_');
    DigitsAvoid(b, '_');
    SplitAtSeparator(a, suffix1, b, suffix2, '_');
    NatToStringInjective(now1, now2);
  }

  /** `getDerivedStateFromError`: the state that replaces the current one. */
  function DerivedStateFromError(error: Error, now: nat, suffix: string): (s: State)
    ensures s.hasError && s.error == Some(error) && s.errorInfo == None
    ensures StartsWith(s.errorId, "ERR_")
    ensures s.errorId == ErrorId(now, suffix)
  {
    State(true, Some(error), None, ErrorId(now, suffix))
  }

  /** The state part of `componentDidCatch`: `setState({error, errorInfo})`
      merges these two fields and keeps the others. */
  function AfterDidCatch(s: State, error: Error, info: ErrorInfo): (r: State)
    ensures r.error == Some(error) && r.errorInfo == Some(info)
    ensures r.hasError == s.hasError && r.errorId == s.errorId
  {
    s.(error := Some(error), errorInfo := Some(info))
  }

  /** `handleRetry`: below the cap it counts one more attempt and clears the
      failure; at the cap it changes nothing. */
  function Retry(b: Snapshot): (r: Snapshot)
    ensures b.retryCount < MaxRetries ==> r.retryCount == b.retryCount + 1 && r.state == Healthy
    ensures b.retryCount >= MaxRetries ==> r == b
  {
    if b.retryCount < MaxRetries then Snapshot(Healthy, b.retryCount + 1) else b
  }

  /** A render failure below the boundary, with the clock reading and random
      suffix that its id is made from. */
  datatype Fault = Fault(error: Error, info: ErrorInfo, now: nat, suffix: string)

  datatype Event = Failure(fault: Fault) | RetryClick

  /** What one event does: a failure runs `getDerivedStateFromError` and
      then the state part of `componentDidCatch`; a click runs `handleRetry`. */
  function Step(b: Snapshot, e: Event): (r: Snapshot)
    ensures e.Failure? ==> r.retryCount == b.retryCount && r.state.hasError
    ensures ValidSnapshot(b) ==> ValidSnapshot(r)
  {
    match e
    case Failure(f) => Snapshot(AfterDidCatch(DerivedStateFromError(f.error, f.now, f.suffix), f.error, f.info), b.retryCount)
    case RetryClick => Retry(b)
  }

  function Run(b: Snapshot, es: seq<Event>): Snapshot
    decreases |es|
  {
    if es == [] then b else Run(Step(b, es[0]), es[1..])
  }

  function RetryClicks(es: seq<Event>): nat {
    if es == [] then 0 else (if es[0].RetryClick? then 1 else 0) + RetryClicks(es[1..])
  }

  function Min(a: int, b: int): int {
    if a <= b then a else b
  }

  /** Over any sequence of failures and retry clicks the invariant is kept. */
  lemma {:induction false} RunKeepsValid(b: Snapshot, es: seq<Event>)
    requires ValidSnapshot(b)
    ensures ValidSnapshot(Run(b, es))
    decreases |es|
  {
    if es != [] {
      RunKeepsValid(Step(b, es[0]), es[1..]);
    }
  }

  /** The counter ends up at the number of retry clicks, capped at
      `MaxRetries`; in particular it never decreases and never exceeds the cap. */
  lemma {:induction false} RunRetryCount(b: Snapshot, es: seq<Event>)
    requires b.retryCount <= MaxRetries
    ensures Run(b, es).retryCount == Min(MaxRetries, b.retryCount + RetryClicks(es))
    ensures b.retryCount <= Run(b, es).retryCount <= MaxRetries
    decreases |es|
  {
    if es != [] {
      RunRetryCount(Step(b, es[0]), es[1..]);
    }
  }

  /** Each fault followed by a click on "Try Again". */
  function Cycles(faults: seq<Fault>): (es: seq<Event>)
    ensures |es| == 2 * |faults|
  {
    if faults == [] then [] else [Failure(faults[0]), RetryClick] + Cycles(faults[1..])
  }

  /** Repeated fail-then-retry: the first `MaxRetries - k` retries recover,
      after that the boundary stays failed with retry no longer offered. */
  lemma {:induction false} FailRetryCycles(k: nat, faults: seq<Fault>)
    requires k <= MaxRetries
    ensures Run(Snapshot(Healthy, k), Cycles(faults)).retryCount == Min(MaxRetries, k + |faults|)
    ensures Run(Snapshot(Healthy, k), Cycles(faults)).state.hasError <==> k + |faults| > MaxRetries
    decreases |faults|
  {
    if faults != [] {
      var es := Cycles(faults);
      assert es[0] == Failure(faults[0]) && es[1] == RetryClick;
      assert es[2..] == Cycles(faults[1..]);
      var after := Step(Step(Snapshot(Healthy, k), es[0]), es[1]);
      assert Run(Snapshot(Healthy, k), es) == Run(after, es[2..]);
      if k < MaxRetries {
        assert after == Snapshot(Healthy, k + 1);
        FailRetryCycles(k + 1, faults[1..]);
      } else {
        assert after.retryCount == MaxRetries && after.state.hasError;
        StaysFailedAtCap(after, faults[1..]);
      }
    }
  }

  /** Once the cap is reached, further faults and clicks keep it failed. */
  lemma {:induction false} StaysFailedAtCap(b: Snapshot, faults: seq<Fault>)
    requires b.retryCount == MaxRetries && b.state.hasError
    ensures Run(b, Cycles(faults)).retryCount == MaxRetries
    ensures Run(b, Cycles(faults)).state.hasError
    decreases |faults|
  {
    if faults != [] {
      var es := Cycles(faults);
      assert es[2..] == Cycles(faults[1..]);
      var after := Step(Step(b, es[0]), es[1]);
      assert Run(b, es) == Run(after, es[2..]);
      StaysFailedAtCap(after, faults[1..]);
    }
  }

  /** `isNetworkError`: the message mentions `fetch` or `network`; no error
      at all counts as no. */
  function IsNetworkError(error: Option<Error>): (b: bool)
    ensures b <==> error.Some? && (Occurs(error.value.message, "fetch") || Occurs(error.value.message, "network"))
  {
    match error
    case None => false
    case Some(e) =>
      IncludesIsOccurs(e.message, "fetch");
      IncludesIsOccurs(e.message, "network");
      Includes(e.message, "fetch") || Includes(e.message, "network")
  }

  /** `isChunkError`: the message mentions `Loading chunk`. */
  function IsChunkError(error: Option<Error>): (b: bool)
    ensures b <==> error.Some? && Occurs(error.value.message, "Loading chunk")
  {
    match error
    case None => false
    case Some(e) =>
      IncludesIsOccurs(e.message, "Loading chunk");
      Includes(e.message, "Loading chunk")
  }

  /** The three guidance texts of the recovery card. */
  datatype Guidance = NetworkGuidance | ChunkGuidance | GenericGuidance

  function GuidanceText(g: Guidance): string {
    match g
    case NetworkGuidance => "We're having trouble connecting to our servers. Please check your internet connection and try again."
    case ChunkGuidance => "There was an issue loading part of the application. This usually fixes itself with a refresh."
    case GenericGuidance => "An unexpected error occurred while loading the page. Our team has been notified and will investigate."
  }

  /** Network guidance wins over chunk guidance, which wins over the generic
      one; both badges may be shown while only one text is. */
  function ChooseGuidance(network: bool, chunk: bool): (g: Guidance)
    ensures g == NetworkGuidance <==> network
    ensures g == ChunkGuidance <==> !network && chunk
    ensures g == GenericGuidance <==> !network && !chunk
  {
    if network then NetworkGuidance else if chunk then ChunkGuidance else GenericGuidance
  }

  datatype Action = TryAgain | ReloadPage | GoHome

  datatype DevDetails = DevDetails(message: string, stack: string, componentStack: Option<string>)

  /** The content of the built-in recovery card. */
  datatype RecoveryCard = RecoveryCard(
    errorId: string,
    networkBadge: bool,
    chunkBadge: bool,
    guidance: Guidance,
    attemptsLine: Option<string>,
    actions: seq<Action>,
    devDetails: Option<DevDetails>)

  /** The recovery card for a boundary in state `b`; `development` stands for
      `process.env.NODE_ENV === 'development'`. */
  function RecoveryCardFor(b: Snapshot, development: bool): (card: RecoveryCard)
    ensures card.errorId == b.state.errorId
    ensures card.networkBadge == IsNetworkError(b.state.error)
    ensures card.chunkBadge == IsChunkError(b.state.error)
    ensures card.guidance == ChooseGuidance(card.networkBadge, card.chunkBadge)
    ensures (TryAgain in card.actions) <==> b.retryCount < MaxRetries
    ensures ReloadPage in card.actions && GoHome in card.actions
    ensures card.attemptsLine.Some? <==> b.retryCount > 0
    ensures card.attemptsLine.Some? ==>
      card.attemptsLine.value == "Retry attempts: " + NatToString(b.retryCount) + "/" + NatToString(MaxRetries)
    ensures card.devDetails.Some? <==> development && b.state.error.Some?
    ensures card.devDetails.Some? ==>
      card.devDetails.value.message == b.state.error.value.message &&
      (card.devDetails.value.componentStack.Some? <==> b.state.errorInfo.Some?)
  {
    var canRetry := b.retryCount < MaxRetries;
    var network := IsNetworkError(b.state.error);
    var chunk := IsChunkError(b.state.error);
    RecoveryCard(
      b.state.errorId,
      network,
      chunk,
      ChooseGuidance(network, chunk),
      if b.retryCount > 0 then Some("Retry attempts: " + NatToString(b.retryCount) + "/" + NatToString(MaxRetries)) else None,
      (if canRetry then [TryAgain] else []) + [ReloadPage, GoHome],
      if development && b.state.error.Some? then
        Some(DevDetails(b.state.error.value.message, b.state.error.value.stack,
          if b.state.errorInfo.Some? then Some(b.state.errorInfo.value.componentStack) else None))
      else None)
  }

  datatype View = ShowFallback(fallback: Node) | ShowRecovery(card: RecoveryCard) | ShowChildren(children: Node)

  class Boundary {
    /** `props.fallback`, `None` when absent or falsy. */
    const fallback: Option<Node>
    /** Whether `props.onError` was supplied. */
    const onErrorSupplied: bool
    var state: State
    var retryCount: nat
    /** The calls made to `props.onError`, oldest first. */
    var onErrorCalls: seq<(Error, ErrorInfo)>

    function Current(): Snapshot
      reads this
    {
      Snapshot(state, retryCount)
    }

    ghost predicate Valid()
      reads this
    {
      ValidSnapshot(Current())
    }

    constructor (fallback: Option<Node>, onErrorSupplied: bool)
      ensures Valid() && Current() == Initial && onErrorCalls == []
      ensures this.fallback == fallback && this.onErrorSupplied == onErrorSupplied
    {
      this.fallback := fallback;
      this.onErrorSupplied := onErrorSupplied;
      state := Healthy;
      retryCount := 0;
      onErrorCalls := [];
    }

    /** React applies `getDerivedStateFromError` to the boundary. */
    method GetDerivedStateFromError(error: Error, now: nat, suffix: string)
      requires Valid()
      modifies this`state
      ensures Valid()
      ensures state == DerivedStateFromError(error, now, suffix)
    {
      state := DerivedStateFromError(error, now, suffix);
    }

    /** `componentDidCatch`, which React calls after the derived state. The
        counter is not in its frame, so it is unchanged. */
    method ComponentDidCatch(error: Error, info: ErrorInfo)
      requires Valid() && state.hasError
      modifies this`state, this`onErrorCalls
      ensures Valid()
      ensures state == AfterDidCatch(old(state), error, info)
      ensures onErrorCalls == old(onErrorCalls) + (if onErrorSupplied then [(error, info)] else [])
    {
      state := AfterDidCatch(state, error, info);
      if onErrorSupplied {
        onErrorCalls := onErrorCalls + [(error, info)];
      }
    }

    /** One render failure below the boundary, both lifecycle steps. */
    method Catch(f: Fault)
      requires Valid()
      modifies this`state, this`onErrorCalls
      ensures Valid()
      ensures Current() == Step(old(Current()), Failure(f))
      ensures onErrorCalls == old(onErrorCalls) + (if onErrorSupplied then [(f.error, f.info)] else [])
    {
      GetDerivedStateFromError(f.error, f.now, f.suffix);
      ComponentDidCatch(f.error, f.info);
    }

    method HandleRetry()
      requires Valid()
      modifies this`state, this`retryCount
      ensures Valid()
      ensures Current() == Retry(old(Current()))
    {
      if retryCount < MaxRetries {
        retryCount := retryCount + 1;
        state := Healthy;
      }
    }

    /** `render`: a failed boundary shows the fallback when one was given and
        the recovery card otherwise; a healthy one shows its children as they
        are. */
    function Render(children: Node, development: bool): (v: View)
      reads this
      ensures state.hasError && fallback.Some? ==> v == ShowFallback(fallback.value)
      ensures state.hasError && fallback.None? ==> v == ShowRecovery(RecoveryCardFor(Current(), development))
      ensures !state.hasError ==> v == ShowChildren(children)
    {
      if state.hasError && fallback.Some? then ShowFallback(fallback.value)
      else if state.hasError then ShowRecovery(RecoveryCardFor(Current(), development))
      else ShowChildren(children)
    }
  }
}
