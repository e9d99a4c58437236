/**
 src/capi/vllm_c.cpp: one submitted request, seen as the interleaved steps of its delivery thread and of
 any number of client threads calling cancel, wait and free. The engine is an abstract output queue:
 every fetch may return any output or throw, every abort may throw.
 */
module RequestLifecycle {
  import opened Options

  const UNKNOWN_ERROR := "unknown asynchronous request error"

  datatype Status = StatusOk | InvalidArgument | ModelLoadError | RuntimeError | UnknownError

  /** One RequestOutput: the sanitized text of each completion, and whether the request ended. */
  datatype Output = Output(texts: seq<string>, finished: bool)

  datatype Thrown = StdException(what: string) | OtherException

  /** Where the delivery thread is. */
  datatype Thread =
    | Fetching
    | Fetched(o: Output)
    | Delivering(o: Output, i: nat)
    | InCallback(o: Output, i: nat)
    | Refused
    | AbortingRefused
    | Testing
    | Finishing
    | Catching(e: Thrown)
    | AbortingFailed
    | Publishing
    | Returning
    | Exited

  /** Where one client thread is; `freeing` tells a cancel made by free from one made by itself. */
  datatype Client = Idle | InCancel(freeing: bool) | SawLive(freeing: bool) | Aborting(freeing: bool)
                  | Joining(freeing: bool) | Reading | Deleting

  datatype Delta = Delta(text: string, finished: bool)

  /** How far delivery had got when cancellation was first recorded. */
  datatype Mark = Mark(delivered: nat, fetched: nat)

  /** The handle's shared fields, the program counters, and the history the properties speak about: aborts the
      engine carried out, aborts that threw, aborts made by cancel calls, and whether the thread skipped its last
      output as cancelled. */
  datatype State = State(
    thread: Thread, cancelled: bool, done: bool, status: Status, error: string, deleted: bool, clients: seq<Client>,
    fetched: seq<Output>, log: seq<Delta>, replies: seq<bool>, aborts: nat, failedAborts: nat, cancelAborts: nat,
    skipped: bool,
    waits: seq<Status>, mark: Option<Mark>)

  datatype Action =
    | Fetch(o: Output) | FetchThrows(e: Thrown)
    | CheckCancelled
    | CallBack | Reply(keepGoing: bool) | CallbackThrows(e: Thrown) | EndOutput
    | StoreCancelled | AbortRefused | AbortRefusedThrows(e: Thrown)
    | TestExit
    | StoreOk | StoreError | AbortFailed | AbortFailedThrows
    | StoreDone | ExitThread
    | CallCancel(c: nat) | CallWait(c: nat) | CallFree(c: nat)
    | ProbeDone(c: nat) | Exchange(c: nat) | AbortCancelled(c: nat) | AbortCancelledThrows(c: nat)
    | Join(c: nat) | ReadStatus(c: nat) | Delete(c: nat)

  function Initial(clients: nat): State {
    State(Fetching, false, false, StatusOk, "", false, seq(clients, _ => Idle), [], [], [], 0, 0, 0, false, [], None)
  }

  function MarkCancelled(s: State): State {
    s.(cancelled := true, mark := if s.mark.Some? then s.mark else Some(Mark(|s.log|, |s.fetched|)))
  }

  /** The loop's own steps: fetch, the cancellation check, the exit test. None when a is not the next step. */
  function LoopStep(s: State, a: Action): Option<State> {
    match s.thread
    case Fetching =>
      if a.Fetch? then Some(s.(thread := Fetched(a.o), fetched := s.fetched + [a.o]))
      else if a.FetchThrows? then Some(s.(thread := Catching(a.e))) else None
    case Fetched(o) =>
      if a.CheckCancelled?
      then Some(s.(thread := if s.cancelled then Testing else Delivering(o, 0), skipped := s.cancelled)) else None
    case Testing =>
      if a.TestExit? then Some(s.(thread := if EngineDone(s) || s.cancelled then Finishing else Fetching)) else None
    case _ => None
  }

  /** The output this thread last fetched was the finished one. */
  predicate EngineDone(s: State) {
    s.fetched != [] && s.fetched[|s.fetched| - 1].finished
  }

  /** The callbacks of one output. */
  function CallStep(s: State, a: Action): Option<State> {
    match s.thread
    case Delivering(o, i) =>
      if a.CallBack? && i < |o.texts|
      then Some(s.(thread := InCallback(o, i), log := s.log + [Delta(o.texts[i], o.finished)]))
      else if a.EndOutput? && i >= |o.texts| then Some(s.(thread := Testing)) else None
    case InCallback(o, i) =>
      if a.Reply?
      then Some(s.(thread := if a.keepGoing then Delivering(o, i + 1) else Refused,
                   replies := s.replies + [a.keepGoing]))
      else if a.CallbackThrows? then Some(s.(thread := Catching(a.e))) else None
    case _ => None
  }

  /** A refused delta: record the cancellation, then abort. */
  function RefuseStep(s: State, a: Action): Option<State> {
    match s.thread
    case Refused => if a.StoreCancelled? then Some(MarkCancelled(s).(thread := AbortingRefused)) else None
    case AbortingRefused =>
      if a.AbortRefused? then Some(s.(thread := Testing, aborts := s.aborts + 1))
      else if a.AbortRefusedThrows? then Some(s.(thread := Catching(a.e), failedAborts := s.failedAborts + 1)) else None
    case _ => None
  }

  /** Recording the outcome, publishing it, and exiting. */
  function EndStep(s: State, a: Action): Option<State> {
    match s.thread
    case Finishing => if a.StoreOk? then Some(s.(thread := Publishing, status := StatusOk)) else None
    case Catching(e) =>
      if a.StoreError? then
        Some(match e
             case StdException(what) => s.(thread := AbortingFailed, status := RuntimeError, error := what)
             case OtherException => s.(thread := AbortingFailed, status := UnknownError, error := UNKNOWN_ERROR))
      else None
    case AbortingFailed =>
      if a.AbortFailed? then Some(s.(thread := Publishing, aborts := s.aborts + 1))
      else if a.AbortFailedThrows? then Some(s.(thread := Publishing, failedAborts := s.failedAborts + 1)) else None
    case Publishing => if a.StoreDone? then Some(s.(thread := Returning, done := true)) else None
    case Returning => if a.ExitThread? then Some(s.(thread := Exited)) else None
    case _ => None
  }

  datatype Phase = InLoop | InCalls | InRefusal | InEnd

  function PhaseOf(t: Thread): Phase {
    if t.Fetching? || t.Fetched? || t.Testing? then InLoop
    else if t.Delivering? || t.InCallback? then InCalls
    else if t.Refused? || t.AbortingRefused? then InRefusal else InEnd
  }

  function ThreadStep(s: State, a: Action): Option<State> {
    match PhaseOf(s.thread)
    case InLoop => LoopStep(s, a)
    case InCalls => CallStep(s, a)
    case InRefusal => RefuseStep(s, a)
    case InEnd => EndStep(s, a)
  }

  /** What follows a cancel: nothing when it was called by itself, the join when free called it. */
  function AfterCancel(freeing: bool): Client {
    if freeing then Joining(true) else Idle
  }

  predicate InFree(c: Client) {
    match c
    case InCancel(freeing) => freeing
    case SawLive(freeing) => freeing
    case Aborting(freeing) => freeing
    case Joining(freeing) => freeing
    case Deleting => true
    case _ => false
  }

  /** The caller's obligation: no call begins once free has begun. */
  predicate Open(s: State) {
    !s.deleted && forall j :: 0 <= j < |s.clients| ==> !InFree(s.clients[j])
  }

  /** free may not overlap any other call on the handle. */
  predicate Quiet(s: State) {
    !s.deleted && forall j :: 0 <= j < |s.clients| ==> s.clients[j] == Idle
  }

  function SetClient(s: State, c: nat, pc: Client): State
    requires c < |s.clients|
  {
    s.(clients := s.clients[c := pc])
  }

  /** The abort of a cancel call is over, carried out or not. */
  function CancelAborted(s: State, c: nat, freeing: bool): State
    requires c < |s.clients|
  {
    SetClient(s, c, AfterCancel(freeing)).(cancelAborts := s.cancelAborts + 1)
  }

  /** A call begins. */
  function BeginCall(s: State, c: nat, a: Action): Option<State>
    requires c < |s.clients|
  {
    if a.CallCancel? && Open(s) then Some(SetClient(s, c, InCancel(false)))
    else if a.CallWait? && Open(s) then Some(SetClient(s, c, Joining(false)))
    else if a.CallFree? && Quiet(s) then Some(SetClient(s, c, if s.done then Joining(true) else InCancel(true)))
    else None
  }

  /** One step of client c, started by a call or taken inside one. */
  function ClientStep(s: State, c: nat, a: Action): Option<State> {
    if c >= |s.clients| then None
    else match s.clients[c]
      case Idle => BeginCall(s, c, a)
      case InCancel(f) =>
        if a.ProbeDone? then Some(SetClient(s, c, if s.done then AfterCancel(f) else SawLive(f))) else None
      case SawLive(f) =>
        if a.Exchange? then Some(SetClient(MarkCancelled(s), c, if s.cancelled then AfterCancel(f) else Aborting(f)))
        else None
      case Aborting(f) =>
        if a.AbortCancelled? then Some(CancelAborted(s, c, f).(aborts := s.aborts + 1))
        else if a.AbortCancelledThrows? then Some(CancelAborted(s, c, f).(failedAborts := s.failedAborts + 1)) else None
      case Joining(f) =>
        if a.Join? && s.thread.Exited? then Some(SetClient(s, c, if f then Deleting else Reading)) else None
      case Reading => if a.ReadStatus? then Some(SetClient(s, c, Idle).(waits := s.waits + [s.status])) else None
      case Deleting => if a.Delete? then Some(SetClient(s, c, Idle).(deleted := true)) else None
  }

  function Step(s: State, a: Action): Option<State> {
    if ByClient(a) then ClientStep(s, a.c, a) else ThreadStep(s, a)
  }

  /** The state after a run, None when some action was not enabled. */
  function Run(s: State, actions: seq<Action>): Option<State>
    decreases |actions|
  {
    if actions == [] then Some(s)
    else
      var t := Step(s, actions[0]);
      if t.Some? then Run(t.value, actions[1..]) else None
  }

  // ----- the invariant -----

  /** The callbacks an output asks for. */
  function Entries(o: Output): (r: seq<Delta>)
    ensures |r| == |o.texts| && forall i :: 0 <= i < |r| ==> r[i] == Delta(o.texts[i], o.finished)
  {
    seq(|o.texts|, i requires 0 <= i < |o.texts| => Delta(o.texts[i], o.finished))
  }

  function Flat(os: seq<Output>): seq<Delta> {
    if os == [] then [] else Flat(os[..|os| - 1]) + Entries(os[|os| - 1])
  }

  function Before(s: State): seq<Output> {
    if s.fetched == [] then [] else s.fetched[..|s.fetched| - 1]
  }

  /** Every delta of a finished request has been delivered. */
  ghost predicate Complete(s: State) {
    EngineDone(s) && s.log == Flat(s.fetched)
  }

  /** The log holds a part of what was fetched, all outputs before the last in full while they are delivered. */
  ghost predicate Within(s: State) {
    && s.log <= Flat(s.fetched)
    && (!s.cancelled || s.thread.Delivering? || s.thread.InCallback? || s.thread.Refused? ==>
          |Flat(Before(s))| <= |s.log|)
  }

  /** Where the log stands, by thread position. */
  ghost predicate Delivered(s: State) {
    && Within(s)
    && match s.thread
       case Fetching => !s.cancelled ==> s.log == Flat(s.fetched)
       case Fetched(o) =>
         s.fetched != [] && o == s.fetched[|s.fetched| - 1] && (!s.cancelled ==> s.log == Flat(Before(s)))
       case Delivering(o, i) =>
         s.fetched != [] && o == s.fetched[|s.fetched| - 1] && i <= |o.texts| && |s.log| == |Flat(Before(s))| + i
       case InCallback(o, i) =>
         s.fetched != [] && o == s.fetched[|s.fetched| - 1] && i < |o.texts| && |s.log| == |Flat(Before(s))| + i + 1
       case Testing => s.fetched != [] && (!s.cancelled ==> s.log == Flat(s.fetched))
       case Refused => s.fetched != []
       case AbortingRefused => s.fetched != [] && s.cancelled
       case Finishing => s.fetched != [] && (s.cancelled || Complete(s))
       case Publishing => s.status == StatusOk && !s.cancelled ==> Complete(s)
       case Returning => s.status == StatusOk && !s.cancelled ==> Complete(s)
       case Exited => s.status == StatusOk && !s.cancelled ==> Complete(s)
       case AbortingFailed => s.status != StatusOk
       case _ => true
  }

  /** Only the last fetched output can be a finished one, and none is while the thread still fetches. */
  predicate FinishesLast(s: State) {
    && (forall i :: 0 <= i < |s.fetched| - 1 ==> !s.fetched[i].finished)
    && (s.thread.Fetching? && s.fetched != [] ==> !s.fetched[|s.fetched| - 1].finished)
  }

  predicate Refusing(s: State) {
    s.replies != [] && !s.replies[|s.replies| - 1]
  }

  /** Every reply but the last asked for more, and a refusal ends the callbacks. */
  predicate Replied(s: State) {
    && (forall i :: 0 <= i < |s.replies| - 1 ==> s.replies[i])
    && |s.replies| <= |s.log| <= |s.replies| + 1
    && (s.thread.InCallback? ==> |s.log| == |s.replies| + 1)
    && (s.thread.Fetching? || s.thread.Fetched? || s.thread.Delivering? || Refusing(s) ==> |s.log| == |s.replies|)
    && (Refusing(s) ==>
          !s.thread.Fetching? && !s.thread.Fetched? && !s.thread.Delivering? && !s.thread.InCallback?
          && (s.thread.Testing? ==> s.cancelled))
    && (s.thread.Refused? || s.thread.AbortingRefused? ==> Refusing(s))
    && (s.thread.AbortingRefused? ==> s.cancelled)
    && (s.thread.Testing? ==> |s.log| == |s.replies|)
  }

  /** After cancellation is recorded one more output may be fetched, and only what was fetched before is delivered. */
  ghost predicate Marked(s: State) {
    && (s.cancelled <==> s.mark.Some?)
    && (s.mark.Some? ==>
          var m := s.mark.value;
          && m.fetched <= |s.fetched| <= m.fetched + 1
          && m.delivered <= |s.log| <= |Flat(s.fetched[..m.fetched])|
          && (m.fetched > 0 ==> |Flat(s.fetched[..m.fetched - 1])| <= m.delivered)
          && (s.thread.Fetching? || s.thread.Delivering? || s.thread.InCallback? || s.thread.Refused? ==>
                |s.fetched| == m.fetched))
  }

  predicate AbortComing(s: State) {
    exists j :: 0 <= j < |s.clients| && s.clients[j].Aborting?
  }

  /** The engine's request has ended, or an abort has been carried out, or has thrown, or is about to be made by
      the client that recorded the cancellation. */
  predicate Settled(s: State) {
    && (s.cancelled ==> s.aborts > 0 || s.failedAborts > 0 || s.thread.AbortingRefused? || AbortComing(s))
    && (s.thread.Finishing? || s.thread.Publishing? || s.thread.Returning? || s.thread.Exited? ==>
          EngineDone(s) || s.aborts > 0 || s.failedAborts > 0 || AbortComing(s))
  }

  predicate Published(t: Thread) {
    t.Publishing? || t.Returning? || t.Exited?
  }

  /** Only the cancel call that recorded the cancellation aborts, and it does so once. */
  predicate CancelledOnce(s: State) {
    && (!s.cancelled ==> s.cancelAborts == 0)
    && s.cancelAborts <= 1
    && (forall i :: 0 <= i < |s.clients| && s.clients[i].Aborting? ==> s.cancelled && s.cancelAborts == 0)
    && (forall i, j :: 0 <= i < j < |s.clients| ==> !(s.clients[i].Aborting? && s.clients[j].Aborting?))
  }

  /** Does the log hold a delta of the output fetched last? */
  ghost predicate LastStarted(s: State) {
    |s.log| > |Flat(Before(s))|
  }

  /** An output the thread skipped has no delta in the log; one it did not skip has, once its callbacks are over. */
  ghost predicate Checked(s: State) {
    && (s.skipped ==> s.cancelled && s.fetched != [] && !LastStarted(s))
    && (s.skipped ==> s.thread.Testing? || PhaseOf(s.thread) == InEnd)
    && (s.thread.Fetched? ==> !LastStarted(s))
    && (s.thread.Refused? || s.thread.AbortingRefused? || s.thread.InCallback? ==> LastStarted(s))
    && (s.thread.Testing? || s.thread.Finishing? || (s.status == StatusOk && Published(s.thread)) ==>
          s.fetched != [] && (!s.skipped && s.fetched[|s.fetched| - 1].texts != [] ==> LastStarted(s)))
  }

  predicate Recorded(t: Thread) {
    t.AbortingFailed? || t.Publishing? || t.Returning? || t.Exited?
  }

  predicate Fields(s: State) {
    && (s.done <==> s.thread.Returning? || s.thread.Exited?)
    && (!Recorded(s.thread) ==> s.status == StatusOk)
    && (s.status == StatusOk ==> s.error == "")
    && (s.thread.AbortingFailed? ==> s.status != StatusOk)
    && (s.status == StatusOk || s.status == RuntimeError || s.status == UnknownError)
  }

  /** A handle is deleted, and its fields read by wait, only after its thread has exited and with nobody else inside. */
  predicate Owned(s: State) {
    && (s.deleted ==> s.thread.Exited? && forall j :: 0 <= j < |s.clients| ==> s.clients[j] == Idle)
    && (forall j :: 0 <= j < |s.clients| && (s.clients[j].Reading? || s.clients[j].Deleting?) ==> s.thread.Exited?)
    && (forall i, j :: 0 <= i < |s.clients| && 0 <= j < |s.clients| && i != j && InFree(s.clients[i]) ==>
          s.clients[j] == Idle)
    && (s.waits != [] ==> s.thread.Exited?)
    && (forall i :: 0 <= i < |s.waits| ==> s.waits[i] == s.status)
  }

  ghost predicate Inv(s: State) {
    Delivered(s) && FinishesLast(s) && Replied(s) && Marked(s) && Settled(s) && Checked(s) && CancelledOnce(s)
    && Fields(s) && Owned(s)
  }

  // ----- every step keeps it -----

  lemma FlatSnoc(os: seq<Output>, o: Output)
    ensures Flat(os + [o]) == Flat(os) + Entries(o)
  {
    assert (os + [o])[..|os|] == os;
  }

  predicate ByClient(a: Action) {
    a.CallCancel? || a.CallWait? || a.CallFree? || a.ProbeDone? || a.Exchange?
    || a.AbortCancelled? || a.AbortCancelledThrows? || a.Join? || a.ReadStatus? || a.Delete?
  }

  /** A client leaves the thread and what it delivers alone; at most it records the cancellation. */
  predicate ClientFrame(s: State, t: State) {
    && t.thread == s.thread && t.done == s.done && t.status == s.status && t.error == s.error
    && t.fetched == s.fetched && t.log == s.log && t.replies == s.replies && t.skipped == s.skipped
    && t.aborts >= s.aborts && t.failedAborts >= s.failedAborts
    && ((t.cancelled == s.cancelled && t.mark == s.mark)
        || (t.cancelled && t.mark == if s.mark.Some? then s.mark else Some(Mark(|s.log|, |s.fetched|))))
  }

  lemma ClientFrames(s: State, c: nat, a: Action, t: State)
    requires ClientStep(s, c, a) == Some(t)
    ensures ClientFrame(s, t) && c < |s.clients| == |t.clients|
    ensures forall j :: 0 <= j < |s.clients| && j != c ==> t.clients[j] == s.clients[j]
  {
    hide Open, Quiet;
  }

  predicate ThreadFrame(s: State, t: State) {
    && t.clients == s.clients && t.deleted == s.deleted && t.waits == s.waits && t.aborts >= s.aborts
    && t.cancelAborts == s.cancelAborts && (s.cancelled ==> t.cancelled) && t.failedAborts >= s.failedAborts
    && !s.thread.Exited? && s.fetched <= t.fetched
  }

  lemma LoopFrames(s: State, a: Action, t: State)
    requires LoopStep(s, a) == Some(t)
    ensures ThreadFrame(s, t)
  {
  }

  lemma CallFrames(s: State, a: Action, t: State)
    requires CallStep(s, a) == Some(t)
    ensures ThreadFrame(s, t)
  {
  }

  lemma RefuseFrames(s: State, a: Action, t: State)
    requires RefuseStep(s, a) == Some(t)
    ensures ThreadFrame(s, t)
  {
  }

  /** Ending leaves the history alone and goes from position to position in one way. */
  predicate EndMove(s: State, t: State) {
    && ThreadFrame(s, t) && t.fetched == s.fetched && t.log == s.log && t.replies == s.replies
    && t.cancelled == s.cancelled && t.mark == s.mark && t.skipped == s.skipped
    && match s.thread
       case Finishing => t.thread.Publishing? && t.status == StatusOk
       case Catching(e) => t.thread.AbortingFailed? && t.status != StatusOk
       case AbortingFailed => t.thread.Publishing? && t.status == s.status && t.aborts + t.failedAborts > 0
       case Publishing => t.thread.Returning? && t.status == s.status
       case Returning => t.thread.Exited? && t.status == s.status
       case _ => false
  }

  lemma EndMoves(s: State, a: Action, t: State)
    requires EndStep(s, a) == Some(t)
    ensures EndMove(s, t)
  {
    hide UNKNOWN_ERROR;
  }

  /** A thread step leaves the clients, the deletion and the statuses they read alone. */
  lemma ThreadFrames(s: State, a: Action, t: State)
    requires ThreadStep(s, a) == Some(t)
    ensures ThreadFrame(s, t)
  {
    hide LoopStep, CallStep, RefuseStep, EndStep, ThreadFrame;
    match PhaseOf(s.thread) {
      case InLoop => LoopFrames(s, a, t);
      case InCalls => CallFrames(s, a, t);
      case InRefusal => RefuseFrames(s, a, t);
      case InEnd => EndMoves(s, a, t);
    }
  }

  /** What fetching one more output does to the flattened history. */
  ghost predicate Unfolded(s: State, a: Action) {
    && (s.fetched != [] ==> Flat(s.fetched) == Flat(Before(s)) + Entries(s.fetched[|s.fetched| - 1]))
    && (a.Fetch? ==> Flat(s.fetched + [a.o]) == Flat(s.fetched) + Entries(a.o))
  }

  lemma Unfold(s: State, a: Action)
    ensures Unfolded(s, a)
  {
    if s.fetched != [] {
      assert s.fetched == Before(s) + [s.fetched[|s.fetched| - 1]];
      FlatSnoc(Before(s), s.fetched[|s.fetched| - 1]);
    }
    if a.Fetch? { FlatSnoc(s.fetched, a.o); }
  }

  lemma FetchDelivers(s: State, a: Action, t: State)
    requires Delivered(s) && Unfolded(s, a) && a.Fetch? && s.thread.Fetching?
    requires t == s.(thread := Fetched(a.o), fetched := s.fetched + [a.o])
    ensures Delivered(t)
  {
    hide Flat;
    assert Before(t) == s.fetched;
  }

  lemma LoopDelivers(s: State, a: Action, t: State)
    requires Delivered(s) && Unfolded(s, a) && LoopStep(s, a) == Some(t)
    ensures Delivered(t)
  {
    if s.thread.Fetching? && a.Fetch? {
      hide Flat, Delivered, Unfolded;
      FetchDelivers(s, a, t);
    } else {
      assert t == s.(thread := t.thread, skipped := t.skipped) && Before(t) == Before(s);
      hide Flat;
    }
  }

  lemma LoopReplies(s: State, a: Action, t: State)
    requires Replied(s) && LoopStep(s, a) == Some(t)
    ensures Replied(t)
  {
  }

  lemma CallDelivers(s: State, a: Action, t: State)
    requires Delivered(s) && Unfolded(s, a) && CallStep(s, a) == Some(t)
    ensures Delivered(t)
  {
    hide Flat;
    assert Before(t) == Before(s);
  }

  lemma CallReplies(s: State, a: Action, t: State)
    requires Replied(s) && CallStep(s, a) == Some(t)
    ensures Replied(t)
  {
  }

  lemma RefuseDelivers(s: State, a: Action, t: State)
    requires Delivered(s) && Unfolded(s, a) && RefuseStep(s, a) == Some(t)
    ensures Delivered(t)
  {
    hide Flat;
    assert Before(t) == Before(s);
  }

  lemma RefuseReplies(s: State, a: Action, t: State)
    requires Replied(s) && RefuseStep(s, a) == Some(t)
    ensures Replied(t)
  {
  }

  lemma EndDelivers(s: State, a: Action, t: State)
    requires Delivered(s) && Unfolded(s, a) && EndStep(s, a) == Some(t)
    ensures Delivered(t)
  {
    hide EndStep, Unfolded;
    EndMoves(s, a, t);
    StaysWithin(s, t);
    hide Flat, Within, Complete;
  }

  lemma StaysWithin(s: State, t: State)
    requires Within(s) && EndMove(s, t)
    ensures Within(t) && Complete(t) == Complete(s)
  {
    hide Flat;
    assert Before(t) == Before(s);
  }

  lemma EndReplies(s: State, a: Action, t: State)
    requires Replied(s) && EndStep(s, a) == Some(t)
    ensures Replied(t)
  {
    EndMoves(s, a, t);
    hide EndStep;
  }

  lemma KeepsDelivered(s: State, a: Action, t: State)
    requires Delivered(s) && Step(s, a) == Some(t)
    ensures Delivered(t)
  {
    Unfold(s, a);
    hide Flat, LoopStep, CallStep, RefuseStep, EndStep, ClientStep;
    if ByClient(a) {
      ClientFrames(s, a.c, a, t);
    } else {
      match PhaseOf(s.thread) {
        case InLoop => LoopDelivers(s, a, t);
        case InCalls => CallDelivers(s, a, t);
        case InRefusal => RefuseDelivers(s, a, t);
        case InEnd => EndDelivers(s, a, t);
      }
    }
  }

  lemma KeepsReplied(s: State, a: Action, t: State)
    requires Replied(s) && Step(s, a) == Some(t)
    ensures Replied(t)
  {
    hide Flat, LoopStep, CallStep, RefuseStep, EndStep, ClientStep;
    if ByClient(a) {
      ClientFrames(s, a.c, a, t);
    } else {
      match PhaseOf(s.thread) {
        case InLoop => LoopReplies(s, a, t);
        case InCalls => CallReplies(s, a, t);
        case InRefusal => RefuseReplies(s, a, t);
        case InEnd => EndReplies(s, a, t);
      }
    }
  }

  lemma LoopEnds(s: State, a: Action, t: State)
    requires FinishesLast(s) && LoopStep(s, a) == Some(t)
    ensures FinishesLast(t)
  {
  }

  lemma CallEnds(s: State, a: Action, t: State)
    requires FinishesLast(s) && CallStep(s, a) == Some(t)
    ensures FinishesLast(t)
  {
  }

  lemma RefuseEnds(s: State, a: Action, t: State)
    requires FinishesLast(s) && RefuseStep(s, a) == Some(t)
    ensures FinishesLast(t)
  {
  }

  lemma EndEnds(s: State, a: Action, t: State)
    requires FinishesLast(s) && EndStep(s, a) == Some(t)
    ensures FinishesLast(t)
  {
    EndMoves(s, a, t);
    hide EndStep, ThreadFrame;
  }

  lemma KeepsFinishesLast(s: State, a: Action, t: State)
    requires FinishesLast(s) && Step(s, a) == Some(t)
    ensures FinishesLast(t)
  {
    hide Flat, LoopStep, CallStep, RefuseStep, EndStep, ClientStep;
    if ByClient(a) {
      ClientFrames(s, a.c, a, t);
    } else {
      match PhaseOf(s.thread) {
        case InLoop => LoopEnds(s, a, t);
        case InCalls => CallEnds(s, a, t);
        case InRefusal => RefuseEnds(s, a, t);
        case InEnd => EndEnds(s, a, t);
      }
    }
  }

  lemma LoopMarks(s: State, a: Action, t: State)
    requires Marked(s) && Delivered(s) && Delivered(t) && SamePast(s, t) && LoopStep(s, a) == Some(t)
    ensures Marked(t)
  {
    hide Flat;
  }

  lemma CallMarks(s: State, a: Action, t: State)
    requires Marked(s) && Delivered(s) && Delivered(t) && SamePast(s, t) && CallStep(s, a) == Some(t)
    ensures Marked(t)
  {
    hide Flat;
  }

  lemma RefuseMarks(s: State, a: Action, t: State)
    requires Marked(s) && Delivered(s) && Delivered(t) && SamePast(s, t) && RefuseStep(s, a) == Some(t)
    ensures Marked(t)
  {
    hide Flat;
  }

  lemma EndMarks(s: State, a: Action, t: State)
    requires Marked(s) && Delivered(s) && Delivered(t) && SamePast(s, t) && EndStep(s, a) == Some(t)
    ensures Marked(t)
  {
    EndMoves(s, a, t);
    hide EndStep;
    hide Flat;
  }

  /** The outputs fetched before the mark are still there. */
  ghost predicate SamePast(s: State, t: State) {
    && s.fetched[..|s.fetched|] == s.fetched
    && (s.mark.Some? && s.mark.value.fetched <= |s.fetched| ==>
          var m := s.mark.value.fetched;
          m <= |t.fetched| && t.fetched[..m] == s.fetched[..m] && (m > 0 ==> t.fetched[..m - 1] == s.fetched[..m - 1]))
  }

  lemma FetchedGrows(s: State, a: Action, t: State)
    requires Step(s, a) == Some(t)
    ensures SamePast(s, t)
  {
    hide ClientStep, ThreadStep;
    if ByClient(a) { ClientFrames(s, a.c, a, t); } else { ThreadFrames(s, a, t); }
  }

  lemma KeepsMarked(s: State, a: Action, t: State)
    requires Marked(s) && Delivered(s) && Delivered(t) && Step(s, a) == Some(t)
    ensures Marked(t)
  {
    FetchedGrows(s, a, t);
    hide Flat, LoopStep, CallStep, RefuseStep, EndStep, ClientStep;
    if ByClient(a) {
      ClientFrames(s, a.c, a, t);
    } else {
      match PhaseOf(s.thread) {
        case InLoop => LoopMarks(s, a, t);
        case InCalls => CallMarks(s, a, t);
        case InRefusal => RefuseMarks(s, a, t);
        case InEnd => EndMarks(s, a, t);
      }
    }
  }

  lemma LoopSettles(s: State, a: Action, t: State)
    requires Settled(s) && t.clients == s.clients && LoopStep(s, a) == Some(t)
    ensures Settled(t)
  {
    assert AbortComing(t) == AbortComing(s);
    hide AbortComing;
  }

  lemma CallSettles(s: State, a: Action, t: State)
    requires Settled(s) && t.clients == s.clients && CallStep(s, a) == Some(t)
    ensures Settled(t)
  {
    assert AbortComing(t) == AbortComing(s);
    hide AbortComing;
  }

  lemma RefuseSettles(s: State, a: Action, t: State)
    requires Settled(s) && t.clients == s.clients && RefuseStep(s, a) == Some(t)
    ensures Settled(t)
  {
    assert AbortComing(t) == AbortComing(s);
    hide AbortComing;
  }

  lemma EndSettles(s: State, a: Action, t: State)
    requires Settled(s) && t.clients == s.clients && EndStep(s, a) == Some(t)
    ensures Settled(t)
  {
    EndMoves(s, a, t);
    hide EndStep;
    assert AbortComing(t) == AbortComing(s);
    hide AbortComing;
  }

  lemma KeepsSettled(s: State, a: Action, t: State)
    requires Settled(s) && Step(s, a) == Some(t)
    ensures Settled(t)
  {
    if ByClient(a) {
      ClientFrames(s, a.c, a, t);
      ClientSettles(s, a.c, a, t);
    } else {
      hide Settled, LoopStep, CallStep, RefuseStep, EndStep;
      ThreadFrames(s, a, t);
      match PhaseOf(s.thread) {
        case InLoop => LoopSettles(s, a, t);
        case InCalls => CallSettles(s, a, t);
        case InRefusal => RefuseSettles(s, a, t);
        case InEnd => EndSettles(s, a, t);
      }
    }
  }

  lemma BeginsOnly(s: State, c: nat, a: Action, t: State)
    requires c < |s.clients| && BeginCall(s, c, a) == Some(t)
    ensures t == s.(clients := t.clients) && c < |t.clients| && !t.clients[c].Aborting?
  {
    hide Open, Quiet;
  }

  lemma ClientSettles(s: State, c: nat, a: Action, t: State)
    requires Settled(s) && ClientStep(s, c, a) == Some(t) && ClientFrame(s, t)
    requires c < |s.clients| == |t.clients|
    requires forall j :: 0 <= j < |s.clients| && j != c ==> t.clients[j] == s.clients[j]
    ensures Settled(t)
  {
    if s.clients[c] == Idle { BeginsOnly(s, c, a, t); }
    hide BeginCall;
    if AbortComing(s) {
      var j :| 0 <= j < |s.clients| && s.clients[j].Aborting?;
      assert t.aborts > 0 || t.failedAborts > 0 || t.clients[j].Aborting?;
    }
    if t.cancelled && !s.cancelled { assert t.clients[c].Aborting?; }
  }

  lemma LoopChecks(s: State, a: Action, t: State)
    requires Checked(s) && Delivered(s) && LoopStep(s, a) == Some(t)
    ensures Checked(t)
  {
    hide Flat;
    if s.thread.Fetching? && a.Fetch? { assert Before(t) == s.fetched; } else { assert Before(t) == Before(s); }
  }

  lemma CallChecks(s: State, a: Action, t: State)
    requires Checked(s) && Delivered(s) && CallStep(s, a) == Some(t)
    ensures Checked(t)
  {
    hide Flat;
    assert Before(t) == Before(s);
  }

  lemma RefuseChecks(s: State, a: Action, t: State)
    requires Checked(s) && Delivered(s) && RefuseStep(s, a) == Some(t)
    ensures Checked(t)
  {
    hide Flat;
    assert Before(t) == Before(s);
  }

  lemma EndChecks(s: State, a: Action, t: State)
    requires Checked(s) && Delivered(s) && EndStep(s, a) == Some(t)
    ensures Checked(t)
  {
    EndMoves(s, a, t);
    hide EndStep;
    hide Flat;
    assert Before(t) == Before(s);
  }

  lemma KeepsChecked(s: State, a: Action, t: State)
    requires Checked(s) && Delivered(s) && Step(s, a) == Some(t)
    ensures Checked(t)
  {
    hide Flat, LoopStep, CallStep, RefuseStep, EndStep, ClientStep;
    if ByClient(a) {
      ClientFrames(s, a.c, a, t);
    } else {
      match PhaseOf(s.thread) {
        case InLoop => LoopChecks(s, a, t);
        case InCalls => CallChecks(s, a, t);
        case InRefusal => RefuseChecks(s, a, t);
        case InEnd => EndChecks(s, a, t);
      }
    }
  }

  lemma KeepsCancelledOnce(s: State, a: Action, t: State)
    requires CancelledOnce(s) && Step(s, a) == Some(t)
    ensures CancelledOnce(t)
  {
    if ByClient(a) {
      ClientFrames(s, a.c, a, t);
      ClientCancels(s, a.c, a, t);
    } else {
      hide ThreadStep;
      ThreadFrames(s, a, t);
    }
  }

  lemma ClientCancels(s: State, c: nat, a: Action, t: State)
    requires CancelledOnce(s) && ClientStep(s, c, a) == Some(t) && ClientFrame(s, t)
    requires c < |s.clients| == |t.clients|
    requires forall j :: 0 <= j < |s.clients| && j != c ==> t.clients[j] == s.clients[j]
    ensures CancelledOnce(t)
  {
    if s.clients[c] == Idle { BeginsOnly(s, c, a, t); }
    hide BeginCall, ClientFrame;
  }

  lemma EndFields(s: State, a: Action, t: State)
    requires Fields(s) && EndStep(s, a) == Some(t)
    ensures Fields(t)
  {
    hide UNKNOWN_ERROR;
  }

  predicate SameOutcome(s: State, t: State) {
    t.done == s.done && t.status == s.status && t.error == s.error && PhaseOf(s.thread) != InEnd
    && (t.thread.Finishing? || t.thread.Catching? || PhaseOf(t.thread) != InEnd)
  }

  lemma EarlierFields(s: State, a: Action, t: State)
    requires PhaseOf(s.thread) != InEnd && ThreadStep(s, a) == Some(t)
    ensures SameOutcome(s, t)
  {
  }

  lemma KeepsFields(s: State, a: Action, t: State)
    requires Fields(s) && Step(s, a) == Some(t)
    ensures Fields(t)
  {
    hide ClientStep, LoopStep, CallStep, RefuseStep, EndStep;
    if ByClient(a) {
      ClientFrames(s, a.c, a, t);
    } else if PhaseOf(s.thread) == InEnd {
      EndFields(s, a, t);
    } else {
      EarlierFields(s, a, t);
    }
  }

  lemma KeepsOwned(s: State, a: Action, t: State)
    requires Owned(s) && Fields(s) && Step(s, a) == Some(t)
    ensures Owned(t)
  {
    hide ClientStep, ThreadStep;
    if ByClient(a) {
      ClientFrames(s, a.c, a, t);
      ClientOwns(s, a.c, a, t);
    } else {
      ThreadFrames(s, a, t);
    }
  }

  lemma ClientOwns(s: State, c: nat, a: Action, t: State)
    requires Owned(s) && ClientStep(s, c, a) == Some(t) && ClientFrame(s, t)
    requires c < |s.clients| == |t.clients|
    requires forall j :: 0 <= j < |s.clients| && j != c ==> t.clients[j] == s.clients[j]
    ensures Owned(t)
  {
    ClientMoves(s, c, a, t);
    EntersFree(s, c, a, t);
    hide ClientStep, ClientFrame;
    assert t.thread == s.thread && t.status == s.status;
  }

  /** What a client step may do to the ownership of the handle. */
  lemma ClientMoves(s: State, c: nat, a: Action, t: State)
    requires ClientStep(s, c, a) == Some(t) && c < |s.clients|
    ensures c < |t.clients|
    ensures s.clients[c] == Idle && t.clients[c] != Idle ==> Open(s)
    ensures (t.clients[c].Reading? || t.clients[c].Deleting?) && t.clients[c] != s.clients[c] ==> s.thread.Exited?
    ensures t.deleted ==> s.deleted || (s.clients[c].Deleting? && t.clients[c] == Idle)
    ensures t.waits == s.waits || (s.clients[c].Reading? && t.waits == s.waits + [s.status])
  {
    if s.clients[c] == Idle && a.CallFree? { QuietIsOpen(s); }
    hide Open, Quiet;
  }

  lemma QuietIsOpen(s: State)
    ensures Quiet(s) ==> Open(s)
  {
  }

  /** Only a free on a quiet handle enters free. */
  lemma EntersFree(s: State, c: nat, a: Action, t: State)
    requires ClientStep(s, c, a) == Some(t) && c < |s.clients|
    ensures c < |t.clients|
    ensures InFree(t.clients[c]) && !InFree(s.clients[c]) ==> Quiet(s)
  {
    hide Open, Quiet;
    if s.clients[c] == Idle {
      BeginsFree(s, c, a, t);
    } else {
      hide BeginCall;
    }
  }

  lemma BeginsFree(s: State, c: nat, a: Action, t: State)
    requires c < |s.clients| && BeginCall(s, c, a) == Some(t)
    ensures c < |t.clients| && (InFree(t.clients[c]) ==> Quiet(s))
  {
    hide Open, Quiet;
  }

  lemma {:induction false} RunKeepsInv(s: State, actions: seq<Action>)
    requires Inv(s) && Run(s, actions).Some?
    ensures Inv(Run(s, actions).value)
    decreases |actions|
  {
    hide Inv, Step;
    if actions != [] {
      var t := Step(s, actions[0]).value;
      StepKeepsInv(s, actions[0], t);
      RunKeepsInv(t, actions[1..]);
    }
  }

  lemma StepKeepsInv(s: State, a: Action, t: State)
    requires Inv(s) && Step(s, a) == Some(t)
    ensures Inv(t)
  {
    hide Marked, Settled, Checked, CancelledOnce, Replied, FinishesLast, Delivered, Fields, Owned, Step;
    KeepsDelivered(s, a, t);
    KeepsFinishesLast(s, a, t);
    KeepsReplied(s, a, t);
    KeepsMarked(s, a, t);
    KeepsSettled(s, a, t);
    KeepsChecked(s, a, t);
    KeepsCancelledOnce(s, a, t);
    KeepsFields(s, a, t);
    KeepsOwned(s, a, t);
  }

  // ----- what every run keeps -----

  lemma InitialInv(n: nat)
    ensures Inv(Initial(n))
  {
  }

  /** s occurs in some interleaving of the delivery thread with some number of clients. */
  ghost predicate Reachable(s: State) {
    exists n: nat, actions :: Run(Initial(n), actions) == Some(s)
  }

  lemma ReachableInv(s: State)
    requires Reachable(s)
    ensures Inv(s)
  {
    hide Inv, Step;
    var n: nat, actions :| Run(Initial(n), actions) == Some(s);
    InitialInv(n);
    RunKeepsInv(Initial(n), actions);
  }

  /** Deltas arrive in the engine's order without gap or repetition; an uncancelled success delivers them all. */
  lemma DeliversInOrder(s: State)
    requires Reachable(s)
    ensures s.log <= Flat(s.fetched)
    ensures s.done && s.status == StatusOk && !s.cancelled ==> EngineDone(s) && s.log == Flat(s.fetched)
  {
    hide Step, Run, Flat;
    ReachableInv(s);
  }

  lemma RefusedStep(s: State, a: Action, t: State)
    requires Replied(s) && Refusing(s) && Step(s, a) == Some(t)
    ensures t.log == s.log && t.replies == s.replies
  {
    hide Flat, ClientStep, Delivered, Marked, Settled, Checked, CancelledOnce, Owned, Fields, FinishesLast;
    if ByClient(a) { ClientFrames(s, a.c, a, t); }
  }

  lemma InvReplies(s: State)
    requires Inv(s)
    ensures Replied(s)
  {
    hide Replied;
  }

  /** Once the callback has returned false it is never called again, however the run goes on. */
  lemma {:induction false} RefusalIsFinal(s: State, actions: seq<Action>)
    requires Inv(s) && Refusing(s) && Run(s, actions).Some?
    ensures Run(s, actions).value.log == s.log
    decreases |actions|
  {
    hide Inv, Step;
    if actions != [] {
      var t := Step(s, actions[0]).value;
      InvReplies(s);
      RefusedStep(s, actions[0], t);
      StepKeepsInv(s, actions[0], t);
      RefusalIsFinal(t, actions[1..]);
    }
  }

  lemma {:induction false} Unfinished(os: seq<Output>, i: nat)
    requires i < |Flat(os)| && forall j :: 0 <= j < |os| ==> !os[j].finished
    ensures !Flat(os)[i].finished
  {
    if i < |Flat(os[..|os| - 1])| { Unfinished(os[..|os| - 1], i); }
  }

  /** A finished delta belongs to the last fetched output, and is the last delta if that has one completion. */
  lemma FinishedIsLast(s: State, i: nat)
    requires Reachable(s) && i < |s.log| && s.log[i].finished
    ensures EngineDone(s) && |Flat(Before(s))| <= i
    ensures |s.fetched[|s.fetched| - 1].texts| <= 1 ==> i == |s.log| - 1
  {
    hide Step, Run;
    ReachableInv(s);
    assert s.log[i] == Flat(s.fetched)[i];
    if i < |Flat(Before(s))| { Unfinished(Before(s), i); }
  }

  ghost predicate FinishedOnce(log: seq<Delta>) {
    forall i, j :: 0 <= i < |log| && 0 <= j < |log| && log[i].finished && log[j].finished ==> i == j
  }

  /** One completion in the final output, which is all this engine makes: the flag is passed at most once. */
  lemma FinishesOnce(t: State)
    requires Reachable(t) && (t.fetched == [] || |t.fetched[|t.fetched| - 1].texts| <= 1)
    ensures FinishedOnce(t.log)
  {
    hide Reachable;
    forall i, j | 0 <= i < |t.log| && 0 <= j < |t.log| && t.log[i].finished && t.log[j].finished ensures i == j {
      FinishedIsLast(t, i);
      FinishedIsLast(t, j);
    }
  }

  // ----- runs put together -----

  lemma {:induction false} RunConcat(s: State, xs: seq<Action>, ys: seq<Action>)
    ensures Run(s, xs + ys) == if Run(s, xs).Some? then Run(Run(s, xs).value, ys) else None
    decreases |xs|
  {
    hide Step;
    if xs == [] {
      assert xs + ys == ys;
    } else {
      assert (xs + ys)[0] == xs[0] && (xs + ys)[1..] == xs[1..] + ys;
      if Step(s, xs[0]).Some? { RunConcat(Step(s, xs[0]).value, xs[1..], ys); }
    }
  }

  lemma RunTwo(s0: State, a: Action, s1: State, b: Action, s2: State)
    requires Step(s0, a) == Some(s1) && Step(s1, b) == Some(s2)
    ensures Run(s0, [a, b]) == Some(s2)
  {
    hide Step;
    assert [b][1..] == [] && [a, b][1..] == [b];
    assert Run(s1, [b]) == Some(s2);
  }

  /** Going on with two more actions. */
  lemma RunTwoMore(s: State, xs: seq<Action>, s0: State, a: Action, s1: State, b: Action, s2: State)
    requires Run(s, xs) == Some(s0) && Step(s0, a) == Some(s1) && Step(s1, b) == Some(s2)
    ensures Run(s, xs + [a, b]) == Some(s2)
  {
    hide Step, Run;
    RunConcat(s, xs, [a, b]);
    RunTwo(s0, a, s1, b, s2);
  }

  /** The first n completions of an output, each asked for and accepted. */
  function Accepting(n: nat): seq<Action> {
    if n == 0 then [] else Accepting(n - 1) + [CallBack, Reply(true)]
  }

  function Yes(n: nat): seq<bool> {
    seq(n, _ => true)
  }

  /** The state of an undisturbed run: every output in os delivered in full, and n deltas of o after them. */
  function Undisturbed(os: seq<Output>, thread: Thread, n: nat): State
    requires thread.Delivering? ==> n <= |thread.o.texts|
  {
    var log := Flat(os) + if thread.Delivering? then Entries(thread.o)[..n] else [];
    Initial(0).(thread := thread, fetched := if thread.Delivering? then os + [thread.o] else os, log := log,
                replies := Yes(|log|))
  }

  lemma {:induction false} AcceptingRuns(os: seq<Output>, o: Output, n: nat)
    requires n <= |o.texts|
    ensures Run(Undisturbed(os, Delivering(o, 0), 0), Accepting(n)) == Some(Undisturbed(os, Delivering(o, n), n))
  {
    hide Flat, ClientStep, LoopStep, RefuseStep, EndStep;
    if n > 0 {
      AcceptingRuns(os, o, n - 1);
      var s := Undisturbed(os, Delivering(o, n - 1), n - 1);
      var s1 := s.(thread := InCallback(o, n - 1), log := s.log + [Entries(o)[n - 1]]);
      var s2 := Undisturbed(os, Delivering(o, n), n);
      assert s2.log == s1.log && s2.replies == s1.replies + [true];
      RunTwoMore(Undisturbed(os, Delivering(o, 0), 0), Accepting(n - 1), s, CallBack, s1, Reply(true), s2);
    }
  }

  /** An undisturbed run delivers every unfinished output in full. */
  function Draining(os: seq<Output>): seq<Action> {
    if os == [] then []
    else
      var o := os[|os| - 1];
      Draining(os[..|os| - 1]) + [Fetch(o), CheckCancelled] + Accepting(|o.texts|) + [EndOutput, TestExit]
  }

  lemma Fetches(os: seq<Output>, o: Output)
    ensures Run(Undisturbed(os, Fetching, 0), [Fetch(o), CheckCancelled]) == Some(Undisturbed(os, Delivering(o, 0), 0))
  {
    hide Flat, ClientStep, CallStep, RefuseStep, EndStep, Run;
    var s, s2 := Undisturbed(os, Fetching, 0), Undisturbed(os, Delivering(o, 0), 0);
    RunTwo(s, Fetch(o), s.(thread := Fetched(o), fetched := os + [o]), CheckCancelled, s2);
  }

  lemma EndsOutput(os: seq<Output>, o: Output)
    requires !o.finished
    ensures Run(Undisturbed(os, Delivering(o, |o.texts|), |o.texts|), [EndOutput, TestExit])
         == Some(Undisturbed(os + [o], Fetching, 0))
  {
    FlatSnoc(os, o);
    hide Flat, ClientStep, RefuseStep, EndStep, Run;
    var s, s2 := Undisturbed(os, Delivering(o, |o.texts|), |o.texts|), Undisturbed(os + [o], Fetching, 0);
    assert s.log == s2.log;
    RunTwo(s, EndOutput, s.(thread := Testing), TestExit, s2);
  }

  lemma {:induction false} DrainingRuns(os: seq<Output>)
    requires forall i :: 0 <= i < |os| ==> !os[i].finished
    ensures Run(Initial(0), Draining(os)) == Some(Undisturbed(os, Fetching, 0))
  {
    hide Flat, Step, Run, Accepting, Undisturbed;
    if os == [] {
      Starts();
    } else {
      var before, o := os[..|os| - 1], os[|os| - 1];
      assert os == before + [o];
      DrainingRuns(before);
      Fetches(before, o);
      AcceptingRuns(before, o, |o.texts|);
      EndsOutput(before, o);
      RunConcat(Initial(0), Draining(before), [Fetch(o), CheckCancelled]);
      RunConcat(Initial(0), Draining(before) + [Fetch(o), CheckCancelled], Accepting(|o.texts|));
      RunConcat(Initial(0), Draining(before) + [Fetch(o), CheckCancelled] + Accepting(|o.texts|),
                [EndOutput, TestExit]);
    }
  }

  lemma Starts()
    ensures Run(Initial(0), []) == Some(Initial(0)) == Some(Undisturbed([], Fetching, 0))
  {
    assert Flat([]) + [] == [] && Yes(0) == [];
  }

  /** Unfinished outputs before a last one with two completions: both can be delivered. */
  lemma TwoDelivered(os: seq<Output>, o: Output)
    requires |o.texts| >= 2 && forall i :: 0 <= i < |os| ==> !os[i].finished
    ensures Reachable(Undisturbed(os, Delivering(o, 2), 2))
  {
    hide Flat, Step, Run, Undisturbed, Accepting;
    DrainingRuns(os);
    Fetches(os, o);
    AcceptingRuns(os, o, 2);
    RunConcat(Initial(0), Draining(os), [Fetch(o), CheckCancelled]);
    RunConcat(Initial(0), Draining(os) + [Fetch(o), CheckCancelled], Accepting(2));
    var run := Draining(os) + [Fetch(o), CheckCancelled] + Accepting(2);
    assert Run(Initial(0), run) == Some(Undisturbed(os, Delivering(o, 2), 2));
    ReachedFrom(0, Draining(os) + [Fetch(o), CheckCancelled] + Accepting(2));
  }

  /** Nothing follows a finished output. */
  predicate EndsAtFinish(os: seq<Output>) {
    forall i :: 0 <= i < |os| - 1 ==> !os[i].finished
  }

  /** Does the series end in a finished output of several completions? */
  predicate EndsTwice(os: seq<Output>) {
    os != [] && EndsAtFinish(os) && os[|os| - 1].finished && |os[|os| - 1].texts| >= 2
  }

  /** For an engine that may give any outputs: the flag can be passed twice exactly when the series it gives ends in a
      finished output of several completions. */
  lemma FinishedOnceIff(os: seq<Output>)
    ensures (forall t :: Reachable(t) && t.fetched == os ==> FinishedOnce(t.log)) <==> !EndsTwice(os)
  {
    hide Reachable, Flat;
    if EndsTwice(os) {
      var before, o := os[..|os| - 1], os[|os| - 1];
      TwoDelivered(before, o);
      var t := Undisturbed(before, Delivering(o, 2), 2);
      var k := |Flat(before)|;
      assert t.fetched == os && t.log[k] == Entries(o)[0] && t.log[k + 1] == Entries(o)[1];
      assert !FinishedOnce(t.log);
    } else {
      forall t | Reachable(t) && t.fetched == os ensures FinishedOnce(t.log) { AtMostOnce(t); }
    }
  }

  lemma AtMostOnce(t: State)
    requires Reachable(t) && !EndsTwice(t.fetched)
    ensures FinishedOnce(t.log)
  {
    hide Flat, Reachable;
    ReachableInv(t);
    if t.fetched != [] && !t.fetched[|t.fetched| - 1].finished {
      forall i | 0 <= i < |t.log| && t.log[i].finished ensures false { FinishedIsLast(t, i); }
    } else {
      FinishesOnce(t);
    }
  }

  // ----- cancellation -----

  lemma {:induction false} FlatPrefix(os: seq<Output>, k: nat)
    requires k <= |os|
    ensures Flat(os[..k]) <= Flat(os)
  {
    if k < |os| {
      FlatPrefix(os[..|os| - 1], k);
      assert os[..|os| - 1][..k] == os[..k];
    } else {
      assert os[..k] == os;
    }
  }

  /** After cancellation is recorded at most one more output is fetched, and nothing of it delivered: the log stays
      within the outputs fetched before. */
  lemma AfterCancellation(s: State)
    requires Reachable(s) && s.mark.Some?
    ensures var m := s.mark.value; m.fetched <= |s.fetched| <= m.fetched + 1 && m.delivered <= |s.log|
    ensures var m := s.mark.value; s.log <= Flat(s.fetched[..m.fetched])
    ensures var m := s.mark.value; m.fetched > 0 ==> |Flat(s.fetched[..m.fetched - 1])| <= m.delivered
  {
    hide Step, Run, Flat;
    ReachableInv(s);
    FlatPrefix(s.fetched, s.mark.value.fetched);
  }

  ghost predicate TerminalDelivered(log: seq<Delta>) {
    exists i :: 0 <= i < |log| && log[i].finished
  }

  /** A request that ended without an error passed the terminal flag exactly when the engine's final output had a
      completion and the thread had not seen the cancellation when it checked before delivering it. */
  lemma TerminalDeltaIff(s: State)
    requires Reachable(s) && s.thread.Exited? && s.status == StatusOk
    ensures TerminalDelivered(s.log) <==> EngineDone(s) && s.fetched[|s.fetched| - 1].texts != [] && !s.skipped
  {
    hide Step, Run, Reachable;
    ReachableInv(s);
    Unfold(s, CallBack);
    hide Flat;
    var last := |Flat(Before(s))|;
    if TerminalDelivered(s.log) {
      var i :| 0 <= i < |s.log| && s.log[i].finished;
      FinishedIsLast(s, i);
    }
    if EngineDone(s) && s.fetched[|s.fetched| - 1].texts != [] && !s.skipped {
      assert LastStarted(s) && s.log[last] == Flat(s.fetched)[last];
      assert s.log[last].finished;
    }
  }

  lemma Alone()
    ensures forall x: Client, y: Client :: [x][0 := y] == [y]
  {
  }

  /** A client cancels before anything is fetched; its abort is carried out or throws. */
  lemma CancelsFirst(throws: bool) returns (run: seq<Action>, s: State)
    ensures Run(Initial(1), run) == Some(s) && s.thread.Fetching? && s.cancelled && s.status == StatusOk
    ensures s.fetched == [] && s.log == [] && s.aborts == (if throws then 0 else 1) && s.clients == [Idle]
  {
    hide Flat, ThreadStep, Run;
    var s0 := Initial(1);
    assert s0.clients == [Idle];
    Alone();
    var s1, s2, s3 := s0.(clients := [InCancel(false)]), s0.(clients := [SawLive(false)]),
        MarkCancelled(s0).(clients := [Aborting(false)]);
    assert Open(s0);
    RunTwo(s0, CallCancel(0), s1, ProbeDone(0), s2);
    s := MarkCancelled(s0).(aborts := if throws then 0 else 1, failedAborts := if throws then 1 else 0,
                          cancelAborts := 1);
    var last := if throws then AbortCancelledThrows(0) else AbortCancelled(0);
    RunTwoMore(s0, [CallCancel(0), ProbeDone(0)], s2, Exchange(0), s3, last, s);
    run := [CallCancel(0), ProbeDone(0)] + [Exchange(0), last];
  }

  /** A cancelled request's thread ends on whatever it fetches next, finished or not, and never passes the flag. */
  lemma CancelledRun(o: Output)
    ensures exists s :: Reachable(s) && s.thread.Exited? && s.status == StatusOk && s.fetched == [o] && s.log == []
  {
    hide Flat, Step, Run;
    var run, s := CancelsFirst(false);
    AfterwardsExits(Initial(1), run, s, o);
    ReachedFrom(1, run + ([Fetch(o), CheckCancelled] + [TestExit, StoreOk] + [StoreDone, ExitThread]));
  }

  lemma ReachedFrom(n: nat, actions: seq<Action>)
    requires Run(Initial(n), actions).Some?
    ensures Reachable(Run(Initial(n), actions).value)
  {
    hide Step;
  }

  /** A thread about to fetch with the cancellation recorded takes o and exits. */
  lemma AfterwardsExits(s0: State, run: seq<Action>, s: State, o: Output)
    requires Run(s0, run) == Some(s) && s.thread.Fetching? && s.cancelled && s.status == StatusOk
    ensures var rest := [Fetch(o), CheckCancelled] + [TestExit, StoreOk] + [StoreDone, ExitThread];
            Run(s0, run + rest) == Some(s.(thread := Exited, fetched := s.fetched + [o], skipped := true, done := true))
  {
    hide Flat, RefuseStep, CallStep, ClientStep, UNKNOWN_ERROR, Run, EngineDone;
    var s1 := s.(thread := Fetched(o), fetched := s.fetched + [o]);
    var s2 := s1.(thread := Testing, skipped := true);
    RunTwoMore(s0, run, s, Fetch(o), s1, CheckCancelled, s2);
    var r2 := run + [Fetch(o), CheckCancelled];
    RunTwoMore(s0, r2, s2, TestExit, s2.(thread := Finishing), StoreOk, s2.(thread := Publishing));
    var r4 := r2 + [TestExit, StoreOk];
    RunTwoMore(s0, r4, s2.(thread := Publishing), StoreDone, s2.(thread := Returning, done := true),
               ExitThread, s2.(thread := Exited, done := true));
    var rest := [Fetch(o), CheckCancelled] + [TestExit, StoreOk] + [StoreDone, ExitThread];
    assert r4 + [StoreDone, ExitThread] == run + rest;
  }

  /** However many clients cancel or free, at most one of them aborts the request. */
  lemma CancelIsIdempotent(s: State)
    requires Reachable(s)
    ensures s.cancelAborts <= 1
  {
    hide Step, Run, Flat;
    ReachableInv(s);
  }

  lemma DoneStep(s: State, a: Action, t: State)
    requires Inv(s) && s.done && Step(s, a) == Some(t)
    ensures t.done && t.status == s.status && t.error == s.error
  {
    hide Flat, ClientStep, Delivered, Marked, Settled, Checked, CancelledOnce, Owned, FinishesLast, Replied;
    if ByClient(a) { ClientFrames(s, a.c, a, t); }
  }

  /** What vllm_request_error reads. */
  function ErrorText(s: State): string {
    if s.done then s.error else ""
  }

  /** No error text can be read before the request is done, and then only of a failed one. */
  lemma ErrorOnlyWhenDone(s: State)
    requires Reachable(s)
    ensures ErrorText(s) != "" ==> s.done && s.status != StatusOk
  {
    hide Step, Run, Flat;
    ReachableInv(s);
  }

  /** Once done is visible the status and the error text never change. */
  lemma {:induction false} OutcomeIsFinal(s: State, actions: seq<Action>)
    requires Inv(s) && s.done && Run(s, actions).Some?
    ensures var t := Run(s, actions).value; t.done && t.status == s.status && ErrorText(t) == ErrorText(s)
    decreases |actions|
  {
    hide Inv, Step;
    if actions != [] {
      var t := Step(s, actions[0]).value;
      DoneStep(s, actions[0], t);
      StepKeepsInv(s, actions[0], t);
      OutcomeIsFinal(t, actions[1..]);
    }
  }

  /** The thread is reporting e: about to record it, or it stands recorded with its status and text. */
  predicate Reporting(s: State, e: Thrown) {
    || s.thread == Catching(e)
    || (Recorded(s.thread)
        && s.status == (if e.StdException? then RuntimeError else UnknownError)
        && s.error == (if e.StdException? then e.what else "unknown asynchronous request error"))
  }

  lemma ReportStep(s: State, e: Thrown, a: Action, t: State)
    requires Reporting(s, e) && Step(s, a) == Some(t)
    ensures Reporting(t, e)
  {
    if ByClient(a) {
      hide ClientStep;
      ClientFrames(s, a.c, a, t);
    } else {
      hide ClientStep, LoopStep, CallStep, RefuseStep;
    }
  }

  /** An exception in the thread is what the request reports: a std::exception as a runtime error with its own
      text, anything else as an unknown error, whatever the clients do meanwhile. */
  lemma {:induction false} CaughtIsReported(s: State, e: Thrown, actions: seq<Action>)
    requires Inv(s) && Reporting(s, e) && Run(s, actions).Some? && Run(s, actions).value.done
    ensures var t := Run(s, actions).value;
      && t.status == (if e.StdException? then RuntimeError else UnknownError)
      && ErrorText(t) == (if e.StdException? then e.what else "unknown asynchronous request error")
    decreases |actions|
  {
    if actions == [] {
      hide Step, Run, Delivered, Marked, Settled, Checked, CancelledOnce, Owned, FinishesLast, Replied;
      assert Fields(s) && Run(s, []) == Some(s) by { RunNothing(s); }
    } else {
      hide Inv, Step, Reporting;
      var t := Step(s, actions[0]).value;
      ReportStep(s, e, actions[0], t);
      StepKeepsInv(s, actions[0], t);
      CaughtIsReported(t, e, actions[1..]);
    }
  }

  lemma RunNothing(s: State)
    ensures Run(s, []) == Some(s)
  {
  }

  /** A thread that leaves the loop by itself is reporting success. */
  predicate Succeeding(s: State) {
    s.thread.Finishing? || (Published(s.thread) && s.status == StatusOk && s.error == "")
  }

  lemma SucceedStep(s: State, a: Action, t: State)
    requires Fields(s) && Succeeding(s) && Step(s, a) == Some(t)
    ensures Succeeding(t)
  {
    if ByClient(a) {
      hide ClientStep;
      ClientFrames(s, a.c, a, t);
    } else {
      hide ClientStep, LoopStep, CallStep, RefuseStep;
    }
  }

  /** A thread that got to the end of its loop reports success without an error text. */
  lemma {:induction false} LoopEndIsOk(s: State, actions: seq<Action>)
    requires Inv(s) && Succeeding(s) && Run(s, actions).Some? && Run(s, actions).value.done
    ensures var t := Run(s, actions).value; t.status == StatusOk && ErrorText(t) == ""
    decreases |actions|
  {
    if actions == [] {
      hide Step, Run, Delivered, Marked, Settled, Checked, CancelledOnce, Owned, FinishesLast, Replied;
      assert Fields(s) && Run(s, []) == Some(s) by { RunNothing(s); }
    } else {
      hide Step, Succeeding, Delivered, Marked, Settled, Checked, CancelledOnce, Owned, FinishesLast, Replied, Fields;
      var t := Step(s, actions[0]).value;
      SucceedStep(s, actions[0], t);
      StepKeepsInv(s, actions[0], t);
      LoopEndIsOk(t, actions[1..]);
    }
  }

  /** free deletes a handle only when its thread has exited and nobody is inside it; and the engine is rid of the
      request, unless an abort threw. */
  lemma DeletionIsSafe(s: State)
    requires Reachable(s) && s.deleted
    ensures s.thread.Exited? && s.done && forall j :: 0 <= j < |s.clients| ==> s.clients[j] == Idle
    ensures s.failedAborts == 0 ==> EngineDone(s) || s.aborts > 0
  {
    hide Step, Run, Flat;
    ReachableInv(s);
  }

  /** Every wait returns the same, final status, with an error text only for a failure. */
  lemma WaitsAgree(s: State, i: nat)
    requires Reachable(s) && i < |s.waits|
    ensures s.done && s.thread.Exited? && s.waits[i] == s.status && (s.waits[i] == StatusOk ==> ErrorText(s) == "")
  {
    hide Step, Run, Flat;
    ReachableInv(s);
  }

  /** A thread that has exited leaves no request behind, unless the client that cancelled it has its abort still to
      make, or an abort threw. */
  lemma NothingLeftBehind(s: State)
    requires Reachable(s) && s.thread.Exited? && !AbortComing(s) && s.failedAborts == 0
    ensures EngineDone(s) || s.aborts > 0
  {
    hide Step, Run, Flat;
    ReachableInv(s);
  }

  /** When the abort of a cancel throws, the thread still ends without an error, and the request stays in the engine:
      nobody aborts it again. */
  lemma AbandonedRun(o: Output)
    requires !o.finished
    ensures exists s ::
      Reachable(s) && s.thread.Exited? && s.status == StatusOk && !AbortComing(s) && !EngineDone(s) && s.aborts == 0
  {
    hide Flat, Step, Run;
    var run, s := CancelsFirst(true);
    AfterwardsExits(Initial(1), run, s, o);
    ReachedFrom(1, run + ([Fetch(o), CheckCancelled] + [TestExit, StoreOk] + [StoreDone, ExitThread]));
  }
}
