/**
 The synchronous entry points of src/capi/vllm_c.cpp: complete, complete_stream and submit over one engine
 handle. The engine answers from a script, so that every reply, exception and early end is covered.
 */
module RequestEntry {
  import opened Options
  import opened RequestLifecycle

  const ID_SPACE := 0x1_0000_0000_0000_0000

  /** How the engine answers its next call: an output, or an exception that may leave the request registered. */
  datatype Answer = Produces(o: Output, about: About) | Throws(e: Thrown, registered: bool)

  /** What a RequestOutput says besides its texts: the prompt's tokens, and the first completion's finish reason
      and tokens. */
  datatype About = About(promptTokens: nat, finishReason: Option<string>, tokens: nat)

  /** The out struct of vllm_complete once its text is set. */
  datatype Completion = Completion(text: string, finishReason: Option<string>, promptTokens: int, completionTokens: int)

  const FINISH_REASONS := ["stop", "length", "abort", "error", "repetition"]

  /** The static literal handed out for a finish reason. */
  function CanonicalFinishReason(reason: string): (r: string)
    ensures reason in ["stop", "length", "abort", "error", "repetition"] ==> r == reason
    ensures reason !in ["stop", "length", "abort", "error", "repetition"] ==> r == "unknown"
  {
    if reason in FINISH_REASONS then reason else "unknown"
  }

  /** A conversion to int32_t, which wraps around. */
  function ToInt32(n: nat): (r: int)
    ensures -0x8000_0000 <= r < 0x8000_0000 && (r - n) % 0x1_0000_0000 == 0
    ensures n < 0x8000_0000 ==> r == n
  {
    (n + 0x8000_0000) % 0x1_0000_0000 - 0x8000_0000
  }

  datatype CallbackAnswer = KeepGoing | Stop | CallbackThrew(e: Thrown)

  /** A callback may react to everything it has been given. */
  type Callback = seq<Delta> -> CallbackAnswer

  function StatusOf(e: Thrown): Status {
    if e.StdException? then RuntimeError else UnknownError
  }

  /** The callback asked for more after each of the first n deltas. */
  ghost predicate KeptGoing(cb: Callback, log: seq<Delta>, n: nat)
    requires n <= |log|
  {
    forall i :: 0 < i <= n ==> cb(log[..i]) == KeepGoing
  }

  function Peek(script: seq<Answer>): Answer {
    if script == [] then Throws(OtherException, true) else script[0]
  }

  /** The first answers of the script are the outputs in fetched. */
  ghost predicate GivenBy(script: seq<Answer>, fetched: seq<Output>) {
    |fetched| <= |script| && forall i :: 0 <= i < |fetched| ==> script[i].Produces? && script[i].o == fetched[i]
  }

  /** The status of a call in which this was thrown, if anything was. */
  ghost predicate Reports(r: Status, thrown: Option<Thrown>) {
    match thrown
    case None => r == StatusOk
    case Some(StdException(_)) => r == RuntimeError
    case Some(OtherException) => r == UnknownError
  }

  ghost predicate EngineThrew(script: seq<Answer>, n: nat, e: Thrown) {
    n <= |script| && Peek(script[n..]).Throws? && Peek(script[n..]).e == e
  }

  /** The callbacks of one output, until the callback refuses or throws. */
  method DeliverOutput(o: Output, cb: Callback, before: seq<Delta>)
    returns (log: seq<Delta>, stopped: bool, thrown: Option<Thrown>)
    requires KeptGoing(cb, before, |before|)
    ensures before <= log <= before + Entries(o) && (log != [] ==> KeptGoing(cb, log, |log| - 1))
    ensures !stopped && thrown.None? ==> log == before + Entries(o) && KeptGoing(cb, log, |log|)
    ensures stopped ==> thrown.None? && log != [] && cb(log) == Stop
    ensures thrown.Some? ==> log != [] && cb(log) == CallbackThrew(thrown.value)
  {
    log, stopped, thrown := before, false, None;
    for i := 0 to |o.texts|
      invariant log == before + Entries(o)[..i] && KeptGoing(cb, log, |log|)
    {
      var last := log;
      log := log + [Delta(o.texts[i], o.finished)];
      assert Entries(o)[..i + 1] == Entries(o)[..i] + [Delta(o.texts[i], o.finished)];
      assert forall k :: 0 <= k <= |last| ==> log[..k] == last[..k];
      assert log[..|log|] == log;
      match cb(log) {
        case KeepGoing =>
        case Stop => return log, true, None;
        case CallbackThrew(e) => return log, false, Some(e);
      }
    }
  }

  function CompletionOf(text: string, about: About): Completion {
    var reason := if about.finishReason.Some? then Some(CanonicalFinishReason(about.finishReason.value)) else None;
    Completion(text, reason, ToInt32(about.promptTokens), ToInt32(about.tokens))
  }

  class EngineHandle {
    var nextRequestId: nat      // the 64-bit counter
    var script: seq<Answer>     // the engine's answers to come; when it is exhausted the engine throws
    var live: set<nat>          // requests the engine still works on
    var aborted: set<nat>       // requests an abort has been issued for
    var lastError: string
    ghost var taken: nat        // how many ids have been drawn
    ghost var issued: set<nat>

    ghost predicate Valid()
      reads this
    {
      && nextRequestId == taken % ID_SPACE
      && (forall i :: i in issued ==> i < taken)
      && live + aborted <= issued
    }

    constructor (script: seq<Answer>)
      ensures Valid() && live == {} && this.script == script
    {
      nextRequestId, live, aborted, lastError, taken, issued := 0, {}, {}, "", 0, {};
      this.script := script;
    }

    /** fetch_add on the id counter: an id never seen before, for the first 2^64 requests. */
    method FreshId() returns (id: nat)
      requires Valid()
      modifies this`nextRequestId, this`taken, this`issued
      ensures Valid() && id == old(nextRequestId) && issued == old(issued) + {id} && taken == old(taken) + 1
      ensures old(taken) < 0x1_0000_0000_0000_0000 ==> id !in old(issued)
    {
      id := nextRequestId;
      nextRequestId := (nextRequestId + 1) % ID_SPACE;
      taken := taken + 1;
      issued := issued + {id};
    }

    method NextAnswer() returns (a: Answer)
      modifies this`script
      ensures a == Peek(old(script)) && script == if old(script) == [] then [] else old(script)[1..]
    {
      if script == [] { return Throws(OtherException, true); }
      a, script := script[0], script[1..];
    }

    /** Registers the request, or throws without registering it. */
    method AddRequest(id: nat) returns (e: Option<Thrown>)
      requires Valid() && id in issued
      modifies this`script, this`live
      ensures Valid() && script == if old(script) == [] then [] else old(script)[1..]
      ensures e == if Peek(old(script)).Throws? then Some(Peek(old(script)).e) else None
      ensures live == if e.None? then old(live) + {id} else old(live)
    {
      var a := NextAnswer();
      if a.Throws? { return Some(a.e); }
      live := live + {id};
      e := None;
    }

    /** The next output of a request; a finished one takes it out of the engine. */
    method GetOutput(id: nat) returns (a: Answer)
      requires Valid() && id in live
      modifies this`script, this`live
      ensures Valid() && a == Peek(old(script)) && script == if old(script) == [] then [] else old(script)[1..]
      ensures live == if (a.Produces? && a.o.finished) || (a.Throws? && !a.registered) then old(live) - {id}
        else old(live)
    {
      a := NextAnswer();
      if (a.Produces? && a.o.finished) || (a.Throws? && !a.registered) { live := live - {id}; }
    }

    /** Blocking generation; a clean return means the request has left the engine. */
    method Generate(id: nat) returns (a: Answer)
      requires Valid() && id in issued
      modifies this`script, this`live
      ensures Valid() && a == Peek(old(script))
      ensures live == if a.Throws? && a.registered then old(live) + {id} else old(live) - {id}
    {
      a := NextAnswer();
      live := if a.Throws? && a.registered then live + {id} else live - {id};
    }

    /** Tells the engine to drop the request; a no-op for an unknown one. */
    method Abort(id: nat)
      requires Valid() && id in issued
      modifies this`live, this`aborted
      ensures Valid() && live == old(live) - {id} && aborted == old(aborted) + {id}
    {
      live, aborted := live - {id}, aborted + {id};
    }

    method Fail(what: string, e: Thrown) returns (r: Status)
      modifies this`lastError
      ensures r == if e.StdException? then RuntimeError else UnknownError
      ensures lastError == what + ": " + (if e.StdException? then e.what else "unknown error") && lastError != ""
    {
      lastError := if e.StdException? then what + ": " + e.what else what + ": unknown error";
      r := StatusOf(e);
    }

    /**
     vllm_complete. `argsOk` says no pointer is null, `badParams` is what parameter validation throws, `noMemory`
     that the text cannot be copied. Whatever happens the request the call drew is finished or aborted, and nobody
     else's is touched.
     */
    method Complete(argsOk: bool, badParams: Option<Thrown>, noMemory: bool)
      returns (r: Status, out: Option<Completion>)
      requires Valid()
      modifies this
      ensures Valid() && taken <= old(taken) + 1
      ensures live <= old(live) && forall id :: id in old(live) && id != old(nextRequestId) ==> id in live
      ensures taken > old(taken) ==> old(nextRequestId) !in live
      ensures r == StatusOk <==> out.Some?
      ensures r == StatusOk <==> lastError == ""
      ensures !argsOk ==> r == InvalidArgument && taken == old(taken)
      ensures argsOk && badParams.Some? ==>
        taken == old(taken) && r == (if badParams.value.StdException? then RuntimeError else UnknownError)
      ensures var a := Peek(old(script));
        argsOk && badParams.None? ==>
          if a.Throws? then r == if a.e.StdException? then RuntimeError else UnknownError
          else if a.o.texts == [] || noMemory then r == RuntimeError
          else
            && r == StatusOk && out.value.text == a.o.texts[0]
            && out.value.promptTokens == ToInt32(a.about.promptTokens)
            && out.value.completionTokens == ToInt32(a.about.tokens)
            && (out.value.finishReason.Some? <==> a.about.finishReason.Some?)
            && (a.about.finishReason.Some? ==>
                  out.value.finishReason.value == CanonicalFinishReason(a.about.finishReason.value))
    {
      if !argsOk {
        lastError := "vllm_complete: null argument";
        return InvalidArgument, None;
      }
      if badParams.Some? {
        r := Fail("vllm_complete", badParams.value);
        return r, None;
      }
      var id := FreshId();
      var a := Generate(id);
      if a.Throws? {
        Abort(id);
        r := Fail("vllm_complete", a.e);
        return r, None;
      }
      if a.o.texts == [] {
        lastError := "vllm_complete: engine produced no output sequence";
        return RuntimeError, None;
      }
      if noMemory {
        lastError := "vllm_complete: out-of-memory copying completion text";
        return RuntimeError, None;
      }
      lastError := "";
      return StatusOk, Some(CompletionOf(a.o.texts[0], a.about));
    }

    lemma NothingYet()
      ensures [] <= Flat([])
    {
    }

    /** The streaming loop: fetch an output, make its callbacks, until a refusal, the finished output or an
        exception. */
    method Drive(id: nat, cb: Callback) returns (log: seq<Delta>, fetched: seq<Output>, stopped: bool,
                                                 thrown: Option<Thrown>)
      requires Valid() && id in live
      modifies this`script, this`live
      ensures Valid() && live <= old(live) && forall j :: j in old(live) && j != id ==> j in live
      ensures log <= Flat(fetched) && (log != [] ==> KeptGoing(cb, log, |log| - 1))
      ensures stopped ==> thrown.None? && log != [] && cb(log) == Stop
      ensures GivenBy(old(script), fetched)
      ensures thrown.Some? ==>
        (log != [] && cb(log) == CallbackThrew(thrown.value)) || EngineThrew(old(script), |fetched|, thrown.value)
      ensures !stopped && thrown.None? ==>
        id !in live && fetched != [] && fetched[|fetched| - 1].finished && log == Flat(fetched)
        && (log != [] ==> cb(log) == KeepGoing)
    {
      log, fetched, stopped, thrown := [], [], false, None;
      var ended := false;
      while !stopped && !ended && thrown.None?
        invariant Valid() && live <= old(live) && forall j :: j in old(live) && j != id ==> j in live
        invariant if ended then id !in live else thrown.None? ==> id in live
        invariant log <= Flat(fetched) && (log != [] ==> KeptGoing(cb, log, |log| - 1))
        invariant !stopped && thrown.None? ==> log == Flat(fetched) && KeptGoing(cb, log, |log|)
        invariant stopped ==> thrown.None? && log != [] && cb(log) == Stop
        invariant ended ==> fetched != [] && fetched[|fetched| - 1].finished
        invariant GivenBy(old(script), fetched) && script == old(script)[|fetched|..]
        invariant thrown.Some? ==> log != [] && cb(log) == CallbackThrew(thrown.value)
        decreases |script|, !stopped && !ended && thrown.None?
      {
        var a := GetOutput(id);
        if a.Throws? {
          thrown := Some(a.e);
          break;
        }
        FlatSnoc(fetched, a.o);
        fetched := fetched + [a.o];
        log, stopped, thrown := DeliverOutput(a.o, cb, log);
        ended := a.o.finished;
      }
      assert log[..|log|] == log;
    }

    /**
     vllm_complete_stream: the callback sees the engine's deltas in order, never again after it refuses one,
     and the request is finished or aborted on every way out.
     */
    method CompleteStream(argsOk: bool, badParams: Option<Thrown>, cb: Callback)
      returns (r: Status, log: seq<Delta>, fetched: seq<Output>, thrown: Option<Thrown>)
      requires Valid()
      modifies this
      ensures Valid() && taken <= old(taken) + 1
      ensures live <= old(live) && forall id :: id in old(live) && id != old(nextRequestId) ==> id in live
      ensures taken > old(taken) ==> old(nextRequestId) !in live
      ensures r == StatusOk <==> lastError == ""
      ensures !argsOk ==> r == InvalidArgument && log == [] && taken == old(taken)
      ensures argsOk ==> Reports(r, thrown) && (badParams.Some? ==> thrown == badParams && log == [])
      ensures fetched != [] ==> old(script) != [] && GivenBy(old(script)[1..], fetched)
      ensures argsOk && badParams.None? && thrown.Some? ==>
        || EngineThrew(old(script), 0, thrown.value)
        || (log != [] && cb(log) == CallbackThrew(thrown.value))
        || (old(script) != [] && EngineThrew(old(script)[1..], |fetched|, thrown.value))
      ensures log <= Flat(fetched)
      ensures log != [] ==> KeptGoing(cb, log, |log| - 1)
      ensures r == StatusOk ==>
        if log != [] && cb(log) == Stop then old(nextRequestId) in aborted
        else fetched != [] && fetched[|fetched| - 1].finished && log == Flat(fetched)
    {
      hide KeptGoing, Flat;
      NothingYet();
      log, fetched, thrown := [], [], badParams;
      if !argsOk {
        lastError := "vllm_complete_stream: null argument";
        return InvalidArgument, log, fetched, None;
      }
      if badParams.Some? {
        r := Fail("vllm_complete_stream", badParams.value);
        return r, log, fetched, thrown;
      }
      var id := FreshId();
      thrown := AddRequest(id);
      if thrown.Some? {
        assert script[0..] == script && old(script)[0..] == old(script);
        Abort(id);
        r := Fail("vllm_complete_stream", thrown.value);
        return r, log, fetched, thrown;
      }
      var stopped;
      log, fetched, stopped, thrown := Drive(id, cb);
      if thrown.Some? {
        Abort(id);
        r := Fail("vllm_complete_stream", thrown.value);
        return r, log, fetched, thrown;
      }
      if stopped { Abort(id); }
      lastError := "";
      r := StatusOk;
    }

    /**
     vllm_request_submit: on success the returned handle owns a request the engine works on, on failure
     nothing is left behind. `noMemory` and `noThread` are what making the handle and its thread may throw.
     */
    method Submit(argsOk: bool, badParams: Option<Thrown>, noMemory: Option<Thrown>, noThread: Option<Thrown>)
      returns (r: Status, handle: Option<nat>)
      requires Valid()
      modifies this
      ensures Valid() && taken <= old(taken) + 1
      ensures forall id :: id in old(live) && id != old(nextRequestId) ==> id in live
      ensures r == StatusOk <==> handle.Some?
      ensures r == StatusOk <==> lastError == ""
      ensures handle.Some? ==> handle.value == old(nextRequestId) && live == old(live) + {handle.value}
                               && (old(taken) < 0x1_0000_0000_0000_0000 ==> handle.value !in old(issued))
      ensures handle.None? ==>
        live <= old(live) && (taken > old(taken) ==> old(nextRequestId) !in live || old(nextRequestId) in old(live))
      ensures !argsOk ==> r == InvalidArgument && taken == old(taken)
      ensures argsOk ==>
        Reports(r, if badParams.Some? then badParams
                   else if Peek(old(script)).Throws? then Some(Peek(old(script)).e)
                   else if noMemory.Some? then noMemory else noThread)
    {
      handle := None;
      if !argsOk {
        lastError := "vllm_request_submit: null argument";
        return InvalidArgument, None;
      }
      if badParams.Some? {
        r := Fail("vllm_request_submit", badParams.value);
        return r, None;
      }
      var id := FreshId();
      var e := AddRequest(id);
      if e.None? {
        e := if noMemory.Some? then noMemory else noThread;
        if e.Some? { Abort(id); }
      }
      if e.Some? {
        r := Fail("vllm_request_submit", e.value);
        return r, None;
      }
      lastError := "";
      return StatusOk, Some(id);
    }
  }
}
