/** A server-side gRPC stream: it records every attempted Send, whether or not it failed. */
module Streams {
  class Stream<M> {
    /** Whether the n-th Send on this stream fails: any pattern at all. */
    const fails: nat -> bool
    var attempts: seq<M>

    constructor (fails: nat -> bool)
      ensures this.fails == fails && attempts == []
    {
      this.fails := fails;
      attempts := [];
    }

    method Send(m: M) returns (ok: bool)
      modifies this
      ensures attempts == old(attempts) + [m]
      ensures ok == !fails(|old(attempts)|)
    {
      ok := !fails(|attempts|);
      attempts := attempts + [m];
    }
  }

  /** The stop-at-first-failure rule: of k messages, the first n are attempted, starting at base. */
  predicate StopsAtFirstFailure(k: nat, fails: nat -> bool, base: nat, n: nat) {
    && n <= k
    && (forall j: nat :: base <= j < base + n - 1 ==> !fails(j))
    && (n < k ==> n > 0 && fails(base + n - 1))
  }

  lemma FirstFailureIsUnique(k: nat, fails: nat -> bool, base: nat, n: nat, m: nat)
    requires StopsAtFirstFailure(k, fails, base, n) && StopsAtFirstFailure(k, fails, base, m)
    ensures n == m
  {
  }

  /** How many of k messages a sticky sender attempts. */
  function Attempted(k: nat, fails: nat -> bool, base: nat): (n: nat)
    ensures StopsAtFirstFailure(k, fails, base, n)
  {
    if k == 0 then 0
    else
      var n := Attempted(k - 1, fails, base);
      if n < k - 1 || (n > 0 && fails(base + n - 1)) then n else n + 1
  }

  /** Whether the sender has seen a failure after its first k messages. */
  predicate HasFailed(k: nat, fails: nat -> bool, base: nat) {
    var n := Attempted(k, fails, base);
    n > 0 && fails(base + n - 1)
  }
}

/** AuthHandlerGRPCServer.Login: device-code prompts, then exactly one terminal message. */
module LoginStream {
  import opened Prelude
  import opened Streams

  datatype DeviceCodePrompt = DeviceCodePrompt(userCode: string, verificationUri: string, message: string)

  datatype LoginResponse = LoginResponse(claims: Option<string>, expiresAtUnix: int)

  datatype Message =
    | PromptMessage(prompt: DeviceCodePrompt)
    | ErrorMessage(error: string)
    | ResultMessage(result: LoginResponse)

  datatype PluginOutcome = Failed(error: string) | Returned(response: Option<LoginResponse>)

  /** What a plugin does with one login: call the callback with each prompt in turn, then return. */
  datatype LoginBehaviour = LoginBehaviour(prompts: seq<DeviceCodePrompt>, outcome: PluginOutcome)

  const NIL_RESULT := "plugin returned nil login result"

  function Terminal(outcome: PluginOutcome): Message {
    match outcome
    case Failed(e) => ErrorMessage(e)
    case Returned(None) => ErrorMessage(NIL_RESULT)
    case Returned(Some(r)) => ResultMessage(r)
  }

  /** Every message Login attempts on a stream that already carries base attempts. */
  function LoginAttempts(plugin: LoginBehaviour, fails: nat -> bool, base: nat): (ms: seq<Message>)
    ensures |ms| > 0
  {
    var n := Attempted(|plugin.prompts|, fails, base);
    PromptMessages(plugin.prompts, n) + [Terminal(plugin.outcome)]
  }

  /** The callback Login hands to the plugin, with its sticky failure flag. */
  class DeviceCodeCallback {
    const stream: Stream<Message>
    var sendFailed: bool

    constructor (stream: Stream<Message>)
      ensures this.stream == stream && !sendFailed
    {
      this.stream := stream;
      sendFailed := false;
    }

    method Call(prompt: DeviceCodePrompt)
      modifies this, stream
      ensures old(sendFailed) ==> sendFailed && stream.attempts == old(stream.attempts)
      ensures !old(sendFailed) ==>
                && stream.attempts == old(stream.attempts) + [PromptMessage(prompt)]
                && sendFailed == stream.fails(|old(stream.attempts)|)
    {
      if sendFailed {
        return;
      }
      var ok := stream.Send(PromptMessage(prompt));
      if !ok {
        sendFailed := true;
      }
    }
  }

  /** The first n prompts as messages. */
  function PromptMessages(prompts: seq<DeviceCodePrompt>, n: nat): (ms: seq<Message>)
    requires n <= |prompts|
    ensures |ms| == n && forall i :: 0 <= i < n ==> ms[i] == PromptMessage(prompts[i])
  {
    seq(n, i requires 0 <= i < n => PromptMessage(prompts[i]))
  }

  /** The plugin's calls of the callback. */
  method PromptAll(prompts: seq<DeviceCodePrompt>, stream: Stream<Message>)
    modifies stream
    ensures var n := Attempted(|prompts|, stream.fails, |old(stream.attempts)|);
            stream.attempts == old(stream.attempts) + PromptMessages(prompts, n)
  {
    var callback := new DeviceCodeCallback(stream);
    ghost var base := |stream.attempts|;
    var i := 0;
    while i < |prompts|
      modifies callback, stream
      invariant 0 <= i <= |prompts|
      invariant callback.stream == stream && fresh(callback)
      invariant stream.attempts == old(stream.attempts) + PromptMessages(prompts, Attempted(i, stream.fails, base))
      invariant callback.sendFailed == HasFailed(i, stream.fails, base)
    {
      callback.Call(prompts[i]);
      i := i + 1;
    }
  }

  /** ok is whether the RPC returns without an error. */
  method Login(plugin: LoginBehaviour, stream: Stream<Message>) returns (ok: bool)
    modifies stream
    ensures stream.attempts == old(stream.attempts) + LoginAttempts(plugin, stream.fails, |old(stream.attempts)|)
    ensures ok <==> !stream.fails(|stream.attempts| - 1)
  {
    PromptAll(plugin.prompts, stream);
    match plugin.outcome
    case Failed(e) =>
      ok := stream.Send(ErrorMessage(e));
    case Returned(None) =>
      ok := stream.Send(ErrorMessage(NIL_RESULT));
    case Returned(Some(r)) =>
      ok := stream.Send(ResultMessage(r));
  }

  /**
   * The stream protocol, whatever the failures: a prefix of the prompts ending at the first
   * failed Send, then one terminal message, a Result exactly when the plugin gave one.
   */
  lemma LoginProtocol(plugin: LoginBehaviour, fails: nat -> bool, base: nat)
    ensures var ms := LoginAttempts(plugin, fails, base);
            var n := |ms| - 1;
            && StopsAtFirstFailure(|plugin.prompts|, fails, base, n)
            && (forall i :: 0 <= i < n ==> ms[i] == PromptMessage(plugin.prompts[i]))
            && !ms[n].PromptMessage?
            && (ms[n].ResultMessage? <==> plugin.outcome.Returned? && plugin.outcome.response.Some?)
            && (ms[n].ResultMessage? ==> ms[n].result == plugin.outcome.response.value)
            && (plugin.outcome.Failed? ==> ms[n] == ErrorMessage(plugin.outcome.error))
            && (plugin.outcome == Returned(None) ==> ms[n] == ErrorMessage("plugin returned nil login result"))
  {
  }
}

/** ExecuteProviderStream and its chunk forwarder. */
module ForwardStream {
  import opened Prelude
  import opened Streams

  /** A plugin's chunk. None is Go's nil; an empty non-nil slice is Some([]). */
  datatype StreamChunk<O> = StreamChunk(stdout: Option<Bytes>, stderr: Option<Bytes>, result: Option<O>, error: string)

  datatype ProtoChunk =
    | StdoutChunk(data: Bytes)
    | StderrChunk(data: Bytes)
    | ResultChunk(output: Bytes, error: string)

  /** json.Marshal on a provider output, which may be nil; Bad carries the error text. */
  datatype Marshalled = Good(bytes: Bytes) | Bad(error: string)

  const ENCODE_FAILED := "failed to encode output: "

  /** The message a chunk becomes: the first set field wins, and an empty chunk becomes nothing. */
  function Translate<O>(chunk: StreamChunk<O>, marshal: Option<O> -> Marshalled): Option<ProtoChunk> {
    if chunk.stdout.Some? then Some(StdoutChunk(chunk.stdout.value))
    else if chunk.stderr.Some? then Some(StderrChunk(chunk.stderr.value))
    else if chunk.result.Some? || chunk.error != "" then
      match marshal(chunk.result)
      case Bad(e) => Some(ResultChunk([], ENCODE_FAILED + e))
      case Good(b) => Some(ResultChunk(b, chunk.error))
    else None
  }

  /** The translations of the non-empty chunks, in order. */
  function Translations<O>(chunks: seq<StreamChunk<O>>, marshal: Option<O> -> Marshalled): (ms: seq<ProtoChunk>)
    ensures |ms| <= |chunks|
  {
    if chunks == [] then []
    else
      var last := Translate(chunks[|chunks| - 1], marshal);
      Translations(chunks[..|chunks| - 1], marshal) + if last.Some? then [last.value] else []
  }

  class StreamForwarder<O(!new)> {
    const stream: Stream<ProtoChunk>
    const marshal: Option<O> -> Marshalled
    var err: bool

    constructor (stream: Stream<ProtoChunk>, marshal: Option<O> -> Marshalled)
      ensures this.stream == stream && this.marshal == marshal && !err
    {
      this.stream, this.marshal, err := stream, marshal, false;
    }

    method Forward(chunk: StreamChunk<O>)
      modifies this, stream
      ensures old(err) || Translate(chunk, marshal).None? ==>
                err == old(err) && stream.attempts == old(stream.attempts)
      ensures !old(err) && Translate(chunk, marshal).Some? ==>
                && stream.attempts == old(stream.attempts) + [Translate(chunk, marshal).value]
                && err == stream.fails(|old(stream.attempts)|)
    {
      if err {
        return;
      }
      var protoChunk;
      if chunk.stdout.Some? {
        protoChunk := StdoutChunk(chunk.stdout.value);
      } else if chunk.stderr.Some? {
        protoChunk := StderrChunk(chunk.stderr.value);
      } else if chunk.result.Some? || chunk.error != "" {
        match marshal(chunk.result)
        case Bad(e) =>
          protoChunk := ResultChunk([], ENCODE_FAILED + e);
        case Good(b) =>
          protoChunk := ResultChunk(b, chunk.error);
      } else {
        return;
      }
      var ok := stream.Send(protoChunk);
      if !ok {
        err := true;
      }
    }
  }

  /** What a sticky forwarder has attempted after these chunks. */
  function Forwarded<O>(chunks: seq<StreamChunk<O>>, marshal: Option<O> -> Marshalled, fails: nat -> bool,
                        base: nat): seq<ProtoChunk> {
    var ms := Translations(chunks, marshal);
    ms[..Attempted(|ms|, fails, base)]
  }

  ghost predicate ForwardFailed<O>(chunks: seq<StreamChunk<O>>, marshal: Option<O> -> Marshalled,
                                   fails: nat -> bool, base: nat) {
    HasFailed(|Translations(chunks, marshal)|, fails, base)
  }

  lemma ForwardOne<O>(chunks: seq<StreamChunk<O>>, chunk: StreamChunk<O>, marshal: Option<O> -> Marshalled,
                      fails: nat -> bool, base: nat)
    ensures var before := Forwarded(chunks, marshal, fails, base);
            var after := Forwarded(chunks + [chunk], marshal, fails, base);
            if ForwardFailed(chunks, marshal, fails, base) || Translate(chunk, marshal).None?
            then
              && after == before
              && ForwardFailed(chunks + [chunk], marshal, fails, base) == ForwardFailed(chunks, marshal, fails, base)
            else
              && after == before + [Translate(chunk, marshal).value]
              && ForwardFailed(chunks + [chunk], marshal, fails, base) == fails(base + |before|)
  {
    assert (chunks + [chunk])[..|chunks|] == chunks;
    var ms := Translations(chunks, marshal);
    var next := Translate(chunk, marshal);
    if next.None? {
      assert ms + [] == ms;
    }
  }

  /** The plugin's calls of the forwarding callback. */
  method ForwardAll<O(!new)>(chunks: seq<StreamChunk<O>>, marshal: Option<O> -> Marshalled, stream: Stream<ProtoChunk>)
    modifies stream
    ensures stream.attempts == old(stream.attempts) + Forwarded(chunks, marshal, stream.fails, |old(stream.attempts)|)
  {
    var forwarder := new StreamForwarder(stream, marshal);
    ghost var base := |stream.attempts|;
    var i := 0;
    while i < |chunks|
      modifies forwarder, stream
      invariant 0 <= i <= |chunks|
      invariant forwarder.stream == stream && forwarder.marshal == marshal && fresh(forwarder)
      invariant stream.attempts == old(stream.attempts) + Forwarded(chunks[..i], marshal, stream.fails, base)
      invariant forwarder.err == ForwardFailed(chunks[..i], marshal, stream.fails, base)
    {
      ForwardOne(chunks[..i], chunks[i], marshal, stream.fails, base);
      assert chunks[..i + 1] == chunks[..i] + [chunks[i]];
      forwarder.Forward(chunks[i]);
      i := i + 1;
    }
    assert chunks[..i] == chunks;
  }

  datatype StreamOutcome = Finished | NotSupported(error: string) | Failed(error: string)

  datatype StreamBehaviour<O> = StreamBehaviour(chunks: seq<StreamChunk<O>>, outcome: StreamOutcome)

  datatype RpcStatus = RpcOk | SendError | Unimplemented(error: string)

  /** What the handler attempts after the plugin returns. */
  function Tail(outcome: StreamOutcome): seq<ProtoChunk> {
    if outcome.Failed? then [ResultChunk([], outcome.error)] else []
  }

  /** Every attempt of one streamed execution whose request decodes. */
  function StreamAttempts<O>(plugin: StreamBehaviour<O>, marshal: Option<O> -> Marshalled, fails: nat -> bool,
                             base: nat): seq<ProtoChunk> {
    Forwarded(plugin.chunks, marshal, fails, base) + Tail(plugin.outcome)
  }

  /** The same; requestError is the text of the first decode error of the request, if any. */
  function ExecutionAttempts<O>(requestError: Option<string>, plugin: StreamBehaviour<O>,
                                marshal: Option<O> -> Marshalled, fails: nat -> bool, base: nat): seq<ProtoChunk> {
    if requestError.Some? then [ResultChunk([], requestError.value)] else StreamAttempts(plugin, marshal, fails, base)
  }

  /** The status of the call; a stream that carries base attempts already is about to make the next one. */
  function StreamStatus<O>(requestError: Option<string>, plugin: StreamBehaviour<O>,
                           marshal: Option<O> -> Marshalled, fails: nat -> bool, base: nat): RpcStatus {
    if requestError.Some? then if fails(base) then SendError else RpcOk
    else
      match plugin.outcome
      case Finished => RpcOk
      case NotSupported(e) => Unimplemented(e)
      case Failed(_) =>
        if fails(base + |Forwarded(plugin.chunks, marshal, fails, base)|) then SendError else RpcOk
  }

  method ExecuteProviderStream<O(!new)>(requestError: Option<string>, plugin: StreamBehaviour<O>,
                                        marshal: Option<O> -> Marshalled, stream: Stream<ProtoChunk>)
    returns (status: RpcStatus)
    modifies stream
    ensures stream.attempts == old(stream.attempts) +
              ExecutionAttempts(requestError, plugin, marshal, stream.fails, |old(stream.attempts)|)
    ensures status == StreamStatus(requestError, plugin, marshal, stream.fails, |old(stream.attempts)|)
  {
    if requestError.Some? {
      var ok := stream.Send(ResultChunk([], requestError.value));
      return if ok then RpcOk else SendError;
    }
    ForwardAll(plugin.chunks, marshal, stream);
    match plugin.outcome
    case Finished =>
      status := RpcOk;
    case NotSupported(e) =>
      status := Unimplemented(e);
    case Failed(e) =>
      var ok := stream.Send(ResultChunk([], e));
      status := if ok then RpcOk else SendError;
  }

  // ---- What the host sees ----

  function ResultCount(ms: seq<ProtoChunk>): nat {
    if ms == [] then 0
    else ResultCount(ms[..|ms| - 1]) + if ms[|ms| - 1].ResultChunk? then 1 else 0
  }

  predicate OnlyOutput<O>(chunks: seq<StreamChunk<O>>) {
    forall i :: 0 <= i < |chunks| ==>
      chunks[i].stdout.Some? || chunks[i].stderr.Some? || (chunks[i].result.None? && chunks[i].error == "")
  }

  lemma {:induction false} NoResultsInOutput<O>(chunks: seq<StreamChunk<O>>, marshal: Option<O> -> Marshalled)
    requires OnlyOutput(chunks)
    ensures forall i :: 0 <= i < |Translations(chunks, marshal)| ==> !Translations(chunks, marshal)[i].ResultChunk?
  {
    if chunks != [] {
      NoResultsInOutput(chunks[..|chunks| - 1], marshal);
    }
  }

  lemma {:induction false} NoResultsCount(ms: seq<ProtoChunk>)
    requires forall i :: 0 <= i < |ms| ==> !ms[i].ResultChunk?
    ensures ResultCount(ms) == 0
  {
    if ms != [] {
      NoResultsCount(ms[..|ms| - 1]);
    }
  }

  /**
   * A plugin that only writes output and then fails ordinarily yields exactly one Result, the
   * last attempt, even when an earlier Send failed; with any other ending it yields none.
   */
  lemma OutputThenFailure<O>(plugin: StreamBehaviour<O>, marshal: Option<O> -> Marshalled, fails: nat -> bool,
                             base: nat)
    requires OnlyOutput(plugin.chunks)
    ensures var ms := StreamAttempts(plugin, marshal, fails, base);
            && ResultCount(ms) == (if plugin.outcome.Failed? then 1 else 0)
            && (plugin.outcome.Failed? ==> |ms| > 0 && ms[|ms| - 1] == ResultChunk([], plugin.outcome.error))
  {
    var all := Translations(plugin.chunks, marshal);
    var sent := Forwarded(plugin.chunks, marshal, fails, base);
    NoResultsInOutput(plugin.chunks, marshal);
    NoResultsCount(sent);
    if plugin.outcome.Failed? {
      assert (sent + Tail(plugin.outcome))[..|sent|] == sent;
    } else {
      assert sent + [] == sent;
    }
  }

  /**
   * The stream protocol, whatever the failures: a request error alone, or the translations up to
   * the first failed Send and then, only after an ordinary failure, its Result.
   */
  lemma ExecutionProtocol<O>(requestError: Option<string>, plugin: StreamBehaviour<O>,
                             marshal: Option<O> -> Marshalled, fails: nat -> bool, base: nat)
    ensures var ms := ExecutionAttempts(requestError, plugin, marshal, fails, base);
            var all := Translations(plugin.chunks, marshal);
            if requestError.Some? then ms == [ResultChunk([], requestError.value)]
            else
              var n := |ms| - if plugin.outcome.Failed? then 1 else 0;
              && n >= 0 && StopsAtFirstFailure(|all|, fails, base, n)
              && ms[..n] == all[..n]
              && (plugin.outcome.Failed? ==> ms[n] == ResultChunk([], plugin.outcome.error))
  {
  }

  // ---- What the status says ----

  /**
   * The call is reported as unimplemented exactly when the plugin does not support streaming, and
   * as a Send error exactly when the handler's own message, a request error or an ordinary failure,
   * was attempted last and that Send failed. In every other case it succeeds.
   */
  lemma StatusMeans<O>(requestError: Option<string>, plugin: StreamBehaviour<O>, marshal: Option<O> -> Marshalled,
                       fails: nat -> bool, base: nat)
    ensures var status := StreamStatus(requestError, plugin, marshal, fails, base);
            var ms := ExecutionAttempts(requestError, plugin, marshal, fails, base);
            && (forall e :: status == Unimplemented(e) <==> requestError.None? && plugin.outcome == NotSupported(e))
            && (status == SendError <==>
                && (requestError.Some? || plugin.outcome.Failed?)
                && ms[|ms| - 1] ==
                   ResultChunk([], if requestError.Some? then requestError.value else plugin.outcome.error)
                && fails(base + |ms| - 1))
  {
  }

  /** What the host would receive over a stream on which no Send fails. */
  function Intended<O>(requestError: Option<string>, plugin: StreamBehaviour<O>,
                       marshal: Option<O> -> Marshalled): seq<ProtoChunk> {
    if requestError.Some? then [ResultChunk([], requestError.value)]
    else Translations(plugin.chunks, marshal) + Tail(plugin.outcome)
  }

  predicate NoneFails(fails: nat -> bool, base: nat, k: nat) {
    forall j: nat :: base <= j < base + k ==> !fails(j)
  }

  /** Everything intended was attempted, and none of those Sends failed. */
  predicate AllDelivered<O>(requestError: Option<string>, plugin: StreamBehaviour<O>,
                                marshal: Option<O> -> Marshalled, fails: nat -> bool, base: nat) {
    var ms := Intended(requestError, plugin, marshal);
    ExecutionAttempts(requestError, plugin, marshal, fails, base) == ms && NoneFails(fails, base, |ms|)
  }

  /** A sticky sender attempts all of k messages, the last one with success, exactly if none fails. */
  lemma AttemptedAll(k: nat, fails: nat -> bool, base: nat)
    ensures Attempted(k, fails, base) == k && !HasFailed(k, fails, base) <==> NoneFails(fails, base, k)
  {
    var n := Attempted(k, fails, base);
    if n > 0 && fails(base + n - 1) {
      assert base <= base + n - 1 < base + k;
    }
  }

  /**
   * A successful status means that everything was delivered, except when a chunk's Send failed
   * and the plugin then finished normally or its failure was still sent.
   */
  lemma SuccessMeansDelivered<O>(requestError: Option<string>, plugin: StreamBehaviour<O>,
                                 marshal: Option<O> -> Marshalled, fails: nat -> bool, base: nat)
    ensures (StreamStatus(requestError, plugin, marshal, fails, base) == RpcOk ==>
               AllDelivered(requestError, plugin, marshal, fails, base)) <==>
            || requestError.Some?
            || plugin.outcome.NotSupported?
            || (plugin.outcome.Failed? && fails(base + |Forwarded(plugin.chunks, marshal, fails, base)|))
            || NoneFails(fails, base, |Translations(plugin.chunks, marshal)|)
  {
    var all := Translations(plugin.chunks, marshal);
    AttemptedAll(|all|, fails, base);
    if requestError.None? {
      var sent := Forwarded(plugin.chunks, marshal, fails, base);
      var tail := Tail(plugin.outcome);
      assert |sent + tail| == |all + tail| ==> |sent| == |all|;
      assert NoneFails(fails, base, |all|) ==> sent == all;
    }
  }

  /** On a stream that stays broken once a Send failed, only a normal finish hides the loss. */
  lemma OnlyFinishHidesLoss<O>(requestError: Option<string>, plugin: StreamBehaviour<O>,
                               marshal: Option<O> -> Marshalled, fails: nat -> bool, base: nat)
    requires forall i: nat, j: nat :: i < j && fails(i) ==> fails(j)
    ensures StreamStatus(requestError, plugin, marshal, fails, base) == RpcOk &&
            !AllDelivered(requestError, plugin, marshal, fails, base) <==>
            requestError.None? && plugin.outcome.Finished? &&
            !NoneFails(fails, base, |Translations(plugin.chunks, marshal)|)
  {
    SuccessMeansDelivered(requestError, plugin, marshal, fails, base);
    AttemptedAll(|Translations(plugin.chunks, marshal)|, fails, base);
  }

  /** Two chunks of output, of which the first is lost and the second never attempted. */
  lemma FinishedStreamCanLose<O>(marshal: Option<O> -> Marshalled)
    ensures var lines: seq<StreamChunk<O>> :=
              [StreamChunk(Some([1]), None, None, ""), StreamChunk(Some([2]), None, None, "")];
            var plugin := StreamBehaviour(lines, Finished);
            var fails := (n: nat) => n == 0;
            && StreamStatus(None, plugin, marshal, fails, 0) == RpcOk
            && ExecutionAttempts(None, plugin, marshal, fails, 0) == [StdoutChunk([1])]
            && Intended(None, plugin, marshal) == [StdoutChunk([1]), StdoutChunk([2])]
            && !AllDelivered(None, plugin, marshal, fails, 0)
  {
    var lines: seq<StreamChunk<O>> :=
      [StreamChunk(Some([1]), None, None, ""), StreamChunk(Some([2]), None, None, "")];
    assert lines[..1] == [lines[0]] && lines[..1][..0] == [];
    assert Translations(lines[..1], marshal) == [StdoutChunk([1])];
    assert Translations(lines, marshal) == [StdoutChunk([1]), StdoutChunk([2])];
  }

  /** The message for the first set field carries that field's data; only an empty chunk is dropped. */
  lemma TranslateFirstField<O>(chunk: StreamChunk<O>, marshal: Option<O> -> Marshalled)
    ensures Translate(chunk, marshal).None? <==> chunk == StreamChunk(None, None, None, "")
    ensures forall data :: Translate(chunk, marshal) == Some(StdoutChunk(data)) <==> chunk.stdout == Some(data)
    ensures forall data :: Translate(chunk, marshal) == Some(StderrChunk(data)) <==>
              chunk.stdout.None? && chunk.stderr == Some(data)
    ensures forall output, error :: Translate(chunk, marshal) == Some(ResultChunk(output, error)) <==>
              && chunk.stdout.None? && chunk.stderr.None?
              && (chunk.result.Some? || chunk.error != "")
              && match marshal(chunk.result)
                 case Good(bytes) => output == bytes && error == chunk.error
                 case Bad(e) => output == [] && error == "failed to encode output: " + e
  {
  }
}
