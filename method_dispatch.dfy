/** The method-signature table of a channel kind and the dispatch of one
    received AMQP method to its handler (`AbstractChannel._dispatch`). */
module MethodDispatch {
  import opened Wrappers

  /** An AMQP method signature: the (class id, method id) pair. */
  datatype MethodSig = MethodSig(classId: int, methodId: int)

  /** The decoded argument stream of a received method (an `AMQPReader`);
      the model never looks inside it. */
  datatype MethodArgs = MethodArgs(data: seq<bv8>)

  /** Names a Python method of a concrete channel class (a handler); its
      body is not part of this model. */
  datatype HandlerId = HandlerId(name: string)

  /** A per-kind `_METHOD_MAP`: signature to handler. */
  type MethodMap = map<MethodSig, HandlerId>

  /** The base class's placeholder table: it maps nothing. */
  const PlaceholderMethodMap: MethodMap := map[]

  /** One positional argument of a handler call. `S` is the receiving
      channel's type, `C` the content's. */
  datatype Arg<S, C> = SelfArg(channel: S) | ArgsArg(args: MethodArgs) | ContentArg(content: C)

  /** The one handler call a dispatch performs: which handler, with which
      positional arguments (so its arity is `|argv|`). */
  datatype HandlerCall<S, C> = HandlerCall(handler: HandlerId, argv: seq<Arg<S, C>>)

  /** The call a dispatch made and what the handler returned. */
  datatype Dispatched<S, C, R> = Dispatched(call: HandlerCall<S, C>, result: R)

  /** The errors the core raises: an unknown signature from `_dispatch`, and
      whatever the connection's queue scan raised, passed through. */
  datatype Failure = UnknownMethod(sig: MethodSig) | WaitMethodFailed(cause: string)

  /** `AbstractChannel._dispatch`: look `sig` up in the channel kind's table;
      an unknown signature fails and calls nothing; a known handler is called
      exactly once, as `(self, args)` without content and as
      `(self, args, content)` with it, and its result is returned as is. The
      handler's behaviour is the uninterpreted `run`. */
  function Dispatch<S, C, R>(self: S, methodMap: MethodMap, sig: MethodSig, args: MethodArgs,
                             content: Option<C>, run: HandlerCall<S, C> -> R): (r: Result<Dispatched<S, C, R>, Failure>)
    ensures r.Failure? <==> sig !in methodMap
    ensures r.Failure? ==> r.error == UnknownMethod(sig)
    ensures r.Success? ==> r.value.call.handler == methodMap[sig]
    ensures r.Success? && content.None? ==> r.value.call.argv == [SelfArg(self), ArgsArg(args)]
    ensures r.Success? && content.Some? ==>
              r.value.call.argv == [SelfArg(self), ArgsArg(args), ContentArg(content.value)]
    ensures r.Success? ==> r.value.result == run(r.value.call)
  {
    match Get(methodMap, sig)
    case None => Failure(UnknownMethod(sig))
    case Some(handler) =>
      var call := match content
        case None => HandlerCall(handler, [SelfArg(self), ArgsArg(args)])
        case Some(c) => HandlerCall(handler, [SelfArg(self), ArgsArg(args), ContentArg(c)]);
      Success(Dispatched(call, run(call)))
  }

  /** The number of positional arguments a successful dispatch passes is 2
      exactly when there is no content, and 3 exactly when there is. */
  lemma DispatchArity<S, C, R>(self: S, methodMap: MethodMap, sig: MethodSig, args: MethodArgs,
                               content: Option<C>, run: HandlerCall<S, C> -> R)
    requires sig in methodMap
    ensures var r := Dispatch(self, methodMap, sig, args, content, run);
            r.Success? && |r.value.call.argv| == (if content.None? then 2 else 3)
  {
  }

  /** With the base class's placeholder table every dispatch fails with the
      unknown-method error, whatever the signature. */
  lemma PlaceholderRejectsAll<S, C, R>(self: S, sig: MethodSig, args: MethodArgs,
                                       content: Option<C>, run: HandlerCall<S, C> -> R)
    ensures Dispatch(self, PlaceholderMethodMap, sig, args, content, run) == Failure(UnknownMethod(sig))
  {
  }

  /** Dispatch depends on the table only through the entry for `sig`: two
      kinds that agree on `sig` dispatch it identically. */
  lemma DispatchLocal<S, C, R>(self: S, m1: MethodMap, m2: MethodMap, sig: MethodSig, args: MethodArgs,
                               content: Option<C>, run: HandlerCall<S, C> -> R)
    requires Get(m1, sig) == Get(m2, sig)
    ensures Dispatch(self, m1, sig, args, content, run) == Dispatch(self, m2, sig, args, content, run)
  {
  }
}
