/** The state shared by the Connection (channel 0) and user channels:
    registration in the connection's channel table, the blocking `wait`
    with best-effort content decoding, and sending a method on the
    channel's own id (`amqplib/client_0_8/abstract_channel.py`). */
module Channels {
  import opened Wrappers
  import opened MethodDispatch

  type ChannelId = int

  /** A charset name, as carried in a content's `content_encoding`. */
  type Encoding = string

  /** A content body: raw bytes as received, or text once decoded. */
  datatype Body = Raw(bytes: seq<bv8>) | Text(text: string)

  /** The charset decoder `body.decode(encoding)`: `None` when it raises. */
  type Decoder = (Body, Encoding) -> Option<Body>

  /** An `AMQPWriter` whose serialized bytes `getvalue()` returns. */
  datatype AmqpWriter = AmqpWriter(id: nat)

  /** The `args` given to `_send_method`: a writer, or bytes as they are. */
  datatype SendArgs = WriterArgs(writer: AmqpWriter) | PlainArgs(bytes: seq<bv8>)

  /** The content (message) of a method: its body is rewritten in place when
      it is auto-decoded; `contentEncoding` is `None` when the content has no
      `content_encoding` attribute. */
  class Content {
    var body: Body
    const contentEncoding: Option<Encoding>

    constructor (body: Body, contentEncoding: Option<Encoding>)
      ensures this.body == body && this.contentEncoding == contentEncoding
    {
      this.body := body;
      this.contentEncoding := contentEncoding;
    }
  }

  /** A method waiting in a channel's `method_queue`. */
  datatype QueuedMethod = QueuedMethod(sig: MethodSig, args: MethodArgs, content: Option<Content>)

  /** What `connection._wait_method` is asked for: the channel, the allowed
      signatures (`None`: any) and the timeout (`None`: block). */
  datatype WaitRequest = WaitRequest(channelId: ChannelId, allowedMethods: Option<seq<MethodSig>>,
                                     timeout: Option<real>)

  /** The `(method_sig, args, content)` triple `_wait_method` hands back. */
  datatype Incoming = Incoming(sig: MethodSig, args: MethodArgs, content: Option<Content>)

  /** The connection's queue scan and frame demultiplexing, taken as given:
      a reply for each request, or the exception it raised. */
  type WaitMethod = WaitRequest -> Result<Incoming, string>

  /** One `method_writer.write_method(channel_id, method_sig, args, content)` call. */
  datatype WrittenMethod = WrittenMethod(channelId: ChannelId, sig: MethodSig, args: seq<bv8>,
                                         content: Option<Content>)

  /** The contents, if any, of a reply: the object `wait` may rewrite. */
  function ReceivedContent(reply: Result<Incoming, string>): (s: set<Content>)
    ensures |s| <= 1
    ensures reply.Success? && reply.value.content.Some? <==> s != {}
    ensures forall c :: c in s ==> reply.Success? && reply.value.content == Some(c)
  {
    if reply.Success? && reply.value.content.Some? then {reply.value.content.value} else {}
  }

  /** The body `wait` leaves in a received content: a successful decode when
      auto-decoding is on and the content declares an encoding; otherwise,
      and in particular when decoding fails, the body it arrived with. */
  function AutoDecodedBody(autoDecode: bool, encoding: Option<Encoding>, body: Body, decode: Decoder): (b: Body)
    ensures b != body ==> autoDecode && encoding.Some? && decode(body, encoding.value) == Some(b)
    ensures autoDecode && encoding.Some? && decode(body, encoding.value).Some? ==>
              b == decode(body, encoding.value).value
    ensures autoDecode && encoding.Some? && decode(body, encoding.value).None? ==> b == body
  {
    if autoDecode && encoding.Some? then
      match decode(body, encoding.value)
      case Some(decoded) => decoded
      case None => body
    else
      body
  }

  /** The argument bytes `_send_method` writes: a writer's `getvalue()`,
      anything else unchanged. */
  function WireArgs(args: SendArgs, getValue: AmqpWriter -> seq<bv8>): (b: seq<bv8>)
    ensures args.WriterArgs? ==> b == getValue(args.writer)
    ensures args.PlainArgs? ==> b == args.bytes
  {
    match args
    case WriterArgs(w) => getValue(w)
    case PlainArgs(bytes) => bytes
  }

  /** The default `args` of `_send_method`: the empty string. */
  const DefaultSendArgs: SendArgs := PlainArgs([])

  /** The part of the connection this file relies on: the channel table it
      owns and what its method writer has written so far. */
  class Connection {
    var channels: map<ChannelId, AbstractChannel>
    var written: seq<WrittenMethod>

    constructor ()
      ensures channels == map[] && written == []
    {
      channels := map[];
      written := [];
    }
  }

  /** Superclass state of the Connection and of every user channel. */
  class AbstractChannel {
    const connection: Connection
    const channelId: ChannelId
    /** This channel kind's `_METHOD_MAP`. */
    const methodMap: MethodMap
    var methodQueue: seq<QueuedMethod>
    var autoDecode: bool

    /** `AbstractChannel.__init__`: records the connection and id, enters the
        new channel in the connection's table under its id (replacing any
        earlier entry for that id, leaving every other id alone), and starts
        with an empty queue and auto-decoding off. */
    constructor (connection: Connection, channelId: ChannelId, methodMap: MethodMap := PlaceholderMethodMap)
      modifies connection`channels
      ensures this.connection == connection && this.channelId == channelId && this.methodMap == methodMap
      ensures methodQueue == [] && !autoDecode
      ensures connection.channels == old(connection.channels)[channelId := this]
      ensures Get(connection.channels, channelId) == Some(this)
      ensures forall k :: k != channelId ==> Get(connection.channels, k) == Get(old(connection.channels), k)
    {
      this.connection := connection;
      this.channelId := channelId;
      this.methodMap := methodMap;
      methodQueue := [];
      autoDecode := false;
      new;
      connection.channels := connection.channels[channelId := this];
    }

    /** `AbstractChannel.wait`: asks the connection for the next matching
        method on this channel's own id with the caller's allow-list and
        timeout; rewrites the content's body by `AutoDecodedBody` (a failed
        decode raises nothing and keeps the body); then dispatches the
        received triple, content object included. */
    method Wait<R>(waitMethod: WaitMethod, decode: Decoder, run: HandlerCall<AbstractChannel, Content> -> R,
                   allowedMethods: Option<seq<MethodSig>> := None, timeout: Option<real> := None)
      returns (request: WaitRequest, r: Result<Dispatched<AbstractChannel, Content, R>, Failure>)
      modifies ReceivedContent(waitMethod(WaitRequest(channelId, allowedMethods, timeout)))
      ensures request == WaitRequest(channelId, allowedMethods, timeout)
      ensures waitMethod(request).Failure? ==> r == Failure(WaitMethodFailed(waitMethod(request).error))
      ensures waitMethod(request).Success? ==>
                var m := waitMethod(request).value;
                r == Dispatch(this, methodMap, m.sig, m.args, m.content, run)
      ensures waitMethod(request).Success? && waitMethod(request).value.content.Some? ==>
                var c := waitMethod(request).value.content.value;
                c.body == AutoDecodedBody(autoDecode, c.contentEncoding, old(c.body), decode)
    {
      request := WaitRequest(channelId, allowedMethods, timeout);
      var reply := waitMethod(request);
      if reply.Failure? {
        r := Failure(WaitMethodFailed(reply.error));
        return;
      }
      var m := reply.value;
      if m.content.Some? && autoDecode && m.content.value.contentEncoding.Some? {
        var c := m.content.value;
        match decode(c.body, c.contentEncoding.value)
        case Some(decoded) =>
          c.body := decoded;
        case None =>
          // the decoder raised: the exception is swallowed, the raw body kept
      }
      r := Dispatch(this, methodMap, m.sig, m.args, m.content, run);
    }

    /** `AbstractChannel._send_method`: writes exactly one method, tagged
        with this channel's id, with a writer's bytes in place of the writer;
        nothing else changes. */
    method SendMethod(sig: MethodSig, getValue: AmqpWriter -> seq<bv8>,
                      args: SendArgs := DefaultSendArgs, content: Option<Content> := None)
      modifies connection`written
      ensures connection.written ==
                old(connection.written) + [WrittenMethod(channelId, sig, WireArgs(args, getValue), content)]
    {
      connection.written := connection.written + [WrittenMethod(channelId, sig, WireArgs(args, getValue), content)];
    }
  }

  // Successive channel constructions on one connection.

  /** The ids a sequence of constructions registers. */
  ghost function OpenedIds<V>(opens: seq<(ChannelId, V)>): set<ChannelId>
  {
    set i | 0 <= i < |opens| :: opens[i].0
  }

  /** The channel table after the constructions `opens`, in order, each
      doing what `AbstractChannel.__init__` does to it. */
  ghost function RegisterAll<V>(m: map<ChannelId, V>, opens: seq<(ChannelId, V)>): (r: map<ChannelId, V>)
    ensures r.Keys == m.Keys + OpenedIds(opens)
    decreases |opens|
  {
    if opens == [] then m
    else
      assert OpenedIds(opens) == {opens[0].0} + OpenedIds(opens[1..]) by {
        assert forall i :: 0 < i < |opens| ==> opens[i] == opens[1..][i - 1];
      }
      RegisterAll(m[opens[0].0 := opens[0].1], opens[1..])
  }

  /** The most recent construction with id `k`, if any. */
  ghost function LastOpen<V>(opens: seq<(ChannelId, V)>, k: ChannelId): Option<V>
    decreases |opens|
  {
    if opens == [] then None
    else if opens[|opens| - 1].0 == k then Some(opens[|opens| - 1].1)
    else LastOpen(opens[..|opens| - 1], k)
  }

  /** One more construction after `opens` is exactly the single update the
      constructor performs. */
  lemma {:induction false} RegisterAllStep<V>(m: map<ChannelId, V>, opens: seq<(ChannelId, V)>, k: ChannelId, v: V)
    ensures RegisterAll(m, opens + [(k, v)]) == RegisterAll(m, opens)[k := v]
    decreases |opens|
  {
    if opens == [] {
      assert [(k, v)][1..] == [];
    } else {
      assert (opens + [(k, v)])[1..] == opens[1..] + [(k, v)];
      RegisterAllStep(m[opens[0].0 := opens[0].1], opens[1..], k, v);
    }
  }

  /** Putting a construction in front leaves the most recent one alone
      unless no later construction used the same id. */
  lemma {:induction false} LastOpenCons<V>(o: (ChannelId, V), rest: seq<(ChannelId, V)>, k: ChannelId)
    ensures LastOpen([o] + rest, k) ==
              if LastOpen(rest, k).Some? then LastOpen(rest, k)
              else if o.0 == k then Some(o.1) else None
    decreases |rest|
  {
    var s := [o] + rest;
    if rest == [] {
      assert s[..|s| - 1] == [];
    } else {
      assert s[|s| - 1] == rest[|rest| - 1];
      assert s[..|s| - 1] == [o] + rest[..|rest| - 1];
      LastOpenCons(o, rest[..|rest| - 1], k);
    }
  }

  /** After any sequence of constructions each id maps to the channel most
      recently constructed with it, and an id no construction used keeps its
      earlier entry, or stays absent. */
  lemma {:induction false} RegistryAfterOpens<V>(m: map<ChannelId, V>, opens: seq<(ChannelId, V)>, k: ChannelId)
    ensures Get(RegisterAll(m, opens), k) == if LastOpen(opens, k).Some? then LastOpen(opens, k) else Get(m, k)
    decreases |opens|
  {
    if opens != [] {
      assert opens == [opens[0]] + opens[1..];
      LastOpenCons(opens[0], opens[1..], k);
      RegistryAfterOpens(m[opens[0].0 := opens[0].1], opens[1..], k);
    }
  }
}
