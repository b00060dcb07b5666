# amqplib 0-8 channel core, modelled in Dafny

A model of `AbstractChannel` from amqplib's AMQP 0-8 client. It is the superclass of the
Connection, which acts as channel 0, and of every user channel. The model covers four things:

- **Registration**: constructing a channel enters it in the connection's `channels` table under
  its id. An earlier entry for that id is replaced. The channel starts with an empty
  `method_queue` and with auto-decoding off.
- **Dispatch**: the signature of a received method, a (class id, method id) pair, is looked up
  in the channel kind's `_METHOD_MAP`. An unknown signature is an error and calls nothing. A
  known handler is called once: with `(self, args)` when there is no content, and with
  `(self, args, content)` when there is. Its result is returned unchanged.
- **Wait**: the channel asks its connection for the next method on its own id. It passes the
  caller's allow-list and timeout through. If the content declares a `content_encoding` and
  auto-decoding is on, the body is decoded in place. A failed decode is swallowed and the raw
  body is kept. The received triple is then dispatched.
- **Send**: one method is written through the connection's method writer, tagged with the
  channel's own id. An `AMQPWriter` argument is replaced by its `getvalue()` bytes.

Files:

- `wrappers.dfy`: module `Wrappers`, with `Option` and `Result`. These stand for Python's `None`
  and for raised exceptions.
- `method_dispatch.dfy`: module `MethodDispatch`. It holds method signatures, handler
  tags, the placeholder `_METHOD_MAP`, and the pure function `Dispatch` with its lemmas.
- `channels.dfy`: module `Channels`. It holds the classes `Connection`, `Content` and
  `AbstractChannel`. Registration is the constructor, `wait` is the method `Wait`, and
  `_send_method` is the method `SendMethod`. It also holds the fold `RegisterAll`, which
  describes several constructions in a row, and its lemmas.

Collaborators that are not part of this file are passed in as parameters:

- `connection._wait_method` is a `WaitMethod`. It is a function from the request (channel id,
  allow-list, timeout) to the received triple, or to the exception it raised.
- The charset decoder is a `Decoder`. It returns `None` when decoding raises.
- `AMQPWriter.getvalue()` is a function from writer to bytes.
- A handler's behaviour is a function `run` from the recorded call to its result.
- The method writer's output is the log `Connection.written`, which gets one entry per
  `write_method` call.

Python's dynamic features are made explicit:

- The truthiness of `content` (in `wait`) and `content is None` (in `_dispatch`) both become
  `Option<Content>`.
- `hasattr(content, 'content_encoding')` becomes the optional field `Content.contentEncoding`.
- The class attribute `_METHOD_MAP` of a subclass becomes the constant field
  `AbstractChannel.methodMap`, supplied at construction. It defaults to the base class's empty
  placeholder.

## Model

| member | source | states |
|---|---|---|
| `MethodDispatch.Dispatch` | amqplib/client_0_8/abstract_channel.py:50-63 | Dispatch fails with `UnknownMethod(sig)` exactly when the signature is not in the table. Otherwise it makes exactly one call, to the handler mapped to `sig`. The arguments are `[self, args]` when content is absent and `[self, args, content]` when it is present. The handler's result is returned unchanged. |
| `MethodDispatch.DispatchArity` | amqplib/client_0_8/abstract_channel.py:60-63 | A known signature always dispatches successfully. The handler gets 2 positional arguments exactly when there is no content, and 3 exactly when there is. |
| `MethodDispatch.PlaceholderRejectsAll` | amqplib/client_0_8/abstract_channel.py:101-105 | With the base class's empty placeholder `_METHOD_MAP`, every dispatch fails with the unknown-method error. |
| `MethodDispatch.DispatchLocal` | amqplib/client_0_8/abstract_channel.py:55 | Dispatch consults the table only at `sig`. Two tables that agree on `sig` give the same outcome. |
| `Channels.AbstractChannel.constructor` | amqplib/client_0_8/abstract_channel.py:42-47 | The new channel keeps the given connection and id. It starts with an empty `method_queue` and `auto_decode` false. The connection's table maps the id to the new channel, any earlier entry is replaced, and every other id's entry is unchanged. |
| `Channels.RegisterAll` | amqplib/client_0_8/abstract_channel.py:45 | Over any sequence of constructions, the table's ids are the earlier ids plus the ids constructed. |
| `Channels.RegisterAllStep` | amqplib/client_0_8/abstract_channel.py:45 | One more construction changes the table by exactly the single update the constructor makes. |
| `Channels.RegistryAfterOpens` | amqplib/client_0_8/abstract_channel.py:42-45 | After any sequence of constructions, each id maps to the channel most recently constructed with it. An id that no construction used keeps its earlier entry, or stays absent. |
| `Channels.AbstractChannel.Wait` | amqplib/client_0_8/abstract_channel.py:78-98 | The connection is asked with the channel's own id, and the allow-list and timeout are passed through unchanged. An exception from the connection propagates. Otherwise the content's body becomes `AutoDecodedBody`, and the result is exactly `Dispatch` of the received `(sig, args, content)`, the same content object included. |
| `Channels.AutoDecodedBody` | amqplib/client_0_8/abstract_channel.py:90-96 | The body changes only if auto-decoding is on, an encoding is declared and the decoder succeeds. In that case the body becomes the decoded body. A failed decode keeps the original body. |
| `Channels.AbstractChannel.SendMethod` | amqplib/client_0_8/abstract_channel.py:66-75 | Exactly one method is appended to the writer's log. It is tagged with the channel's own id and carries the signature, `WireArgs` of the arguments, and the content. The default arguments are empty and the default content is absent. Nothing else changes. |
| `Channels.WireArgs` | amqplib/client_0_8/abstract_channel.py:71-72 | An `AMQPWriter` is replaced by its `getvalue()` bytes. Any other arguments are passed through unchanged. |

## Left out

- `connection._wait_method` is not part of this model. This covers the queue scan, the FIFO of
  deferred methods and the routing of frames to other channels. `Wait` takes its reply as an
  input. `method_queue` is only initialised here, because nothing in this file reads it or
  appends to it.
- The method writer and the socket and frame I/O behind `write_method` are left out. A write is
  recorded as an entry in `Connection.written`.
- The serialization internals of `AMQPWriter` are left out. `getvalue()` is an uninterpreted
  function.
- Real charset decoding is left out. The decoder is an uninterpreted partial function: `None`
  stands for any exception it raises, all of which the source swallows with a bare `except`.
- The bodies of concrete handlers and the contents of the subclasses' `_METHOD_MAP` tables are
  left out. Handlers are tags, and a handler's result is an uninterpreted function of the call
  it receives. The model does not capture what a handler does to channel or connection state,
  or an exception it raises.
- The logging setup and the `METHOD_NAME_MAP` import are left out. Neither affects control flow.
- Subclassing is not modelled. The Connection's own `__init__`, which registers the connection
  as channel 0, is not part of this model. `Connection` keeps only the channel table and the
  writer log that this file uses. The channel-0 role is an `AbstractChannel` with id 0 and the
  connection's table.
- The error message text of the unknown-method exception is left out. The error carries the
  signature it names.
- `Content.contentEncoding` is a constant. The source never reassigns `content_encoding`.
- `Channels.AbstractChannel.Wait`: the handler's `run` is a function of the call alone. The
  handler does not observe the heap, so it does not observe the decoded body through the
  content object. The rewritten body itself is stated in the postcondition.
