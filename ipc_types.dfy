/** Values exchanged by the host side of the Electron IPC bridge.
    Electron's objects (events, windows) and the WHATWG URL parser are not
    modelled; what the bridge reads from them is given as plain fields. */
module IpcTypes {

  datatype Option<T> = None | Some(value: T)

  /** Pass, or fail with an error value (a thrown exception). */
  datatype Outcome<E> = Pass | Fail(error: E)

  /** The parts of a parsed URL the bridge looks at: `url.origin`,
      `url.protocol` (scheme with its trailing colon) and `url.toString()`. */
  datatype Url = Url(origin: string, protocol: string, href: string)

  /** A URL string as `new URL(text)` sees it: it either parses or throws. */
  datatype UrlText = Parsed(url: Url) | Unparsable(text: string)

  /** The request context Electron passes to a handler; only the URL of the
      frame that sent the request is used by the bridge. */
  datatype Event = Event(senderFrameUrl: UrlText)

  /** A renderer window, identified by an opaque number. */
  datatype Window = Window(id: nat)

  /** What `validateIpcSender` can throw: a `TypeError` from `new URL` on a
      string that does not parse, or its own `Error` for an untrusted sender. */
  datatype ValidationError = InvalidUrl(input: string) | ForbiddenSender(message: string)

  /** Anything the error-containment wrapper catches and logs. */
  datatype Thrown<E> = Validation(cause: ValidationError) | ListenerError(error: E)

  /** What a user listener does synchronously: return a value (which may be a
      promise; it is opaque here) or throw. */
  datatype Reaction<V, E> = Returned(value: V) | Threw(error: E)

  /** A user-supplied listener for one request channel. */
  type Listener<!V, E> = (Event, seq<V>) -> Reaction<V, E>

  /** What the wrapped handler hands back to the transport: the listener's
      value, or `undefined` when the wrapper caught something. */
  datatype Response<V> = Value(value: V) | Undefined

  /** A handler as registered with the transport: the `errorHandledListener`
      closure around one user listener. */
  datatype Handler<!V, E> = ErrorHandledListener(listener: Listener<V, E>)

  /** One call of a user listener, as the wrapper makes it. */
  datatype Call<V> = Call(event: Event, args: seq<V>)

  /** One `webContents.send(channel, ...args)` to a window. */
  datatype Sent<V> = Sent(win: Window, channel: string, args: seq<V>)
}
