/** The trust rule applied to every incoming request (`validateIpcSender`).
    In development (a dev-server URL is configured) only the dev server's
    origin is trusted; otherwise only the packaged-app scheme `app:` is. */
module SenderValidation {
  import opened IpcTypes

  /** The scheme the packaged application is served under. */
  const AppProtocol: string := "app:"

  /** Fixed text of the error raised for an untrusted sender; the sender URL
      follows it. */
  const RejectionPrefix: string := "不正なURLからのIPCメッセージを検出しました。senderUrl: "

  predicate EndsWith(s: string, suffix: string) {
    |suffix| <= |s| && s[|s| - |suffix|..] == suffix
  }

  /** The message of the error raised for the rejected sender `sender`. */
  function RejectionMessage(sender: Url): (m: string)
    ensures |m| == |RejectionPrefix| + |sender.href|
    ensures m[..|RejectionPrefix|] == RejectionPrefix
    ensures EndsWith(m, sender.href)
  {
    RejectionPrefix + sender.href
  }

  /** The trust decision alone, on URLs that parsed: the dev-server origin
      when one is configured, the `app:` scheme otherwise. */
  predicate Trusted(sender: Url, devServer: Option<Url>) {
    match devServer
    case Some(dev) => sender.origin == dev.origin
    case None => sender.protocol == AppProtocol
  }

  /** `validateIpcSender(event)`, with `process.env.VITE_DEV_SERVER_URL`
      passed in as `devServerUrl` (`None` when the variable is unset).
      A throw is a `Fail`; returning normally is `Pass`. */
  function ValidateIpcSender(event: Event, devServerUrl: Option<UrlText>): (r: Outcome<ValidationError>)
    // Only a parsed sender, in a mode whose dev-server URL (if any) parsed, can pass.
    ensures r.Pass? ==> event.senderFrameUrl.Parsed? && (devServerUrl.None? || devServerUrl.value.Parsed?)
    // The sender URL is parsed first, whatever the mode.
    ensures event.senderFrameUrl.Unparsable? ==> r == Fail(InvalidUrl(event.senderFrameUrl.text))
    // A configured dev-server URL that does not parse rejects every parsable sender.
    ensures event.senderFrameUrl.Parsed? && devServerUrl.Some? && devServerUrl.value.Unparsable? ==>
              r == Fail(InvalidUrl(devServerUrl.value.text))
    // Development mode: accepted exactly when the origins are equal; the scheme plays no part.
    ensures event.senderFrameUrl.Parsed? && devServerUrl.Some? && devServerUrl.value.Parsed? ==>
              (r.Pass? <==> event.senderFrameUrl.url.origin == devServerUrl.value.url.origin)
    // Production mode: accepted exactly when the scheme is `app:`.
    ensures event.senderFrameUrl.Parsed? && devServerUrl.None? ==>
              (r.Pass? <==> event.senderFrameUrl.url.protocol == AppProtocol)
    // A trust-rule rejection (both URLs parsed) is the untrusted-sender error
    // whose message names the sender's URL.
    ensures event.senderFrameUrl.Parsed? && (devServerUrl.None? || devServerUrl.value.Parsed?) && r.Fail? ==>
              r == Fail(ForbiddenSender(RejectionMessage(event.senderFrameUrl.url)))
    // Every untrusted-sender error names the sender's URL.
    ensures r.Fail? && r.error.ForbiddenSender? ==>
              event.senderFrameUrl.Parsed? && EndsWith(r.error.message, event.senderFrameUrl.url.href)
  {
    match event.senderFrameUrl
    case Unparsable(text) => Fail(InvalidUrl(text))
    case Parsed(sender) =>
      match devServerUrl
      case Some(Unparsable(text)) => Fail(InvalidUrl(text))
      case Some(Parsed(dev)) => RejectUnless(Trusted(sender, Some(dev)), sender)
      case None => RejectUnless(Trusted(sender, None), sender)
  }

  /** The final step of `validateIpcSender`: throw unless the sender was found valid. */
  function RejectUnless(isValid: bool, sender: Url): (r: Outcome<ValidationError>)
    ensures r.Pass? <==> isValid
    ensures r.Fail? ==> r == Fail(ForbiddenSender(RejectionMessage(sender)))
    ensures r.Fail? ==> EndsWith(r.error.message, sender.href)
  {
    if isValid then Pass else Fail(ForbiddenSender(RejectionMessage(sender)))
  }

  /** The worked examples of the trust rule: a dev server at
      `http://localhost:5173` trusts its own origin and not another port or
      the app scheme; without a dev server `app:` is trusted and `https:` is not. */
  lemma TrustRuleExamples()
    ensures var dev := Some(Parsed(Url("http://localhost:5173", "http:", "http://localhost:5173/")));
            && ValidateIpcSender(Event(Parsed(Url("http://localhost:5173", "http:", "http://localhost:5173/"))), dev).Pass?
            && ValidateIpcSender(Event(Parsed(Url("http://localhost:9999", "http:", "http://localhost:9999/"))), dev).Fail?
            && ValidateIpcSender(Event(Parsed(Url("null", "app:", "app://./index.html"))), dev).Fail?
    ensures ValidateIpcSender(Event(Parsed(Url("null", "app:", "app://./index.html"))), None).Pass?
    ensures ValidateIpcSender(Event(Parsed(Url("https://example.com", "https:", "https://example.com/"))), None)
            == Fail(ForbiddenSender(RejectionPrefix + "https://example.com/"))
  {
  }
}
