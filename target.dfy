/**
 * The NLog target (SumoLogicTarget): configuration properties held as layout
 * templates, initialisation of the message sender, the per-event Write and
 * the closing of the target.
 *
 * NLog's layout engine is not modelled: a target is given a rendering
 * function `render(template, event)` that may return `None` (a C# null), and
 * the platform's `Environment.NewLine` as a non-empty string.
 */
module SumoLogicNLog {
  import opened Wrappers
  import opened SumoLogicSender

  /** The platform line terminator (`Environment.NewLine`), never empty. */
  type NewLine = s: string | |s| > 0 witness "\n"

  const UnixNewLine: NewLine := "\n"
  const WindowsNewLine: NewLine := "\r\n"

  /** The parts of an NLog event that layouts read. */
  datatype LogEventInfo = LogEventInfo(level: string, loggerName: string, message: string)

  /** `LogEventInfo.CreateNullEvent()`: the event the URL layout is rendered against. */
  const NullEvent: LogEventInfo := LogEventInfo("Off", "", "")

  /** The exceptions the target throws. */
  datatype Error = ArgumentNull(paramName: string) | NullReference

  /** What one Write did: threw, dropped the entry with a warning, or made one send attempt. */
  datatype WriteOutcome = Rejected(error: Error) | Dropped | Attempted(request: Request)

  const DefaultSourceName := "Nlog-SumoObject"
  const DefaultConnectionTimeout := 60000
  const DefaultLayout := "${longdate}|${level:uppercase=true}|${logger}|${message}${exception:format=tostring}${newline}"
  const SenderClientName := "sumo-nlog-sender"

  /** A possibly null string with null read as empty (`s ?? string.Empty`). */
  function OrEmpty(s: Option<string>): (r: string)
    ensures s.Some? ==> r == s.value
    ensures s.None? ==> r == ""
  {
    s.GetOr("")
  }

  /** The body already ends as Write wants: long enough and ending in the newline's last character. */
  predicate IsTerminated(body: string, newLine: NewLine)
  {
    |body| >= |newLine| && body[|body| - 1] == newLine[|newLine| - 1]
  }

  /** Write's newline normalisation of the rendered body. */
  function Terminate(body: string, newLine: NewLine): (r: string)
    ensures IsTerminated(r, newLine)
    ensures r == body <==> IsTerminated(body, newLine)
    ensures r != body ==> r == body + newLine
  {
    if |body| < |newLine| || body[|body| - 1] != newLine[|newLine| - 1] then body + newLine else body
  }

  /** Normalising twice is normalising once. */
  lemma TerminateIdempotent(body: string, newLine: NewLine)
    ensures Terminate(Terminate(body, newLine), newLine) == Terminate(body, newLine)
  {
  }

  /** The sent body never loses text: it starts with the rendered body and adds at most one newline. */
  lemma TerminateExtends(body: string, newLine: NewLine)
    ensures body <= Terminate(body, newLine)
    ensures |Terminate(body, newLine)| <= |body| + |newLine|
  {
  }

  /** A null rendered body is sent as the newline alone. */
  lemma NullBodyIsNewLine(newLine: NewLine)
    ensures Terminate(OrEmpty(None), newLine) == newLine
  {
  }

  /** InitializeTarget's mapping of the rendered URL to the sender's optional Uri. */
  function SenderUrl(rendered: Option<string>): (u: Option<Uri>)
    ensures u.None? <==> OrEmpty(rendered) == ""
    ensures u.Some? ==> rendered == Some(u.value.text)
  {
    var url := OrEmpty(rendered);
    if url == "" then None else Some(Uri(url))
  }

  class SumoLogicTarget {
    const newLine: NewLine
    const render: (string, LogEventInfo) -> Option<string>
    /** The layouts behind Url, SourceName, SourceCategory and SourceHost; `None` is a null layout. */
    var urlLayout: Option<string>
    var sourceLayout: Option<string>
    var categoryLayout: Option<string>
    var hostLayout: Option<string>
    /** The body layout inherited from NLog's TargetWithLayout. */
    var layout: Option<string>
    /** Connection timeout in milliseconds. */
    var connectionTimeout: int
    var sender: SumoLogicMessageSender?

    constructor (newLine: NewLine, render: (string, LogEventInfo) -> Option<string>)
      ensures this.newLine == newLine && this.render == render
      ensures sourceLayout == Some(DefaultSourceName)
      ensures urlLayout.None? && categoryLayout.None? && hostLayout.None?
      ensures layout == Some(DefaultLayout)
      ensures connectionTimeout == DefaultConnectionTimeout
      ensures sender == null
    {
      this.newLine := newLine;
      this.render := render;
      urlLayout := None;
      sourceLayout := Some(DefaultSourceName);
      categoryLayout := None;
      hostLayout := None;
      layout := Some(DefaultLayout);
      connectionTimeout := DefaultConnectionTimeout;
      sender := null;
    }

    /** The text of a layout; reading a property whose layout is null throws. */
    static function LayoutText(l: Option<string>): (r: Result<string, Error>)
      ensures l.None? <==> r == Failure(NullReference)
      ensures l.Some? ==> r == Success(l.value)
    {
      match l
      case None => Failure(NullReference)
      case Some(t) => Success(t)
    }

    function Url(): Result<string, Error> reads this { LayoutText(urlLayout) }
    function SourceName(): Result<string, Error> reads this { LayoutText(sourceLayout) }
    function SourceCategory(): Result<string, Error> reads this { LayoutText(categoryLayout) }
    function SourceHost(): Result<string, Error> reads this { LayoutText(hostLayout) }

    method SetUrl(value: Option<string>)
      modifies this`urlLayout
      ensures urlLayout == Some(OrEmpty(value))
      ensures Url() == Success(OrEmpty(value))
    {
      urlLayout := Some(OrEmpty(value));
    }

    method SetSourceName(value: Option<string>)
      modifies this`sourceLayout
      ensures sourceLayout == Some(OrEmpty(value))
      ensures SourceName() == Success(OrEmpty(value))
    {
      sourceLayout := Some(OrEmpty(value));
    }

    method SetSourceCategory(value: Option<string>)
      modifies this`categoryLayout
      ensures categoryLayout == Some(OrEmpty(value))
      ensures SourceCategory() == Success(OrEmpty(value))
    {
      categoryLayout := Some(OrEmpty(value));
    }

    method SetSourceHost(value: Option<string>)
      modifies this`hostLayout
      ensures hostLayout == Some(OrEmpty(value))
      ensures SourceHost() == Success(OrEmpty(value))
    {
      hostLayout := Some(OrEmpty(value));
    }

    /** `layout?.Render(e) ?? string.Empty`. */
    function RenderOrEmpty(l: Option<string>, e: LogEventInfo): string
    {
      match l
      case None => ""
      case Some(t) => OrEmpty(render(t, e))
    }

    /** The URL as InitializeTarget renders it; `None` when the layout or its rendering is null. */
    function RenderedUrl(): Option<string>
      reads this
    {
      match urlLayout
      case None => None
      case Some(t) => render(t, NullEvent)
    }

    /** The request a ready Write makes for event `e`. */
    function RequestFor(e: LogEventInfo): Request
      reads this
    {
      Request(Terminate(RenderOrEmpty(layout, e), newLine),
              RenderOrEmpty(sourceLayout, e), RenderOrEmpty(categoryLayout, e), RenderOrEmpty(hostLayout, e))
    }

    /** Write takes the send path: a sender exists and it can try to send. */
    predicate Ready()
      reads this, sender
    {
      sender != null && sender.CanTrySend()
    }

    /** Creates the sender on first use, then sets its timeout and its URL anew. */
    method InitializeTarget()
      modifies this`sender, sender
      ensures sender != null
      ensures old(sender) != null ==> sender == old(sender) && sender.requests == old(sender.requests)
      ensures old(sender) == null ==> fresh(sender) && sender.requests == [] && sender.clientName == SenderClientName
      ensures sender.connectionTimeout == connectionTimeout
      ensures sender.url == SenderUrl(RenderedUrl())
      ensures sender.disposed == (old(sender) != null && old(sender.disposed))
      ensures Ready() <==> RenderedUrl().Some? && RenderedUrl() != Some("") && !sender.disposed
    {
      if sender == null {
        sender := new SumoLogicMessageSender(SenderClientName);
      }
      var url := RenderedUrl();
      sender.connectionTimeout := connectionTimeout;
      sender.url := SenderUrl(url);
    }

    /** Writes one event: rejects null, drops it when not ready, otherwise makes one send attempt. */
    method Write(logEvent: Option<LogEventInfo>) returns (outcome: WriteOutcome)
      modifies sender
      ensures logEvent.None? ==> outcome == Rejected(ArgumentNull("logEvent"))
      ensures logEvent.Some? && !old(Ready()) ==> outcome == Dropped
      ensures logEvent.Some? && old(Ready()) ==> outcome == Attempted(RequestFor(logEvent.value))
      ensures sender != null ==> sender.requests == old(sender.requests) + (if outcome.Attempted? then [outcome.request] else [])
      ensures sender != null ==> sender.url == old(sender.url) && sender.disposed == old(sender.disposed)
      ensures sender != null ==> sender.connectionTimeout == old(sender.connectionTimeout)
    {
      if logEvent.None? {
        return Rejected(ArgumentNull("logEvent"));
      }
      if sender == null || !sender.CanTrySend() {
        return Dropped;
      }
      var e := logEvent.value;
      var sourceName := RenderOrEmpty(sourceLayout, e);
      var sourceCategory := RenderOrEmpty(categoryLayout, e);
      var sourceHost := RenderOrEmpty(hostLayout, e);
      var body := RenderOrEmpty(layout, e);
      if |body| < |newLine| || body[|body| - 1] != newLine[|newLine| - 1] {
        body := body + newLine;
      }
      sender.TrySend(body, sourceName, sourceCategory, sourceHost);
      outcome := Attempted(Request(body, sourceName, sourceCategory, sourceHost));
    }

    /** Releases the sender and forgets it, so every later Write drops its entry. */
    method CloseTarget()
      modifies this`sender, sender
      ensures sender == null && !Ready()
      ensures old(sender) != null ==> old(sender).disposed && old(sender).requests == old(sender.requests)
      ensures old(sender) != null ==> old(sender).url == old(sender.url) && old(sender).connectionTimeout == old(sender.connectionTimeout)
    {
      if sender != null {
        sender.Dispose();
        sender := null;
      }
    }

    /** Every request a ready Write makes carries a normalised body. */
    lemma RequestBodyIsTerminated(e: LogEventInfo)
      ensures IsTerminated(RequestFor(e).body, newLine)
      ensures RenderOrEmpty(layout, e) <= RequestFor(e).body
    {
      TerminateExtends(RenderOrEmpty(layout, e), newLine);
    }
  }
}
