/**
 * The NLog target scenarios: a target configured as the tests configure it,
 * on a platform whose newline is "\n", with a renderer for the layouts they
 * use, and the requests its sender receives.
 */
module SumoLogicTargetTest {
  import opened Wrappers
  import opened SumoLogicSender
  import opened SumoLogicNLog

  const TestUrl := "http://www.fakeadress.com"
  const TestLayout := "${level:upperCase=true}: ${message}${exception:format=tostring}${newline}"
  const MachineNameLayout := "${machinename}"
  const MachineName := "test-machine"

  /** What the test layout renders for a level and a message. */
  function Line(level: string, message: string): string
  {
    level + ": " + message + "\n"
  }

  /**
   * The layout engine for these scenarios: the test layout renders level and
   * message followed by the newline, ${machinename} renders the machine name,
   * and any other template is literal text that renders as itself.
   */
  function TestRender(template: string, e: LogEventInfo): Option<string>
  {
    if template == TestLayout then Some(Line(e.level, e.message))
    else if template == MachineNameLayout then Some(MachineName)
    else Some(template)
  }

  function Event(level: string, message: string): LogEventInfo
  {
    LogEventInfo(level, "SumoLogicTargetTest", message)
  }

  /** The target as the test fixture sets it up, after NLog has initialised it. */
  method NewTestTarget() returns (t: SumoLogicTarget)
    ensures fresh(t) && fresh(t.sender) && t.sender != null
    ensures t.newLine == UnixNewLine && t.render == TestRender
    ensures t.sender.requests == [] && t.Ready()
    ensures t.layout == Some(TestLayout) && t.sourceLayout == Some("SumoLogicTargetTest")
    ensures t.categoryLayout == Some("SumoLogicTargetSourceCategory") && t.hostLayout == Some(MachineNameLayout)
  {
    t := new SumoLogicTarget(UnixNewLine, TestRender);
    t.SetUrl(Some(TestUrl));
    t.layout := Some(TestLayout);
    t.SetSourceName(Some("SumoLogicTargetTest"));
    t.SetSourceCategory(Some("SumoLogicTargetSourceCategory"));
    t.SetSourceHost(Some(MachineNameLayout));
    t.InitializeTarget();
  }

  /** The request the configured test target makes for any event: level and message, one newline, the machine name as host. */
  lemma TestTargetRequest(t: SumoLogicTarget, e: LogEventInfo)
    requires t.newLine == UnixNewLine && t.render == TestRender
    requires t.layout == Some(TestLayout) && t.sourceLayout == Some("SumoLogicTargetTest")
    requires t.categoryLayout == Some("SumoLogicTargetSourceCategory") && t.hostLayout == Some(MachineNameLayout)
    ensures t.RequestFor(e) == Request(Line(e.level, e.message), "SumoLogicTargetTest", "SumoLogicTargetSourceCategory", MachineName)
  {
    var body := Line(e.level, e.message);
    assert t.RenderOrEmpty(t.layout, e) == body;
    assert body[|body| - 1] == '\n';
  }

  /** The line the test layout renders for the single message. */
  lemma SingleMessageLine()
    ensures Line("INFO", "This is a message") == "INFO: This is a message\n"
  {
  }

  /** One log call makes one request whose body ends in a single newline and whose host is the machine name. */
  method SingleMessageTest() returns (received: seq<Request>)
    ensures received == [Request("INFO: This is a message\n", "SumoLogicTargetTest", "SumoLogicTargetSourceCategory", MachineName)]
  {
    var t := NewTestTarget();
    TestTargetRequest(t, Event("INFO", "This is a message"));
    var outcome := t.Write(Some(Event("INFO", "This is a message")));
    SingleMessageLine();
    received := t.sender.requests;
  }

  /** The test configuration, which NewTestTarget establishes and Write keeps. */
  ghost predicate Configured(t: SumoLogicTarget)
    reads t, t.sender
  {
    t.newLine == UnixNewLine && t.render == TestRender
    && t.layout == Some(TestLayout) && t.sourceLayout == Some("SumoLogicTargetTest")
    && t.categoryLayout == Some("SumoLogicTargetSourceCategory") && t.hostLayout == Some(MachineNameLayout)
    && t.Ready()
  }

  /** One log call on the configured target appends its one request to what the sender has received. */
  method Log(t: SumoLogicTarget, level: string, message: string)
    requires Configured(t)
    modifies t.sender
    ensures Configured(t)
    ensures t.sender.requests == old(t.sender.requests) + [Request(Line(level, message), "SumoLogicTargetTest", "SumoLogicTargetSourceCategory", MachineName)]
  {
    TestTargetRequest(t, Event(level, message));
    var outcome := t.Write(Some(Event(level, message)));
  }

  /** Five log calls make five requests, in call order. */
  method CheckedRequestContentTest() returns (bodies: seq<string>)
    ensures bodies == [Line("DEBUG", "This is first message"), Line("INFO", "This is second message"),
                       Line("WARN", "This is third message"), Line("ERROR", "This is fourth message"),
                       Line("FATAL", "This is fifth message")]
  {
    var t := NewTestTarget();
    var sender := t.sender;
    Log(t, "DEBUG", "This is first message");
    Log(t, "INFO", "This is second message");
    Log(t, "WARN", "This is third message");
    Log(t, "ERROR", "This is fourth message");
    Log(t, "FATAL", "This is fifth message");
    var r := sender.requests;
    bodies := [r[0].body, r[1].body, r[2].body, r[3].body, r[4].body];
  }
}
