/**
 * Scenarios derived from the target's own code rather than from its test
 * class: the null-event rejection, the newline normalisation, a write after
 * closing and a null URL, on the test fixture's configured target.
 */
module SumoLogicTargetScenarios {
  import opened Wrappers
  import opened SumoLogicSender
  import opened SumoLogicNLog
  import opened SumoLogicTargetTest

  /** Write's null check: a null event is rejected and nothing is sent. */
  method NullEventRejected() returns (outcome: WriteOutcome, received: seq<Request>)
    ensures outcome == Rejected(ArgumentNull("logEvent")) && received == []
  {
    var t := NewTestTarget();
    outcome := t.Write(None);
    received := t.sender.requests;
  }

  /** Write's newline normalisation: a body without a trailing newline gets one appended. */
  method UnterminatedBodyGetsNewLine() returns (received: seq<Request>)
    ensures |received| == 1 && received[0].body == "plain text\n"
  {
    var t := NewTestTarget();
    t.layout := Some("plain text");
    var outcome := t.Write(Some(Event("INFO", "ignored")));
    received := t.sender.requests;
  }

  /** CloseTarget forgets the sender: a later write drops its entry and sends nothing more. */
  method WriteAfterCloseDropped() returns (outcome: WriteOutcome, received: seq<Request>)
    ensures outcome == Dropped
    ensures |received| == 1 && received[0].body == Line("INFO", "before close")
  {
    var t := NewTestTarget();
    var sender := t.sender;
    Log(t, "INFO", "before close");
    t.CloseTarget();
    outcome := t.Write(Some(Event("INFO", "after close")));
    received := sender.requests;
  }

  /** The URL setter and InitializeTarget: a null URL is stored as empty, the sender gets no URL, and writes are dropped. */
  method NullUrlDisablesSending() returns (url: Result<string, Error>, senderUrl: Option<Uri>, outcome: WriteOutcome)
    ensures url == Success("") && senderUrl == None && outcome == Dropped
  {
    var t := new SumoLogicTarget(UnixNewLine, TestRender);
    t.SetUrl(None);
    url := t.Url();
    t.InitializeTarget();
    senderUrl := t.sender.url;
    outcome := t.Write(Some(Event("INFO", "dropped")));
  }

  /**
   * Write's newline test on a Windows platform: a body shorter than the newline
   * gets one appended even when it ends in '\n', and a body as long as the
   * newline that ends in '\n' is kept, since only the last character is compared.
   */
  lemma WindowsNewLineLastCharacter()
    ensures Terminate("\n", WindowsNewLine) == "\n\r\n"
    ensures Terminate("x\n", WindowsNewLine) == "x\n"
  {
  }
}
