/** The WhatsApp tool (first_tests/whatsapp_tool.py): a dispatcher on the method name
    that sends one message through the messaging library and reports what it did.
    The library call itself is foreign: it is the parameter `deliver`, which answers
    `None` when the message went out and `Some(text)` with the text of the exception
    it raised otherwise. */
module WhatsApp {
  import opened Wrappers

  const SendToBrother: string := "send_msg_to_brother"
  const SendToNumber: string := "send_msg_to_number"

  const ErrorTag: string := "Error"
  const MissingNumberError: string :=
    ErrorTag + ": phone_number is required for method='send_msg_to_number'."
  const UnknownMethodError: string :=
    ErrorTag + ": Unknown method. Use 'send_msg_to_brother' or 'send_msg_to_number'."
  const SendErrorPrefix: string := ErrorTag + " while sending WhatsApp message: "
  const BrotherConfirmation: string := "Message envoyé au Frère: "
  const NumberConfirmation: string := "Message envoyé au numéro "

  /** One call to the messaging library: the recipient (the brother's number comes from
      the environment and may be unset) and the text. */
  datatype Send = Send(to: Option<string>, content: string)

  /** What one call of the tool did: the string it returned and the sends it attempted. */
  datatype Outcome = Outcome(reply: string, sends: seq<Send>)

  /** Sends `content` to the configured brother number; `Err` carries the text of the
      exception the library raised. */
  function SendMsgToBrother(brother: Option<string>, content: string,
                            deliver: Send -> Option<string>): (r: Result<string, string>)
    ensures r.Ok? <==> deliver(Send(brother, content)).None?
    ensures r.Ok? ==> r.value == BrotherConfirmation + content
  {
    match deliver(Send(brother, content))
    case None => Ok(BrotherConfirmation + content)
    case Some(e) => Err(e)
  }

  /** Sends `content` to `phoneNumber`; `Err` carries the text of the exception. */
  function SendMsgToNumber(phoneNumber: string, content: string,
                           deliver: Send -> Option<string>): (r: Result<string, string>)
    ensures r.Ok? <==> deliver(Send(Some(phoneNumber), content)).None?
    ensures r.Ok? ==> r.value == NumberConfirmation + phoneNumber + ": " + content
  {
    match deliver(Send(Some(phoneNumber), content))
    case None => Ok(NumberConfirmation + phoneNumber + ": " + content)
    case Some(e) => Err(e)
  }

  /** The tool's synchronous entry point: dispatch on `method`; an exception raised while
      sending becomes an error string and never escapes. */
  function Run(methodName: string, content: string, phoneNumber: Option<string>,
               brother: Option<string>, deliver: Send -> Option<string>): (o: Outcome)
    ensures methodName == SendToBrother ==> o.sends == [Send(brother, content)]
    ensures methodName == SendToNumber && !Truthy(phoneNumber) ==>
              o == Outcome(MissingNumberError, [])
    ensures methodName == SendToNumber && Truthy(phoneNumber) ==>
              o.sends == [Send(phoneNumber, content)]
    ensures methodName != SendToBrother && methodName != SendToNumber ==>
              o == Outcome(UnknownMethodError, [])
    ensures methodName == SendToBrother && deliver(Send(brother, content)).None? ==>
              o.reply == BrotherConfirmation + content
    ensures methodName == SendToNumber && Truthy(phoneNumber) && deliver(Send(phoneNumber, content)).None? ==>
              o.reply == NumberConfirmation + phoneNumber.value + ": " + content
    ensures |o.sends| == 1 && deliver(o.sends[0]).Some? ==>
              o.reply == SendErrorPrefix + deliver(o.sends[0]).value
  {
    if methodName == SendToBrother then
      Report(SendMsgToBrother(brother, content, deliver), Send(brother, content))
    else if methodName == SendToNumber then
      if !Truthy(phoneNumber) then Outcome(MissingNumberError, [])
      else Report(SendMsgToNumber(phoneNumber.value, content, deliver), Send(phoneNumber, content))
    else
      Outcome(UnknownMethodError, [])
  }

  /** The `except` clause of the entry point: a raised exception becomes an error string. */
  function Report(sent: Result<string, string>, s: Send): (o: Outcome)
    ensures o.sends == [s]
    ensures sent.Ok? ==> o.reply == sent.value
    ensures sent.Err? ==> o.reply == SendErrorPrefix + sent.error
  {
    match sent
    case Ok(text) => Outcome(text, [s])
    case Err(e) => Outcome(SendErrorPrefix + e, [s])
  }

  /** The asynchronous entry point reuses the synchronous one. */
  function Arun(methodName: string, content: string, phoneNumber: Option<string>,
                brother: Option<string>, deliver: Send -> Option<string>): (o: Outcome)
    ensures o == Run(methodName, content, phoneNumber, brother, deliver)
  {
    Run(methodName, content, phoneNumber, brother, deliver)
  }

  /** `s` begins with `prefix`. */
  predicate StartsWith(s: string, prefix: string)
  {
    |prefix| <= |s| && s[..|prefix|] == prefix
  }

  /** A confirmation is returned exactly when one message was handed to the library and
      the library did not raise; every other outcome is one of the error strings. */
  lemma ConfirmationIffDelivered(methodName: string, content: string, phoneNumber: Option<string>,
                                 brother: Option<string>, deliver: Send -> Option<string>)
    ensures var o := Run(methodName, content, phoneNumber, brother, deliver);
            && (StartsWith(o.reply, "Message envoyé au ") <==>
                  (|o.sends| == 1 && deliver(o.sends[0]).None?))
            && (!(|o.sends| == 1 && deliver(o.sends[0]).None?) ==> StartsWith(o.reply, ErrorTag))
  {
    var o := Run(methodName, content, phoneNumber, brother, deliver);
    if |o.sends| == 1 && deliver(o.sends[0]).None? {
      if methodName == SendToBrother {
        assert o.reply == BrotherConfirmation + content;
        assert o.reply[..18] == BrotherConfirmation[..18];
      } else {
        assert o.reply == NumberConfirmation + phoneNumber.value + ": " + content;
        assert o.reply[..18] == NumberConfirmation[..18];
      }
    } else {
      var n := |ErrorTag|;
      if o.reply != MissingNumberError && o.reply != UnknownMethodError {
        assert o.reply == SendErrorPrefix + deliver(o.sends[0]).value;
        assert o.reply[..n] == SendErrorPrefix[..n] == ErrorTag;
      } else if o.reply == MissingNumberError {
        assert o.reply[..n] == ErrorTag;
      } else {
        assert o.reply[..n] == ErrorTag;
      }
      assert o.reply[0] == 'E';
    }
  }

  /** The message text reaches the library unchanged: every attempted send carries `content`. */
  lemma SendsCarryContent(methodName: string, content: string, phoneNumber: Option<string>,
                          brother: Option<string>, deliver: Send -> Option<string>)
    ensures forall s :: s in Run(methodName, content, phoneNumber, brother, deliver).sends ==>
              s.content == content && s.to.Some? == (methodName == SendToNumber || brother.Some?)
  {
  }
}
