/**
 * Concrete scenarios of the model: the builder and the operations on fixed inputs.
 */
module Scenarios {

  import opened Php
  import opened Dispatch
  import opened Renderers
  import opened Api
  import opened VoiceBuilder

  /** Say with all three options, called directly on an option map. */
  lemma SayWithOptions()
    ensures BuildSay(VMap(map["text" := VStr("Hello"), "voice" := VStr("woman"), "playBeep" := VBool(true)]))
            == Ok("<Say voice=\"" + "woman" + "\" playBeep=\"" + "1" + "\" >" + "Hello" + "</Say>")
  {
  }

  /**
   * Say without a voice renders exactly as Say with an empty voice: the
   * default "man" is never used.
   */
  lemma SayIgnoresVoiceDefault(m: map<string, Value>)
    requires "voice" !in m
    ensures BuildSay(VMap(m)) == BuildSay(VMap(m["voice" := VStr("")]))
  {
  }

  /** Two well-formed numbers are refused, because each starts with '+'. */
  lemma DialWithPlusNumbers()
    ensures BuildDial(VMap(map["phoneNumbers" := VStr("+254700000000,+254711111111"), "record" := VBool(true)]))
            == Err(PhoneFormat)
  {
    DialRefusesLeadingPlus(VMap(map["phoneNumbers" := VStr("+254700000000,+254711111111"), "record" := VBool(true)]));
  }

  /** A number with no '+' at all is refused. */
  lemma DialWithoutPlus()
    ensures BuildDial(VMap(map["phoneNumbers" := VStr("254700000000")])) == Err(PhoneFormat)
  {
    var options := VMap(map["phoneNumbers" := VStr("254700000000")]);
    assert forall k :: 0 <= k < 12 ==> "254700000000"[k] != '+';
    DialRefusesNumbersWithoutPlus(options);
  }

  /** A call with both numbers in the right format becomes a request to "call". */
  lemma CallWithNumbers()
    ensures DoCall("sandbox", VMap(map["to" := VStr("+254700000000"), "from" := VStr("+254711111111")]))
            == Post("call", map["username" := VStr("sandbox"), "to" := VStr("+254700000000"),
                                "from" := VStr("+254711111111")])
  {
  }

  /**
   * What the renderers that need an option make of the argument list that
   * `stringBuilder` passes them: with positional arguments the option map
   * never arrives on its own, so each fails;
   * Record fails too unless it is called with no argument.
   */
  lemma ListArgumentFailures(args: seq<Value>)
    ensures Render(Say, VList(args)) == Err(TextMissing)
    ensures Render(Pay, VList(args)) == Err(PlayUrlInvalid)
    ensures Render(GetDigits, VList(args)) == Err(TextMissing)
    ensures Render(Dial, VList(args)) == Err(NumbersMissing)
    ensures Render(Dequeue, VList(args)) == Err(DequeuePhoneMissing)
    ensures args != [] ==> Render(Record, VList(args)) == Err(CallbackInvalid)
  {
  }

  /**
   * The renderers that accept the argument list: Record with no argument is
   * the terminal recording, Enqueue has no attribute, and Redirect writes
   * the list as "Array".
   */
  lemma ListArgumentMarkup(args: seq<Value>)
    ensures Render(Record, VList([])) == Ok(TerminalRecord)
    ensures Render(Enqueue, VList(args)) == Ok(Response("<Enqueue" + ">"))
    ensures Render(Redirect, VList(args)) == Ok(Response("<Redirect>" + ArrayText + "</Redirect>"))
  {
  }

  /**
   * A chained Say followed by a chained Play: Say fails on its argument list
   * and its error envelope becomes the buffer; "Play" names no method, so the
   * second call is an error that leaves the buffer alone.
   */
  method SayThenPlay() returns (built: Reply, second: string)
    ensures built == Err(TextMissing)
    ensures second == InvalidMethod("Play")
  {
    var voice := new Voice("sandbox");
    ResolveByName(Say, PlaceCall);
    assert Resolve("Say") == Builder(Say);
    var said := Render(Say, VList([VMap(map["text" := VStr("Hello")])]));
    assert said == Err(TextMissing);
    var first := voice.Call("Say", [VMap(map["text" := VStr("Hello")])]);
    assert voice.xmlString == Err(TextMissing);
    PlayIsUnresolved();
    var answer := voice.Call("Play", [VStr("http://example.com/a.mp3")]);
    assert voice.xmlString == Err(TextMissing);
    assert |Text(voice.xmlString)| > 0;
    second := answer.message;
    built := voice.Build();
  }

  /** Chained results are kept in call order, an error reading as "Array". */
  method ConferenceThenSay() returns (built: Reply)
    ensures built == Ok(ConferenceMarkup + ArrayText)
  {
    var voice := new Voice("sandbox");
    ResolveByName(Conference, PlaceCall);
    var a := voice.Call("Conference", []);
    assert voice.xmlString == Ok(ConferenceMarkup);
    ResolveByName(Say, PlaceCall);
    var args := [VMap(map["text" := VStr("Hello")])];
    ListArgumentFailures(args);
    assert !BufferEmpty(voice.xmlString);
    var c := voice.Call("Say", args);
    assert voice.xmlString == Ok(ConferenceMarkup + ArrayText);
    assert |Text(voice.xmlString)| > 0;
    built := voice.Build();
  }

  /** Nothing chained: build() gives null. */
  method NothingChained() returns (built: Reply)
    ensures built == NoValue
  {
    var voice := new Voice("sandbox");
    built := voice.Build();
  }

  /** Two build() calls in a row give the same value. */
  method BuildTwice(voice: Voice) returns (first: Reply, second: Reply)
    requires voice.Valid()
    ensures first == second
    ensures first.NoValue? <==> Joined(voice.results) == ""
  {
    first := voice.Build();
    second := voice.Build();
  }
}
