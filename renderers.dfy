/**
 * The per-action renderers of the Voice class (`buildSay` ... `buildReject`)
 * and its URL check. Each takes the PHP value it was called with and returns
 * one XML fragment, the base class's error envelope, or (one renderer only)
 * nothing at all. Where the source does something other than what it
 * evidently means, the model does what the source does and a comment says so.
 */
module Renderers {

  import opened Php
  import opened Dispatch

  /**
   * What a renderer returns: markup, the error envelope built by the base
   * class's `error()`, or PHP null.
   */
  datatype Reply = Ok(xml: string) | Err(message: string) | NoValue

  /**
   * A reply converted to a string by PHP's `.`: the error envelope is an
   * array, so it reads "Array"; null reads as the empty string.
   */
  function Text(r: Reply): string {
    match r
    case Ok(s) => s
    case Err(_) => ArrayText
    case NoValue => ""
  }

  /** A reply that is either not markup or markup starting with a tag. */
  predicate IsFragment(r: Reply) {
    r.Ok? ==> |r.xml| > 0 && r.xml[0] == '<'
  }

  const TextMissing := "Please set text to be read out"
  const PlayUrlInvalid := "Play URL is not valid"
  const NumberNeeded := "Please set a number value for the timeout"
  const CallbackInvalid := "Please set a valid callback URL"
  const NumbersMissing := "Please specifiy at least one number to dial"
  const PhoneFormat := "Phone number must be in the format '+2XXYYYYYYYYY'"
  const RingBackInvalid := "Ringbacktone not a valid URL"
  const MaxDurationInvalid := "Max duration must be an integer value"
  const HoldMusicInvalid := "Please set a valid URL value for holdMusic"
  const DequeuePhoneMissing := "Please enter a valid phone number"

  const TerminalRecord := "<Response><Record /></Response>"
  const ConferenceMarkup := "<Response><Conference /></Response>"
  const RejectMarkup := "<Response><Reject /></Response>"

  /**
   * `isValidURL`: empty values are refused before the URL filter runs.
   * Only a string with URL syntax passes.
   */
  function IsValidUrl(v: Value): (ok: bool)
    ensures ok <==> v.VStr? && UrlSyntax(v.s)
  {
    if IsEmpty(v) then false
    else
      assert v.VInt? ==> !UrlSyntax(ToStr(v)) by {
        if v.VInt? {
          var t := ToStr(v);
          assert IsDigit(t[0]) || t[0] == '-';
          assert LeadingLetters(t) == 0;
        }
      }
      FilterValidateUrl(v)
  }

  /** The attribute ` name="text"`. */
  function QuotedAttr(name: string, text: string): string {
    " " + name + "=\"" + text + "\""
  }

  /** The attribute for an option value when the value is not empty, else nothing. */
  function Attr(name: string, v: Value): (a: string)
    ensures a == "" <==> IsEmpty(v)
  {
    if IsEmpty(v) then "" else QuotedAttr(name, ToStr(v))
  }

  /** The attribute for an option whenever it is present, even when empty. */
  function SetAttr(options: Value, key: string): (a: string)
    ensures a == "" <==> !IsSet(options, key)
  {
    if IsSet(options, key) then QuotedAttr(key, ToStr(Get(options, key))) else ""
  }

  /** A run of optional attributes, in the order given. */
  function Attrs(pairs: seq<(string, Value)>): string {
    if pairs == [] then "" else Attr(pairs[0].0, pairs[0].1) + Attrs(pairs[1..])
  }

  /** Attributes are rendered in order: a run splits where its list splits. */
  lemma {:induction false} AttrsAppend(xs: seq<(string, Value)>, ys: seq<(string, Value)>)
    ensures Attrs(xs + ys) == Attrs(xs) + Attrs(ys)
    decreases |xs|
  {
    if xs != [] {
      assert (xs + ys)[0] == xs[0];
      assert (xs + ys)[1..] == xs[1..] + ys;
      AttrsAppend(xs[1..], ys);
    } else {
      assert xs + ys == ys;
    }
  }

  /** A run of attributes is empty exactly when every value in it is empty. */
  lemma {:induction false} AttrsEmpty(xs: seq<(string, Value)>)
    ensures Attrs(xs) == "" <==> forall k :: 0 <= k < |xs| ==> IsEmpty(xs[k].1)
    decreases |xs|
  {
    if xs != [] {
      AttrsEmpty(xs[1..]);
      assert forall k :: 1 <= k < |xs| ==> xs[k] == xs[1..][k - 1];
    }
  }

  /** An empty option leaves no trace: dropping it from the run changes nothing. */
  lemma AttrsSkipEmpty(xs: seq<(string, Value)>, k: nat)
    requires k < |xs| && IsEmpty(xs[k].1)
    ensures Attrs(xs) == Attrs(xs[..k] + xs[k + 1..])
  {
    var front, back := xs[..k], xs[k + 1..];
    assert xs == front + ([xs[k]] + back);
    AttrsAppend(front, [xs[k]] + back);
    assert ([xs[k]] + back)[1..] == back;
    assert Attrs([xs[k]] + back) == Attrs(back);
    AttrsAppend(front, back);
  }

  /** The Response element around one action's markup. */
  function Response(inner: string): (s: string)
    ensures |s| > 0 && s[0] == '<'
  {
    "<Response>" + inner + "</Response>"
  }

  /** `buildSay`: `text` is required. */
  function BuildSay(options: Value): (r: Reply)
    ensures r.Err? <==> !IsSet(options, "text")
    ensures r.Err? ==> r.message == TextMissing
    ensures r.Ok? ==>
      r.xml == "<Say voice=\"" + ToStr(Get(options, "voice")) + "\" playBeep=\""
               + ToStr(Get(options, "playBeep")) + "\" >" + ToStr(Get(options, "text")) + "</Say>"
  {
    if !IsSet(options, "text") then Err(TextMissing)
    else
      var text := Get(options, "text");
      // The defaults "man" and false are assigned and then overwritten by
      // the raw options, so an absent voice or playBeep renders as "".
      var voice := Get(options, "voice");
      var playBeep := Get(options, "playBeep");
      Ok("<Say voice=\"" + ToStr(voice) + "\" playBeep=\"" + ToStr(playBeep) + "\" >" + ToStr(text) + "</Say>")
  }

  /** The play renderer, declared as `buildPay`: the URL must be valid. */
  function BuildPay(url: Value): (r: Reply)
    ensures r.Ok? <==> url.VStr? && UrlSyntax(url.s)
    ensures r.Err? ==> r.message == PlayUrlInvalid
    ensures r.Ok? ==> r.xml == "<Play url=\"" + url.s + "\" />"
  {
    if !IsValidUrl(url) then Err(PlayUrlInvalid)
    else Ok("<Play url=\"" + ToStr(url) + "\" />")
  }

  /** The option is present and is not numeric. */
  predicate NotNumeric(options: Value, key: string) {
    IsSet(options, key) && !IsNumeric(Get(options, key))
  }

  /** The optional attributes of GetDigits, in the order they are written. */
  function GetDigitsAttrs(options: Value): seq<(string, Value)> {
    [("finishOnKey", Get(options, "finishOnKey")), ("timeout", Get(options, "timeout")),
     ("numDigits", Get(options, "numDigits")), ("callBackUrl", Get(options, "callBackUrl"))]
  }

  /** The children of GetDigits: a Say rendered from `text`, then the Play call's result. */
  function GetDigitsChildren(text: Value, url: Value): string {
    // The Say child is rendered from the text value itself, which is not an
    // option map; the Play child calls `buildPlay`, which does not exist, so
    // it reaches `__call` under the name "buildPlay" and gets the
    // invalid-method envelope for that name.
    (if IsEmpty(text) then "" else Text(BuildSay(text)))
    + (if IsEmpty(url) then "" else Text(Err(InvalidMethod("buildPlay"))))
  }

  /**
   * `buildGetDigits`: `text` is required; `numDigits` and `timeout` must be
   * numeric when present; `callBackUrl` must always be a valid URL.
   */
  function BuildGetDigits(options: Value): (r: Reply)
    ensures !IsSet(options, "text") ==> r == Err(TextMissing)
    ensures IsSet(options, "text") && (NotNumeric(options, "numDigits") || NotNumeric(options, "timeout")) ==>
              r == Err(NumberNeeded)
    ensures (IsSet(options, "text") && !NotNumeric(options, "numDigits") && !NotNumeric(options, "timeout")
             && !IsValidUrl(Get(options, "callBackUrl"))) ==>
              r == Err(CallbackInvalid)
    ensures r.Ok? <==>
              (IsSet(options, "text") && !NotNumeric(options, "numDigits")
               && !NotNumeric(options, "timeout") && IsValidUrl(Get(options, "callBackUrl")))
    ensures r.Ok? ==>
              r.xml == "<GetDigits " + Attrs(GetDigitsAttrs(options)) + ">"
                       + GetDigitsChildren(Get(options, "text"), Get(options, "url")) + "</GetDigits>"
  {
    if !IsSet(options, "text") then Err(TextMissing)
    else
      var text := Get(options, "text");
      var url := Get(options, "url");
      // Both numeric checks report the timeout message.
      if IsSet(options, "numDigits") && !IsNumeric(Get(options, "numDigits")) then Err(NumberNeeded)
      else if IsSet(options, "timeout") && !IsNumeric(Get(options, "timeout")) then Err(NumberNeeded)
      else if !IsValidUrl(Get(options, "callBackUrl")) then Err(CallbackInvalid)
      else
        // The opening tag keeps the space after its name, so the first
        // attribute follows two spaces.
        var open := "<GetDigits " + Attrs(GetDigitsAttrs(options)) + ">";
        Ok(open + GetDigitsChildren(text, url) + "</GetDigits>")
  }

  /**
   * `buildDial`'s test of one dialled entry (the body of its `foreach`):
   * the entry is refused when it has no '+' or when its '+' is at the front.
   */
  predicate DialEntryAccepted(num: string) {
    var p := Strpos(num, '+');
    !(p.None? || p.value == 0)
  }

  predicate AllEntriesAccepted(numbers: seq<string>) {
    forall k :: 0 <= k < |numbers| ==> DialEntryAccepted(numbers[k])
  }

  /**
   * The `foreach` of `buildDial` over the split numbers: it stops at the first
   * refused entry, and reports whether every entry was accepted.
   */
  method CheckDialEntries(numbers: seq<string>) returns (ok: bool)
    ensures ok <==> AllEntriesAccepted(numbers)
  {
    var i := 0;
    while i < |numbers|
      invariant 0 <= i <= |numbers|
      invariant forall k :: 0 <= k < i ==> DialEntryAccepted(numbers[k])
    {
      var p := Strpos(numbers[i], '+');
      if p.None? || p.value == 0 {
        return false;
      }
      i := i + 1;
    }
    return true;
  }

  /** The entries of `phoneNumbers`: its string form split on ','. */
  function DialEntries(options: Value): seq<string> {
    Explode(ToStr(Get(options, "phoneNumbers")), ',')
  }

  /** A Boolean option: its value when present and Boolean, else false. */
  function BoolOption(options: Value, key: string): (v: Value)
    ensures v.VBool?
    ensures v.b <==> Get(options, key) == VBool(true)
  {
    if !IsSet(options, key) || !Get(options, key).VBool? then VBool(false) else Get(options, key)
  }

  /** `maxDuration` is present and is not a non-negative integer. */
  predicate BadMaxDuration(options: Value) {
    IsSet(options, "maxDuration")
    && (!Get(options, "maxDuration").VInt? || Get(options, "maxDuration").i < 0)
  }

  /**
   * The optional attributes of Dial, in the order they are written. The
   * callerId guard tests the unassigned `$callerId` and then assigns the
   * misspelt `$calledId`, so the callerId value is always null.
   */
  function DialAttrs(options: Value): seq<(string, Value)> {
    [("record", BoolOption(options, "record")), ("sequential", BoolOption(options, "sequential")),
     ("callerId", VNull), ("ringBackTone", Get(options, "ringBackTone")),
     ("maxDuration", Get(options, "maxDuration"))]
  }

  /**
   * `buildDial`: `phoneNumbers` is required and is split on ','; every entry
   * must pass DialEntryAccepted; the ring-back check fails whenever
   * `ringBackTone` is absent; `maxDuration` must be a non-negative integer
   * when present. The markup is wrapped in a Response element.
   */
  function BuildDial(options: Value): (r: Reply)
    ensures !IsSet(options, "phoneNumbers") ==> r == Err(NumbersMissing)
    ensures IsSet(options, "phoneNumbers") && !AllEntriesAccepted(DialEntries(options)) ==>
              r == Err(PhoneFormat)
    ensures (IsSet(options, "phoneNumbers") && AllEntriesAccepted(DialEntries(options))
             && !IsSet(options, "ringBackTone")) ==>
              r == Err(RingBackInvalid)
    ensures (IsSet(options, "phoneNumbers") && AllEntriesAccepted(DialEntries(options))
             && IsSet(options, "ringBackTone") && BadMaxDuration(options)) ==>
              r == Err(MaxDurationInvalid)
    ensures r.Ok? <==>
              (IsSet(options, "phoneNumbers") && AllEntriesAccepted(DialEntries(options))
               && IsSet(options, "ringBackTone") && !BadMaxDuration(options))
    ensures r.Ok? ==>
              r.xml == Response("<Dial phoneNumbers=\"" + ToStr(Get(options, "phoneNumbers")) + "\""
                                + Attrs(DialAttrs(options)) + ">")
  {
    if !IsSet(options, "phoneNumbers") then Err(NumbersMissing)
    else
      var phoneNumbers := Get(options, "phoneNumbers");
      var numbers := Explode(ToStr(phoneNumbers), ',');
      // The format test is inverted: an entry starting with '+' is refused.
      if !AllEntriesAccepted(numbers) then Err(PhoneFormat)
      // The ring-back test runs only when the option is absent, on a variable
      // that is not yet assigned (null), so it always fails there.
      else if !IsSet(options, "ringBackTone") && !IsValidUrl(VNull) then Err(RingBackInvalid)
      else if BadMaxDuration(options) then Err(MaxDurationInvalid)
      else
        // No closing Dial tag is written.
        var dial := "<Dial phoneNumbers=\"" + ToStr(phoneNumbers) + "\"" + Attrs(DialAttrs(options)) + ">";
        Ok(Response(dial))
  }

  /**
   * The inverted format test in action: when `phoneNumbers` starts with '+',
   * its first entry does too, and Dial is refused.
   */
  lemma DialRefusesLeadingPlus(options: Value)
    requires IsSet(options, "phoneNumbers")
    requires |ToStr(Get(options, "phoneNumbers"))| > 0 && ToStr(Get(options, "phoneNumbers"))[0] == '+'
    ensures BuildDial(options) == Err(PhoneFormat)
  {
    var s := ToStr(Get(options, "phoneNumbers"));
    var first := DialEntries(options)[0];
    assert |first| > 0 && first[0] == '+' by {
      match Strpos(s, ',')
      case None =>
        assert first == s;
      case Some(i) =>
        assert first == s[..i];
        assert i > 0;
    }
    assert Strpos(first, '+') == Some(0);
    assert !DialEntryAccepted(first);
  }

  /** A `phoneNumbers` value without any '+' is refused. */
  lemma DialRefusesNumbersWithoutPlus(options: Value)
    requires IsSet(options, "phoneNumbers")
    requires '+' !in ToStr(Get(options, "phoneNumbers"))
    ensures BuildDial(options) == Err(PhoneFormat)
  {
    var s := ToStr(Get(options, "phoneNumbers"));
    var first := DialEntries(options)[0];
    assert '+' !in first by {
      match Strpos(s, ',')
      case None =>
        assert first == s;
      case Some(i) =>
        assert first == s[..i];
    }
    assert !DialEntryAccepted(first);
  }

  /**
   * Entries are judged one by one: for numbers joined with ',', Dial's check
   * passes exactly when every number passes on its own.
   */
  lemma DialEntriesIndependent(numbers: seq<string>)
    requires |numbers| > 0
    requires forall k :: 0 <= k < |numbers| ==> ',' !in numbers[k]
    ensures AllEntriesAccepted(Explode(Implode(numbers, ','), ',')) <==>
              forall k :: 0 <= k < |numbers| ==> DialEntryAccepted(numbers[k])
  {
    ExplodeImplode(numbers, ',');
  }

  /**
   * Dial never writes a callerId attribute: its attributes are those of
   * record, sequential, ringBackTone and maxDuration, in that order.
   */
  lemma DialOmitsCallerId(options: Value)
    ensures Attrs(DialAttrs(options)) ==
              Attrs([("record", BoolOption(options, "record")), ("sequential", BoolOption(options, "sequential")),
                     ("ringBackTone", Get(options, "ringBackTone")), ("maxDuration", Get(options, "maxDuration"))])
  {
    var xs := DialAttrs(options);
    AttrsSkipEmpty(xs, 2);
    assert xs[..2] + xs[3..] ==
             [("record", BoolOption(options, "record")), ("sequential", BoolOption(options, "sequential")),
              ("ringBackTone", Get(options, "ringBackTone")), ("maxDuration", Get(options, "maxDuration"))];
  }

  /**
   * A GetDigits that succeeds always ends its attributes with the callBackUrl
   * one, since that URL had to be valid and hence non-empty.
   */
  lemma GetDigitsEndsWithCallback(options: Value)
    requires BuildGetDigits(options).Ok?
    ensures Attrs(GetDigitsAttrs(options)) ==
              Attrs(GetDigitsAttrs(options)[..3]) + QuotedAttr("callBackUrl", Get(options, "callBackUrl").s)
  {
    var xs := GetDigitsAttrs(options);
    assert xs == xs[..3] + [xs[3]];
    AttrsAppend(xs[..3], [xs[3]]);
    assert [xs[3]][1..] == [];
  }

  /**
   * When `text` is a string, as intended, the Say child is the error envelope
   * (a string has no 'text' offset), so the text is never spoken; a `url`
   * adds a second envelope.
   */
  lemma GetDigitsChildrenOfText(text: string, url: Value)
    requires !IsEmptyString(text)
    ensures GetDigitsChildren(VStr(text), url) == ArrayText + (if IsEmpty(url) then "" else ArrayText)
  {
  }

  /**
   * `buildRecord`: empty options give the terminal recording. Any other value
   * is validated (`maxLength` and `timeout` numeric when present,
   * `callBackUrl` a valid URL) and then the method ends without a return
   * statement, so it yields null.
   */
  function BuildRecord(options: Value): (r: Reply)
    ensures IsEmpty(options) ==> r == Ok(TerminalRecord)
    ensures !IsEmpty(options) ==> !r.Ok?
    ensures !IsEmpty(options) && (NotNumeric(options, "maxLength") || NotNumeric(options, "timeout")) ==>
              r == Err(NumberNeeded)
    ensures (!IsEmpty(options) && !NotNumeric(options, "maxLength") && !NotNumeric(options, "timeout")) ==>
              r == (if IsValidUrl(Get(options, "callBackUrl")) then NoValue else Err(CallbackInvalid))
  {
    if IsEmpty(options) then Ok(TerminalRecord)
    else if IsSet(options, "maxLength") && !IsNumeric(Get(options, "maxLength")) then Err(NumberNeeded)
    else if IsSet(options, "timeout") && !IsNumeric(Get(options, "timeout")) then Err(NumberNeeded)
    // trimSilence (whose guard is inverted) and playBeep are only read into
    // locals; neither can fail.
    else if !IsValidUrl(Get(options, "callBackUrl")) then Err(CallbackInvalid)
    // The opening tag is then assembled in a local (the playBeep and
    // callBackUrl attributes going to other variables) and never returned.
    else NoValue
  }

  /**
   * `buildEnqueue`: `holdMusic`, when present, must be a valid URL; its
   * attribute is written from the misspelt, unassigned `$HoldMuisic` and so
   * is always empty; `name` is written whenever present.
   */
  function BuildEnqueue(options: Value): (r: Reply)
    ensures r.Err? <==> IsSet(options, "holdMusic") && !IsValidUrl(Get(options, "holdMusic"))
    ensures r.Err? ==> r.message == HoldMusicInvalid
    ensures r.Ok? ==>
              r.xml == Response("<Enqueue" + (if IsSet(options, "holdMusic") then QuotedAttr("holdMusic", "") else "")
                                + SetAttr(options, "name") + ">")
  {
    var holdMusic := Get(options, "holdMusic");
    if IsSet(options, "holdMusic") && !IsValidUrl(holdMusic) then Err(HoldMusicInvalid)
    else
      var holdMuisic := VNull;
      var open := "<Enqueue" + (if !IsEmpty(holdMusic) then QuotedAttr("holdMusic", ToStr(holdMuisic)) else "")
                  + SetAttr(options, "name") + ">";
      Ok(Response(open))
  }

  /** `buildDequeue`: `phoneNumber` is required; `name` is written whenever present. */
  function BuildDequeue(options: Value): (r: Reply)
    ensures r.Err? <==> !IsSet(options, "phoneNumber")
    ensures r.Err? ==> r.message == DequeuePhoneMissing
    ensures r.Ok? ==>
              r.xml == Response("<Dequeue phoneNumber=\"" + ToStr(Get(options, "phoneNumber")) + "\""
                                + SetAttr(options, "name") + ">")
  {
    if !IsSet(options, "phoneNumber") then Err(DequeuePhoneMissing)
    else
      var open := "<Dequeue phoneNumber=\"" + ToStr(Get(options, "phoneNumber")) + "\"" + SetAttr(options, "name") + ">";
      Ok(Response(open))
  }

  /** `buildRedirect`: the argument is written, as a string, between the tags. */
  function BuildRedirect(url: Value): (r: Reply)
    ensures r.Ok? && r.xml == Response("<Redirect>" + ToStr(url) + "</Redirect>")
  {
    Ok(Response("<Redirect>" + ToStr(url) + "</Redirect>"))
  }

  /**
   * The renderer `__call` reaches for an action, applied to what it passes.
   * Conference and Reject ignore their argument.
   */
  function Render(action: Action, arg: Value): (r: Reply)
    ensures IsFragment(r)
    ensures action == Conference ==> r == Ok(ConferenceMarkup)
    ensures action == Reject ==> r == Ok(RejectMarkup)
  {
    match action
    case Say => BuildSay(arg)
    case Pay => BuildPay(arg)
    case GetDigits => BuildGetDigits(arg)
    case Dial => BuildDial(arg)
    case Record => BuildRecord(arg)
    case Enqueue => BuildEnqueue(arg)
    case Dequeue => BuildDequeue(arg)
    case Conference => Ok(ConferenceMarkup)
    case Redirect => BuildRedirect(arg)
    case Reject => Ok(RejectMarkup)
  }
}
