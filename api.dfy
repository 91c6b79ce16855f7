/**
 * The validation halves of the three API operations of the Voice class
 * (`doCall`, `doUploadMediaFile`, `dofetchQueuedCalls`) and the argument
 * handling of `apiCall`. Where the source posts a form to the provider, the
 * model stops at the request it would post: the endpoint and the payload.
 */
module Api {

  import opened Php
  import opened Dispatch

  /** The base class's error envelope, or the request that would be posted. */
  datatype ApiReply = Rejected(message: string) | Post(endpoint: string, payload: map<string, Value>)

  const ToFromMissing := "The parameters to and from must be defined"
  const CallToFormat := "callTo must be in the format '+2XXYYYYYYYYY'"
  const CallFromFormat := "callFrom must be in the format '+2XXYYYYYYYYY'"
  const MediaPhoneMissing := "Phone number must be defined"
  const MediaUrlMissing := "url must be defined"
  const MediaUrlInvalid := "URL not valid"
  const QueuePhoneRequired := "Phone number is required and must be in the format '+2XXYYYYYYYYY'"
  const QueuePhoneFormat := "Phone number must be in the format '+2XXYYYYYYYYY'"

  /**
   * `doCall`: `to` and `from` must both be set, then `to` and then `from` must
   * start with '+'. The request carries exactly the user name, `to` and `from`.
   */
  function DoCall(username: string, options: Value): (r: ApiReply)
    ensures !IsSet(options, "to") || !IsSet(options, "from") ==> r == Rejected(ToFromMissing)
    ensures (IsSet(options, "to") && IsSet(options, "from") && !StartsWithPlus(Get(options, "to"))) ==>
              r == Rejected(CallToFormat)
    ensures (IsSet(options, "to") && IsSet(options, "from") && StartsWithPlus(Get(options, "to"))
             && !StartsWithPlus(Get(options, "from"))) ==>
              r == Rejected(CallFromFormat)
    ensures r.Post? <==>
              (IsSet(options, "to") && IsSet(options, "from")
               && StartsWithPlus(Get(options, "to")) && StartsWithPlus(Get(options, "from")))
    ensures r.Post? ==>
              r.endpoint == "call" && r.payload.Keys == {"username", "to", "from"}
              && r.payload["username"] == VStr(username)
              && r.payload["to"] == options.fields["to"] && r.payload["from"] == options.fields["from"]
  {
    if !IsSet(options, "to") || !IsSet(options, "from") then Rejected(ToFromMissing)
    else if !StartsWithPlus(Get(options, "to")) then Rejected(CallToFormat)
    else if !StartsWithPlus(Get(options, "from")) then Rejected(CallFromFormat)
    else
      Post("call", map["username" := VStr(username), "to" := Get(options, "to"), "from" := Get(options, "from")])
  }

  /**
   * `doUploadMediaFile`: `phoneNumber` and `url` must be set (in that order)
   * and the URL must pass the URL filter; the phone number is not checked for
   * a leading '+'.
   */
  function DoUploadMediaFile(username: string, options: Value): (r: ApiReply)
    ensures !IsSet(options, "phoneNumber") ==> r == Rejected(MediaPhoneMissing)
    ensures IsSet(options, "phoneNumber") && !IsSet(options, "url") ==> r == Rejected(MediaUrlMissing)
    ensures (IsSet(options, "phoneNumber") && IsSet(options, "url") && !FilterValidateUrl(Get(options, "url"))) ==>
              r == Rejected(MediaUrlInvalid)
    ensures r.Post? <==>
              (IsSet(options, "phoneNumber") && IsSet(options, "url") && FilterValidateUrl(Get(options, "url")))
    ensures r.Post? ==>
              r.endpoint == "mediaUpload" && r.payload.Keys == {"username", "phoneNumber", "url"}
              && r.payload["username"] == VStr(username)
              && r.payload["phoneNumber"] == options.fields["phoneNumber"] && r.payload["url"] == options.fields["url"]
  {
    if !IsSet(options, "phoneNumber") then Rejected(MediaPhoneMissing)
    else
      var phoneNumber := Get(options, "phoneNumber");
      if !IsSet(options, "url") then Rejected(MediaUrlMissing)
      else
        var url := Get(options, "url");
        if !FilterValidateUrl(url) then Rejected(MediaUrlInvalid)
        else Post("mediaUpload", map["username" := VStr(username), "phoneNumber" := phoneNumber, "url" := url])
  }

  /**
   * `dofetchQueuedCalls`: an empty number is refused first, then one not
   * starting with '+'. The empty test only chooses the message: every number
   * with a leading '+' is non-empty.
   */
  function DoFetchQueuedCalls(username: string, phoneNumber: Value): (r: ApiReply)
    ensures IsEmpty(phoneNumber) ==> r == Rejected(QueuePhoneRequired)
    ensures !IsEmpty(phoneNumber) && !StartsWithPlus(phoneNumber) ==> r == Rejected(QueuePhoneFormat)
    ensures r.Post? <==> StartsWithPlus(phoneNumber)
    ensures r.Post? ==>
              r.endpoint == "queueStatus" && r.payload.Keys == {"username", "phoneNumbers"}
              && r.payload["username"] == VStr(username) && r.payload["phoneNumbers"] == phoneNumber
  {
    if IsEmpty(phoneNumber) then
      Rejected(QueuePhoneRequired)
    // `strpos(...) === false || ... != 0`: strpos yields false or an index,
    // so the loose comparison agrees with the strict one of doCall.
    else if !StartsWithPlus(phoneNumber) then
      Rejected(QueuePhoneFormat)
    else
      Post("queueStatus", map["username" := VStr(username), "phoneNumbers" := phoneNumber])
  }

  /**
   * `apiCall`'s argument: the first call argument, or '' when there is none
   * or it is null.
   */
  function ApiArgument(args: seq<Value>): (v: Value)
    ensures v != VNull
    ensures |args| > 0 && args[0] != VNull ==> v == args[0]
    ensures !(|args| > 0 && args[0] != VNull) ==> v == VStr("")
  {
    if |args| > 0 && args[0] != VNull then args[0] else VStr("")
  }

  /** The operation `apiCall` runs, on its one argument. */
  function Perform(op: Operation, username: string, arg: Value): ApiReply {
    match op
    case PlaceCall => DoCall(username, arg)
    case UploadMediaFile => DoUploadMediaFile(username, arg)
    case FetchQueuedCalls => DoFetchQueuedCalls(username, arg)
  }

  /** An operation called with no argument is refused as a missing input. */
  lemma NoArgumentIsRefused(op: Operation, username: string)
    ensures Perform(op, username, ApiArgument([])) ==
              match op
              case PlaceCall => Rejected(ToFromMissing)
              case UploadMediaFile => Rejected(MediaPhoneMissing)
              case FetchQueuedCalls => Rejected(QueuePhoneRequired)
  {
  }
}
