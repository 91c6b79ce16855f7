/**
 * The Voice builder object: one buffer (`$xmlString`) that every chained
 * action call appends its renderer's result to, `build()` that reads the
 * buffer back, and `__call`, which routes a method name to a renderer, to an
 * API operation, or to the invalid-method error.
 */
module VoiceBuilder {

  import opened Php
  import opened Dispatch
  import opened Renderers
  import opened Api

  /** What `__call` returns: the builder itself, an API result, or the error envelope. */
  datatype Answer = Chained(voice: Voice) | Answered(reply: ApiReply) | Invalid(message: string)

  /** PHP `empty($this->xmlString)`: null, "" and "0" are empty; the error envelope is a non-empty array. */
  predicate BufferEmpty(buffer: Reply) {
    match buffer
    case NoValue => true
    case Ok(s) => IsEmptyString(s)
    case Err(_) => false
  }

  /** The buffer is null, the error envelope or a string PHP does not call empty. */
  predicate Settled(buffer: Reply) {
    buffer.Ok? ==> !IsEmptyString(buffer.xml)
  }

  /** The string forms of the results, concatenated in order. */
  function Joined(results: seq<Reply>): string {
    if results == [] then "" else Joined(results[..|results| - 1]) + Text(results[|results| - 1])
  }

  /**
   * `stringBuilder`'s update: an empty buffer is replaced by the result (the
   * envelope itself, when the result is an error); otherwise the result's
   * string form is appended to the buffer's.
   */
  function Stored(buffer: Reply, result: Reply): Reply {
    if BufferEmpty(buffer) then result else Ok(Text(buffer) + Text(result))
  }

  /**
   * Storing a renderer's result never loses text: replacing an empty buffer
   * and appending to a full one both give the old text followed by the
   * result's.
   */
  lemma StoredAppends(buffer: Reply, result: Reply)
    requires Settled(buffer) && IsFragment(result)
    ensures Settled(Stored(buffer, result))
    ensures Text(Stored(buffer, result)) == Text(buffer) + Text(result)
  {
    if !BufferEmpty(buffer) {
      assert |Text(buffer)| > 0;
    }
  }

  class Voice {
    /** The account name the base class stamps on every request. */
    const username: string
    /** `$xmlString`. */
    var xmlString: Reply
    /** Every result `stringBuilder` has stored, in call order. */
    ghost var results: seq<Reply>

    ghost predicate Valid()
      reads this
    {
      Settled(xmlString) && Text(xmlString) == Joined(results)
    }

    constructor (username: string)
      ensures Valid()
      ensures this.username == username && xmlString == NoValue && results == []
    {
      this.username := username;
      xmlString := NoValue;
      results := [];
    }

    /**
     * `stringBuilder`: runs the renderer on the whole argument list (not on
     * its first element) and stores whatever it returns, errors included.
     */
    method StringBuilder(action: Action, args: seq<Value>) returns (self: Voice)
      requires Valid()
      modifies this
      ensures Valid()
      ensures self == this
      ensures results == old(results) + [Render(action, VList(args))]
      ensures xmlString == Stored(old(xmlString), Render(action, VList(args)))
    {
      var result := Render(action, VList(args));
      StoredAppends(xmlString, result);
      if BufferEmpty(xmlString) {
        xmlString := result;
      } else {
        xmlString := Ok(Text(xmlString) + Text(result));
      }
      assert (results + [result])[..|results|] == results;
      results := results + [result];
      return this;
    }

    /**
     * `build()`: null exactly when nothing has been stored that reads as
     * text; otherwise the buffer itself, whose text is every stored result
     * in call order.
     */
    method Build() returns (r: Reply)
      requires Valid()
      ensures r.NoValue? <==> Joined(results) == ""
      ensures !r.NoValue? ==> r == xmlString
      ensures Text(r) == Joined(results)
    {
      if BufferEmpty(xmlString) {
        return NoValue;
      }
      return xmlString;
    }

    /** `apiCall`: the operation runs on the first argument, or on ''. */
    function ApiCall(op: Operation, args: seq<Value>): ApiReply {
      Perform(op, username, ApiArgument(args))
    }

    /**
     * `__call`: a renderer name chains through `stringBuilder`, an operation
     * name runs the operation, any other name is an error; only the first
     * changes the builder.
     */
    method Call(name: string, args: seq<Value>) returns (r: Answer)
      requires Valid()
      modifies this
      ensures Valid()
      ensures Resolve(name).Builder? ==>
                r == Chained(this)
                && results == old(results) + [Render(Resolve(name).action, VList(args))]
                && xmlString == Stored(old(xmlString), Render(Resolve(name).action, VList(args)))
      ensures Resolve(name).Api? ==>
                r == Answered(Perform(Resolve(name).operation, username, ApiArgument(args)))
                && unchanged(this)
      ensures Resolve(name).Unknown? ==> r == Invalid(InvalidMethod(name)) && unchanged(this)
    {
      match Resolve(name)
      case Builder(action) =>
        var self := StringBuilder(action, args);
        r := Chained(self);
      case Api(op) =>
        r := Answered(ApiCall(op, args));
      case Unknown =>
        r := Invalid(InvalidMethod(name));
    }
  }
}
