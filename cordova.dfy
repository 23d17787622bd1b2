/**
 * The part of the Cordova bridge the plugins talk to: plugin results and
 * the callback context that carries them back to JavaScript. A callback
 * context is an object; the results handed to it are recorded, in order,
 * in its `sent` log.
 */
module Cordova {
  import opened JsonValues

  datatype Status = Ok | Error

  /** What a result carries: nothing, a string, a JSON object, or the text of a caught exception. */
  datatype Message =
    | NoMessage
    | Text(text: string)
    | Object(json: Json)
    | ExceptionMessage

  datatype PluginResult = PluginResult(status: Status, message: Message, keepCallback: bool)

  /** The result `callbackContext.success(...)` sends: OK, and the callback is released. */
  function SuccessResult(m: Message): PluginResult
  {
    PluginResult(Ok, m, false)
  }

  /** The result `callbackContext.error(...)` sends: ERROR, and the callback is released. */
  function ErrorResult(m: Message): PluginResult
  {
    PluginResult(Error, m, false)
  }

  /** A JavaScript callback: every result sent through it is appended to `sent`. */
  class CallbackContext {
    const callbackId: string
    var sent: seq<PluginResult>

    constructor (callbackId: string)
      ensures this.callbackId == callbackId && sent == []
    {
      this.callbackId := callbackId;
      sent := [];
    }

    method SendPluginResult(result: PluginResult)
      modifies this
      ensures sent == old(sent) + [result]
    {
      sent := sent + [result];
    }

    method Success(m: Message)
      modifies this
      ensures sent == old(sent) + [SuccessResult(m)]
    {
      SendPluginResult(SuccessResult(m));
    }

    method Error(m: Message)
      modifies this
      ensures sent == old(sent) + [ErrorResult(m)]
    {
      SendPluginResult(ErrorResult(m));
    }
  }
}
