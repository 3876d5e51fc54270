/**
 * The public wrappers `create`, `update`, `fetch`, `first`, `last` and
 * `info`: each builds the token list, calls the native entry point, and
 * raises `error` with the library's last error message exactly when the
 * native call reports failure (`-1`, or a null record chain for `info`),
 * clearing the message as it reads it.
 *
 * The native entry points are parameters: a function from the token list
 * to what the native call returns. The error slot's content when a wrapper
 * starts stands for the message the native call left there.
 */
module Binding {
  import opened Wrappers
  import opened Args
  import FetchReply
  import InfoChain

  /** The binding's `error` exception, carrying the native message. */
  datatype Error = Error(message: string)

  /** A wrapper call either returns a value or raises `error`. */
  datatype Outcome<T> = Returned(value: T) | Raised(error: Error)

  /** The failure sentinel of the integer-returning native entry points. */
  const Failed: int := -1

  /** The text `rrd_get_error` yields: the stored message, or the empty string when none is set. */
  function ErrorText(slot: Option<string>): string
  {
    match slot
    case None => ""
    case Some(msg) => msg
  }

  /** The native library's shared error state, as far as the binding touches it. */
  class Library {
    /** The last error message the native library recorded, if any. */
    var lastError: Option<string>

    constructor ()
      ensures lastError == None
    {
      lastError := None;
    }

    /** `_get_error`: read the last message, clear it, and wrap it in `error`. */
    method GetError() returns (e: Error)
      modifies this
      ensures e == Error(ErrorText(old(lastError)))
      ensures lastError == None
    {
      var msg := ErrorText(lastError);
      lastError := None;
      e := Error(msg);
    }

    /** `create`: raise exactly when `rrd_create` returns the failure sentinel. */
    method Create(args: seq<Arg>, rrdCreate: seq<string> -> int) returns (r: Outcome<()>)
      modifies this
      ensures r.Raised? <==> rrdCreate(CallArgs("create", args)) == Failed
      ensures r.Raised? ==> r.error == Error(ErrorText(old(lastError))) && lastError == None
      ensures r.Returned? ==> lastError == old(lastError)
    {
      var callArgs := PrepareArgs("create", args);
      if rrdCreate(callArgs) == Failed {
        var e := GetError();
        return Raised(e);
      }
      r := Returned(());
    }

    /** `update`: raise exactly when `rrd_update` returns the failure sentinel. */
    method Update(args: seq<Arg>, rrdUpdate: seq<string> -> int) returns (r: Outcome<()>)
      modifies this
      ensures r.Raised? <==> rrdUpdate(CallArgs("update", args)) == Failed
      ensures r.Raised? ==> r.error == Error(ErrorText(old(lastError))) && lastError == None
      ensures r.Returned? ==> lastError == old(lastError)
    {
      var callArgs := PrepareArgs("update", args);
      if rrdUpdate(callArgs) == Failed {
        var e := GetError();
        return Raised(e);
      }
      r := Returned(());
    }

    /** `fetch`: raise on the failure sentinel, otherwise reshape the native reply. */
    method Fetch(args: seq<Arg>, rrdFetch: seq<string> -> FetchReply.NativeFetch) returns (r: Outcome<FetchReply.FetchResult>)
      requires rrdFetch(CallArgs("fetch", args)).status != Failed ==> FetchReply.WellFormed(rrdFetch(CallArgs("fetch", args)))
      modifies this
      ensures r.Raised? <==> rrdFetch(CallArgs("fetch", args)).status == Failed
      ensures r.Raised? ==> r.error == Error(ErrorText(old(lastError))) && lastError == None
      ensures r.Returned? ==> r.value == FetchReply.Expected(rrdFetch(CallArgs("fetch", args))) && lastError == old(lastError)
    {
      var callArgs := PrepareArgs("fetch", args);
      var reply := rrdFetch(callArgs);
      if reply.status == Failed {
        var e := GetError();
        return Raised(e);
      }
      var res := FetchReply.ConvertFetch(reply);
      r := Returned(res);
    }

    /** `first`: the native timestamp, or `error` on the failure sentinel. */
    method First(args: seq<Arg>, rrdFirst: seq<string> -> int) returns (r: Outcome<int>)
      modifies this
      ensures r.Raised? <==> rrdFirst(CallArgs("first", args)) == Failed
      ensures r.Raised? ==> r.error == Error(ErrorText(old(lastError))) && lastError == None
      ensures r.Returned? ==> r.value == rrdFirst(CallArgs("first", args)) && lastError == old(lastError)
    {
      var callArgs := PrepareArgs("first", args);
      var ret := rrdFirst(callArgs);
      if ret == Failed {
        var e := GetError();
        return Raised(e);
      }
      r := Returned(ret);
    }

    /** `last`: the native timestamp, or `error` on the failure sentinel. */
    method Last(args: seq<Arg>, rrdLast: seq<string> -> int) returns (r: Outcome<int>)
      modifies this
      ensures r.Raised? <==> rrdLast(CallArgs("last", args)) == Failed
      ensures r.Raised? ==> r.error == Error(ErrorText(old(lastError))) && lastError == None
      ensures r.Returned? ==> r.value == rrdLast(CallArgs("last", args)) && lastError == old(lastError)
    {
      var callArgs := PrepareArgs("last", args);
      var ret := rrdLast(callArgs);
      if ret == Failed {
        var e := GetError();
        return Raised(e);
      }
      r := Returned(ret);
    }

    /** `info`: raise on a null chain (`None`), otherwise convert the chain into a dictionary. */
    method Info(args: seq<Arg>, rrdInfo: seq<string> -> Option<seq<InfoChain.Record>>)
      returns (r: Outcome<map<string, InfoChain.InfoVal>>)
      requires rrdInfo(CallArgs("info", args)).Some? ==> InfoChain.ValidChain(rrdInfo(CallArgs("info", args)).value)
      modifies this
      ensures r.Raised? <==> rrdInfo(CallArgs("info", args)).None?
      ensures r.Raised? ==> r.error == Error(ErrorText(old(lastError))) && lastError == None
      ensures r.Returned? ==> r.value == InfoChain.InfoMap(rrdInfo(CallArgs("info", args)).value) && lastError == old(lastError)
    {
      var callArgs := PrepareArgs("info", args);
      var infoRet := rrdInfo(callArgs);
      if infoRet.None? {
        var e := GetError();
        return Raised(e);
      }
      var ret := InfoChain.ConvertInfo(infoRet.value);
      r := Returned(ret);
    }
  }

  /**
   * `create(())` against a native library that rejects the call: the
   * wrapper raises with the library's message and leaves no message behind.
   */
  method CreateWithError() returns (r: Outcome<()>, remaining: Option<string>)
    ensures r == Raised(Error("need name of an rrd file"))
    ensures remaining == None
  {
    var lib := new Library();
    lib.lastError := Some("need name of an rrd file");
    r := lib.Create([Group([])], tokens => if tokens == ["create"] then Failed else 0);
    remaining := lib.lastError;
  }
}
