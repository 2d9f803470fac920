/**
 * The outcome of a connection request: `Success`, or an `Error` that carries a
 * message.  The source declares four errors as singleton objects (`TimedOut`,
 * `Busy`, `NotConnected`, `NotDiscovered`); any other error is an instance
 * built at run time, `Error(message)`.
 *
 * Dafny's `==` on this datatype stands for Kotlin's identity (`===`, and `is`
 * for the singletons): a singleton is only `==` to itself.  Kotlin's `equals`,
 * which compares errors by message, is `Equal` below.
 */
module Results {

  datatype Result =
    | Success
    | Error(msg: string)
    | TimedOut
    | Busy
    | NotConnected
    | NotDiscovered
  {
    predicate IsError() {
      !Success?
    }

    /** The `message` every error carries; the singletons carry fixed ones. */
    function Message(): string
      requires IsError()
    {
      match this
      case Error(m) => m
      case TimedOut => "timeout"
      case Busy => "busy"
      case NotConnected => "not connected"
      case NotDiscovered => "not discovered"
    }

    /** `toString`: "Success" or "Error(<message>)". */
    function ToString(): (s: string)
      ensures s == "Success" <==> Success?
      ensures IsError() ==> |s| == |Message()| + 7 && s[..6] == "Error(" && s[|s| - 1] == ')'
    {
      if Success? then "Success"
      else
        var s := "Error(" + Message() + ")";
        assert s[0] == 'E';
        s
    }
  }

  /** Kotlin `equals`: two errors are equal iff their messages are; `Success` only equals itself. */
  predicate Equal(a: Result, b: Result) {
    if a.IsError() && b.IsError() then a.Message() == b.Message() else a == b
  }

  /** The singleton errors are equal to run-time errors with the same message, and `Success` equals no error. */
  lemma SingletonMessages(e: Result)
    ensures Equal(TimedOut, Error("timeout")) && Equal(Busy, Error("busy"))
    ensures Equal(NotConnected, Error("not connected")) && Equal(NotDiscovered, Error("not discovered"))
    ensures e.IsError() ==> !Equal(Success, e) && !Equal(e, Success)
    ensures !Equal(TimedOut, Busy) && !Equal(NotConnected, NotDiscovered)
  {
    assert "timeout"[0] != "busy"[0];
    assert "not connected"[4] != "not discovered"[4];
  }

  /** `Equal` is an equivalence relation, so it is a lawful `equals`. */
  lemma EqualIsEquivalence(a: Result, b: Result, c: Result)
    ensures Equal(a, a)
    ensures Equal(a, b) ==> Equal(b, a)
    ensures Equal(a, b) && Equal(b, c) ==> Equal(a, c)
  {
  }

  /**
   * Two results are equal exactly when they print the same, so `toString`
   * (like `hashCode`, which hashes the message) follows `equals`.
   */
  lemma EqualIffSameString(a: Result, b: Result)
    ensures Equal(a, b) <==> a.ToString() == b.ToString()
  {
    if a.IsError() && b.IsError() && a.ToString() == b.ToString() {
      var sa, sb := a.ToString(), b.ToString();
      assert a.Message() == sa[6..|sa| - 1];
      assert b.Message() == sb[6..|sb| - 1];
    }
    if a.IsError() != b.IsError() {
      assert a.ToString()[0] != b.ToString()[0];
    }
  }
}
