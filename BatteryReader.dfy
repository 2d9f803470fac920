/**
 * BluetoothReader.readBatteryLevel: connect, discover the services, read the
 * Battery Level characteristic, and disconnect, each phase a request to the
 * TemplateHandler's requester.
 *
 * The radio is not modelled.  What each request answers is an input
 * (`respond`, given the phase and the time budget it was called with), and so
 * are the stopwatch's clock readings (`elapsedAt`) and the characteristic
 * the read callback stored.  The blocks the requests run are modelled on
 * their own, with the radio's answers as booleans.
 */
module BatteryReader {
  import opened Nullable
  import opened Results
  import opened Timeouts
  import opened Hex
  import HandlerSpec

  /*
   * The blocks handed to the requester.
   */

  /** The `connect` block: `connectGatt` gave a handle, or not. */
  function ConnectBlock(gattReturned: bool): (r: Result)
    ensures r.Success? <==> gattReturned
    ensures !gattReturned ==> r == Error("Connection failed")
  {
    if gattReturned then Success else Error("Connection failed")
  }

  /** The `disconnect` block succeeds with or without a handle. */
  function DisconnectBlock(hasGatt: bool): (r: Result)
    ensures r == Success
  {
    if hasGatt then Success else Success
  }

  /** The `discover` block: no handle is `NotConnected`; a refused `discoverServices` is an error. */
  function DiscoverBlock(hasGatt: bool, discoveryStarted: bool): (r: Result)
    ensures r.Success? <==> hasGatt && discoveryStarted
    ensures r == NotConnected <==> !hasGatt
    ensures hasGatt && !discoveryStarted ==> r == Error("Discovery failed")
  {
    if !hasGatt then NotConnected
    else if discoveryStarted then Success
    else Error("Discovery failed")
  }

  /**
   * The `read` block, its checks in order: the handle, the service, the
   * characteristic, then whether `readCharacteristic` accepted the request.
   * The names are the full names of the service and characteristic ids.
   */
  function ReadBlock(hasGatt: bool, serviceFound: bool, characteristicFound: bool, readStarted: bool,
                     serviceName: string, characteristicName: string): (r: Result)
    ensures r.Success? <==> hasGatt && serviceFound && characteristicFound && readStarted
    ensures r == NotConnected <==> !hasGatt
    ensures hasGatt && !serviceFound ==> r == Error("Service " + serviceName + " not available")
    ensures hasGatt && serviceFound && !characteristicFound ==>
      r == Error("Characteristic " + characteristicName + " not available")
    ensures hasGatt && serviceFound && characteristicFound && !readStarted ==>
      r == Error("Cannot read " + characteristicName + " characteristic")
  {
    if !hasGatt then NotConnected
    else if !serviceFound then Error("Service " + serviceName + " not available")
    else if !characteristicFound then Error("Characteristic " + characteristicName + " not available")
    else if !readStarted then Error("Cannot read " + characteristicName + " characteristic")
    else Success
  }

  /**
   * What the requester makes of the blocks: a refused radio call is the
   * request's answer, with no wait; the disconnect block never fails, so a
   * disconnection from a connected state always waits.
   */
  lemma BlockFailuresAreAnswered(s: HandlerSpec.Shared, reset: Result, w: HandlerSpec.Wait,
                                 serviceName: string, characteristicName: string)
    ensures !s.connected ==>
      HandlerSpec.Connect(s, reset, ConnectBlock(false), w) == HandlerSpec.Outcome(Error("Connection failed"), s, true, false)
    ensures s.connected ==> HandlerSpec.Disconnect(s, reset, DisconnectBlock(false), w).waited
    ensures s.connected && !s.discovered ==>
      HandlerSpec.Discover(s, reset, DiscoverBlock(true, false), w).result == Error("Discovery failed")
    ensures s.connected && s.discovered ==>
      HandlerSpec.Read(s, reset, ReadBlock(true, false, true, true, serviceName, characteristicName), w).result
        == Error("Service " + serviceName + " not available")
  {
  }

  /*
   * The stopwatch.
   */

  /**
   * `StopWatch.remaining`, in milliseconds: what is left of `total` after
   * `elapsed`, and 0 once it is spent.  `elapsed` is the difference of two
   * wall-clock readings, so it is negative when the clock was set back, and
   * then more than `total` is left.  The subtraction is Kotlin's `Long`
   * subtraction, which wraps around past `Long.MAX_VALUE`.
   */
  function Remaining(total: long, elapsed: long): (r: long)
    ensures elapsed >= total ==> r == 0
    ensures elapsed < total && total - elapsed <= LongMax ==> r == total - elapsed && r > 0
    ensures elapsed < total && total - elapsed > LongMax ==> r == total - elapsed - 0x1_0000_0000_0000_0000 && r < 0
    ensures elapsed >= 0 ==> r >= 0 && (total >= 0 ==> r <= total)
    ensures elapsed < 0 && total >= 0 && total - elapsed <= LongMax ==> r > total
  {
    if elapsed < total then
      var d := total - elapsed;
      if d > LongMax then d - 0x1_0000_0000_0000_0000 else d
    else 0
  }

  /** The budget never grows as time passes, as long as the subtraction does not wrap around. */
  lemma RemainingShrinks(total: long, earlier: long, later: long)
    requires earlier <= later && total - earlier <= LongMax
    ensures Remaining(total, later) <= Remaining(total, earlier)
  {
  }

  /** The budget a phase is given: the remaining milliseconds at the moment of its call. */
  function Budget(timeout: Timeout, elapsed: long): (t: Timeout)
    ensures t.unit == Milliseconds
    ensures t.value == Remaining(Convert(timeout.value, timeout.unit, Milliseconds), elapsed)
  {
    Timeout(Remaining(timeout.ToUnit(Milliseconds).value, elapsed), Milliseconds)
  }

  /*
   * The sequence.
   */

  datatype Phase = ConnectPhase | DiscoverPhase | ReadPhase | DisconnectPhase
  {
    /** The word that opens the phase's progress report. */
    function Name(): string {
      match this
      case ConnectPhase => "connect"
      case DiscoverPhase => "discover"
      case ReadPhase => "read"
      case DisconnectPhase => "disconnect"
    }
  }

  /** A request made: its phase and the budget it was given. */
  datatype Call = Call(phase: Phase, budget: Timeout)

  /** `getIntValue(FORMAT_UINT8, 0)` on the stored characteristic: its first byte, if it has one. */
  function LevelOf(characteristic: Option<seq<byte>>): (v: Option<int>)
    ensures v.Some? <==> characteristic.Some? && |characteristic.value| >= 1
    ensures v.Some? ==> v.value == characteristic.value[0] as int && 0 <= v.value <= 255
  {
    if characteristic.Some? && |characteristic.value| >= 1 then Some(characteristic.value[0] as int) else None
  }

  /** A progress report: the phase and what its request answered. */
  datatype Report = Report(phase: Phase, result: Result)
  {
    /** The string handed to `report`: the phase's word, a space and the result's text. */
    function Text(): string {
      phase.Name() + " " + result.ToString()
    }
  }

  /** One report per request, in the order of the requests. */
  predicate ReportsFollowCalls(reports: seq<Report>, calls: seq<Call>, respond: (Phase, Timeout) -> Result) {
    && |reports| == |calls|
    && forall i :: 0 <= i < |calls| ==> reports[i] == Report(calls[i].phase, respond(calls[i].phase, calls[i].budget))
  }

  /**
   * `readBatteryLevel`.  Connect runs outside the `try`; discover and read run
   * inside it, and the `finally` disconnects with the full timeout and, if
   * that fails, replaces whatever the `try` returned.
   */
  method ReadBatteryLevel(timeout: Timeout, elapsedAt: Phase -> long, respond: (Phase, Timeout) -> Result,
                          characteristic: Option<seq<byte>>)
    returns (level: Option<int>, text: string, reports: seq<Report>, calls: seq<Call>)
    ensures ReportsFollowCalls(reports, calls, respond)
    ensures calls != [] && calls[0] == Call(ConnectPhase, Budget(timeout, elapsedAt(ConnectPhase)))
    // connect, then discover and read up to the first failure, then disconnect once connected
    ensures |calls| in {1, 3, 4}
    ensures |calls| > 1 ==> calls[1].phase == DiscoverPhase && calls[|calls| - 1].phase == DisconnectPhase
    ensures |calls| == 4 ==> calls[2].phase == ReadPhase
    // connect, discover and read get what is left of the budget; disconnect gets the whole timeout
    ensures forall i :: 0 <= i < |calls| && calls[i].phase != DisconnectPhase ==>
      calls[i].budget == Budget(timeout, elapsedAt(calls[i].phase))
    ensures forall i :: 0 <= i < |calls| && calls[i].phase == DisconnectPhase ==> calls[i].budget == timeout
    // a failed connection ends the sequence with no disconnection
    ensures !respond(ConnectPhase, calls[0].budget).Success? <==> |calls| == 1
    ensures |calls| == 1 ==> level == None && text == respond(ConnectPhase, calls[0].budget).ToString()
    // once connected, the disconnection's failure overrides everything else
    ensures |calls| > 1 ==>
      var d := respond(DisconnectPhase, timeout);
      !d.Success? ==> level == None && text == d.ToString()
    // a discovery failure stops before the read
    ensures |calls| == 3 <==> |calls| > 1 && !respond(DiscoverPhase, calls[1].budget).Success?
    ensures |calls| == 3 && respond(DisconnectPhase, timeout).Success? ==>
      level == None && text == respond(DiscoverPhase, calls[1].budget).ToString()
    ensures |calls| == 4 && respond(DisconnectPhase, timeout).Success? ==>
      var r := respond(ReadPhase, calls[2].budget);
      text == r.ToString() && level == (if r.Success? then LevelOf(characteristic) else None)
    // a level is returned only when all four requests succeeded
    ensures level.Some? ==>
      |calls| == 4 && forall i :: 0 <= i < 4 ==> respond(calls[i].phase, calls[i].budget).Success?
  {
    var connectBudget := Budget(timeout, elapsedAt(ConnectPhase));
    var result := respond(ConnectPhase, connectBudget);
    var connectReport := Report(ConnectPhase, result);
    if !result.Success? {
      return None, result.ToString(), [connectReport], [Call(ConnectPhase, connectBudget)];
    }

    // the `try` block: what it returns, and the requests it made
    var discoverBudget := Budget(timeout, elapsedAt(DiscoverPhase));
    result := respond(DiscoverPhase, discoverBudget);
    var discoverReport := Report(DiscoverPhase, result);
    if !result.Success? {
      level, text := None, result.ToString();
      reports := [connectReport, discoverReport];
      calls := [Call(ConnectPhase, connectBudget), Call(DiscoverPhase, discoverBudget)];
    } else {
      var readBudget := Budget(timeout, elapsedAt(ReadPhase));
      result := respond(ReadPhase, readBudget);
      var readReport := Report(ReadPhase, result);
      level, text := if result.Success? then LevelOf(characteristic) else None, result.ToString();
      reports := [connectReport, discoverReport, readReport];
      calls := [Call(ConnectPhase, connectBudget), Call(DiscoverPhase, discoverBudget), Call(ReadPhase, readBudget)];
    }

    // the `finally` block
    result := respond(DisconnectPhase, timeout);
    reports := reports + [Report(DisconnectPhase, result)];
    calls := calls + [Call(DisconnectPhase, timeout)];
    if !result.Success? {
      level, text := None, result.ToString();
    }
  }
}
