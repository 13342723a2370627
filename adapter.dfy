/**
  The radar-handle lifecycle of the mmWave sensor component: `new`, `reconfigure`
  and the driver call made by `get_readings`.

  The `LD2410` driver is foreign code. Each of its steps (stop, construct, start,
  get_data) is an abstract call whose success or failure is an input of the
  model, and a ghost log records every call made on the driver together with
  whether it raised, so that the order of the calls can be stated.
 */
module Adapter {
  import opened Wrappers
  import opened Readings

  /** The driver's `PARAM_BAUD_256000` constant; its numeric encoding is the driver's. */
  datatype BaudParam = Baud256000

  /** The serial device and baud parameter every handle is built with. */
  const DevicePath := "/dev/ttyUSB0"
  const DeviceBaud := Baud256000

  /** An `LD2410` driver handle: a distinct object per construction. */
  class Ld2410 {
    const port: string
    const baud: BaudParam

    constructor (port: string, baud: BaudParam)
      ensures this.port == port && this.baud == baud
    {
      this.port := port;
      this.baud := baud;
    }
  }

  /** One call on the driver and whether it raised. */
  datatype DriverCall =
    | Stop(handle: Ld2410, raised: bool)
    | Open(port: string, baud: BaudParam, result: Option<Ld2410>)  // `LD2410(...)`; None when it raised
    | Start(handle: Ld2410, raised: bool)
    | GetData(handle: Ld2410, raised: bool)

  /** Which of the driver steps of one `reconfigure` raise, if they are reached. */
  datatype DriverOutcomes = DriverOutcomes(stopRaises: bool, openRaises: bool, startRaises: bool)

  function Held(radar: Option<Ld2410>): set<Ld2410> {
    if radar.Some? then {radar.value} else {}
  }

  /** How one driver call changes the set of handles whose polling is running. */
  function StepRunning(running: set<Ld2410>, c: DriverCall): set<Ld2410> {
    match c
    case Start(h, false) => running + {h}
    case Stop(h, false) => running - {h}
    case _ => running
  }

  /** The handles started, and not stopped since, according to a call log. */
  function Running(log: seq<DriverCall>): set<Ld2410>
  {
    if log == [] then {} else StepRunning(Running(log[..|log| - 1]), log[|log| - 1])
  }

  /** `reconfigure` ends with a handle exactly when none of the steps it reaches raises. */
  predicate ReconfigureSucceeds(prev: Option<Ld2410>, out: DriverOutcomes) {
    !(prev.Some? && out.stopRaises) && !out.openRaises && !out.startRaises
  }

  /**
    The driver calls one `reconfigure` makes, starting from handle `prev`;
    `built` is the handle the construction produced, if it was reached and did not raise.
   */
  function ReconfigureTrace(prev: Option<Ld2410>, out: DriverOutcomes, built: Option<Ld2410>): seq<DriverCall>
  {
    var stop := if prev.Some? then [Stop(prev.value, out.stopRaises)] else [];
    if prev.Some? && out.stopRaises then stop
    else match built
      case None => stop + [Open(DevicePath, DeviceBaud, None)]
      case Some(h) => stop + [Open(DevicePath, DeviceBaud, Some(h)), Start(h, out.startRaises)]
  }

  /** The construction is reached and does not raise exactly when `built` holds a handle. */
  predicate BuiltAgrees(prev: Option<Ld2410>, out: DriverOutcomes, built: Option<Ld2410>) {
    built.Some? <==> !(prev.Some? && out.stopRaises) && !out.openRaises
  }

  /** The handle field after a `reconfigure`: the new handle on success, otherwise none. */
  function ReconfiguredRadar(prev: Option<Ld2410>, out: DriverOutcomes, built: Option<Ld2410>): Option<Ld2410> {
    if ReconfigureSucceeds(prev, out) then built else None
  }

  /** The sensor component: at most one driver handle, in `radar`. */
  class Mmwave {
    var radar: Option<Ld2410>
    ghost var calls: seq<DriverCall>

    /** No handle is polling except the one the component holds. */
    ghost predicate NoStrayHandle()
      reads this
    {
      Running(calls) <= Held(radar)
    }

    /**
      `Mmwave.new`: start with no handle, then `reconfigure`. (The framework's own
      `new` calls `reconfigure` once before `radar` exists; that call fails on the
      missing attribute before any driver call and leaves no handle, so it is not
      repeated here.)
     */
    constructor New(out: DriverOutcomes)
      ensures exists b :: BuiltAgrees(None, out, b) && calls == ReconfigureTrace(None, out, b)
      ensures radar.Some? <==> !out.openRaises && !out.startRaises
      ensures radar.Some? ==> fresh(radar.value) && radar.value.port == DevicePath && radar.value.baud == DeviceBaud
      ensures radar.Some? ==> calls == [Open(DevicePath, DeviceBaud, radar), Start(radar.value, false)]
      ensures forall i :: 0 <= i < |calls| ==> !calls[i].Stop?
      ensures NoStrayHandle()
    {
      radar := None;
      calls := [];
      new;
      ghost var built := Reconfigure(out);
      assert BuiltAgrees(None, out, built) && calls == ReconfigureTrace(None, out, built);
    }

    /** `Mmwave.reconfigure`: stop the old handle, open and start a new one; any failure leaves none. */
    method Reconfigure(out: DriverOutcomes) returns (ghost built: Option<Ld2410>)
      modifies this
      ensures BuiltAgrees(old(radar), out, built)
      ensures built.Some? ==> fresh(built.value) && built.value.port == DevicePath && built.value.baud == DeviceBaud
      ensures radar == ReconfiguredRadar(old(radar), out, built)
      ensures calls == old(calls) + ReconfigureTrace(old(radar), out, built)
      ensures old(NoStrayHandle()) && !(old(radar).Some? && out.stopRaises) ==> NoStrayHandle()
      ensures old(radar).Some? && out.stopRaises && old(radar).value in Running(old(calls)) ==>
                radar.None? && old(radar).value in Running(calls)
    {
      ghost var prev, log := radar, calls;
      built := None;
      var raised := false;
      if radar.Some? {
        calls := calls + [Stop(radar.value, out.stopRaises)];
        raised := out.stopRaises;
      }
      if !raised {
        if out.openRaises {
          calls := calls + [Open(DevicePath, DeviceBaud, None)];
          raised := true;
        } else {
          var h := new Ld2410(DevicePath, DeviceBaud);
          calls := calls + [Open(DevicePath, DeviceBaud, Some(h))];
          radar := Some(h);
          built := Some(h);
          calls := calls + [Start(h, out.startRaises)];
          raised := out.startRaises;
        }
      }
      if raised {
        radar := None;
      }
      ReconfigureRunning(log, prev, out, built);
    }

    /** `Mmwave.get_readings`, with `fetch` standing for what the handle's `get_data()` gives. */
    method GetReadings(fetch: Fetch) returns (o: Outcome)
      modifies this`calls
      ensures o == ReadingsFor(radar.Some?, fetch)
      ensures calls == old(calls) + if radar.Some? then [GetData(radar.value, fetch.FetchRaised?)] else []
      ensures Running(calls) == Running(old(calls))
    {
      if radar.None? {
        return Returned(ZeroReading(ErrorStatus));
      }
      calls := calls + [GetData(radar.value, fetch.FetchRaised?)];
      RunningAppend(old(calls), GetData(radar.value, fetch.FetchRaised?));
      o := match fetch
        case FetchRaised => Raised(DriverError)
        case Fetched(data) => DecodeData(data);
    }
  }

  /** Appending a call to the log applies that call's step to the running set. */
  lemma RunningAppend(log: seq<DriverCall>, c: DriverCall)
    ensures Running(log + [c]) == StepRunning(Running(log), c)
  {
  }

  /**
    What one `reconfigure` does to the running handles: when its `stop()` raises
    nothing changes; otherwise the old handle stops, and the new one runs
    exactly when the whole reconfiguration succeeds.
   */
  lemma ReconfigureRunning(log: seq<DriverCall>, prev: Option<Ld2410>, out: DriverOutcomes, built: Option<Ld2410>)
    requires BuiltAgrees(prev, out, built)
    ensures Running(log + ReconfigureTrace(prev, out, built)) ==
      if prev.Some? && out.stopRaises then Running(log)
      else Running(log) - Held(prev) + Held(ReconfiguredRadar(prev, out, built))
  {
    var stop := if prev.Some? then [Stop(prev.value, out.stopRaises)] else [];
    if prev.Some? {
      RunningAppend(log, Stop(prev.value, out.stopRaises));
    } else {
      assert log + stop == log;
    }
    assert Running(log + stop) == if prev.Some? && !out.stopRaises then Running(log) - Held(prev) else Running(log);
    if !(prev.Some? && out.stopRaises) {
      match built
      case None =>
        RunningAppend(log + stop, Open(DevicePath, DeviceBaud, None));
        assert log + stop + [Open(DevicePath, DeviceBaud, None)] == log + ReconfigureTrace(prev, out, built);
      case Some(h) =>
        var o := Open(DevicePath, DeviceBaud, Some(h));
        RunningAppend(log + stop, o);
        RunningAppend(log + stop + [o], Start(h, out.startRaises));
        assert log + stop + [o] + [Start(h, out.startRaises)] == log + ReconfigureTrace(prev, out, built);
    }
  }

  /** When `stop()` does not raise, a component with no stray handle still has none afterwards. */
  lemma ReconfigureKeepsNoStrayHandle(log: seq<DriverCall>, prev: Option<Ld2410>, out: DriverOutcomes, built: Option<Ld2410>)
    requires BuiltAgrees(prev, out, built)
    requires Running(log) <= Held(prev) && !(prev.Some? && out.stopRaises)
    ensures Running(log + ReconfigureTrace(prev, out, built)) <= Held(ReconfiguredRadar(prev, out, built))
  {
    ReconfigureRunning(log, prev, out, built);
  }

  /**
    When `stop()` on a running handle raises, the component drops that handle
    while, as far as the driver calls show, it is still polling.
   */
  lemma StopFailureDropsRunningHandle(log: seq<DriverCall>, h: Ld2410, out: DriverOutcomes, built: Option<Ld2410>)
    requires BuiltAgrees(Some(h), out, built)
    requires h in Running(log) && out.stopRaises
    ensures ReconfiguredRadar(Some(h), out, built) == None
    ensures h in Running(log + ReconfigureTrace(Some(h), out, built))
  {
  }

  /**
    The order of the calls of one `reconfigure`: an existing handle is stopped
    first, nothing is built if that raises, and `start()` is called only on
    the handle just constructed, right after its construction.
   */
  lemma ReconfigureOrder(prev: Option<Ld2410>, out: DriverOutcomes, built: Option<Ld2410>)
    ensures var t := ReconfigureTrace(prev, out, built);
      && (prev.Some? ==> |t| > 0 && t[0] == Stop(prev.value, out.stopRaises))
      && (prev.Some? && out.stopRaises ==> |t| == 1)
      && (forall i :: 0 <= i < |t| && t[i].Open? ==> i == |Held(prev)|)
      && (forall i :: 0 <= i < |t| && t[i].Start? ==> 0 < i && t[i - 1] == Open(DevicePath, DeviceBaud, Some(t[i].handle)))
      && (forall i :: 0 <= i < |t| && t[i].Stop? ==> i == 0 && prev == Some(t[i].handle))
  {
  }
}
