/** The alert-method abstraction of pkg/slo: the option records handed to a method,
    and the registry that maps method names to implementations. The `Window` record
    and the `Severities` list are declared in pkg/slo/slo.go and live here so that
    every part of the engine can use them. */
module Alerts {
  import opened Common
  import opened Floats

  /** A consumption window after parsing (pkg/slo/slo.go). */
  datatype Window = Window(duration: nat, consumption: Float, notification: string)

  /** The severities alerts are generated for, in this order. */
  const Severities: seq<string> := ["page", "ticket"]

  datatype LatencyTarget = LatencyTarget(le: string, target: Float)

  /** `sloWindow` is a time.Duration in nanoseconds; `burnRate` is passed along but
      never read. */
  datatype AlertErrorOptions = AlertErrorOptions(
    serviceName: string,
    availabilityTarget: string,
    sloWindow: int,
    windows: seq<Window>,
    shortWindow: bool,
    burnRate: string)

  datatype AlertLatencyOptions = AlertLatencyOptions(
    serviceName: string,
    targets: seq<LatencyTarget>,
    sloWindow: int,
    windows: seq<Window>,
    shortWindow: bool,
    burnRate: string)

  /** The implementations of the AlertMethod interface: only the multi-window one. */
  datatype AlertMethod = MultiWindowAlgorithm

  /** The package-level `methods` map. */
  class Registry {
    var methods: map<string, AlertMethod>

    constructor ()
      ensures methods == map[]
    {
      methods := map[];
    }

    /** Stores `method` under `name`, replacing any earlier entry, and returns it. */
    method Register(m: AlertMethod, name: string) returns (r: AlertMethod)
      modifies this
      ensures r == m
      ensures GetAlertMethod(name) == Some(m)
      ensures forall other :: other != name ==> GetAlertMethod(other) == old(GetAlertMethod(other))
      ensures methods.Keys == old(methods.Keys) + {name}
    {
      methods := methods[name := m];
      r := m;
    }

    /** The method registered under `name`; nil (`None`) when there is none. */
    function GetAlertMethod(name: string): (r: Option<AlertMethod>)
      reads this
      ensures r.None? <==> name !in methods
      ensures r.Some? ==> r.value == methods[name]
    {
      if name in methods then Some(methods[name]) else None
    }
  }
}
