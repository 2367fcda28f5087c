/** The Go library functions the engine calls but whose behaviour is not part of this
    model. Each is a parameter of the engine: a record of function values that stands
    for the library, so every property proved holds whatever the library returns. */
module Foreign {
  import opened Common
  import opened Floats

  datatype Lib = Lib(
    /** model.ParseDuration (prometheus/common): a non-negative duration in nanoseconds */
    parseModelDuration: string -> Option<nat>,
    /** time.ParseDuration: a possibly negative duration in nanoseconds */
    parseTimeDuration: string -> Option<int>,
    /** strconv.ParseFloat(s, 64) */
    parseFloat64: string -> Option<Float>,
    /** strconv.ParseFloat(s, 32): None only for a syntax error, where Go returns 0;
        an out-of-range value gives Some(PosInf) or Some(NegInf), as Go returns ±Inf
        together with ErrRange */
    parseFloat32: string -> Option<Float>,
    /** model.Duration(d).String() */
    durationString: nat -> string,
    /** fmt's %g verb */
    formatG: Float -> string,
    /** fmt's %.3g verb */
    formatG3: Float -> string,
    /** labels.New(pairs...).String(): sorting and quoting belong to the library */
    labelsString: seq<(string, string)> -> string
  )

  /** model.Duration.String() never returns the empty string (zero renders as "0s"). */
  ghost predicate DurationsRenderNonEmpty(lib: Lib) {
    forall d: nat :: lib.durationString(d) != ""
  }
}
