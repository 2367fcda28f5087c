/** Outcome types shared by the whole model. */
module Common {

  datatype Option<+T> = None | Some(value: T)

  /** How a generation pass can fail. `ConfigError` is an error value the Go code
      returns (`fmt.Errorf`); `Panic` is a `log.Panicf` or a Go runtime panic,
      which the model reports as a distinct failure instead of a crash. */
  datatype Failure = ConfigError(message: string) | Panic(message: string)

  datatype Result<+T> = Ok(value: T) | Fail(failure: Failure) {
    predicate IsFailure() {
      Fail?
    }

    function PropagateFailure<U>(): Result<U>
      requires Fail?
    {
      Fail(failure)
    }

    function Extract(): T
      requires Ok?
    {
      value
    }
  }

  /** The last element of a non-empty sequence. */
  function Last<T>(s: seq<T>): T
    requires |s| > 0
  {
    s[|s| - 1]
  }
}

/** A Go `map[string]string`. Go maps are references: every holder of the same map
    sees a write made through any of them, so a map is an object here. */
module GoMaps {
  class LabelMap {
    var entries: map<string, string>

    constructor (initial: map<string, string>)
      ensures entries == initial
    {
      entries := initial;
    }

    /** `m[key] = value` */
    method Put(key: string, value: string)
      modifies this
      ensures entries == old(entries)[key := value]
    {
      entries := entries[key := value];
    }

    /** `for k, v := range src { m[k] = v }`: Go visits the keys in no fixed order,
        and every order ends in the same map. */
    method PutAll(src: map<string, string>)
      modifies this
      ensures entries == old(entries) + src
    {
      var pending := src.Keys;
      while pending != {}
        invariant pending <= src.Keys
        invariant entries == old(entries) + map k | k in src.Keys - pending :: src[k]
        decreases pending
      {
        var k :| k in pending;
        Put(k, src[k]);
        pending := pending - {k};
      }
      assert src.Keys - pending == src.Keys;
    }
  }
}
