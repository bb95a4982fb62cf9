/** The shared data types: time, provenance and what an assertion claims about its slot. */
module Core {

  datatype Option<+T> = None | Some(value: T)

  datatype Result<+T, +E> = Ok(value: T) | Err(error: E)

  const MIN_TIME: int := -0x8000_0000_0000_0000
  const MAX_TIME: int := 0x7FFF_FFFF_FFFF_FFFF

  /** Milliseconds since the Unix epoch, in 64 signed bits. */
  type Timestamp = t: int | MIN_TIME <= t <= MAX_TIME witness 0

  /** An entity's id. Counters only climb, so none is handed out twice. */
  type StableId = nat

  type AssertionId = nat

  datatype Source = UserAssertion | ToolOutput | AgentInference | External(name: string)

  /** A half-open interval on one time axis; `None` is open-ended. */
  datatype Interval = Interval(from: Timestamp, to: Option<Timestamp>) {
    predicate Contains(t: Timestamp) {
      from <= t && (to.Some? ==> t < to.value)
    }
  }

  function Since(from: Timestamp): Interval {
    Interval(from, None)
  }

  datatype Provenance = Provenance(source: Source, observedAt: Timestamp, sourceRef: string)

  /** How a version says it stands to what its log already holds. */
  datatype Supersession = Corrects | Joins | Unstated

  /** `char::is_whitespace`. */
  predicate IsSpace(c: char) {
    var u := c as int;
    0x09 <= u <= 0x0D || u == 0x20 || u == 0x85 || u == 0xA0 || u == 0x1680 || 0x2000 <= u <= 0x200A
    || u == 0x2028 || u == 0x2029 || u == 0x202F || u == 0x205F || u == 0x3000
  }

  predicate Blank(name: string) {
    forall c :: c in name ==> IsSpace(c)
  }
}
