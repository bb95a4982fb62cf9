/**
 What the engine asks of resolution and of the vector index: an uninterpreted score with three
 bands, blocking keys each derived from one present field, and the vectors by assertion id.
 */
module Resolution {
  import opened Core

  /** A bag of named fields. */
  type Record = map<string, string>

  /** One blocking rule: the keys it derives from the value of one field, when the record has it. */
  datatype BlockingKey = BlockingKey(field: string, derive: string -> seq<string>) {
    function KeysFor(record: Record): seq<string> {
      if field in record then derive(record[field]) else []
    }
  }

  datatype Decision = Match | Review | NonMatch

  datatype Ruleset = Ruleset(
    score: (Record, Record) -> real,
    blocking: seq<BlockingKey>,
    matchAt: real,
    reviewAt: real)
  {
    function Decide(score: real): Decision {
      if score >= matchAt then Match else if score >= reviewAt then Review else NonMatch
    }

    function KeysFor(record: Record): seq<string> {
      KeysFrom(blocking, record)
    }
  }

  function KeysFrom(blocking: seq<BlockingKey>, record: Record): (keys: seq<string>)
    ensures forall k :: k in keys <==> exists b :: b in blocking && k in b.KeysFor(record)
  {
    if blocking == [] then []
    else
      assert blocking == [blocking[0]] + blocking[1..];
      blocking[0].KeysFor(record) + KeysFrom(blocking[1..], record)
  }

  /** Fields already present are kept; only fields arriving for the first time are taken. */
  function Folded(known: Record, mention: Record): Record {
    mention + known
  }

  /** Folding a mention in only ever adds keys. */
  lemma FoldingAddsKeys(rs: Ruleset, known: Record, mention: Record)
    ensures forall k :: k in rs.KeysFor(known) ==> k in rs.KeysFor(Folded(known, mention))
  {
    forall k | k in rs.KeysFor(known) ensures k in rs.KeysFor(Folded(known, mention)) {
      var b :| b in rs.blocking && k in b.KeysFor(known);
      assert b.KeysFor(Folded(known, mention)) == b.KeysFor(known);
    }
  }

  // ----- the index

  datatype Component = Finite(value: real) | NotFinite

  type Vector = seq<Component>

  datatype Metric = Cosine | L2

  datatype IndexError = DimensionMismatch | NotFiniteComponent | ZeroVectorUnderCosine | CorruptIndex

  datatype VectorIndex = VectorIndex(dim: nat, metric: Metric, rows: map<AssertionId, Vector>) {
    /** The complaint inserting this vector would raise, if any. */
    function Check(v: Vector): Option<IndexError> {
      if |v| != dim then Some(DimensionMismatch)
      else if NotFinite in v then Some(NotFiniteComponent)
      else if metric == Cosine && forall c :: c in v ==> c == Finite(0.0) then Some(ZeroVectorUnderCosine)
      else None
    }

    function Insert(id: AssertionId, v: Vector): Result<VectorIndex, IndexError> {
      match Check(v)
      case Some(e) => Err(e)
      case None => Ok(this.(rows := rows[id := v]))
    }

    /** Every stored row has the index's dimension and no component that is not a number. */
    predicate RowsFit() {
      forall id :: id in rows ==> |rows[id]| == dim && NotFinite !in rows[id]
    }

    function Remove(id: AssertionId): VectorIndex {
      this.(rows := rows - {id})
    }
  }
}
