/**
 * Records as the streaming analyzer sees them, and the aggregate of their
 * numeric values.
 *
 * A record is a (timestamp, value) pair.  The value column has already been
 * through numeric coercion: a value that could not be coerced (or is NaN) is
 * absent and never takes part in a sum or a count.
 */
module Records {

  datatype Option<+T> = None | Some(value: T)

  /** A timestamp is carried through the analyzer untouched. */
  type Timestamp = string

  datatype Record = Record(timestamp: Timestamp, value: Option<real>)

  /** Sum and count of the numeric values of some records. */
  datatype Totals = Totals(sum: real, count: nat)
  {
    function Plus(other: Totals): Totals
    {
      Totals(sum + other.sum, count + other.count)
    }
  }

  const NoTotals := Totals(0.0, 0)

  /** True when no record carries a numeric value (this includes no records at all). */
  predicate AllAbsent(records: seq<Record>)
  {
    forall i :: 0 <= i < |records| ==> records[i].value.None?
  }

  /**
   * The values of the records that are present, in record order; records
   * whose value is absent contribute nothing.
   */
  function NumericValues(records: seq<Record>): (vs: seq<real>)
    ensures |vs| <= |records|
  {
    if records == [] then []
    else
      match records[0].value
      case Some(v) => [v] + NumericValues(records[1..])
      case None => NumericValues(records[1..])
  }

  /** A record set has no numeric value exactly when every value in it is absent. */
  lemma {:induction false} NoValuesIffAllAbsent(records: seq<Record>)
    ensures |NumericValues(records)| == 0 <==> AllAbsent(records)
  {
    if records != [] {
      NoValuesIffAllAbsent(records[1..]);
      if AllAbsent(records) {
        forall i | 0 <= i < |records[1..]| ensures records[1..][i].value.None? {
          assert records[1..][i] == records[i + 1];
        }
      }
    }
  }

  /**
   * Every value present in the records is among the numeric values, and
   * every numeric value comes from some record.
   */
  lemma {:induction false} NumericValuesMembers(records: seq<Record>)
    ensures forall i :: 0 <= i < |records| && records[i].value.Some? ==> records[i].value.value in NumericValues(records)
    ensures forall v :: v in NumericValues(records) ==> exists i :: 0 <= i < |records| && records[i].value == Some(v)
  {
    if records != [] {
      var rest := records[1..];
      NumericValuesMembers(rest);
      forall i | 1 <= i < |records| && records[i].value.Some?
        ensures records[i].value.value in NumericValues(records)
      {
        assert records[i] == rest[i - 1];
      }
      forall v | v in NumericValues(records)
        ensures exists i :: 0 <= i < |records| && records[i].value == Some(v)
      {
        if v !in NumericValues(rest) {
          assert records[0].value == Some(v);
        } else {
          var j :| 0 <= j < |rest| && rest[j].value == Some(v);
          assert records[j + 1].value == Some(v);
        }
      }
    }
  }

  /** Sum of a sequence of values, as Python's `sum` computes it (exactly, over the reals). */
  function Sum(vs: seq<real>): real
  {
    if vs == [] then 0.0 else vs[0] + Sum(vs[1..])
  }

  /** The sum and count of the numeric values of `records`. */
  function TotalsOf(records: seq<Record>): (t: Totals)
    ensures t.count <= |records|
    ensures t.count == 0 ==> t.sum == 0.0
  {
    var vs := NumericValues(records);
    Totals(Sum(vs), |vs|)
  }

  /** The records of consecutive batches, one after the other. */
  function Flatten(batches: seq<seq<Record>>): (all: seq<Record>)
  {
    if batches == [] then []
    else Flatten(batches[..|batches| - 1]) + batches[|batches| - 1]
  }

  /** The totals of each batch, added up batch by batch. */
  function AddAll(batches: seq<seq<Record>>): Totals
  {
    if batches == [] then NoTotals
    else AddAll(batches[..|batches| - 1]).Plus(TotalsOf(batches[|batches| - 1]))
  }

  /** One record contributes its value when present and nothing otherwise. */
  lemma NumericValuesSingleton(r: Record)
    ensures NumericValues([r]) == if r.value.Some? then [r.value.value] else []
  {
  }

  /**
   * The values of two runs of records one after the other are the values of
   * the first run followed by those of the second: order and multiplicity
   * are kept.
   */
  lemma {:induction false} NumericValuesAppend(a: seq<Record>, b: seq<Record>)
    ensures NumericValues(a + b) == NumericValues(a) + NumericValues(b)
  {
    if a != [] {
      assert (a + b)[1..] == a[1..] + b;
      NumericValuesAppend(a[1..], b);
    } else {
      assert a + b == b;
    }
  }

  lemma {:induction false} SumAppend(a: seq<real>, b: seq<real>)
    ensures Sum(a + b) == Sum(a) + Sum(b)
  {
    if a != [] {
      assert (a + b)[1..] == a[1..] + b;
      SumAppend(a[1..], b);
    } else {
      assert a + b == b;
    }
  }

  /** Aggregating two runs of records one after the other is aggregating their concatenation. */
  lemma TotalsAppend(a: seq<Record>, b: seq<Record>)
    ensures TotalsOf(a + b) == TotalsOf(a).Plus(TotalsOf(b))
  {
    NumericValuesAppend(a, b);
    SumAppend(NumericValues(a), NumericValues(b));
  }

  lemma FlattenSnoc(batches: seq<seq<Record>>, b: seq<Record>)
    ensures Flatten(batches + [b]) == Flatten(batches) + b
  {
  }

  /** Taking one more batch into a prefix of batches adds that batch's totals. */
  lemma TotalsOfPrefixStep(batches: seq<seq<Record>>, i: nat)
    requires i < |batches|
    ensures TotalsOf(Flatten(batches[..i + 1])) == TotalsOf(Flatten(batches[..i])).Plus(TotalsOf(batches[i]))
  {
    assert batches[..i + 1] == batches[..i] + [batches[i]];
    FlattenSnoc(batches[..i], batches[i]);
    TotalsAppend(Flatten(batches[..i]), batches[i]);
  }

  /**
   * Adding up the per-batch sums and counts gives exactly the sum and count
   * of all numeric values of all batches: nothing is lost or counted twice.
   */
  lemma {:induction false} AddAllIsTotalsOfFlatten(batches: seq<seq<Record>>)
    ensures AddAll(batches) == TotalsOf(Flatten(batches))
  {
    if batches != [] {
      var init, last := batches[..|batches| - 1], batches[|batches| - 1];
      AddAllIsTotalsOfFlatten(init);
      TotalsAppend(Flatten(init), last);
    }
  }
}
