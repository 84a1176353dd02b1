/** The forecast half of `bulkInsert`, shared by both providers: records 1..N-1 are
    read in order, each into one forecast day, and the first record that cannot be
    read stops the batch. How a single record becomes a day is the provider's own
    `decode`, which answers None when a primitive field of the record is null. */
module Batch {
  import opened Wrappers
  import opened WeatherData

  /** Decodes every record of `rs` in order; on failure, the position of the first
      record that did not decode. */
  function DecodeEach<D>(rs: seq<Record>, decode: Record -> Option<D>): Result<seq<D>, nat>
  {
    if rs == [] then Ok([])
    else match DecodeEach(rs[..|rs| - 1], decode)
      case Err(k) => Err(k)
      case Ok(ds) =>
        match decode(rs[|rs| - 1])
        case None => Err(|rs| - 1)
        case Some(d) => Ok(ds + [d])
  }

  lemma {:induction false} DecodeEachSpec<D>(rs: seq<Record>, decode: Record -> Option<D>)
    ensures DecodeEach(rs, decode).Ok? <==> forall i :: 0 <= i < |rs| ==> decode(rs[i]).Some?
    ensures DecodeEach(rs, decode).Ok? ==>
      var ds := DecodeEach(rs, decode).value;
      |ds| == |rs| && forall i :: 0 <= i < |rs| ==> decode(rs[i]) == Some(ds[i])
    ensures DecodeEach(rs, decode).Err? ==>
      var k := DecodeEach(rs, decode).error;
      k < |rs| && decode(rs[k]).None? && forall i :: 0 <= i < k ==> decode(rs[i]).Some?
  {
    if rs != [] {
      var front := rs[..|rs| - 1];
      DecodeEachSpec(front, decode);
      assert forall i :: 0 <= i < |front| ==> front[i] == rs[i];
    }
  }

  /** When every record before position k decodes and the one at k does not, the
      whole sequence fails at k, whatever follows. */
  lemma FirstFailure<D>(rs: seq<Record>, decode: Record -> Option<D>, k: nat)
    requires k < |rs| && decode(rs[k]).None?
    requires DecodeEach(rs[..k], decode).Ok?
    ensures DecodeEach(rs, decode) == Err(k)
  {
    DecodeEachSpec(rs[..k], decode);
    DecodeEachSpec(rs, decode);
    assert forall i :: 0 <= i < k ==> rs[..k][i] == rs[i];
  }

  /** The forecast days `bulkInsert` builds from a batch, or the fault it throws while
      building them. */
  function ForecastsOf<D>(records: seq<Record>, decode: Record -> Option<D>): Result<seq<D>, Fault>
  {
    if |records| == 0 then Err(NegativeCapacity)
    else match DecodeEach(records[1..], decode)
      case Ok(ds) => Ok(ds)
      case Err(k) => Err(NullUnboxed(k + 1))
  }

  /** Records 1..N-1 become the forecast days, one each and in order; the first
      unreadable one among them is the record the fault names. */
  lemma ForecastsOfSpec<D>(records: seq<Record>, decode: Record -> Option<D>)
    ensures ForecastsOf(records, decode).Ok? <==>
      |records| >= 1 && forall i :: 1 <= i < |records| ==> decode(records[i]).Some?
    ensures ForecastsOf(records, decode).Ok? ==>
      var ds := ForecastsOf(records, decode).value;
      |ds| == |records| - 1 && forall i :: 0 <= i < |ds| ==> decode(records[i + 1]) == Some(ds[i])
    ensures |records| == 0 <==> ForecastsOf(records, decode) == Err(NegativeCapacity)
    ensures ForecastsOf(records, decode).Err? && |records| >= 1 ==>
      exists k :: 1 <= k < |records| && ForecastsOf(records, decode) == Err(NullUnboxed(k)) &&
        decode(records[k]).None? && forall i :: 1 <= i < k ==> decode(records[i]).Some?
  {
    if |records| >= 1 {
      var tail := records[1..];
      DecodeEachSpec(tail, decode);
      assert forall i :: 0 <= i < |tail| ==> tail[i] == records[i + 1];
      if DecodeEach(tail, decode).Ok? {
        forall i | 1 <= i < |records| ensures decode(records[i]).Some? {
          assert records[i] == tail[i - 1];
        }
      } else {
        var k := DecodeEach(tail, decode).error;
        assert decode(records[k + 1]).None?;
        forall i | 1 <= i < k + 1 ensures decode(records[i]).Some? {
          assert records[i] == tail[i - 1];
        }
      }
    }
  }

  /** The loop of `bulkInsert`: allocate the forecast list with capacity N-1, then
      append one day per record 1..N-1. */
  method ReadForecasts<D>(records: seq<Record>, decode: Record -> Option<D>)
    returns (r: Result<seq<D>, Fault>)
    ensures r == ForecastsOf(records, decode)
    ensures r.Ok? ==> |r.value| == |records| - 1
  {
    var count := |records|;
    if count - 1 < 0 {
      return Err(NegativeCapacity);
    }
    var days: seq<D> := [];
    for indx := 1 to count
      invariant DecodeEach(records[1..indx], decode) == Ok(days)
      invariant |days| == indx - 1
    {
      var day := decode(records[indx]);
      if day.None? {
        assert records[1..][..indx - 1] == records[1..indx];
        FirstFailure(records[1..], decode, indx - 1);
        return Err(NullUnboxed(indx));
      }
      assert records[1..indx + 1][..indx - 1] == records[1..indx];
      days := days + [day.value];
    }
    assert records[1..count] == records[1..];
    r := Ok(days);
  }
}
