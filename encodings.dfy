/**
 * read_csv_with_encoding: try a fixed list of encodings in order and keep
 * the first one under which the file decodes.
 */
module Encodings {
  import opened Tables

  datatype Encoding = Utf8 | Utf8Sig | Iso88591 | Cp1252

  /** `['utf-8', 'utf-8-sig', 'iso-8859-1', 'cp1252']`, tried in this order. */
  const EncodingOrder: seq<Encoding> := [Utf8, Utf8Sig, Iso88591, Cp1252]

  /** What `pd.read_csv(file_path, encoding=e)` does: parse, raise UnicodeDecodeError, or raise anything else. */
  datatype ReadAttempt = Parsed(table: Table) | DecodeError | OtherError

  /** Encoding `i` is the one reached: every encoding before it raised a decode error. */
  predicate ReachedAt(attempt: Encoding -> ReadAttempt, i: int) {
    0 <= i < |EncodingOrder| && forall j :: 0 <= j < i ==> attempt(EncodingOrder[j]).DecodeError?
  }

  /**
   * The outcome of trying the encodings from position k on: the first
   * attempt that does not raise a decode error decides it.
   */
  function ReadFrom(attempt: Encoding -> ReadAttempt, k: nat): (r: Result<Table, Error>)
    ensures r.Success? ==> exists i :: k <= i < |EncodingOrder| && attempt(EncodingOrder[i]) == Parsed(r.value)
    decreases |EncodingOrder| - k
  {
    if k >= |EncodingOrder| then Failure(UndecodableFile)
    else match attempt(EncodingOrder[k])
      case Parsed(t) => Success(t)
      case OtherError => Failure(ReadFailed)
      case DecodeError => ReadFrom(attempt, k + 1)
  }

  /**
   * Returns the table of the first encoding that does not raise a decode
   * error; any other exception from that attempt propagates; ValueError only
   * when all four raised a decode error.
   */
  method ReadCsvWithEncoding(attempt: Encoding -> ReadAttempt) returns (r: Result<Table, Error>)
    ensures r.Success? <==> exists i :: ReachedAt(attempt, i) && attempt(EncodingOrder[i]).Parsed?
    ensures r.Success? ==> exists i :: ReachedAt(attempt, i) && attempt(EncodingOrder[i]) == Parsed(r.value)
    ensures r == Failure(ReadFailed) <==> exists i :: ReachedAt(attempt, i) && attempt(EncodingOrder[i]).OtherError?
    ensures r == Failure(UndecodableFile) <==>
              forall i :: 0 <= i < |EncodingOrder| ==> attempt(EncodingOrder[i]).DecodeError?
    ensures r.Failure? ==> r.error == ReadFailed || r.error == UndecodableFile
    ensures r == ReadFrom(attempt, 0)
  {
    var k := 0;
    while k < |EncodingOrder|
      invariant 0 <= k <= |EncodingOrder|
      invariant forall j :: 0 <= j < k ==> attempt(EncodingOrder[j]).DecodeError?
      invariant ReadFrom(attempt, k) == ReadFrom(attempt, 0)
    {
      match attempt(EncodingOrder[k])
      case Parsed(t) =>
        assert ReachedAt(attempt, k);
        return Success(t);
      case OtherError =>
        assert ReachedAt(attempt, k);
        return Failure(ReadFailed);
      case DecodeError =>
        k := k + 1;
    }
    return Failure(UndecodableFile);
  }
}
