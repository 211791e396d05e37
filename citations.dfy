/**
 * `dict(zip(years, citations))` in search_details: the yearly citation
 * history as a map from year label to count label.
 */
module Citations {

  function Min(a: nat, b: nat): nat {
    if a <= b then a else b
  }

  /**
   * The dict built from the pairs of the first min(|years|, |counts|)
   * positions, inserted in order, so that a repeated year keeps the later
   * pair's count.
   */
  function ZipDict(years: seq<string>, counts: seq<string>): (d: map<string, string>)
    ensures forall y :: y in d <==> exists i :: 0 <= i < Min(|years|, |counts|) && years[i] == y
    decreases |years|
  {
    var n := Min(|years|, |counts|);
    if n == 0 then map[]
    else ZipDict(years[..n - 1], counts[..n - 1])[years[n - 1] := counts[n - 1]]
  }

  /** Surplus labels beyond the shorter list are ignored, as zip drops them. */
  lemma {:induction false} ZipDictIgnoresSurplus(years: seq<string>, counts: seq<string>)
    ensures var n := Min(|years|, |counts|);
            ZipDict(years, counts) == ZipDict(years[..n], counts[..n])
  {
    var n := Min(|years|, |counts|);
    if n > 0 {
      assert years[..n][..n - 1] == years[..n - 1];
      assert counts[..n][..n - 1] == counts[..n - 1];
    }
  }

  /** The count stored for a year is the one of the last pair carrying that year. */
  lemma {:induction false} ZipDictLaterPairWins(years: seq<string>, counts: seq<string>, i: nat)
    requires i < Min(|years|, |counts|)
    requires forall j :: i < j < Min(|years|, |counts|) ==> years[j] != years[i]
    ensures years[i] in ZipDict(years, counts)
    ensures ZipDict(years, counts)[years[i]] == counts[i]
    decreases |years|
  {
    var n := Min(|years|, |counts|);
    if i < n - 1 {
      ZipDictLaterPairWins(years[..n - 1], counts[..n - 1], i);
    }
  }
}
