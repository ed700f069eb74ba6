/**
 * The description shortener of the exercise card: a text longer than the
 * limit is cut to its first `maxLength` characters and marked with "...".
 */
module ExerciseCard {
  import opened Text

  const Ellipsis: string := "..."

  /** `substring(0, n)` treats a negative end as 0. */
  function KeptLength(maxLength: int): nat {
    if maxLength < 0 then 0 else maxLength
  }

  /** `truncate(text, maxLength)` */
  function Truncate(text: string, maxLength: int): (r: string)
    ensures |text| <= maxLength ==> r == text
    ensures |text| > maxLength ==>
      |r| == KeptLength(maxLength) + 3 && r[..|r| - 3] <= text && r[|r| - 3..] == Ellipsis
    ensures |r| <= KeptLength(maxLength) + 3
    ensures r == text || r[..|r| - 3] <= text
  {
    if |text| > maxLength then Prefix(text, KeptLength(maxLength)) + Ellipsis else text
  }

  /** Truncating a card text a second time with the same limit changes nothing:
      a shortened text is exactly three characters over the limit, so it is cut
      back to the same prefix and marked again. */
  lemma TruncateIdempotent(text: string, maxLength: int)
    ensures Truncate(Truncate(text, maxLength), maxLength) == Truncate(text, maxLength)
  {
    var once := Truncate(text, maxLength);
    if |text| > maxLength {
      var n := KeptLength(maxLength);
      assert once == text[..n] + Ellipsis;
      assert Prefix(once, n) == text[..n];
    }
  }

  /** Two long texts that agree on their first `maxLength` characters show the same card text. */
  lemma SamePrefixSameCard(t: string, u: string, maxLength: int)
    requires |t| > maxLength && |u| > maxLength
    requires t[..KeptLength(maxLength)] == u[..KeptLength(maxLength)]
    ensures Truncate(t, maxLength) == Truncate(u, maxLength)
  {
  }
}
