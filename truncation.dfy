/** The truncation rule shared by the PDF text, the file content and the Selenium page text. */
module Truncation {
  import opened Outcomes

  /** Longest text passed on unchanged. */
  const Limit: nat := 5000

  /** Appended after the first `Limit` characters of a longer text. */
  const Marker: string := "\n... (truncated)"

  /** The longest text `Truncate` can return. */
  const MaxLength: nat := Limit + |Marker|

  /** Cut a text longer than `Limit` to its first `Limit` characters and mark the cut. */
  function Truncate(text: string): (r: string)
    ensures |r| <= MaxLength
    ensures |text| <= Limit ==> r == text
    ensures |text| > Limit ==> |r| == MaxLength && EndsWith(r, Marker)
    ensures r[..Min(|text|, Limit)] == text[..Min(|text|, Limit)]
  {
    if |text| > Limit then text[..Limit] + Marker else text
  }

  function Min(a: nat, b: nat): nat {
    if a <= b then a else b
  }

  /** A text that went through the rule once is left alone the second time:
      a cut text is exactly `Limit` characters plus the marker, and cutting it again
      keeps the same `Limit` characters and puts the same marker back. */
  lemma TruncateIdempotent(text: string)
    ensures Truncate(Truncate(text)) == Truncate(text)
  {
    if |text| > Limit {
      var once := Truncate(text);
      assert once[..Limit] == text[..Limit];
    }
  }

  /** The result depends only on the first `Limit` characters when the text is longer
      than that: texts that agree there are cut to the same result. */
  lemma TruncateSeesOnlyPrefix(a: string, b: string)
    requires |a| > Limit && |b| > Limit
    requires a[..Limit] == b[..Limit]
    ensures Truncate(a) == Truncate(b)
  {
  }
}
