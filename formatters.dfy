/** The text helpers used by the product cards and the category chips. */
module Formatters {
  import opened Catalog
  import opened Text

  /** The single character `…` (U+2026) appended to shortened text. */
  const Ellipsis: char := '\U{2026}'

  /** The default `maxLength` of `truncateText`. */
  const DefaultMaxLength: nat := 50

  /**
   * `truncateText(text, maxLength = 50)`. An absent or empty text gives the empty
   * string; a text of at most `maxLength` characters comes back unchanged; a longer
   * one is cut to its first `maxLength` characters followed by the ellipsis.
   */
  function TruncateText(text: Option<string>, maxLength: nat := DefaultMaxLength): (r: string)
    ensures text.None? || text.value == [] ==> r == []
    ensures text.Some? && |text.value| <= maxLength ==> r == text.value
    ensures text.Some? && |text.value| > maxLength ==>
      |r| == maxLength + 1 && r[..maxLength] == text.value[..maxLength] && r[maxLength] == Ellipsis
  {
    if text.None? || text.value == [] then []
    else if |text.value| > maxLength then text.value[..maxLength] + [Ellipsis]
    else text.value
  }

  /**
   * Whatever the input, the result is at most one character longer than the limit,
   * and apart from a trailing ellipsis it is a prefix of the text.
   */
  lemma TruncateBounds(text: Option<string>, maxLength: nat)
    ensures |TruncateText(text, maxLength)| <= maxLength + 1
    ensures text.Some? ==>
      var r := TruncateText(text, maxLength);
      r <= text.value || (r[..|r| - 1] <= text.value && r[|r| - 1] == Ellipsis)
  {
  }

  /** Truncating an already truncated text to the same limit changes nothing. */
  lemma TruncateIdempotent(text: Option<string>, maxLength: nat)
    ensures TruncateText(Some(TruncateText(text, maxLength)), maxLength) == TruncateText(text, maxLength)
  {
    var r := TruncateText(text, maxLength);
    if text.Some? && |text.value| > maxLength {
      assert r[..maxLength] + [Ellipsis] == r;
    }
  }

  /**
   * `capitalize(str)`. An absent or empty string gives the empty string; otherwise the
   * first character is upper-cased and the rest is kept.
   */
  function Capitalize(str: Option<string>): (r: string)
    ensures str.None? || str.value == [] ==> r == []
    ensures str.Some? && str.value != [] ==>
      |r| == |str.value| && r[0] == UpperChar(str.value[0]) && r[1..] == str.value[1..]
  {
    if str.None? || str.value == [] then []
    else [UpperChar(str.value[0])] + str.value[1..]
  }

  /** Capitalizing twice is capitalizing once. */
  lemma CapitalizeIdempotent(str: Option<string>)
    ensures Capitalize(Some(Capitalize(str))) == Capitalize(str)
  {
    var r := Capitalize(str);
    if r != [] {
      assert UpperChar(r[0]) == r[0];
      assert [r[0]] + r[1..] == r;
    }
  }

  /** Capitalizing changes case only: the lower-cased result is the lower-cased input. */
  lemma CapitalizeKeepsLetters(s: string)
    requires s != []
    ensures Lower(Capitalize(Some(s))) == Lower(s)
  {
    var r := Capitalize(Some(s));
    assert LowerChar(UpperChar(s[0])) == LowerChar(s[0]);
    forall i | 0 <= i < |s| ensures Lower(r)[i] == Lower(s)[i] {
      if i > 0 {
        assert r[i] == r[1..][i - 1] == s[i];
      }
    }
  }
}
