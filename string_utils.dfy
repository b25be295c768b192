/** `truncate` and `capitalize`. Case mapping is the ASCII one of module Text. */
module StringUtils {
  import opened Text

  /** `truncate(str, maxLength, suffix)`. When the string is cut, the cut
      keeps `maxLength - |suffix|` characters, so the suffix must fit. */
  function Truncate(str: string, maxLength: nat, suffix: string): (r: string)
    requires |str| > maxLength ==> |suffix| <= maxLength
    // a string that fits is returned as it is
    ensures |str| <= maxLength ==> r == str
    // otherwise the result is exactly maxLength long: a prefix of str, then the suffix
    ensures |str| > maxLength ==>
      && |r| == maxLength
      && r[..maxLength - |suffix|] == str[..maxLength - |suffix|]
      && r[maxLength - |suffix|..] == suffix
  {
    if |str| <= maxLength then str else str[..maxLength - |suffix|] + suffix
  }

  /** `truncate` with its default suffix `"..."`. */
  function TruncateWithEllipsis(str: string, maxLength: nat): (r: string)
    requires |str| > maxLength ==> 3 <= maxLength
    ensures |r| <= maxLength
    ensures |str| <= maxLength ==> r == str
    ensures |str| > maxLength ==> |r| == maxLength && r[|r| - 3..] == "..."
  {
    Truncate(str, maxLength, "...")
  }

  /** The result never exceeds the limit, so truncating again changes nothing. */
  lemma TruncateIdempotent(str: string, maxLength: nat, suffix: string)
    requires |suffix| <= maxLength
    ensures |Truncate(str, maxLength, suffix)| <= maxLength
    ensures Truncate(Truncate(str, maxLength, suffix), maxLength, suffix) == Truncate(str, maxLength, suffix)
  {
  }

  /** `capitalize`: the first character upper-cased, the rest lower-cased. */
  function Capitalize(str: string): (r: string)
    ensures |r| == |str|
    ensures str != [] ==> r[0] == ToUpperChar(str[0])
    ensures forall k :: 1 <= k < |str| ==> r[k] == ToLowerChar(str[k])
  {
    if str == [] then str else [ToUpperChar(str[0])] + ToLower(str[1..])
  }

  /** A capitalized string is its own capitalization. */
  lemma CapitalizeIdempotent(str: string)
    ensures Capitalize(Capitalize(str)) == Capitalize(str)
  {
    var once := Capitalize(str);
    var twice := Capitalize(once);
    assert |twice| == |once|;
    forall k | 0 <= k < |once|
      ensures twice[k] == once[k]
    {
      if k == 0 {
        assert twice[0] == ToUpperChar(ToUpperChar(str[0]));
      } else {
        assert twice[k] == ToLowerChar(ToLowerChar(str[k]));
      }
    }
  }
}
