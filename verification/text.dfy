/** The output bound every formatted tool reply passes through (`truncate_text`). */
module Text {

  /** `CHARACTER_LIMIT` */
  const CharacterLimit: int := 25000

  /** The marker appended to truncated text. */
  const Marker: string := "..."

  /** Python's `s[:k]`: a negative `k` counts from the end and clamps at the start. */
  function SliceTo(s: string, k: int): (r: string)
    ensures r <= s
    ensures k >= 0 ==> |r| == (if k <= |s| then k else |s|)
    ensures k < 0 ==> |r| == (if |s| + k >= 0 then |s| + k else 0)
  {
    if k >= 0 then (if k <= |s| then s[..k] else s)
    else if |s| + k >= 0 then s[..|s| + k]
    else []
  }

  /**
   `truncate_text(text, max_length)`: text that fits is returned as is;
   otherwise the marker replaces the tail, keeping exactly `maxLength`
   characters when there is room for the marker.
   */
  function Truncate(text: string, maxLength: int): (r: string)
    ensures |text| <= maxLength ==> r == text
    ensures |text| > maxLength ==> |r| >= 3 && r[|r| - 3..] == Marker
    ensures |text| > maxLength && maxLength >= 3 ==>
              |r| == maxLength && r[..maxLength - 3] == text[..maxLength - 3]
    ensures maxLength >= 3 ==> |r| <= maxLength
  {
    if |text| <= maxLength then text else SliceTo(text, maxLength - 3) + Marker
  }

  /** `truncate_text(text)` with its default limit, as every formatter calls it. */
  function Limit(text: string): (r: string)
    ensures |r| <= CharacterLimit
    ensures |text| <= CharacterLimit ==> r == text
    ensures |text| > CharacterLimit ==> r == text[..CharacterLimit - 3] + Marker
  {
    Truncate(text, CharacterLimit)
  }

  /** Truncating twice changes nothing once the limit leaves room for the marker. */
  lemma TruncateIdempotent(text: string, maxLength: int)
    requires maxLength >= 3
    ensures Truncate(Truncate(text, maxLength), maxLength) == Truncate(text, maxLength)
  {
  }

  /**
   Below three the slice end is negative and Python counts it from the end,
   so a truncated result is longer than the limit it was asked to meet.
   */
  lemma SmallLimitOverflows(text: string, maxLength: int)
    requires 0 <= maxLength < 3 && |text| > maxLength
    ensures |Truncate(text, maxLength)| > maxLength
  {
  }

  /** A truncated text keeps the longest prefix of the original that leaves room for the marker. */
  lemma TruncateKeepsPrefix(text: string, maxLength: int)
    requires maxLength >= 3 && |text| > maxLength
    ensures Truncate(text, maxLength) == text[..maxLength - 3] + Marker
  {
  }
}
