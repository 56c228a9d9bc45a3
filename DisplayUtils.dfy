/** The two pure text helpers of DisplayUtils: centring a title and shortening a description. */
module DisplayUtils {

  function Max(a: int, b: int): int { if a >= b then a else b }

  /** Java's int division, which truncates toward zero (Dafny's / is Euclidean). */
  function JavaDiv(a: int, b: int): int
    requires b > 0
  {
    if a >= 0 then a / b else -((-a) / b)
  }

  /** " ".repeat(count), where the caller has already clamped count at zero. */
  function Spaces(count: nat): string {
    seq(count, _ => ' ')
  }

  /** centerText: pad on the left by half the slack and on the right by the rest. */
  function CenterText(text: string, width: int): string {
    var padding := JavaDiv(width - |text|, 2);
    Spaces(Max(0, padding)) + text + Spaces(Max(0, width - |text| - padding))
  }

  /** The centred text is exactly as wide as the larger of the width and the text. */
  lemma CenterTextLength(text: string, width: int)
    ensures |CenterText(text, width)| == Max(width, |text|)
  {
  }

  /** A width that leaves no room for padding returns the text unchanged. */
  lemma CenterTextNoRoom(text: string, width: int)
    requires width <= |text|
    ensures CenterText(text, width) == text
  {
    var padding := JavaDiv(width - |text|, 2);
    assert Max(0, padding) == 0 && Max(0, width - |text| - padding) == 0;
    assert Spaces(0) == [];
  }

  /**
   * With room to spare the text sits at offset left = (width - |text|) / 2,
   * the right pad is the remainder, and the two pads differ by at most one.
   */
  lemma CenterTextPadding(text: string, width: int)
    requires width > |text|
    ensures var left := (width - |text|) / 2;
      var right := width - |text| - left;
      var r := CenterText(text, width);
      && left <= right <= left + 1
      && r == Spaces(left) + text + Spaces(right)
      && r[left..left + |text|] == text
      && (forall i :: 0 <= i < left ==> r[i] == ' ')
      && (forall i :: left + |text| <= i < |r| ==> r[i] == ' ')
  {
    var left := (width - |text|) / 2;
    var right := width - |text| - left;
    var r := CenterText(text, width);
    assert r == Spaces(left) + text + Spaces(right);
    assert r[left..left + |text|] == text;
  }

  /** truncate: keep a short text, otherwise cut it to maxLength - 3 characters and append "...". */
  function Truncate(text: string, maxLength: int): string
    requires |text| <= maxLength || maxLength >= 3  // String.substring throws for a negative end
  {
    if |text| <= maxLength then text else text[..maxLength - 3] + "..."
  }

  /** A text that fits is returned unchanged; a longer one becomes exactly maxLength long, a prefix followed by "...". */
  lemma TruncateShape(text: string, maxLength: int)
    requires |text| <= maxLength || maxLength >= 3
    ensures |text| <= maxLength ==> Truncate(text, maxLength) == text
    ensures |text| > maxLength ==>
      && |Truncate(text, maxLength)| == maxLength
      && Truncate(text, maxLength)[..maxLength - 3] == text[..maxLength - 3]
      && Truncate(text, maxLength)[maxLength - 3..] == "..."
  {
  }

  /** Truncating twice is truncating once. */
  lemma TruncateIdempotent(text: string, maxLength: int)
    requires maxLength >= 3
    ensures |Truncate(text, maxLength)| <= maxLength
    ensures Truncate(Truncate(text, maxLength), maxLength) == Truncate(text, maxLength)
  {
  }
}
