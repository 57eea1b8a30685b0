/** Integer clamps and string truncation shared by several tools. */
module Text {

  /** Python's `min(a, b)`. */
  function Min(a: int, b: int): (m: int)
    ensures m <= a && m <= b
    ensures m == a || m == b
  {
    if a <= b then a else b
  }

  /** Python's `max(a, b)`. */
  function Max(a: int, b: int): (m: int)
    ensures m >= a && m >= b
    ensures m == a || m == b
  {
    if a >= b then a else b
  }

  /** Python's slice `s[:n]`: the first `n` characters, or all of `s` when it is shorter. */
  function Prefix(s: string, n: nat): (p: string)
    ensures |p| == Min(|s|, n)
    ensures p <= s
    ensures |s| <= n ==> p == s
  {
    s[..Min(|s|, n)]
  }

  /** `s[:width] + ('...' if len(s) > width else '')`: a preview cut at `width` characters,
      marked with an ellipsis exactly when something was cut. */
  function Ellipsize(s: string, width: nat): (r: string)
    ensures |s| <= width ==> r == s
    ensures |s| > width ==> |r| == width + 3 && r[..width] == s[..width] && r[width..] == "..."
    ensures |s| > width ==> r == s[..width] + "..."
  {
    Prefix(s, width) + (if |s| > width then "..." else "")
  }

  /** Shortening a preview a second time changes nothing. */
  lemma EllipsizeIdempotent(s: string, width: nat)
    ensures Ellipsize(Ellipsize(s, width), width) == Ellipsize(s, width)
  {
    if |s| > width {
      var r := Ellipsize(s, width);
      assert r == r[..width] + r[width..];
    }
  }
}
