/** The two string operations of the scraper: Python's substring test
    `sub in s` and `s.index(c)` for a one-character needle. */
module Text {
  import opened Wrappers

  /** `sub` occurs in `s` starting at position `i`. */
  predicate OccursAt(s: string, sub: string, i: int) {
    0 <= i && i + |sub| <= |s| && s[i..i + |sub|] == sub
  }

  /** Python's `sub in s`. */
  function Contains(s: string, sub: string): (b: bool)
    ensures b <==> exists i :: OccursAt(s, sub, i)
    decreases |s|
  {
    if |sub| > |s| then false
    else if s[..|sub|] == sub then
      assert OccursAt(s, sub, 0);
      true
    else
      var rest := s[1..];
      var b := Contains(rest, sub);
      if b then
        var i :| OccursAt(rest, sub, i);
        assert rest[i..i + |sub|] == s[i + 1..i + 1 + |sub|];
        assert OccursAt(s, sub, i + 1);
        b
      else
        forall i | OccursAt(s, sub, i) ensures OccursAt(rest, sub, i - 1) {
          assert rest[i - 1..i - 1 + |sub|] == s[i..i + |sub|];
        }
        b
  }

  /** Python's `s.index(c)`: the position of the first occurrence of `c`;
      `None` where Python raises ValueError. */
  function IndexOf(s: string, c: char): (r: Option<nat>)
    ensures r.Some? ==> r.value < |s| && s[r.value] == c && c !in s[..r.value]
    ensures r.None? <==> c !in s
  {
    if s == [] then None
    else if s[0] == c then Some(0)
    else
      match IndexOf(s[1..], c)
      case None =>
        assert s == [s[0]] + s[1..];
        None
      case Some(k) =>
        assert s[..k + 1] == [s[0]] + s[1..][..k];
        Some(k + 1)
  }
}
