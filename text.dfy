/** Plain text helpers shared by the modules that cut strings at a separator. */
module Text {

  /** The first field of `s`: its text before the first `sep` (all of `s` when there is none). */
  function FirstField(s: string, sep: char): (f: string)
    ensures sep !in f
    decreases |s|
  {
    if s == [] || s[0] == sep then [] else [s[0]] + FirstField(s[1..], sep)
  }

  /** The text of `s` after the first `c` (empty when there is none). */
  function AfterSeparator(s: string, c: char): string
  {
    if s == [] then [] else if s[0] == c then s[1..] else AfterSeparator(s[1..], c)
  }

  /** A head without `c`, then `c`, then anything: both parts can be read back. */
  lemma {:induction false} SplitAtSeparator(a: string, b: string, c: char)
    requires c !in a
    ensures FirstField(a + [c] + b, c) == a
    ensures AfterSeparator(a + [c] + b, c) == b
    decreases |a|
  {
    if a == [] {
      assert a + [c] + b == [c] + b;
    } else {
      assert (a + [c] + b)[1..] == a[1..] + [c] + b;
      SplitAtSeparator(a[1..], b, c);
    }
  }
}
