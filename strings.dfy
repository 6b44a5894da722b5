/** String joining as done by `Array.prototype.join`, and a reference splitter to read a join back. */
module Strings {

  /** `parts.join(sep)`: the parts in order with `sep` between neighbours; `[]` joins to `""`. */
  function Join(parts: seq<string>, sep: string): string {
    if |parts| == 0 then ""
    else if |parts| == 1 then parts[0]
    else parts[0] + sep + Join(parts[1..], sep)
  }

  /** `s.split(c)`: the maximal runs of characters other than `c`, so `Split("", c) == [""]`. */
  function Split(s: string, c: char): (r: seq<string>)
    ensures |r| >= 1
    decreases |s|
  {
    if |s| == 0 then [""]
    else
      var rest := Split(s[1..], c);
      if s[0] == c then [""] + rest
      else [[s[0]] + rest[0]] + rest[1..]
  }

  /** Neither part contains the separator character. */
  predicate FreeOf(parts: seq<string>, c: char) {
    forall i :: 0 <= i < |parts| ==> c !in parts[i]
  }

  /** A string without the separator splits into itself. */
  lemma {:induction false} SplitFree(a: string, c: char)
    requires c !in a
    ensures Split(a, c) == [a]
    decreases |a|
  {
    if |a| > 0 {
      SplitFree(a[1..], c);
      assert [a[0]] + a[1..] == a;
    }
  }

  /** Splitting at the first separator yields the text before it, then the split of the rest. */
  lemma {:induction false} SplitAtFirst(a: string, c: char, b: string)
    requires c !in a
    ensures Split(a + [c] + b, c) == [a] + Split(b, c)
    decreases |a|
  {
    var s := a + [c] + b;
    if |a| == 0 {
      assert s[0] == c && s[1..] == b;
    } else {
      assert s[0] == a[0];
      assert s[1..] == a[1..] + [c] + b;
      SplitAtFirst(a[1..], c, b);
      assert [a[0]] + a[1..] == a;
    }
  }

  /** Joining lines by a character none of them contains, then splitting by it, gives the lines back. */
  lemma {:induction false} SplitJoin(parts: seq<string>, c: char)
    requires |parts| > 0
    requires FreeOf(parts, c)
    ensures Split(Join(parts, [c]), c) == parts
    decreases |parts|
  {
    if |parts| == 1 {
      SplitFree(parts[0], c);
    } else {
      assert c !in parts[0];
      SplitJoin(parts[1..], c);
      SplitAtFirst(parts[0], c, Join(parts[1..], [c]));
      assert [parts[0]] + parts[1..] == parts;
    }
  }
}
