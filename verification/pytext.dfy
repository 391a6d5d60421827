/**
 The pieces of Python's `str` and `list` behaviour the GPU checks rely on:
 `str.split()` with no separator, `sep.join(parts)`, and list slicing
 `xs[lo:hi]` with non-negative bounds.
 */
module PyText {

  /** Python's `str.isspace` for one character, which is what `str.split()`
      with no argument splits on: the ASCII controls TAB..CR and FS..US, the
      space, NEL, NO-BREAK SPACE and the remaining Unicode space separators. */
  predicate IsSpace(c: char) {
    var k := c as int;
    || (0x09 <= k <= 0x0D)
    || (0x1C <= k <= 0x20)
    || k == 0x85
    || k == 0xA0
    || k == 0x1680
    || (0x2000 <= k <= 0x200A)
    || k == 0x2028
    || k == 0x2029
    || k == 0x202F
    || k == 0x205F
    || k == 0x3000
  }

  /** A word `str.split()` can produce: non-empty, no whitespace in it. */
  predicate IsToken(t: string) {
    |t| > 0 && forall i :: 0 <= i < |t| ==> !IsSpace(t[i])
  }

  predicate AllTokens(ts: seq<string>) {
    forall i :: 0 <= i < |ts| ==> IsToken(ts[i])
  }

  /** Length of the run of non-whitespace characters that starts `s`. */
  function TokenLength(s: string): (n: nat)
    ensures n <= |s|
    ensures forall i :: 0 <= i < n ==> !IsSpace(s[i])
    ensures n < |s| ==> IsSpace(s[n])
  {
    if s == [] || IsSpace(s[0]) then 0 else 1 + TokenLength(s[1..])
  }

  /** `s.split()`: the maximal runs of non-whitespace characters, in order;
      leading, trailing and repeated whitespace produce no empty words. */
  function Split(s: string): (words: seq<string>)
    ensures AllTokens(words)
    decreases |s|
  {
    if s == [] then []
    else if IsSpace(s[0]) then Split(s[1..])
    else
      var n := TokenLength(s);
      [s[..n]] + Split(s[n..])
  }

  /** `sep.join(parts)`. */
  function Join(sep: string, parts: seq<string>): string
    decreases |parts|
  {
    if |parts| == 0 then ""
    else if |parts| == 1 then parts[0]
    else parts[0] + sep + Join(sep, parts[1..])
  }

  /** `xs[lo:hi]` for non-negative `lo` and `hi`: both bounds are clamped to
      the length, and a slice whose start is past its stop is empty. */
  function Slice<T>(xs: seq<T>, lo: nat, hi: nat): (r: seq<T>)
    ensures |r| == if Min(hi, |xs|) > lo then Min(hi, |xs|) - lo else 0
    ensures forall i :: 0 <= i < |r| ==> lo + i < |xs| && r[i] == xs[lo + i]
  {
    var a := Min(lo, |xs|);
    var b := Min(hi, |xs|);
    if a < b then xs[a..b] else []
  }

  function Min(a: nat, b: nat): nat {
    if a <= b then a else b
  }

  /** The characters of `s` that are not whitespace, in order. */
  function NonSpace(s: string): string {
    if s == [] then ""
    else if IsSpace(s[0]) then NonSpace(s[1..])
    else [s[0]] + NonSpace(s[1..])
  }

  /** The concatenation of all words. */
  function Concat(words: seq<string>): string {
    if words == [] then "" else words[0] + Concat(words[1..])
  }

  lemma {:induction false} NonSpaceAppend(a: string, b: string)
    ensures NonSpace(a + b) == NonSpace(a) + NonSpace(b)
    decreases |a|
  {
    if a == [] {
      assert a + b == b;
    } else {
      assert (a + b)[1..] == a[1..] + b;
      NonSpaceAppend(a[1..], b);
    }
  }

  lemma {:induction false} NonSpaceOfToken(t: string)
    requires forall i :: 0 <= i < |t| ==> !IsSpace(t[i])
    ensures NonSpace(t) == t
    decreases |t|
  {
    if t != [] {
      NonSpaceOfToken(t[1..]);
    }
  }

  /** `split()` drops exactly the whitespace: gluing the words back together
      gives every other character of the input, in order. */
  lemma {:induction false} SplitKeepsNonSpace(s: string)
    ensures Concat(Split(s)) == NonSpace(s)
    decreases |s|
  {
    if s == [] {
    } else if IsSpace(s[0]) {
      SplitKeepsNonSpace(s[1..]);
    } else {
      var n := TokenLength(s);
      var rest := Split(s[n..]);
      assert Split(s) == [s[..n]] + rest;
      assert ([s[..n]] + rest)[1..] == rest;
      SplitKeepsNonSpace(s[n..]);
      assert s == s[..n] + s[n..];
      NonSpaceAppend(s[..n], s[n..]);
      NonSpaceOfToken(s[..n]);
    }
  }

  /** A token followed by whitespace: the leading run stops at the token's end. */
  lemma {:induction false} TokenLengthBeforeSpace(s: string, c: char, t: string)
    requires IsSpace(c)
    ensures TokenLength(s + [c] + t) == TokenLength(s)
    decreases |s|
  {
    if s == [] {
      assert (s + [c] + t)[0] == c;
    } else if IsSpace(s[0]) {
      assert (s + [c] + t)[0] == s[0];
    } else {
      assert (s + [c] + t)[0] == s[0];
      assert (s + [c] + t)[1..] == s[1..] + [c] + t;
      TokenLengthBeforeSpace(s[1..], c, t);
    }
  }

  /** Splitting at a whitespace character splits the two sides independently. */
  lemma {:induction false} SplitAtSpace(s: string, c: char, t: string)
    requires IsSpace(c)
    ensures Split(s + [c] + t) == Split(s) + Split(t)
    decreases |s|
  {
    var u := s + [c] + t;
    if s == [] {
      assert u[0] == c;
      assert u[1..] == t;
    } else if IsSpace(s[0]) {
      assert u[0] == s[0];
      assert u[1..] == s[1..] + [c] + t;
      SplitAtSpace(s[1..], c, t);
    } else {
      assert u[0] == s[0];
      var n := TokenLength(s);
      TokenLengthBeforeSpace(s, c, t);
      assert TokenLength(u) == n;
      assert u[..n] == s[..n];
      assert u[n..] == s[n..] + [c] + t;
      SplitAtSpace(s[n..], c, t);
    }
  }

  /** A non-empty run of whitespace, as the query tool pads its columns with. */
  predicate IsGap(g: string) {
    |g| > 0 && forall i :: 0 <= i < |g| ==> IsSpace(g[i])
  }

  /** A whitespace run of any length separates the two sides like one
      whitespace character. */
  lemma {:induction false} SplitAtGap(s: string, g: string, t: string)
    requires IsGap(g)
    ensures Split(s + g + t) == Split(s) + Split(t)
    decreases |g|
  {
    if |g| == 1 {
      assert s + g + t == s + [g[0]] + t;
      SplitAtSpace(s, g[0], t);
    } else {
      assert s + g + t == s + [g[0]] + (g[1..] + t);
      SplitAtSpace(s, g[0], g[1..] + t);
      SplitAtGap([], g[1..], t);
      assert [] + g[1..] + t == g[1..] + t;
    }
  }

  /** A run of whitespace acts as one separator: doubling a whitespace
      character changes nothing. */
  lemma SplitCollapsesSpace(s: string, c: char, d: char, t: string)
    requires IsSpace(c) && IsSpace(d)
    ensures Split(s + [c, d] + t) == Split(s + [c] + t)
  {
    SplitAtGap(s, [c, d], t);
    SplitAtSpace(s, c, t);
  }

  /** Words laid out with the gaps between them: `ws[0] gaps[0] ws[1] ...`. */
  function PadJoin(ws: seq<string>, gaps: seq<string>): string
    requires |ws| > 0 && |gaps| == |ws| - 1
    decreases |ws|
  {
    if |ws| == 1 then ws[0] else ws[0] + gaps[0] + PadJoin(ws[1..], gaps[1..])
  }

  /** Round trip for padded layouts: words separated by any whitespace runs
      split back into the same words. */
  lemma {:induction false} SplitPadJoin(ws: seq<string>, gaps: seq<string>)
    requires |ws| > 0 && |gaps| == |ws| - 1
    requires AllTokens(ws)
    requires forall i :: 0 <= i < |gaps| ==> IsGap(gaps[i])
    ensures Split(PadJoin(ws, gaps)) == ws
    decreases |ws|
  {
    SplitOfToken(ws[0]);
    if |ws| > 1 {
      SplitAtGap(ws[0], gaps[0], PadJoin(ws[1..], gaps[1..]));
      assert AllTokens(ws[1..]) by {
        forall i | 0 <= i < |ws[1..]|
          ensures IsToken(ws[1..][i])
        {
          assert ws[1..][i] == ws[i + 1];
        }
      }
      assert forall i :: 0 <= i < |gaps[1..]| ==> IsGap(gaps[1..][i]) by {
        forall i | 0 <= i < |gaps[1..]|
          ensures IsGap(gaps[1..][i])
        {
          assert gaps[1..][i] == gaps[i + 1];
        }
      }
      SplitPadJoin(ws[1..], gaps[1..]);
      assert ws == [ws[0]] + ws[1..];
    }
  }

  /** A single token splits into itself. */
  lemma SplitOfToken(t: string)
    requires IsToken(t)
    ensures Split(t) == [t]
  {
    assert TokenLength(t) == |t|;
    assert t[..|t|] == t;
    assert t[|t|..] == [];
  }

  /** Round trip: words joined by one space split back into the same words. */
  lemma {:induction false} SplitJoin(ts: seq<string>)
    requires AllTokens(ts)
    ensures Split(Join(" ", ts)) == ts
    decreases |ts|
  {
    if |ts| == 0 {
    } else if |ts| == 1 {
      SplitOfToken(ts[0]);
    } else {
      var rest := Join(" ", ts[1..]);
      assert Join(" ", ts) == ts[0] + [' '] + rest;
      SplitAtSpace(ts[0], ' ', rest);
      SplitOfToken(ts[0]);
      assert AllTokens(ts[1..]) by {
        forall i | 0 <= i < |ts[1..]|
          ensures IsToken(ts[1..][i])
        {
          assert ts[1..][i] == ts[i + 1];
        }
      }
      SplitJoin(ts[1..]);
      assert ts == [ts[0]] + ts[1..];
    }
  }
}
