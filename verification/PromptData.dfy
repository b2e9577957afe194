/** The classification prompt's user text: the citizen's words, stripped of the delimiters around them. */
module PromptData {

  const OPEN := "<<<REPORT"
  const CLOSE := "REPORT>>>"

  predicate StartsWith(s: string, d: string) {
    |d| <= |s| && s[..|d|] == d
  }

  predicate At(s: string, d: string, i: nat) {
    i <= |s| && StartsWith(s[i..], d)
  }

  predicate Contains(s: string, d: string) {
    exists i :: 0 <= i <= |s| && At(s, d, i)
  }

  /** Every leftmost, non-overlapping occurrence goes, as splitting and joining with "" does. */
  function Remove(s: string, d: string): (r: string)
    requires d != ""
    ensures |r| <= |s|
    decreases |s|
  {
    if s == "" then ""
    else if StartsWith(s, d) then Remove(s[|d|..], d)
    else [s[0]] + Remove(s[1..], d)
  }

  function Pass(s: string): (r: string)
    ensures |r| <= |s|
  {
    Remove(Remove(s, OPEN), CLOSE)
  }

  /** The same characters in the same order, some left out. */
  predicate Subsequence(r: string, s: string)
    decreases |s|
  {
    if r == "" then true
    else if s == "" then false
    else if r[0] == s[0] && Subsequence(r[1..], s[1..]) then true
    else Subsequence(r, s[1..])
  }

  lemma {:induction false} SubsequenceRefl(s: string)
    ensures Subsequence(s, s)
    decreases |s|
  {
    if s != "" { SubsequenceRefl(s[1..]); }
  }

  lemma {:induction false} SubsequenceTail(r: string, s: string)
    requires r != "" && Subsequence(r, s)
    ensures s != "" && Subsequence(r[1..], s[1..])
    decreases |s|
  {
    if !(r[0] == s[0] && Subsequence(r[1..], s[1..])) {
      SubsequenceTail(r, s[1..]);
      assert Subsequence(r[1..], s[1..]) by { SubsequenceWider(r[1..], s[1..][1..], s[1..]); }
    }
  }

  lemma SubsequenceWider(r: string, tail: string, s: string)
    requires s != "" && tail == s[1..] && Subsequence(r, tail)
    ensures Subsequence(r, s)
  {
  }

  lemma {:induction false} SubsequenceTransitive(a: string, b: string, c: string)
    requires Subsequence(a, b) && Subsequence(b, c)
    ensures Subsequence(a, c)
    decreases |c|
  {
    if a != "" {
      assert b != "";
      assert c != "";
      if b[0] == c[0] && Subsequence(b[1..], c[1..]) {
        if a[0] == b[0] && Subsequence(a[1..], b[1..]) {
          SubsequenceTransitive(a[1..], b[1..], c[1..]);
        } else {
          SubsequenceTransitive(a, b[1..], c[1..]);
        }
      } else {
        SubsequenceTransitive(a, b, c[1..]);
      }
    }
  }

  lemma {:induction false} RemoveIsSubsequence(s: string, d: string)
    requires d != ""
    ensures Subsequence(Remove(s, d), s)
    decreases |s|
  {
    if s != "" {
      if StartsWith(s, d) {
        RemoveIsSubsequence(s[|d|..], d);
        SuffixWider(Remove(s, d), s, |d|);
      } else {
        RemoveIsSubsequence(s[1..], d);
        assert Remove(s, d)[1..] == Remove(s[1..], d);
      }
    }
  }

  lemma {:induction false} SuffixWider(r: string, s: string, n: nat)
    requires n <= |s| && Subsequence(r, s[n..])
    ensures Subsequence(r, s)
    decreases n
  {
    if n > 0 {
      assert s[1..][n - 1..] == s[n..];
      SuffixWider(r, s[1..], n - 1);
    }
  }

  /** Removal shortens the text exactly when the text contains the delimiter; else it changes nothing. */
  lemma {:induction false} RemoveIff(s: string, d: string)
    requires d != ""
    ensures Contains(s, d) <==> |Remove(s, d)| < |s|
    ensures !Contains(s, d) ==> Remove(s, d) == s
    decreases |s|
  {
    if s == "" {
    } else if StartsWith(s, d) {
      assert At(s, d, 0);
    } else {
      RemoveIff(s[1..], d);
      ContainsTail(s, d);
    }
  }

  lemma ContainsTail(s: string, d: string)
    requires s != "" && d != "" && !StartsWith(s, d)
    ensures Contains(s, d) <==> Contains(s[1..], d)
  {
    if Contains(s, d) {
      var i :| 0 <= i <= |s| && At(s, d, i);
      assert i > 0 by { assert s[0..] == s; }
      assert s[1..][i - 1..] == s[i..];
      assert At(s[1..], d, i - 1);
    }
    if Contains(s[1..], d) {
      var i :| 0 <= i <= |s[1..]| && At(s[1..], d, i);
      assert s[1..][i..] == s[i + 1..];
      assert At(s, d, i + 1);
    }
  }

  /** One pass shortens the text, or it holds no delimiter and stays as it is. */
  lemma PassIff(s: string)
    ensures Pass(s) == s <==> !Contains(s, OPEN) && !Contains(s, CLOSE)
    ensures Pass(s) != s ==> |Pass(s)| < |s|
  {
    RemoveIff(s, OPEN);
    RemoveIff(Remove(s, OPEN), CLOSE);
  }

  /** The text with every delimiter gone, including any that a removal puts together. */
  function AsData(text: string): (r: string)
    ensures |r| <= |text|
    decreases |text|
  {
    PassIff(text);
    if Pass(text) == text then text else AsData(Pass(text))
  }

  method RemoveDelimiters(text: string) returns (data: string)
    ensures data == AsData(text)
  {
    var current := text;
    while true
      invariant AsData(current) == AsData(text)
      decreases |current|
    {
      PassIff(current);
      var next := Remove(Remove(current, OPEN), CLOSE);
      if next == current {
        return current;
      }
      current := next;
    }
  }

  /**
   The result holds neither delimiter, keeps the order of the characters it keeps, and a second pass
   changes nothing.
   */
  lemma {:induction false} AsDataIsClean(text: string)
    ensures !Contains(AsData(text), OPEN) && !Contains(AsData(text), CLOSE)
    ensures Subsequence(AsData(text), text)
    ensures AsData(AsData(text)) == AsData(text)
    ensures AsData(text) == text <==> !Contains(text, OPEN) && !Contains(text, CLOSE)
    decreases |text|
  {
    PassIff(text);
    if Pass(text) == text {
      SubsequenceRefl(text);
    } else {
      AsDataIsClean(Pass(text));
      RemoveIsSubsequence(text, OPEN);
      RemoveIsSubsequence(Remove(text, OPEN), CLOSE);
      SubsequenceTransitive(Pass(text), Remove(text, OPEN), text);
      SubsequenceTransitive(AsData(text), Pass(text), text);
    }
  }

  /** One delimiter has been cut out of the text. */
  predicate Cut(before: string, after: string) {
    exists i :: 0 <= i <= |before| && (CutAt(before, OPEN, i, after) || CutAt(before, CLOSE, i, after))
  }

  predicate CutAt(before: string, d: string, i: nat, after: string) {
    At(before, d, i) && after == before[..i] + before[i..][|d|..]
  }

  /** Each text of the chain is the one before it with one delimiter cut out. */
  predicate IsChain(chain: seq<string>, first: string, last: string) {
    && chain != [] && chain[0] == first && chain[|chain| - 1] == last
    && forall k :: 1 <= k < |chain| ==> Cut(chain[k - 1], chain[k])
  }

  lemma CutHere(before: string, s: string, d: string)
    requires (d == OPEN || d == CLOSE) && StartsWith(s, d)
    ensures Cut(before + s, before + s[|d|..])
  {
    var text := before + s;
    assert text[|before|..] == s && text[..|before|] == before;
    assert CutAt(text, d, |before|, before + s[|d|..]);
  }

  lemma ChainGrows(text: string, chain: seq<string>, first: string, last: string)
    requires Cut(text, first) && IsChain(chain, first, last)
    ensures IsChain([text] + chain, text, last)
  {
  }

  lemma {:induction false} RemoveCuts(before: string, s: string, d: string) returns (chain: seq<string>)
    requires d == OPEN || d == CLOSE
    ensures IsChain(chain, before + s, before + Remove(s, d))
    decreases |s|
  {
    if s == "" {
      chain := [before + s];
    } else if StartsWith(s, d) {
      CutHere(before, s, d);
      var rest := RemoveCuts(before, s[|d|..], d);
      ChainGrows(before + s, rest, before + s[|d|..], before + Remove(s, d));
      chain := [before + s] + rest;
    } else {
      chain := RemoveCuts(before + [s[0]], s[1..], d);
      assert before + [s[0]] + s[1..] == before + s;
      assert before + [s[0]] + Remove(s[1..], d) == before + Remove(s, d);
    }
  }

  lemma ChainsJoin(c: seq<string>, d: seq<string>, first: string, middle: string, last: string)
    requires IsChain(c, first, middle) && IsChain(d, middle, last)
    ensures IsChain(c + d[1..], first, last)
  {
    var e := c + d[1..];
    forall k | 1 <= k < |e| ensures Cut(e[k - 1], e[k]) {
      if k >= |c| { assert e[k] == d[k - |c| + 1] && e[k - 1] == d[k - |c|]; }
    }
  }

  /** Only delimiters go: the result is reached from the text by cutting out one after another. */
  lemma {:induction false} OnlyDelimitersGo(text: string) returns (chain: seq<string>)
    ensures IsChain(chain, text, AsData(text))
    decreases |text|
  {
    PassIff(text);
    if Pass(text) == text {
      chain := [text];
    } else {
      var begun := RemoveCuts("", text, OPEN);
      var closed := RemoveCuts("", Remove(text, OPEN), CLOSE);
      var rest := OnlyDelimitersGo(Pass(text));
      assert "" + text == text && "" + Remove(text, OPEN) == Remove(text, OPEN) && "" + Pass(text) == Pass(text);
      ChainsJoin(begun, closed, text, Remove(text, OPEN), Pass(text));
      ChainsJoin(begun + closed[1..], rest, text, Pass(text), AsData(text));
      chain := begun + closed[1..] + rest[1..];
    }
  }

  // ----- the block around it -----

  /** The citizen's report as the model is shown it. */
  function Wrapped(description: string): string {
    OPEN + "\n" + AsData(description) + "\n" + CLOSE
  }

  lemma AtIndex(s: string, d: string, i: nat, k: nat)
    requires At(s, d, i) && k < |d|
    ensures i + |d| <= |s| && s[i + k] == d[k]
  {
    assert s[i..][..|d|][k] == s[i + k];
  }

  lemma AtWithin(s: string, part: string, d: string, start: nat, i: nat)
    requires start + |part| <= |s| && s[start..start + |part|] == part
    requires At(s, d, i) && start <= i && i + |d| <= start + |part|
    ensures At(part, d, i - start)
  {
    forall k | 0 <= k < |d| ensures part[i - start + k] == d[k] {
      AtIndex(s, d, i, k);
      assert s[start..start + |part|][i - start + k] == s[i + k];
    }
    assert part[i - start..][..|d|] == d;
  }

  lemma WrappedParts(description: string)
    ensures
      var s, data := Wrapped(description), AsData(description);
      && |s| == |data| + 20 && s[..9] == OPEN && s[9] == '\n' && s[10..10 + |data|] == data
      && s[|s| - 10] == '\n' && s[|s| - 9..] == CLOSE
  {
  }

  lemma NoNewline(d: string, k: nat)
    requires (d == OPEN || d == CLOSE) && k < |d|
    ensures d[k] != '\n'
  {
    assert k == 0 || k == 1 || k == 2 || k == 3 || k == 4 || k == 5 || k == 6 || k == 7 || k == 8;
  }

  /** No delimiter reaches over a line break. */
  lemma NotAcross(s: string, d: string, i: nat, n: nat)
    requires d == OPEN || d == CLOSE
    requires At(s, d, i) && n < |s| && s[n] == '\n'
    ensures n < i || i + 9 <= n
  {
    if i <= n < i + 9 {
      AtIndex(s, d, i, n - i);
      NoNewline(d, n - i);
    }
  }

  lemma NotInside(description: string, d: string, i: nat)
    requires d == OPEN || d == CLOSE
    requires At(Wrapped(description), d, i)
    ensures !(10 <= i && i + 9 <= |Wrapped(description)| - 10)
  {
    WrappedParts(description);
    AsDataIsClean(description);
    var s, data := Wrapped(description), AsData(description);
    if 10 <= i && i + 9 <= |s| - 10 {
      AtWithin(s, data, d, 10, i);
      assert Contains(data, d);
    }
  }

  /** A delimiter found in the block is at its beginning or at its end. */
  lemma OnlyAtTheEnds(description: string, d: string, i: nat)
    requires d == OPEN || d == CLOSE
    requires At(Wrapped(description), d, i)
    ensures i == 0 || i == |Wrapped(description)| - 9
  {
    var s := Wrapped(description);
    WrappedParts(description);
    NotAcross(s, d, i, 9);
    NotAcross(s, d, i, |s| - 10);
    NotInside(description, d, i);
    AtIndex(s, d, i, 0);
  }

  /** The opening delimiter occurs exactly at the start, the closing one exactly at the end. */
  lemma DelimitersOnce(description: string, i: nat)
    requires i <= |Wrapped(description)|
    ensures At(Wrapped(description), OPEN, i) <==> i == 0
    ensures At(Wrapped(description), CLOSE, i) <==> i == |Wrapped(description)| - |CLOSE|
  {
    var s := Wrapped(description);
    WrappedParts(description);
    assert s[0..][..9] == OPEN;
    assert s[|s| - 9..][..9] == CLOSE;
    if At(s, OPEN, i) { OnlyAtTheEnds(description, OPEN, i); AtIndex(s, OPEN, i, 0); }
    if At(s, CLOSE, i) { OnlyAtTheEnds(description, CLOSE, i); AtIndex(s, CLOSE, i, 0); }
  }

  /** Whoever cuts between the delimiters, wherever they find them, gets the stripped description. */
  lemma CuttingReturnsTheData(description: string, i: nat, j: nat)
    requires i <= |Wrapped(description)| && At(Wrapped(description), OPEN, i)
    requires j <= |Wrapped(description)| && At(Wrapped(description), CLOSE, j)
    ensures i + |OPEN| + 1 <= j - 1 && Wrapped(description)[i + |OPEN| + 1..j - 1] == AsData(description)
  {
    WrappedParts(description);
    DelimitersOnce(description, i);
    DelimitersOnce(description, j);
  }
}
