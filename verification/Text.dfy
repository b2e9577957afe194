/** The two text normalisations the report policies use. */
module Text {

  /** White space and line terminators, as JavaScript's trim and \s see them. */
  predicate IsSpace(c: char) {
    || '\t' <= c <= '\r' || c == ' ' || c == '\U{00A0}' || c == '\U{1680}' || '\U{2000}' <= c <= '\U{200A}'
    || c == '\U{2028}' || c == '\U{2029}' || c == '\U{202F}' || c == '\U{205F}' || c == '\U{3000}' || c == '\U{FEFF}'
  }

  function TrimStart(s: string): (r: string)
    ensures |r| <= |s|
  {
    if s != "" && IsSpace(s[0]) then TrimStart(s[1..]) else s
  }

  function TrimEnd(s: string): string {
    if s != "" && IsSpace(s[|s| - 1]) then TrimEnd(s[..|s| - 1]) else s
  }

  function Trim(s: string): string {
    TrimEnd(TrimStart(s))
  }

  /** Every run of white space becomes one space. */
  function Collapse(s: string): string
    decreases |s|
  {
    if s == "" then ""
    else if !IsSpace(s[0]) then [s[0]] + Collapse(s[1..])
    else [' '] + Collapse(TrimStart(s[1..]))
  }

  function Normalise(s: string): string {
    Collapse(Trim(s))
  }

  // ----- what the two come to -----

  predicate AllSpace(s: string) {
    forall i :: 0 <= i < |s| ==> IsSpace(s[i])
  }

  lemma {:induction false} TrimStartIs(s: string) returns (i: nat)
    ensures i <= |s| && TrimStart(s) == s[i..] && AllSpace(s[..i]) && (i < |s| ==> !IsSpace(s[i]))
    decreases |s|
  {
    i := 0;
    if s != "" && IsSpace(s[0]) {
      var rest := TrimStartIs(s[1..]);
      i := rest + 1;
      assert s[..i] == [s[0]] + s[1..][..rest];
    }
  }

  lemma {:induction false} TrimEndIs(s: string) returns (j: nat)
    ensures j <= |s| && TrimEnd(s) == s[..j] && AllSpace(s[j..]) && (0 < j ==> !IsSpace(s[j - 1]))
    decreases |s|
  {
    j := |s|;
    if s != "" && IsSpace(s[|s| - 1]) {
      var init := s[..|s| - 1];
      j := TrimEndIs(init);
      assert s[..j] == init[..j] && s[j..] == init[j..] + [s[|s| - 1]];
    }
  }

  /** Trimming cuts white space off both ends, and all of it. */
  lemma TrimIs(s: string) returns (i: nat, j: nat)
    ensures i <= j <= |s| && Trim(s) == s[i..j] && AllSpace(s[..i]) && AllSpace(s[j..])
    ensures Trim(s) != "" ==> !IsSpace(Trim(s)[0]) && !IsSpace(Trim(s)[|Trim(s)| - 1])
  {
    i := TrimStartIs(s);
    var rest := TrimStart(s);
    var k := TrimEndIs(rest);
    j := i + k;
    assert s[i..j] == rest[..k] && s[j..] == rest[k..];
  }

  /** The length of the word a text begins with, if it begins with one. */
  function WordEnd(s: string): (n: nat)
    ensures n <= |s| && (forall i :: 0 <= i < n ==> !IsSpace(s[i])) && (n < |s| ==> IsSpace(s[n]))
  {
    if s == "" || IsSpace(s[0]) then 0 else 1 + WordEnd(s[1..])
  }

  /** What stands between white space. */
  function Words(s: string): seq<string>
    decreases |s|
  {
    if s == "" then []
    else if IsSpace(s[0]) then Words(s[1..])
    else [s[..WordEnd(s)]] + Words(s[WordEnd(s)..])
  }

  function Join(words: seq<string>): string {
    if words == [] then "" else if |words| == 1 then words[0] else words[0] + " " + Join(words[1..])
  }

  lemma {:induction false} WordsOfTrimStart(s: string)
    ensures Words(TrimStart(s)) == Words(s)
    decreases |s|
  {
    if s != "" && IsSpace(s[0]) { WordsOfTrimStart(s[1..]); }
  }

  lemma {:induction false} WordEndBeforeSpace(s: string, c: char)
    requires IsSpace(c)
    ensures WordEnd(s + [c]) == WordEnd(s)
    decreases |s|
  {
    if s != "" {
      assert (s + [c])[1..] == s[1..] + [c];
      WordEndBeforeSpace(s[1..], c);
    }
  }

  lemma {:induction false} WordsBeforeSpace(s: string, c: char)
    requires IsSpace(c)
    ensures Words(s + [c]) == Words(s)
    decreases |s|
  {
    if s == "" {
      assert s + [c] == [c] && [c][1..] == "";
    } else if IsSpace(s[0]) {
      assert (s + [c])[1..] == s[1..] + [c];
      WordsBeforeSpace(s[1..], c);
    } else {
      var n := WordEnd(s);
      WordEndBeforeSpace(s, c);
      assert (s + [c])[..n] == s[..n] && (s + [c])[n..] == s[n..] + [c];
      WordsBeforeSpace(s[n..], c);
    }
  }

  lemma {:induction false} WordsOfTrimEnd(s: string)
    ensures Words(TrimEnd(s)) == Words(s)
    decreases |s|
  {
    if s != "" && IsSpace(s[|s| - 1]) {
      assert s == s[..|s| - 1] + [s[|s| - 1]];
      WordsBeforeSpace(s[..|s| - 1], s[|s| - 1]);
      WordsOfTrimEnd(s[..|s| - 1]);
    }
  }

  lemma {:induction false} CollapseWord(s: string)
    ensures Collapse(s) == s[..WordEnd(s)] + Collapse(s[WordEnd(s)..])
    decreases |s|
  {
    if s != "" && !IsSpace(s[0]) {
      CollapseWord(s[1..]);
      var n := WordEnd(s[1..]);
      assert s[..n + 1] == [s[0]] + s[1..][..n] && s[n + 1..] == s[1..][n..];
    }
  }

  /** A run of white space before more words becomes one space. */
  lemma GapIs(gap: string) returns (rest: string)
    requires gap != "" && IsSpace(gap[0]) && !IsSpace(gap[|gap| - 1])
    ensures rest != "" && !IsSpace(rest[0]) && !IsSpace(rest[|rest| - 1]) && |rest| < |gap|
    ensures Collapse(gap) == " " + Collapse(rest) && Words(gap) == Words(rest)
  {
    var tail := gap[1..];
    var i := TrimStartIs(tail);
    rest := TrimStart(tail);
    assert tail != "" ==> tail[|tail| - 1] == gap[|gap| - 1];
    assert rest[|rest| - 1] == gap[|gap| - 1];
    WordsOfTrimStart(tail);
  }

  lemma JoinCons(w: string, rest: seq<string>)
    requires rest != []
    ensures Join([w] + rest) == w + (" " + Join(rest))
  {
    assert ([w] + rest)[1..] == rest;
  }

  lemma {:induction false} CollapseIs(s: string)
    requires s != "" && !IsSpace(s[0]) && !IsSpace(s[|s| - 1])
    ensures Collapse(s) == Join(Words(s)) && Words(s) != []
    decreases |s|
  {
    var n := WordEnd(s);
    var gap := s[n..];
    CollapseWord(s);
    if gap != "" {
      assert gap[0] == s[n] && gap[|gap| - 1] == s[|s| - 1];
      var rest := GapIs(gap);
      CollapseIs(rest);
      JoinCons(s[..n], Words(rest));
    } else {
      assert s[..n] == s;
    }
  }

  /** Normalising keeps the words, with one space between them. */
  lemma NormaliseIs(s: string)
    ensures Normalise(s) == Join(Words(s))
  {
    var i, j := TrimIs(s);
    WordsOfTrimStart(s);
    WordsOfTrimEnd(TrimStart(s));
    if Trim(s) != "" { CollapseIs(Trim(s)); }
  }

  predicate IsWord(w: string) {
    w != "" && forall i :: 0 <= i < |w| ==> !IsSpace(w[i])
  }

  predicate AreWords(words: seq<string>) {
    forall k :: 0 <= k < |words| ==> IsWord(words[k])
  }

  lemma {:induction false} WordsAreWords(s: string)
    ensures AreWords(Words(s))
    decreases |s|
  {
    if s != "" {
      if IsSpace(s[0]) { WordsAreWords(s[1..]); } else { WordsAreWords(s[WordEnd(s)..]); }
    }
  }

  lemma {:induction false} WordEndOf(w: string, rest: string)
    requires AreWords([w]) && (rest != "" ==> IsSpace(rest[0]))
    ensures WordEnd(w + rest) == |w|
    decreases |w|
  {
    assert IsWord([w][0]);
    assert (w + rest)[1..] == w[1..] + rest;
    if |w| > 1 {
      WordEndOf(w[1..], rest);
    } else {
      assert w[1..] + rest == rest;
    }
  }

  lemma {:induction false} WordsOfJoin(words: seq<string>)
    requires AreWords(words)
    ensures Words(Join(words)) == words
    decreases |words|
  {
    if words != [] {
      var w := words[0];
      assert IsWord(w) && AreWords([w]);
      if |words| == 1 {
        WordEndOf(w, "");
        assert w + "" == w && w[..|w|] == w && w[|w|..] == "";
      } else {
        var rest := Join(words[1..]);
        WordsOfJoin(words[1..]);
        WordEndOf(w, " " + rest);
        var s := w + (" " + rest);
        assert Join(words) == s && s[..|w|] == w && s[|w|..] == " " + rest && (" " + rest)[1..] == rest;
        assert Words(" " + rest) == Words(rest);
      }
    }
  }

  /** Two texts normalise to the same text exactly when they have the same words. */
  lemma NormaliseIff(a: string, b: string)
    ensures Normalise(a) == Normalise(b) <==> Words(a) == Words(b)
  {
    NormaliseIs(a);
    NormaliseIs(b);
    WordsAreWords(a);
    WordsAreWords(b);
    WordsOfJoin(Words(a));
    WordsOfJoin(Words(b));
  }
}
