/** Whitespace as Python's str methods see it. */
module Text {

  predicate IsSpace(c: char) {
    || '\U{0009}' <= c <= '\U{000D}'
    || '\U{001C}' <= c <= '\U{0020}'
    || c == '\U{0085}' || c == '\U{00A0}' || c == '\U{1680}'
    || '\U{2000}' <= c <= '\U{200A}'
    || c == '\U{2028}' || c == '\U{2029}' || c == '\U{202F}' || c == '\U{205F}' || c == '\U{3000}'
  }

  /** The same characters, by number. */
  lemma {:induction false} SpacesAre(c: char)
    ensures IsSpace(c) <==>
              c as int in { 9, 10, 11, 12, 13, 28, 29, 30, 31, 32, 133, 160, 5760, 8192, 8193, 8194, 8195, 8196, 8197,
                            8198, 8199, 8200, 8201, 8202, 8232, 8233, 8239, 8287, 12288 }
  {
  }

  /** No character of s is whitespace. */
  predicate Unspaced(s: string) {
    forall i :: 0 <= i < |s| ==> !IsSpace(s[i])
  }

  function StripLeft(s: string): string {
    if s != [] && IsSpace(s[0]) then StripLeft(s[1..]) else s
  }

  function StripRight(s: string): string {
    if s != [] && IsSpace(s[|s| - 1]) then StripRight(s[..|s| - 1]) else s
  }

  function Strip(s: string): string {
    StripRight(StripLeft(s))
  }

  predicate AllSpace(s: string) {
    forall i :: 0 <= i < |s| ==> IsSpace(s[i])
  }

  lemma {:induction false} StripLeftBefore(s: string, t: string)
    requires StripLeft(s) != ""
    ensures StripLeft(s + t) == StripLeft(s) + t
    ensures !IsSpace(StripLeft(s)[0])
  {
    if IsSpace(s[0]) {
      assert (s + t)[1..] == s[1..] + t;
      StripLeftBefore(s[1..], t);
    }
  }

  lemma {:induction false} StripRightParts(s: string) returns (space: string)
    ensures s == StripRight(s) + space && AllSpace(space)
    ensures StripRight(s) != "" ==> !IsSpace(StripRight(s)[|StripRight(s)| - 1])
  {
    if s != [] && IsSpace(s[|s| - 1]) {
      var more := StripRightParts(s[..|s| - 1]);
      space := more + [s[|s| - 1]];
    } else {
      space := "";
    }
  }

  lemma {:induction false} StripRightAfter(s: string, space: string)
    requires s != "" && !IsSpace(s[|s| - 1]) && AllSpace(space)
    ensures StripRight(s + space) == s
  {
    if space == "" {
      assert s + space == s;
    } else {
      var n := |space| - 1;
      StripRightAfter(s, space[..n]);
      assert (s + space)[..|s + space| - 1] == s + space[..n];
    }
  }

  lemma {:induction false} StripLeftParts(s: string) returns (space: string)
    ensures s == space + StripLeft(s) && AllSpace(space)
    ensures StripLeft(s) != "" ==> !IsSpace(StripLeft(s)[0])
  {
    if s != [] && IsSpace(s[0]) {
      var more := StripLeftParts(s[1..]);
      space := [s[0]] + more;
    } else {
      space := "";
    }
  }

  /** Stripping takes exactly the space around a text: none is left at its ends, and nothing else is gone. */
  lemma {:induction false} StripIs(s: string) returns (before: string, after: string)
    ensures s == before + Strip(s) + after && AllSpace(before) && AllSpace(after)
    ensures Strip(s) != "" ==> !IsSpace(Strip(s)[0]) && !IsSpace(Strip(s)[|Strip(s)| - 1])
  {
    before := StripLeftParts(s);
    after := StripRightParts(StripLeft(s));
    assert Strip(s) != "" ==> Strip(s)[0] == StripLeft(s)[0];
    hide StripLeft, StripRight, IsSpace;
  }

  lemma {:induction false} SpaceHasNoWords(space: string, rest: string)
    requires AllSpace(space)
    ensures Words(space + rest) == Words(rest)
  {
    if space == "" {
      assert space + rest == rest;
    } else {
      assert (space + rest)[1..] == space[1..] + rest;
      SpaceHasNoWords(space[1..], rest);
    }
  }

  // ------------------------------------------------------------------- split

  /** The length of the run of non-space characters s starts with. */
  function WordLength(s: string): (n: nat)
    ensures n <= |s|
    ensures Unspaced(s[..n])
    ensures n < |s| ==> IsSpace(s[n])
  {
    if s == [] || IsSpace(s[0]) then 0 else 1 + WordLength(s[1..])
  }

  /** s.split() */
  function Words(s: string): seq<string>
    decreases |s|
  {
    if s == [] then []
    else if IsSpace(s[0]) then Words(s[1..])
    else
      var n := WordLength(s);
      [s[..n]] + Words(s[n..])
  }

  function Join(words: seq<string>): string {
    if words == [] then ""
    else if |words| == 1 then words[0]
    else words[0] + " " + Join(words[1..])
  }

  lemma {:induction false} JoinAppend(a: seq<string>, b: seq<string>)
    requires a != []
    ensures Join(a + b) == Join(a) + if b != [] then " " + Join(b) else ""
  {
    if |a| == 1 {
      assert a + b == [a[0]] + b && (a + b)[1..] == b;
    } else {
      assert (a + b)[1..] == a[1..] + b;
      JoinAppend(a[1..], b);
    }
  }

  lemma {:induction false} WordLengthOf(word: string, rest: string)
    requires Unspaced(word) && (rest == "" || IsSpace(rest[0]))
    ensures WordLength(word + rest) == |word|
  {
    if word == [] {
      assert word + rest == rest;
    } else {
      assert (word + rest)[1..] == word[1..] + rest;
      WordLengthOf(word[1..], rest);
    }
  }

  lemma {:induction false} FirstWord(word: string, rest: string)
    requires word != "" && Unspaced(word) && (rest == "" || IsSpace(rest[0]))
    ensures Words(word + rest) == [word] + Words(rest)
  {
    WordLengthOf(word, rest);
    var s := word + rest;
    assert s[..|word|] == word && s[|word|..] == rest;
    assert !IsSpace(s[0]);
  }

  lemma {:induction false} SkipSpace(space: char, rest: string)
    requires IsSpace(space)
    ensures Words([space] + rest) == Words(rest)
  {
    assert ([space] + rest)[1..] == rest;
  }

  lemma {:induction false} WordsBefore(a: string, c: string)
    requires c == "" || IsSpace(c[0])
    ensures Words(a + c) == Words(a) + Words(c)
    decreases |a|
  {
    hide Words, IsSpace;
    NoWords();
    if a == [] {
      assert a + c == c;
    } else if IsSpace(a[0]) {
      var more := a[1..];
      assert a == [a[0]] + more && a + c == [a[0]] + (more + c);
      SkipSpace(a[0], more);
      SkipSpace(a[0], more + c);
      WordsBefore(more, c);
    } else {
      var n := WordLength(a);
      var word, more := a[..n], a[n..];
      assert a == word + more && a + c == word + (more + c);
      FirstWord(word, more);
      FirstWord(word, more + c);
      WordsBefore(more, c);
    }
  }

  /** A space separates words: nothing runs across it. */
  lemma {:induction false} WordsSplit(a: string, b: string)
    ensures Words(a + " " + b) == Words(a) + Words(b)
  {
    var c := " " + b;
    assert c[0] == ' ' && IsSpace(' ') && c == [' '] + b;
    SkipSpace(' ', b);
    WordsBefore(a, c);
    assert a + " " + b == a + c;
  }

  lemma {:induction false} NoWords()
    ensures Words("") == []
  {
  }

  lemma {:induction false} OneWord(word: string)
    requires Unspaced(word) && word != ""
    ensures Words(word) == [word]
  {
    assert word + "" == word;
    WordLengthOf(word, "");
    assert word[|word|..] == "" && word[..|word|] == word;
  }

  /** The words of the parts, in order. */
  function WordsOf(parts: seq<string>): seq<string> {
    if parts == [] then [] else Words(parts[0]) + WordsOf(parts[1..])
  }

  /** Splitting undoes joining, whatever spaces the parts hold themselves. */
  lemma {:induction false} WordsOfJoin(parts: seq<string>)
    ensures Words(Join(parts)) == WordsOf(parts)
  {
    if |parts| == 1 {
      assert parts[1..] == [];
    } else if |parts| > 1 {
      WordsSplit(parts[0], Join(parts[1..]));
      WordsOfJoin(parts[1..]);
    }
  }

  lemma {:induction false} WordsOfAppend(a: seq<string>, b: seq<string>)
    ensures WordsOf(a + b) == WordsOf(a) + WordsOf(b)
  {
    if a == [] {
      assert a + b == b;
    } else {
      assert (a + b)[1..] == a[1..] + b;
      WordsOfAppend(a[1..], b);
    }
  }

  /** A word holds only characters of the text it came from. */
  lemma {:induction false} WordsHoldNoMore(s: string, c: char)
    requires c !in s
    ensures forall w :: w in Words(s) ==> c !in w
    decreases |s|
  {
    if s != [] {
      if IsSpace(s[0]) {
        WordsHoldNoMore(s[1..], c);
      } else {
        WordsHoldNoMore(s[WordLength(s)..], c);
      }
    }
  }

  lemma {:induction false} WordsAreWords(s: string)
    ensures forall w :: w in Words(s) ==> w != "" && Unspaced(w)
    decreases |s|
  {
    if s != [] {
      if IsSpace(s[0]) {
        WordsAreWords(s[1..]);
      } else {
        WordsAreWords(s[WordLength(s)..]);
      }
    }
  }
}
