/** Which kubectl command lines only read: how a command shown to an operator is classified. */
module CommandPolicy {
  import opened Text

  datatype CommandClass = ReadOnly | Mutating | Unrecognised

  const READ_ONLY_VERBS: set<string> :=
    { "api-resources", "api-versions", "auth", "cluster-info", "config", "describe", "events", "explain", "get",
      "logs", "rollout", "top", "version" }

  /** The sub-commands allowed of a verb that is otherwise mixed. */
  const ALLOWED_SUBCOMMANDS: map<string, set<string>> :=
    map[
      "auth" := {"can-i", "whoami"},
      "config" := {"current-context", "get-contexts", "get-clusters", "view"},
      "rollout" := {"status", "history"}]

  /** assert_read_only, as a question. */
  predicate IsReadOnly(args: seq<string>)
    requires args != []
  {
    && args[0] in READ_ONLY_VERBS
    && (args[0] in ALLOWED_SUBCOMMANDS ==>
          (if |args| > 1 then args[1] else "") in ALLOWED_SUBCOMMANDS[args[0]])
  }

  function ClassifyArgs(args: seq<string>): CommandClass {
    if args == [] then Unrecognised else if IsReadOnly(args) then ReadOnly else Mutating
  }

  /** Where str.splitlines ends a line. */
  predicate IsLineBreak(c: char) {
    || '\U{000A}' <= c <= '\U{000D}' || '\U{001C}' <= c <= '\U{001E}'
    || c == '\U{0085}' || c == '\U{2028}' || c == '\U{2029}'
  }

  function FirstLine(s: string): string {
    if s == "" || IsLineBreak(s[0]) then "" else [s[0]] + FirstLine(s[1..])
  }

  function Positional(tokens: seq<string>): seq<string> {
    if tokens == [] then []
    else
      var rest := Positional(tokens[1..]);
      if "-" <= tokens[0] then rest else [tokens[0]] + rest
  }

  /** classify_command: the first invocation, its flags left out. */
  function ClassifyCommand(command: string): CommandClass {
    var text := Strip(command);
    if text == "" then Unrecognised
    else
      var first := Strip(FirstLine(text));
      if !("kubectl " <= first) then Unrecognised else ClassifyArgs(Positional(Words(first[8..])))
  }

  /** A kubectl command line made of these words. */
  function Kubectl(words: seq<string>): string {
    Join(["kubectl"] + words)
  }

  // ------------------------------------------------------------------- lemmas

  predicate AreWords(words: seq<string>) {
    forall w :: w in words ==> w != "" && Unspaced(w)
  }

  /** No line break, and no space at either end. */
  predicate IsTrimmedLine(s: string) {
    && s != "" && !IsSpace(s[0]) && !IsSpace(s[|s| - 1])
    && forall i :: 0 <= i < |s| ==> !IsLineBreak(s[i])
  }

  lemma {:induction false} StripKeeps(s: string)
    requires IsTrimmedLine(s)
    ensures Strip(s) == s
  {
  }

  /** The same characters, by number. */
  lemma {:induction false} LineBreaksAre(c: char)
    ensures IsLineBreak(c) <==> c as int in {10, 11, 12, 13, 28, 29, 30, 133, 8232, 8233}
  {
  }

  lemma {:induction false} OneLine(s: string)
    requires forall i :: 0 <= i < |s| ==> !IsLineBreak(s[i])
    ensures FirstLine(s) == s
  {
    if s != "" {
      OneLine(s[1..]);
      assert s == [s[0]] + s[1..];
    }
  }

  /** Words joined by spaces make a trimmed line, and split back into the words. */
  lemma {:induction false} JoinedWords(words: seq<string>)
    requires words != [] && AreWords(words)
    ensures IsTrimmedLine(Join(words)) && Words(Join(words)) == words
  {
    hide Words, Join, IsTrimmedLine, Unspaced;
    OneWord(words[0]);
    WordIsTrimmed(words[0]);
    if |words| == 1 {
      JoinOne(words);
    } else {
      var rest := words[1..];
      forall w | w in rest
        ensures w != "" && Unspaced(w)
      {
        assert w in words;
      }
      JoinedWords(rest);
      JoinStep(words);
      WordsSplit(words[0], Join(rest));
      TrimmedPair(words[0], Join(rest));
      assert words == [words[0]] + rest;
    }
  }

  lemma {:induction false} WordIsTrimmed(w: string)
    requires w != "" && Unspaced(w)
    ensures IsTrimmedLine(w)
  {
  }

  lemma {:induction false} TrimmedPair(a: string, b: string)
    requires IsTrimmedLine(a) && IsTrimmedLine(b)
    ensures IsTrimmedLine(a + " " + b)
  {
  }

  lemma {:induction false} JoinOne(words: seq<string>)
    requires |words| == 1
    ensures words == [words[0]] && Join(words) == words[0]
  {
  }

  lemma {:induction false} JoinStep(words: seq<string>)
    requires |words| > 1
    ensures Join(words) == words[0] + " " + Join(words[1..])
  {
  }

  /** A kubectl line is classified by its words. */
  lemma {:induction false} ClassifyWords(words: seq<string>)
    requires words != [] && AreWords(words)
    ensures ClassifyCommand(Kubectl(words)) == ClassifyArgs(Positional(words))
  {
    var all := ["kubectl"] + words;
    assert Unspaced("kubectl") && "kubectl" != "";
    assert AreWords(all);
    JoinedWords(all);
    JoinedWords(words);
    JoinStep(all);
    assert all[1..] == words;
    var s := Kubectl(words);
    hide Join, Words, ClassifyArgs, Positional;
    StripKeeps(s);
    OneLine(s);
    assert "kubectl" + " " == "kubectl ";
    assert s == "kubectl " + Join(words);
    assert s[8..] == Join(words);
  }

  /** The words that are not flags, in order. */
  lemma {:induction false} PositionalIs(a: seq<string>, word: string, b: seq<string>)
    ensures Positional(a + [word] + b)
            == Positional(a) + (if word != "" && word[0] == '-' then [] else [word]) + Positional(b)
    ensures Positional([]) == []
  {
    PositionalAppend(a + [word], b);
    PositionalAppend(a, [word]);
    assert [word][1..] == [];
  }

  /**
   What a kubectl line does, by its first words that are not flags: most verbs
   that read always do; auth, config and rollout do with some sub-commands;
   everything else changes state; and a line of flags alone says nothing.
   */
  lemma {:induction false} OnlyTheseRead(words: seq<string>)
    requires words != [] && AreWords(words)
    ensures
      var args := Positional(words);
      var second := if |args| > 1 then args[1] else "";
      && (ClassifyCommand(Kubectl(words)) == Unrecognised <==> args == [])
      && (ClassifyCommand(Kubectl(words)) == ReadOnly <==>
            args != [] &&
            (args[0] in { "api-resources", "api-versions", "cluster-info", "describe", "events", "explain", "get",
                          "logs", "top", "version" }
             || (args[0] == "auth" && second in {"can-i", "whoami"})
             || (args[0] == "config" && second in {"current-context", "get-contexts", "get-clusters", "view"})
             || (args[0] == "rollout" && second in {"status", "history"})))
  {
    ClassifyWords(words);
    var args := Positional(words);
    hide ClassifyCommand, Kubectl, Positional, AreWords;
    if args != [] {
      ReadOnlyIff(args);
    }
  }

  lemma {:induction false} MixedVerbs()
    ensures ALLOWED_SUBCOMMANDS.Keys == {"auth", "config", "rollout"}
    ensures READ_ONLY_VERBS == { "api-resources", "api-versions", "cluster-info", "describe", "events", "explain",
                                 "get", "logs", "top", "version" } + {"auth", "config", "rollout"}
    ensures "auth" != "config" && "auth" != "rollout" && "config" != "rollout"
    ensures {"auth", "config", "rollout"} !! { "api-resources", "api-versions", "cluster-info", "describe", "events",
                                               "explain", "get", "logs", "top", "version" }
  {
    assert |"auth"| == 4 && |"config"| == 6 && |"rollout"| == 7;
  }

  lemma {:induction false} ReadOnlyIff(args: seq<string>)
    requires args != []
    ensures
      var second := if |args| > 1 then args[1] else "";
      ClassifyArgs(args) == ReadOnly <==>
            (args[0] in { "api-resources", "api-versions", "cluster-info", "describe", "events", "explain", "get",
                          "logs", "top", "version" }
             || (args[0] == "auth" && second in {"can-i", "whoami"})
             || (args[0] == "config" && second in {"current-context", "get-contexts", "get-clusters", "view"})
             || (args[0] == "rollout" && second in {"status", "history"}))
  {
    MixedVerbs();
    assert ALLOWED_SUBCOMMANDS["auth"] == {"can-i", "whoami"};
    assert ALLOWED_SUBCOMMANDS["config"] == {"current-context", "get-contexts", "get-clusters", "view"};
    assert ALLOWED_SUBCOMMANDS["rollout"] == {"status", "history"};
    hide READ_ONLY_VERBS, ALLOWED_SUBCOMMANDS;
  }

  /** What does not start as a kubectl command is not recognised. */
  lemma {:induction false} OthersAreUnrecognised(command: string)
    requires !("kubectl " <= Strip(command))
    ensures ClassifyCommand(command) == Unrecognised
  {
    var text := Strip(command);
    if text != "" {
      var before, after := StripIs(command);
      FirstLineOf(text, "");
      var line := FirstLine(text);
      if line != "" {
        assert line[0] == text[0];
        var more := StripRightParts(line);
        assert StripLeft(line) == line;
        assert Strip(line) <= text;
      }
    }
    hide StripLeft, StripRight, FirstLine, IsSpace, ClassifyArgs, Positional, Words;
  }

  // ------------------------------------------------------ a remark at the end

  /** A remark that can follow a command on its line. */
  predicate IsRemark(mark: string) {
    && mark != "" && IsSpace(mark[0]) && !IsSpace(mark[|mark| - 1])
    && (forall i :: 0 <= i < |mark| ==> !IsLineBreak(mark[i]))
    && Words(mark) != [] && Words(mark)[0] == "#"
  }

  lemma {:induction false} FirstLineStep(c: char, rest: string)
    ensures FirstLine([c] + rest) == if IsLineBreak(c) then "" else [c] + FirstLine(rest)
    ensures FirstLine("") == ""
  {
    assert ([c] + rest)[1..] == rest;
  }

  lemma {:induction false} FirstLineOf(s: string, t: string)
    ensures FirstLine(s + t) == FirstLine(s) + if FirstLine(s) == s then FirstLine(t) else ""
    ensures FirstLine(s) <= s
  {
    hide IsLineBreak, FirstLine;
    if s == "" {
      FirstLineStep(' ', "");
      assert s + t == t;
    } else {
      var c, rest := s[0], s[1..];
      assert s == [c] + rest && s + t == [c] + (rest + t);
      FirstLineStep(c, rest);
      FirstLineStep(c, rest + t);
      if !IsLineBreak(c) {
        FirstLineOf(rest, t);
        Prepended(c, FirstLine(rest), rest, if FirstLine(rest) == rest then FirstLine(t) else "");
      }
    }
  }

  lemma {:induction false} Prepended(c: char, a: string, b: string, more: string)
    ensures [c] + a == [c] + b <==> a == b
    ensures a <= b ==> [c] + a <= [c] + b
    ensures [c] + (a + more) == [c] + a + more
  {
    assert ([c] + a)[1..] == a && ([c] + b)[1..] == b;
  }

  lemma {:induction false} PositionalAppend(a: seq<string>, b: seq<string>)
    ensures Positional(a + b) == Positional(a) + Positional(b)
  {
    if a == [] {
      assert a + b == b;
    } else {
      assert (a + b)[1..] == a[1..] + b;
      PositionalAppend(a[1..], b);
    }
  }

  lemma {:induction false} HashIsNoSubcommand(verb: string)
    requires verb in ALLOWED_SUBCOMMANDS
    ensures "#" !in ALLOWED_SUBCOMMANDS[verb]
  {
    assert |"#"| == 1 && |"can-i"| == 5 && |"whoami"| == 6 && |"current-context"| == 15 && |"get-contexts"| == 12;
    assert |"get-clusters"| == 12 && |"view"| == 4 && |"status"| == 6 && |"history"| == 7;
  }

  /** What changes state still does with a remark among its words. */
  lemma {:induction false} MutatingWithMore(args: seq<string>, more: seq<string>)
    requires ClassifyArgs(args) == Mutating && (more == [] || more[0] == "#")
    ensures ClassifyArgs(args + more) == Mutating
  {
    if args[0] in ALLOWED_SUBCOMMANDS {
      HashIsNoSubcommand(args[0]);
    }
    hide READ_ONLY_VERBS, ALLOWED_SUBCOMMANDS;
  }

  lemma {:induction false} RemarkWords(rest: string, space: string, mark: string)
    requires IsRemark(mark) && AllSpace(space)
    ensures
      var more := Positional(Words(space + mark));
      && more != [] && more[0] == "#"
      && Positional(Words(rest + (space + mark))) == Positional(Words(rest)) + more
  {
    SpaceHasNoWords(space, mark);
    WordsBefore(rest, space + mark);
    PositionalAppend(Words(rest), Words(space + mark));
    assert "#"[0] == '#' && "-"[0] == '-';
    hide Words, IsLineBreak;
  }

  /** A command with a remark, once stripped, is the stripped command, some space and the remark. */
  lemma {:induction false} StripRemarked(command: string, mark: string) returns (space: string)
    requires IsRemark(mark) && Strip(command) != ""
    ensures AllSpace(space) && Strip(command + mark) == Strip(command) + (space + mark)
    ensures !IsSpace(Strip(command)[0]) && !IsSpace(Strip(command)[|Strip(command)| - 1])
  {
    StripLeftBefore(command, mark);
    var left := StripLeft(command);
    space := StripRightParts(left);
    assert left + mark == Strip(command) + (space + mark);
    assert (left + mark)[|left + mark| - 1] == mark[|mark| - 1];
    hide StripLeft, IsSpace, IsLineBreak, Words;
  }

  /** Stripping what starts and ends with anything but space, and is followed by space. */
  lemma {:induction false} StripEnds(s: string, space: string)
    requires s != "" && !IsSpace(s[0]) && !IsSpace(s[|s| - 1]) && AllSpace(space)
    ensures Strip(s + space) == s
  {
    StripRightAfter(s, space);
    assert StripLeft(s + space) == s + space;
    hide StripRight;
  }

  /** The first line of a remarked command: as it was, or with the remark at its end. */
  lemma {:induction false} RemarkedLine(text: string, space: string, mark: string)
    requires IsRemark(mark) && AllSpace(space)
    requires text != "" && !IsSpace(text[0]) && !IsSpace(text[|text| - 1])
    ensures
      var line := Strip(FirstLine(text + (space + mark)));
      line == Strip(FirstLine(text)) || (line == text + (space + mark) && Strip(FirstLine(text)) == text)
  {
    hide Strip, FirstLine, IsSpace, IsLineBreak, Words;
    FirstLineOf(text, space + mark);
    if FirstLine(text) == text {
      StripEnds(text, "");
      assert text + "" == text;
      FirstLineOf(space, mark);
      OneLine(mark);
      if FirstLine(space) == space {
        EndsOfBoth(text, space, mark);
      } else {
        StripEnds(text, FirstLine(space));
        assert FirstLine(space) + "" == FirstLine(space);
      }
    } else {
      assert FirstLine(text) + "" == FirstLine(text);
    }
  }

  lemma {:induction false} EndsOfBoth(text: string, space: string, mark: string)
    requires text != "" && !IsSpace(text[0]) && mark != "" && !IsSpace(mark[|mark| - 1])
    ensures Strip(text + (space + mark)) == text + (space + mark)
  {
    hide Strip, IsSpace;
    var s := text + (space + mark);
    assert s[|s| - 1] == mark[|mark| - 1];
    StripEnds(s, "");
    assert s + "" == s;
  }

  /** A remark at its end does not make a command that changes state read as one that does not. */
  lemma {:induction false} RemarkedStillMutates(command: string, mark: string)
    requires IsRemark(mark) && ClassifyCommand(command) == Mutating
    ensures ClassifyCommand(command + mark) == Mutating
  {
    hide ClassifyArgs, Positional, Words, Strip, FirstLine, IsSpace, IsRemark, AllSpace;
    var text := Strip(command);
    var space := StripRemarked(command, mark);
    RemarkedLine(text, space, mark);
    var line := Strip(FirstLine(text + (space + mark)));
    if line == text + (space + mark) && Strip(FirstLine(text)) == text {
      assert line[8..] == text[8..] + (space + mark);
      RemarkWords(text[8..], space, mark);
      MutatingWithMore(Positional(Words(text[8..])), Positional(Words(space + mark)));
    }
  }
}
