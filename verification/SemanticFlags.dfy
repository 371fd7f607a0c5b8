/** The options of a kubectl command that change what comes back, read out of its text. */
module SemanticFlags {
  import opened Prelude
  import opened Text

  const RENDERING_ONLY: set<string> :=
    {"--context", "--chunk-size", "--no-headers", "-o", "-A", "--all-namespaces"}

  predicate IsFlag(token: string) {
    token != "" && token[0] == '-'
  }

  /** The length of a token up to its first equals sign, or all of it. */
  function NameLength(token: string): (n: nat)
    ensures n <= |token|
    ensures '=' !in token[..n]
    ensures n < |token| ==> token[n] == '='
    ensures n == |token| <==> '=' !in token
  {
    if token == "" || token[0] == '=' then 0
    else
      assert token == [token[0]] + token[1..];
      1 + NameLength(token[1..])
  }

  function FlagText(name: string, value: string): string {
    if value == "" then name else name + "=" + value
  }

  /** The text a flag is folded to; none if it only concerns rendering. */
  function Folded(name: string, value: string): set<string> {
    if name in RENDERING_ONLY then {} else {FlagText(name, value)}
  }

  /** The value of a flag whose value is not attached: the next token, unless that is a flag. */
  predicate TakesNext(tokens: seq<string>) {
    |tokens| > 1 && '=' !in tokens[0] && !IsFlag(tokens[1])
  }

  function FlagsIn(tokens: seq<string>): set<string> {
    if tokens == [] then {}
    else if !IsFlag(tokens[0]) then FlagsIn(tokens[1..])
    else if '=' in tokens[0] then
      var n := NameLength(tokens[0]);
      Folded(tokens[0][..n], tokens[0][n + 1..]) + FlagsIn(tokens[1..])
    else if TakesNext(tokens) then Folded(tokens[0], tokens[1]) + FlagsIn(tokens[2..])
    else Folded(tokens[0], "") + FlagsIn(tokens[1..])
  }

  function FlagsOfCommand(command: Option<string>): Option<set<string>> {
    if command.None? || command.value == "" then None else Some(FlagsIn(Words(command.value)))
  }

  /** _semantic_flags: an index moved over the tokens, and a set added to. */
  method Parse(command: Option<string>) returns (parsed: Option<set<string>>)
    ensures parsed == FlagsOfCommand(command)
  {
    if command.None? || command.value == "" {
      return None;
    }
    var tokens := Words(command.value);
    var flags: set<string> := {};
    var index := 0;
    assert tokens[0..] == tokens;
    while index < |tokens|
      invariant 0 <= index <= |tokens|
      invariant flags + FlagsIn(tokens[index..]) == FlagsIn(tokens)
    {
      ghost var rest := tokens[index..];
      ghost var before := flags;
      var token := tokens[index];
      index := index + 1;
      assert rest[0] == token && rest[1..] == tokens[index..];
      if !IsFlag(token) {
        continue;
      }
      var name, value;
      if '=' in token {
        var n := NameLength(token);
        name, value := token[..n], token[n + 1..];
      } else {
        name, value := token, "";
        if index < |tokens| && !IsFlag(tokens[index]) {
          value := tokens[index];
          index := index + 1;
          assert rest[2..] == tokens[index..];
        }
      }
      assert FlagsIn(rest) == Folded(name, value) + FlagsIn(tokens[index..]);
      if name in RENDERING_ONLY {
        continue;
      }
      flags := flags + {FlagText(name, value)};
    }
    assert tokens[|tokens|..] == [];
    parsed := Some(flags);
  }

  // ----------------------------------------------------------------- parsing

  /** Tokens that are not flags, before anything else, say nothing. */
  lemma {:induction false} PositionalsSayNothing(tokens: seq<string>, rest: seq<string>)
    requires forall t :: t in tokens ==> !IsFlag(t)
    ensures FlagsIn(tokens + rest) == FlagsIn(rest)
  {
    if tokens == [] {
      assert tokens + rest == rest;
    } else {
      assert (tokens + rest)[1..] == tokens[1..] + rest;
      PositionalsSayNothing(tokens[1..], rest);
    }
  }

  /** A flag and its value in two tokens. */
  lemma {:induction false} SpacedFlag(name: string, value: string, rest: seq<string>)
    requires IsFlag(name) && '=' !in name && !IsFlag(value)
    ensures FlagsIn([name, value] + rest) == Folded(name, value) + FlagsIn(rest)
  {
    assert ([name, value] + rest)[2..] == rest;
  }

  /** A flag and its value in one token. */
  lemma {:induction false} AttachedFlag(name: string, value: string, rest: seq<string>)
    requires IsFlag(name) && '=' !in name
    ensures FlagsIn([name + "=" + value] + rest) == Folded(name, value) + FlagsIn(rest)
  {
    var token := name + "=" + value;
    NameLengthOf(name, value);
    assert ([token] + rest)[1..] == rest;
    assert token[|name|] == '=';
    assert token[..|name|] == name && token[|name| + 1..] == value;
  }

  lemma {:induction false} NameLengthOf(name: string, value: string)
    requires '=' !in name
    ensures NameLength(name + "=" + value) == |name|
  {
    if name == "" {
      assert (name + "=" + value)[0] == '=';
    } else {
      assert (name + "=" + value)[1..] == name[1..] + "=" + value;
      NameLengthOf(name[1..], value);
    }
  }

  /** A flag without a value, when a flag or nothing follows. */
  lemma {:induction false} BareFlag(name: string, rest: seq<string>)
    requires IsFlag(name) && '=' !in name && (rest == [] || IsFlag(rest[0]))
    ensures FlagsIn([name] + rest) == Folded(name, "") + FlagsIn(rest)
  {
    assert ([name] + rest)[1..] == rest;
  }
}
