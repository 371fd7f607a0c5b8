/** The commands the agent records, as the platform's command policy sees them. */
module RecordedCommands {
  import opened Prelude
  import opened Text
  import opened PolicyKinds
  import opened CommandPolicy
  import opened PrintParse
  import Collectors

  /** A text from which some end has been cut off still starts as it did. */
  lemma {:induction false} StripRightKeeps(head: string, tail: string) returns (k: nat)
    requires head != "" && !IsSpace(head[|head| - 1])
    ensures k <= |tail| && StripRight(head + tail) == head + tail[..k]
  {
    if tail == "" {
      k := 0;
      assert head + tail == head && head + tail[..0] == head;
    } else if IsSpace(tail[|tail| - 1]) {
      var n := |tail| - 1;
      k := StripRightKeeps(head, tail[..n]);
      assert (head + tail)[..|head + tail| - 1] == head + tail[..n];
      assert tail[..n][..k] == tail[..k];
    } else {
      k := |tail|;
      assert tail[..k] == tail;
    }
  }

  lemma {:induction false} FirstLineKeeps(head: string, tail: string) returns (k: nat)
    requires forall i :: 0 <= i < |head| ==> !IsLineBreak(head[i])
    ensures k <= |tail| && FirstLine(head + tail) == head + tail[..k]
  {
    hide IsLineBreak, FirstLine;
    FirstLineOf(head, tail);
    OneLine(head);
    FirstLineOf(tail, "");
    k := |FirstLine(tail)|;
    assert tail[..k] == FirstLine(tail);
  }

  /** The first line of a text that starts with a command and its verb starts so too. */
  lemma {:induction false} HeadStays(head: string, tail: string) returns (k: nat)
    requires head != "" && !IsSpace(head[0]) && !IsSpace(head[|head| - 1])
    requires forall i :: 0 <= i < |head| ==> !IsLineBreak(head[i])
    ensures k <= |tail| && Strip(head + tail) != "" && Strip(FirstLine(Strip(head + tail))) == head + tail[..k]
  {
    hide StripRight, IsSpace, IsLineBreak, FirstLine;
    StartsUnspaced(head, tail);
    var a := StripRightKeeps(head, tail);
    var b := FirstLineKeeps(head, tail[..a]);
    StartsUnspaced(head, tail[..a][..b]);
    k := StripRightKeeps(head, tail[..a][..b]);
    assert tail[..a][..b][..k] == tail[..k];
  }

  lemma {:induction false} StartsUnspaced(head: string, tail: string)
    requires head != "" && !IsSpace(head[0])
    ensures StripLeft(head + tail) == head + tail
  {
    assert (head + tail)[0] == head[0];
  }

  lemma {:induction false} VerbWords(verb: string)
    requires verb == "get" || verb == "top" || verb == "logs"
    ensures var head := "kubectl " + verb;
            && !IsSpace(head[0]) && !IsSpace(head[|head| - 1])
            && (forall i :: 0 <= i < |head| ==> !IsLineBreak(head[i]))
            && "kubectl " <= head && head[8..] == verb
    ensures Unspaced(verb) && verb != "" && verb[0] != '-'
  {
    assert |"kubectl "| == 8;
  }

  /** A kubectl line with such a verb only reads, whatever follows. */
  lemma {:induction false} VerbDecides(verb: string, rest: string)
    requires verb == "get" || verb == "top" || verb == "logs"
    ensures ClassifyCommand("kubectl " + verb + (" " + rest)) == ReadOnly
  {
    hide Strip, FirstLine, Words, Positional, ClassifyArgs, Unspaced, IsLineBreak, IsSpace;
    var head, tail := "kubectl " + verb, " " + rest;
    VerbWords(verb);
    var k := HeadStays(head, tail);
    var line := head + tail[..k];
    assert "kubectl " <= line && line[8..] == verb + tail[..k];
    assert k > 0 ==> tail[..k][0] == ' ';
    VerbFirst(verb, tail[..k]);
  }

  lemma {:induction false} VerbFirst(verb: string, rest: string)
    requires verb == "get" || verb == "top" || verb == "logs"
    requires rest != "" ==> rest[0] == ' '
    ensures ClassifyArgs(Positional(Words(verb + rest))) == ReadOnly
  {
    hide Words, Positional, Unspaced, ClassifyArgs;
    VerbWords(verb);
    assert IsSpace(' ');
    WordsBefore(verb, rest);
    OneWord(verb);
    PositionalIs([], verb, Words(rest));
    assert [] + [verb] + Words(rest) == [verb] + Words(rest);
    ReadOnlyIff(Positional([verb] + Words(rest)));
  }

  /**
   Every command the agent records, for whatever it reads and as whomever, is one
   the platform classifies as only reading.
   */
  lemma {:induction false} RecordedOnlyRead(kind: string, namespace: string, name: string, parameters: Parameters,
                                            identity: Option<Collectors.Impersonation>)
    requires Resolved(kind, namespace, name, parameters).Ok?
    ensures Recorded(kind, namespace, name, parameters, identity).Some?
    ensures ClassifyCommand(Recorded(kind, namespace, name, parameters, identity).value) == ReadOnly
  {
    hide *;
    var verb, rest := CommandStarts(kind, namespace, name, parameters);
    var suffix := Collectors.Suffix(identity);
    RecordedIs(kind, namespace, name, parameters, identity);
    FollowedBy(verb, rest, suffix);
    VerbDecides(verb, rest + suffix);
  }

  lemma {:induction false} RecordedIs(kind: string, namespace: string, name: string, parameters: Parameters,
                                      identity: Option<Collectors.Impersonation>)
    requires Resolved(kind, namespace, name, parameters).Ok?
    ensures Recorded(kind, namespace, name, parameters, identity)
            == Some(Resolved(kind, namespace, name, parameters).value.command + Collectors.Suffix(identity))
  {
    hide Resolved, Collectors.Suffix;
  }

  lemma {:induction false} FollowedBy(verb: string, rest: string, suffix: string)
    ensures "kubectl " + verb + (" " + rest) + suffix == "kubectl " + verb + (" " + (rest + suffix))
  {
    assert " " + rest + suffix == " " + (rest + suffix);
  }

  lemma {:induction false} CommandStarts(kind: string, namespace: string, name: string, parameters: Parameters)
    returns (verb: string, rest: string)
    requires Resolved(kind, namespace, name, parameters).Ok?
    ensures verb == "get" || verb == "top" || verb == "logs"
    ensures Resolved(kind, namespace, name, parameters).value.command == "kubectl " + verb + (" " + rest)
  {
    hide Kinds, Lookup, Join, Slashed, PathSegments, LogSegments, QueryOf, LogQuery, LogExtras, Given, Spaced,
      ScopeParts, TableFacts.Bare;
    var parts;
    if kind == LOGS {
      verb := "logs";
      parts := LogParts(namespace, name, parameters);
    } else {
      EntryIsBare(kind);
      var entry := Lookup(Kinds(), kind).value;
      BareVerb(entry);
      verb := Verb(entry);
      parts := CommandParts(entry, namespace, name, parameters);
    }
    assert |parts| > 2 && parts[0] == "kubectl" && parts[1] == verb;
    rest := Join(parts[2..]);
    JoinStep(parts);
    JoinStep(parts[1..]);
    assert parts[1..][1..] == parts[2..];
    Regroup(verb, rest);
  }

  lemma {:induction false} BareVerb(entry: Resource)
    requires TableFacts.Bare(Entry("", entry))
    ensures Verb(entry) == "get" || Verb(entry) == "top"
  {
  }

  lemma {:induction false} Regroup(verb: string, rest: string)
    ensures "kubectl" + " " + (verb + " " + rest) == "kubectl " + verb + (" " + rest)
  {
    assert "kubectl" + " " == "kubectl ";
  }
}
