/** Printing a command and parsing it back returns exactly the options that were rendered. */
module PrintParse {
  import opened Prelude
  import opened Text
  import opened PolicyKinds
  import opened SemanticFlags
  import opened CommandOptions
  import opened TableFacts
  import PolicyProofs

  // ------------------------------------------------------------------ blocks

  /** A value a command line carries as one word that is not a flag, or no value. */
  predicate Readable(v: string) {
    Unspaced(v) && !IsFlag(v)
  }

  predicate FlagLed(tokens: seq<string>) {
    tokens == [] || IsFlag(tokens[0])
  }

  lemma {:induction false} NamesAreWords(o: OptionName)
    ensures Words(o.Name()) == [o.Name()]
  {
    assert Unspaced(o.Name());
    OneWord(o.Name());
  }

  /** Two lists of parts, one after the other. */
  lemma {:induction false} PartsThen(a: seq<string>, b: seq<string>, rest: seq<string>)
    ensures WordsOf(a + b) + rest == WordsOf(a) + (WordsOf(b) + rest)
  {
    WordsOfAppend(a, b);
  }

  lemma {:induction false} TwoWords(a: string, b: string)
    requires Words(a) == [a] && Words(b) == [b]
    ensures WordsOf([a, b]) == [a, b]
  {
    assert [a, b][1..] == [b] && [b][1..] == [];
    assert WordsOf([b]) == [b] + WordsOf([]);
  }

  /** An option and its value, in two parts. */
  lemma {:induction false} SettingBlock(option: OptionName, value: string, rest: seq<string>)
    requires Readable(value)
    ensures FlagsIn(WordsOf(Spaced(option.Name(), value)) + rest) == FlagsOf(One(option, value)) + FlagsIn(rest)
    ensures FlagLed(rest) ==> FlagLed(WordsOf(Spaced(option.Name(), value)) + rest)
  {
    if value == "" {
      assert WordsOf([]) + rest == rest;
      assert FlagsOf({}) + FlagsIn(rest) == FlagsIn(rest);
    } else {
      OneWord(value);
      NamesAreWords(option);
      TwoWords(option.Name(), value);
      SettingTokens(option, value, rest);
    }
  }

  lemma {:induction false} SettingTokens(option: OptionName, value: string, rest: seq<string>)
    requires !IsFlag(value) && value != ""
    ensures FlagsIn([option.Name(), value] + rest) == FlagsOf({Setting(option, value)}) + FlagsIn(rest)
    ensures FlagLed([option.Name(), value] + rest)
  {
    NamesAreFlags(option);
    SpacedFlag(option.Name(), value, rest);
    FlagsOfOne(Setting(option, value));
  }

  lemma {:induction false} FlagsOfOne(s: Setting)
    ensures FlagsOf({s}) == {Rendered(s)}
  {
    assert s in {s};
  }

  lemma {:induction false} OnePart(part: string)
    ensures WordsOf([part]) == Words(part)
  {
    assert [part][1..] == [];
    assert Words(part) + [] == Words(part);
  }

  /** An option and its value in one part, a space between them. */
  lemma {:induction false} PairBlock(option: OptionName, value: string, rest: seq<string>)
    requires Readable(value) && value != ""
    ensures FlagsIn(WordsOf([option.Name() + " " + value]) + rest) == FlagsOf(One(option, value)) + FlagsIn(rest)
    ensures FlagLed(WordsOf([option.Name() + " " + value]) + rest)
  {
    OnePart(option.Name() + " " + value);
    WordsSplit(option.Name(), value);
    OneWord(value);
    NamesAreWords(option);
    assert [option.Name()] + [value] == [option.Name(), value];
    SettingTokens(option, value, rest);
  }

  /** An option with its value attached. */
  lemma {:induction false} AttachedBlock(option: OptionName, value: string, rest: seq<string>)
    requires Unspaced(value) && value != ""
    ensures FlagsIn(WordsOf([option.Name() + "=" + value]) + rest) == FlagsOf({Setting(option, value)}) + FlagsIn(rest)
    ensures FlagLed(WordsOf([option.Name() + "=" + value]) + rest)
  {
    var part := option.Name() + "=" + value;
    NamesAreFlags(option);
    OnePart(part);
    AttachedIsUnspaced(option, value);
    OneWord(part);
    hide OptionName.Name, Unspaced, FlagsIn, FlagsOf, WordsOf, Words;
    AttachedFlag(option.Name(), value, rest);
    FlagsOfOne(Setting(option, value));
  }

  lemma {:induction false} AttachedIsUnspaced(option: OptionName, value: string)
    requires Unspaced(value)
    ensures Unspaced(option.Name() + "=" + value)
  {
    assert Unspaced(option.Name()) && !IsSpace('=');
    hide OptionName.Name, IsSpace;
  }

  lemma {:induction false} PreviousBlock(rest: seq<string>)
    requires FlagLed(rest)
    ensures FlagsIn(WordsOf(["--previous"]) + rest) == FlagsOf({Setting(Previous, "")}) + FlagsIn(rest)
    ensures FlagLed(WordsOf(["--previous"]) + rest)
  {
    NamesAreFlags(Previous);
    NamesAreWords(Previous);
    OnePart("--previous");
    BareFlag("--previous", rest);
    FlagsOfOne(Setting(Previous, ""));
  }

  /** Whatever only concerns rendering leaves no trace. */
  lemma {:induction false} AllNamespacesBlock(rest: seq<string>)
    requires FlagLed(rest)
    ensures FlagsIn(WordsOf(["-A"]) + rest) == FlagsIn(rest)
  {
    assert Unspaced("-A") && '=' !in "-A" && IsFlag("-A");
    OneWord("-A");
    OnePart("-A");
    BareFlag("-A", rest);
    assert "-A" in RENDERING_ONLY;
  }

  lemma {:induction false} OutputBlock(rest: seq<string>)
    ensures FlagsIn(WordsOf(["-o", "json"]) + rest) == FlagsIn(rest)
    ensures FlagLed(WordsOf(["-o", "json"]) + rest)
  {
    assert Unspaced("-o") && Unspaced("json") && '=' !in "-o" && IsFlag("-o") && !IsFlag("json");
    OneWord("-o");
    OneWord("json");
    TwoWords("-o", "json");
    SpacedFlag("-o", "json", rest);
    assert "-o" in RENDERING_ONLY;
  }

  lemma {:induction false} NoBlock(rest: seq<string>)
    ensures WordsOf([]) + rest == rest
    ensures FlagsOf({}) + FlagsIn(rest) == FlagsIn(rest)
  {
  }

  // ---------------------------------------------------------------- identity

  predicate ReadableIdentity(identity: Option<Collectors.Impersonation>) {
    identity.Some? ==>
      && Readable(identity.value.username) && identity.value.username != ""
      && forall g :: g in identity.value.groups ==> Readable(g) && g != ""
  }

  function GroupSettings(groups: set<string>): set<Setting> {
    set g | g in groups :: Setting(AsGroup, g)
  }

  lemma {:induction false} GroupsBlock(groups: seq<string>, rest: seq<string>)
    requires forall g :: g in groups ==> Readable(g) && g != ""
    ensures FlagsIn(WordsOf(Collectors.GroupParts(groups)) + rest)
            == FlagsOf(GroupSettings(set g | g in groups)) + FlagsIn(rest)
    ensures FlagLed(rest) ==> FlagLed(WordsOf(Collectors.GroupParts(groups)) + rest)
  {
    if groups == [] {
      NoBlock(rest);
      assert GroupSettings(set g | g in groups) == {};
    } else {
      hide FlagsOf, GroupSettings, FlagsIn, Readable, WordsOf, FlagLed, FlagText, Rendered;
      var n := |groups| - 1;
      var before, last := groups[..n], groups[n];
      assert groups == before + [last] && last in groups;
      assert forall g :: g in before ==> g in groups;
      var pair := ["--as-group", last];
      var parts := Collectors.GroupParts(before);
      assert Collectors.GroupParts(groups) == parts + pair;
      GroupBlock(last, rest);
      GroupsBlock(before, pair + rest);
      PartsThen(parts, pair, rest);
      GroupSettingsGrow(before, last);
      hide Collectors.GroupParts;
    }
  }

  lemma {:induction false} GroupBlock(group: string, rest: seq<string>)
    requires Readable(group) && group != ""
    ensures WordsOf(["--as-group", group]) == ["--as-group", group]
    ensures FlagsIn(["--as-group", group] + rest) == FlagsOf({Setting(AsGroup, group)}) + FlagsIn(rest)
    ensures FlagLed(["--as-group", group] + rest)
  {
    OneWord(group);
    NamesAreWords(AsGroup);
    TwoWords("--as-group", group);
    SettingTokens(AsGroup, group, rest);
  }

  lemma {:induction false} GroupSettingsGrow(before: seq<string>, last: string)
    ensures FlagsOf(GroupSettings(set g | g in before + [last]))
            == FlagsOf(GroupSettings(set g | g in before)) + FlagsOf({Setting(AsGroup, last)})
  {
    var all, some := set g | g in before + [last], set g | g in before;
    assert all == some + {last};
    assert GroupSettings(all) == GroupSettings(some) + {Setting(AsGroup, last)};
    FlagsSplit(GroupSettings(some), {Setting(AsGroup, last)});
  }

  function IdentitySettings(identity: Option<Collectors.Impersonation>): set<Setting> {
    if identity.None? then {}
    else One(As, identity.value.username) + GroupSettings(set g | g in identity.value.groups)
  }

  lemma {:induction false} IdentityBlock(identity: Option<Collectors.Impersonation>)
    requires ReadableIdentity(identity)
    ensures FlagsIn(WordsOf(Collectors.IdentityParts(identity))) == FlagsOf(IdentitySettings(identity))
    ensures FlagLed(WordsOf(Collectors.IdentityParts(identity)))
  {
    if identity.Some? {
      var user, groups := identity.value.username, identity.value.groups;
      GroupsBlock(groups, []);
      var tokens := WordsOf(Collectors.GroupParts(groups));
      assert tokens + [] == tokens;
      SettingBlock(As, user, tokens);
      WordsOfAppend(["--as", user], Collectors.GroupParts(groups));
      FlagsSplit(One(As, user), GroupSettings(set g | g in groups));
    }
  }

  // ------------------------------------------------------------ whole commands

  lemma {:induction false} WordIsPositional(word: string, rest: seq<string>)
    requires '-' !in word || Readable(word)
    ensures FlagsIn(WordsOf([word]) + rest) == FlagsIn(rest)
  {
    OnePart(word);
    if '-' !in word {
      WordsHoldNoMore(word, '-');
      assert forall t :: t in Words(word) && t != "" ==> t[0] in t;
    } else {
      OneWord(word);
    }
    PositionalsSayNothing(Words(word), rest);
  }

  /** kubectl, the verb and what it is about: positional, every one. */
  lemma {:induction false} HeadBlock(verb: string, about: string, rest: seq<string>)
    requires '-' !in verb && ('-' !in about || Readable(about))
    ensures FlagsIn(WordsOf(["kubectl", verb, about]) + rest) == FlagsIn(rest)
  {
    assert '-' !in "kubectl";
    PositionalsBlock("kubectl", verb, about, rest);
  }

  lemma {:induction false} PositionalsBlock(a: string, b: string, c: string, rest: seq<string>)
    requires '-' !in a && '-' !in b && ('-' !in c || Readable(c))
    ensures FlagsIn(WordsOf([a, b, c]) + rest) == FlagsIn(rest)
  {
    hide WordsOf, FlagsIn, Readable;
    var last := WordsOf([c]) + rest;
    WordIsPositional(a, WordsOf([b]) + last);
    WordIsPositional(b, last);
    WordIsPositional(c, rest);
    PartsThen([a, b], [c], rest);
    PartsThen([a], [b], last);
    assert [a, b] + [c] == [a, b, c] && [a] + [b] == [a, b];
  }

  lemma {:induction false} NameBlock(name: string, rest: seq<string>)
    requires Readable(name)
    ensures FlagsIn(WordsOf(Given(name != "", [name])) + rest) == FlagsIn(rest)
  {
    if name != "" {
      WordIsPositional(name, rest);
    } else {
      NoBlock(rest);
    }
  }

  lemma {:induction false} ScopeBlock(entry: Resource, namespace: string, parameters: Parameters, rest: seq<string>)
    requires Readable(namespace) && FlagLed(rest)
    ensures FlagsIn(WordsOf(ScopeParts(entry, namespace, parameters)) + rest)
            == FlagsOf(One(Namespace, EffectiveNamespace(entry, namespace, parameters))) + FlagsIn(rest)
  {
    NoBlock(rest);
    if EffectiveNamespace(entry, namespace, parameters) != "" {
      PairBlock(Namespace, namespace, rest);
      assert "-n" + " " + namespace == "-n " + namespace;
    } else {
      AllNamespacesBlock(rest);
    }
    hide FlagsIn, WordsOf, FlagsOf, Param;
  }

  lemma {:induction false} FormatBlock(get: bool, rest: seq<string>)
    requires FlagLed(rest)
    ensures FlagsIn(WordsOf(Given(get, ["-o", "json"])) + rest) == FlagsIn(rest)
    ensures FlagLed(WordsOf(Given(get, ["-o", "json"])) + rest)
  {
    OutputBlock(rest);
    NoBlock(rest);
    hide FlagsIn, WordsOf, FlagsOf;
  }

  predicate Legible(namespace: string, name: string, parameters: Parameters,
                    identity: Option<Collectors.Impersonation>) {
    && Readable(namespace) && Readable(name)
    && Readable(Param(parameters, "label_selector")) && Readable(Param(parameters, "field_selector"))
    && Readable(Param(parameters, "container")) && Unspaced(Param(parameters, "tail"))
    && ReadableIdentity(identity)
  }

  lemma {:induction false} SixParts(a: seq<string>, b: seq<string>, c: seq<string>, d: seq<string>, e: seq<string>,
                                    f: seq<string>, rest: seq<string>)
    ensures WordsOf(a + b + c + d + e + f) + rest
            == WordsOf(a) + (WordsOf(b) + (WordsOf(c) + (WordsOf(d) + (WordsOf(e) + (WordsOf(f) + rest)))))
  {
    var afterE := WordsOf(f) + rest;
    var afterD := WordsOf(e) + afterE;
    var afterC := WordsOf(d) + afterD;
    PartsThen(a + b + c + d + e, f, rest);
    PartsThen(a + b + c + d, e, afterE);
    PartsThen(a + b + c, d, afterD);
    PartsThen(a + b, c, afterC);
    PartsThen(a, b, WordsOf(c) + afterC);
    hide WordsOf;
  }

  /** What is asked for, after the resource and the scope: two selectors and the output format. */
  lemma {:induction false} SelectionBlock(selector: string, fieldSelector: string, get: bool, rest: seq<string>)
    requires Readable(selector) && Readable(fieldSelector) && FlagLed(rest)
    ensures
      var tokens := WordsOf(Spaced("-l", selector))
                    + (WordsOf(Spaced("--field-selector", fieldSelector))
                      + (WordsOf(Given(get, ["-o", "json"])) + rest));
      && FlagsIn(tokens)
         == FlagsOf(One(Selector, selector)) + (FlagsOf(One(FieldSelector, fieldSelector)) + FlagsIn(rest))
      && FlagLed(tokens)
  {
    FormatBlock(get, rest);
    var format := WordsOf(Given(get, ["-o", "json"])) + rest;
    SettingBlock(FieldSelector, fieldSelector, format);
    SettingBlock(Selector, selector, WordsOf(Spaced("--field-selector", fieldSelector)) + format);
    hide FlagsIn, WordsOf, FlagsOf, Readable, FlagLed, Spaced, Given, One;
  }

  /** What the command of a table read says, after which some tokens follow. */
  lemma {:induction false} TableCommand(entry: Resource, namespace: string, name: string, parameters: Parameters,
                                        rest: seq<string>)
    requires Bare(Entry("", entry)) && FlagLed(rest)
    requires Legible(namespace, name, parameters, None)
    ensures FlagsIn(WordsOf(CommandParts(entry, namespace, name, parameters)) + rest)
            == FlagsOf(One(Namespace, EffectiveNamespace(entry, namespace, parameters)))
               + (FlagsOf(One(Selector, Param(parameters, "label_selector")))
                  + (FlagsOf(One(FieldSelector, Param(parameters, "field_selector"))) + FlagsIn(rest)))
  {
    var verb := Verb(entry);
    assert '-' !in verb by {
      assert '-' !in "get" && '-' !in "top";
    }
    var chosen, field := Param(parameters, "label_selector"), Param(parameters, "field_selector");
    hide FlagsIn, WordsOf, FlagsOf, Param, Readable, FlagLed, Unspaced, ScopeParts, Spaced, Given, EffectiveNamespace,
      Verb, One;
    var format := Given(verb == "get", ["-o", "json"]);
    var fields, labels := Spaced("--field-selector", field), Spaced("-l", chosen);
    var scope, named := ScopeParts(entry, namespace, parameters), Given(name != "", [name]);
    SixParts(["kubectl", verb, entry.kubectl], named, scope, labels, fields, format, rest);
    SelectionBlock(chosen, field, verb == "get", rest);
    var selection := WordsOf(labels) + (WordsOf(fields) + (WordsOf(format) + rest));
    ScopeBlock(entry, namespace, parameters, selection);
    NameBlock(name, WordsOf(scope) + selection);
    HeadBlock(verb, entry.kubectl, WordsOf(named) + (WordsOf(scope) + selection));
  }

  // --------------------------------------------------------------------- logs

  lemma {:induction false} ContainerBlock(container: string, rest: seq<string>)
    requires Readable(container)
    ensures FlagsIn(WordsOf(Given(container != "", ["-c " + container])) + rest)
            == FlagsOf(One(Container, container)) + FlagsIn(rest)
  {
    NoBlock(rest);
    if container != "" {
      PairBlock(Container, container, rest);
      assert "-c" + " " + container == "-c " + container;
    }
    hide FlagsIn, WordsOf, FlagsOf, Readable;
  }

  lemma {:induction false} TailBlock(tail: string, rest: seq<string>)
    requires Unspaced(tail)
    ensures FlagsIn(WordsOf(Given(tail != "", ["--tail=" + tail])) + rest) == FlagsOf(One(Tail, tail)) + FlagsIn(rest)
  {
    NoBlock(rest);
    if tail != "" {
      AttachedBlock(Tail, tail, rest);
      assert "--tail" + "=" + tail == "--tail=" + tail;
    }
    hide FlagsIn, WordsOf, FlagsOf, Unspaced;
  }

  function PreviousSetting(previous: bool): set<Setting> {
    if previous then {Setting(Previous, "")} else {}
  }

  function EverythingSetting(everything: bool): set<Setting> {
    if everything then {Setting(Everything, "true")} else {}
  }

  lemma {:induction false} EverythingBlock(everything: bool, rest: seq<string>)
    requires FlagLed(rest)
    ensures FlagsIn(WordsOf(Given(everything, ["--all-containers=true"])) + rest)
            == FlagsOf(EverythingSetting(everything)) + FlagsIn(rest)
    ensures FlagLed(WordsOf(Given(everything, ["--all-containers=true"])) + rest)
  {
    if everything {
      EverythingText();
      AttachedBlock(Everything, "true", rest);
      hide FlagsIn, WordsOf, FlagsOf, Unspaced, FlagLed, OptionName.Name;
    } else {
      NoBlock(rest);
      hide FlagsIn, WordsOf, FlagsOf, FlagLed;
    }
  }

  lemma {:induction false} EverythingText()
    ensures Everything.Name() + "=" + "true" == "--all-containers=true" && Unspaced("true")
  {
  }

  lemma {:induction false} MaybePreviousBlock(previous: bool, rest: seq<string>)
    requires FlagLed(rest)
    ensures FlagsIn(WordsOf(Given(previous, ["--previous"])) + rest)
            == FlagsOf(PreviousSetting(previous)) + FlagsIn(rest)
  {
    NoBlock(rest);
    PreviousBlock(rest);
    hide FlagsIn, WordsOf, FlagsOf, FlagLed;
  }

  /** What the options of a log read say. */
  lemma {:induction false} LogOptionsBlock(container: string, tail: string, previous: bool, everything: bool,
                                           rest: seq<string>)
    requires Readable(container) && Unspaced(tail) && FlagLed(rest)
    ensures
      FlagsIn(WordsOf(Given(container != "", ["-c " + container]))
              + (WordsOf(Given(tail != "", ["--tail=" + tail]))
                 + (WordsOf(Given(previous, ["--previous"]))
                   + (WordsOf(Given(everything, ["--all-containers=true"])) + rest))))
      == FlagsOf(One(Container, container))
         + (FlagsOf(One(Tail, tail))
            + (FlagsOf(PreviousSetting(previous)) + (FlagsOf(EverythingSetting(everything)) + FlagsIn(rest))))
  {
    EverythingBlock(everything, rest);
    var last := WordsOf(Given(everything, ["--all-containers=true"])) + rest;
    MaybePreviousBlock(previous, last);
    var switches := WordsOf(Given(previous, ["--previous"])) + last;
    TailBlock(tail, switches);
    ContainerBlock(container, WordsOf(Given(tail != "", ["--tail=" + tail])) + switches);
    hide FlagsIn, WordsOf, FlagsOf, Readable, Unspaced, FlagLed, Given, One, PreviousSetting, EverythingSetting;
  }

  lemma {:induction false} LogCommand(namespace: string, name: string, parameters: Parameters, rest: seq<string>)
    requires FlagLed(rest) && Legible(namespace, name, parameters, None) && namespace != ""
    ensures FlagsIn(WordsOf(LogParts(namespace, name, parameters)) + rest)
            == FlagsOf(One(Namespace, namespace))
               + (FlagsOf(One(Container, Param(parameters, "container")))
                  + (FlagsOf(One(Tail, Param(parameters, "tail")))
                     + (FlagsOf(PreviousSetting(Param(parameters, "previous") == "true"))
                        + (FlagsOf(EverythingSetting(Param(parameters, "all_containers") == "true")) + FlagsIn(rest)))))
  {
    assert '-' !in "logs";
    var container, tail := Param(parameters, "container"), Param(parameters, "tail");
    var previous, everything := Param(parameters, "previous") == "true", Param(parameters, "all_containers") == "true";
    assert Spaced("-n", namespace) == ["-n", namespace];
    hide FlagsIn, WordsOf, FlagsOf, Param, Readable, FlagLed, Unspaced, Given, One, PreviousSetting, EverythingSetting,
      Spaced;
    var head, scoped := ["kubectl", "logs", name], ["-n", namespace];
    var contained, tailed := Given(container != "", ["-c " + container]), Given(tail != "", ["--tail=" + tail]);
    var earlier, every := Given(previous, ["--previous"]), Given(everything, ["--all-containers=true"]);
    LogPartsAre(namespace, name, parameters, contained, tailed, earlier, every);
    SixParts(head, scoped, contained, tailed, earlier, every, rest);
    LogOptionsBlock(container, tail, previous, everything, rest);
    var options := WordsOf(contained) + (WordsOf(tailed) + (WordsOf(earlier) + (WordsOf(every) + rest)));
    SettingBlock(Namespace, namespace, options);
    HeadBlock("logs", name, WordsOf(scoped) + options);
  }

  lemma {:induction false} LogPartsAre(namespace: string, name: string, parameters: Parameters, contained: seq<string>,
                                       tailed: seq<string>, earlier: seq<string>, every: seq<string>)
    requires contained == Given(Param(parameters, "container") != "", ["-c " + Param(parameters, "container")])
    requires tailed == Given(Param(parameters, "tail") != "", ["--tail=" + Param(parameters, "tail")])
    requires earlier == Given(Param(parameters, "previous") == "true", ["--previous"])
    requires every == Given(Param(parameters, "all_containers") == "true", ["--all-containers=true"])
    ensures LogParts(namespace, name, parameters)
            == ["kubectl", "logs", name] + ["-n", namespace] + contained + tailed + earlier + every
  {
    hide Given, Param;
    assert LogExtras(parameters) == contained + tailed + earlier + every;
  }

  // --------------------------------------------------------------- the theorem

  /** The recorded command is the parts of the command and of the identity, joined. */
  lemma {:induction false} RecordedText(parts: seq<string>, identity: Option<Collectors.Impersonation>)
    requires parts != []
    ensures Words(Join(parts) + Collectors.Suffix(identity))
            == WordsOf(parts) + WordsOf(Collectors.IdentityParts(identity))
  {
    var who := Collectors.IdentityParts(identity);
    JoinAppend(parts, who);
    WordsOfJoin(parts + who);
    WordsOfAppend(parts, who);
    assert identity.None? ==> Join(parts) + "" == Join(parts);
    hide Words, WordsOf, Join, Collectors.GroupParts;
  }

  lemma {:induction false} JoinIsSomething(parts: seq<string>)
    requires parts != [] && parts[0] != ""
    ensures Join(parts) != ""
  {
  }

  /** The settings of a table read are those of its scope, its selectors and its identity. */
  lemma {:induction false} TableSettings(namespace: string, selector: string, fieldSelector: string,
                                         user: string, groups: set<string>, identity: Option<Collectors.Impersonation>)
    requires user == (if identity.Some? then identity.value.username else "")
    requires groups == if identity.Some? then set g | g in identity.value.groups else {}
    ensures FlagsOf(Settings(Options(namespace, selector, fieldSelector, "", "", false, false, user, groups)))
            == FlagsOf(One(Namespace, namespace))
               + (FlagsOf(One(Selector, selector))
                 + (FlagsOf(One(FieldSelector, fieldSelector)) + FlagsOf(IdentitySettings(identity))))
  {
    var n, l, f, i :=
      One(Namespace, namespace), One(Selector, selector), One(FieldSelector, fieldSelector), IdentitySettings(identity);
    var o := Options(namespace, selector, fieldSelector, "", "", false, false, user, groups);
    assert i == One(As, user) + GroupSettings(groups) by {
      assert identity.None? ==> GroupSettings(groups) == {};
    }
    assert Settings(o) == n + (l + (f + i)) by {
      assert GroupSettings(groups) == set g | g in o.groups :: Setting(AsGroup, g);
      hide One;
    }
    FlagsSplit(f, i);
    FlagsSplit(l, f + i);
    FlagsSplit(n, l + (f + i));
  }

  lemma {:induction false} LogSettings(namespace: string, container: string, tail: string, previous: bool,
                                       everything: bool, user: string, groups: set<string>,
                                       identity: Option<Collectors.Impersonation>)
    requires user == (if identity.Some? then identity.value.username else "")
    requires groups == if identity.Some? then set g | g in identity.value.groups else {}
    ensures FlagsOf(Settings(Options(namespace, "", "", container, tail, previous, everything, user, groups)))
            == FlagsOf(One(Namespace, namespace))
               + (FlagsOf(One(Container, container))
                  + (FlagsOf(One(Tail, tail))
                     + (FlagsOf(PreviousSetting(previous))
                        + (FlagsOf(EverythingSetting(everything)) + FlagsOf(IdentitySettings(identity))))))
  {
    var n, c, t, i := One(Namespace, namespace), One(Container, container), One(Tail, tail), IdentitySettings(identity);
    var p, e := PreviousSetting(previous), EverythingSetting(everything);
    var o := Options(namespace, "", "", container, tail, previous, everything, user, groups);
    assert i == One(As, user) + GroupSettings(groups) by {
      assert identity.None? ==> GroupSettings(groups) == {};
    }
    assert Settings(o) == n + (c + (t + (p + (e + i)))) by {
      assert GroupSettings(groups) == set g | g in o.groups :: Setting(AsGroup, g);
      hide One;
    }
    FlagsSplit(e, i);
    FlagsSplit(p, e + i);
    FlagsSplit(t, p + (e + i));
    FlagsSplit(c, t + (p + (e + i)));
    FlagsSplit(n, c + (t + (p + (e + i))));
  }

  /** The command recorded for a read, and the options a comparison of commands finds in it. */
  function Recorded(kind: string, namespace: string, name: string, parameters: Parameters,
                    identity: Option<Collectors.Impersonation>): Option<string>
  {
    Collectors.RecordedCommand(identity, Resolved(kind, namespace, name, parameters))
  }

  /**
   Print, then parse: out of the command recorded for a read come exactly its
   namespace, selectors, container, tail, switches and identity.
   */
  lemma {:induction false} PrintThenParse(kind: string, namespace: string, name: string, parameters: Parameters,
                                          identity: Option<Collectors.Impersonation>)
    requires Resolved(kind, namespace, name, parameters).Ok?
    requires Legible(namespace, name, parameters, identity)
    ensures FlagsOfCommand(Recorded(kind, namespace, name, parameters, identity))
            == Some(FlagsOf(Settings(OptionsOf(kind, namespace, parameters, identity))))
  {
    hide *;
    if kind == LOGS {
      PrintThenParseLogs(namespace, name, parameters, identity);
    } else {
      PrintThenParseTable(kind, namespace, name, parameters, identity);
    }
  }

  lemma {:induction false} PrintThenParseLogs(namespace: string, name: string, parameters: Parameters,
                                              identity: Option<Collectors.Impersonation>)
    requires Resolved(LOGS, namespace, name, parameters).Ok?
    requires Legible(namespace, name, parameters, identity)
    ensures FlagsOfCommand(Recorded(LOGS, namespace, name, parameters, identity))
            == Some(FlagsOf(Settings(OptionsOf(LOGS, namespace, parameters, identity))))
  {
    var o := OptionsOf(LOGS, namespace, parameters, identity);
    var parts, who := LogParts(namespace, name, parameters), WordsOf(Collectors.IdentityParts(identity));
    assert parts != [] && parts[0] == "kubectl";
    assert namespace != "" && Resolved(LOGS, namespace, name, parameters).value.command == Join(parts);
    hide Kinds, Lookup, Resolved, ResolvedLogs, LogParts, FlagsIn, Words, WordsOf, Join, FlagsOf, Settings,
      Collectors.Suffix, Collectors.IdentityParts, One, Param, IdentitySettings, Readable, FlagLed;
    JoinIsSomething(parts);
    RecordedText(parts, identity);
    IdentityBlock(identity);
    LogCommand(namespace, name, parameters, who);
    LogSettings(o.namespace, o.container, o.tail, o.previous, o.everything, o.user, o.groups, identity);
  }

  lemma {:induction false} PrintThenParseTable(kind: string, namespace: string, name: string, parameters: Parameters,
                                               identity: Option<Collectors.Impersonation>)
    requires kind != LOGS && Resolved(kind, namespace, name, parameters).Ok?
    requires Legible(namespace, name, parameters, identity)
    ensures FlagsOfCommand(Recorded(kind, namespace, name, parameters, identity))
            == Some(FlagsOf(Settings(OptionsOf(kind, namespace, parameters, identity))))
  {
    hide Kinds, Lookup;
    var entry := Lookup(Kinds(), kind).value;
    EntryIsBare(kind);
    var o := OptionsOf(kind, namespace, parameters, identity);
    var parts, who := CommandParts(entry, namespace, name, parameters), WordsOf(Collectors.IdentityParts(identity));
    assert parts != [] && parts[0] == "kubectl";
    assert Resolved(kind, namespace, name, parameters).value.command == Join(parts);
    hide Resolved, CommandParts, FlagsIn, Words, WordsOf, Join, FlagsOf, Settings, Collectors.Suffix,
      Collectors.IdentityParts, One, Param, IdentitySettings, Readable, FlagLed, EffectiveNamespace, Bare;
    JoinIsSomething(parts);
    RecordedText(parts, identity);
    IdentityBlock(identity);
    TableCommand(entry, namespace, name, parameters, who);
    TableSettings(o.namespace, o.selector, o.fieldSelector, o.user, o.groups, identity);
  }

  lemma {:induction false} EntryIsBare(kind: string)
    requires Lookup(Kinds(), kind).Some?
    ensures Bare(Entry("", Lookup(Kinds(), kind).value))
  {
    TableIsBare();
    PolicyProofs.LookupFinds(Kinds(), kind);
    hide Kinds, Lookup;
  }

  /** Two commands read as equal exactly when their options agree, the groups as a set. */
  lemma {:induction false} CommandsAgreeIff(kind: string, namespace: string, name: string, parameters: Parameters,
                                            identity: Option<Collectors.Impersonation>,
                                            kind': string, namespace': string, name': string, parameters': Parameters,
                                            identity': Option<Collectors.Impersonation>)
    requires Resolved(kind, namespace, name, parameters).Ok? && Resolved(kind', namespace', name', parameters').Ok?
    requires Legible(namespace, name, parameters, identity) && Legible(namespace', name', parameters', identity')
    ensures
      FlagsOfCommand(Recorded(kind, namespace, name, parameters, identity))
      == FlagsOfCommand(Recorded(kind', namespace', name', parameters', identity')) <==>
      OptionsOf(kind, namespace, parameters, identity) == OptionsOf(kind', namespace', parameters', identity')
  {
    hide *;
    PrintThenParse(kind, namespace, name, parameters, identity);
    PrintThenParse(kind', namespace', name', parameters', identity');
    var a, b := OptionsOf(kind, namespace, parameters, identity), OptionsOf(kind', namespace', parameters', identity');
    if FlagsOf(Settings(a)) == FlagsOf(Settings(b)) {
      FlagsAreInjective(Settings(a), Settings(b));
      SettingsAreInjective(a, b);
    }
  }

  /** A flag's text is in no other flag's place. */
  lemma {:induction false} OnlyItsOwnText(option: OptionName, value: string, other: string)
    requires FlagText(option.Name(), other) in FlagsOf({Setting(option, value)})
    ensures other == value
  {
    FlagsOfOne(Setting(option, value));
    NamesAreFlags(option);
    FlagTextIsInjective(option.Name(), other, option.Name(), value);
  }

  /** The first flag of some tokens is folded to a text that names it. */
  lemma {:induction false} LeadingFlag(option: OptionName, tokens: seq<string>)
    ensures
      var value := if tokens != [] && !IsFlag(tokens[0]) then tokens[0] else "";
      FlagText(option.Name(), value) in FlagsIn([option.Name()] + tokens)
  {
    var name := option.Name();
    NamesAreFlags(option);
    if tokens != [] && !IsFlag(tokens[0]) {
      SpacedFlag(name, tokens[0], tokens[1..]);
      assert [name] + tokens == [name, tokens[0]] + tokens[1..];
    } else {
      BareFlag(name, tokens);
    }
    hide OptionName.Name, FlagsIn, FlagText;
  }

  /**
   Which values survive: an option and its value, a space between them, are read
   back if and only if the value is one word and not a flag. A set-based
   selector, which holds spaces, is not: what follows its first word is lost.
   */
  lemma {:induction false} SpacedReadsBackIff(option: OptionName, value: string)
    requires value != ""
    ensures FlagsIn(Words(option.Name() + " " + value)) == FlagsOf({Setting(option, value)}) <==> Readable(value)
  {
    var name, tokens := option.Name(), Words(value);
    WordsSplit(name, value);
    NamesAreWords(option);
    WordsAreWords(value);
    LeadingFlag(option, tokens);
    hide OptionName.Name, Words, FlagsIn, FlagsOf, FlagText, Unspaced;
    if Readable(value) {
      OneWord(value);
      SettingTokens(option, value, []);
      assert [name] + [value] == [name, value] + [];
      NothingFollows(option, value);
    } else if FlagsIn([name] + tokens) == FlagsOf({Setting(option, value)}) {
      OnlyItsOwnText(option, value, if tokens != [] && !IsFlag(tokens[0]) then tokens[0] else "");
    }
  }

  lemma {:induction false} NothingFollows(option: OptionName, value: string)
    ensures FlagsOf({Setting(option, value)}) + FlagsIn([]) == FlagsOf({Setting(option, value)})
  {
  }

  /** A value attached to its flag is read back if and only if it is one word; it may look like a flag. */
  lemma {:induction false} AttachedReadsBackIff(option: OptionName, value: string)
    requires value != ""
    ensures FlagsIn(Words(option.Name() + "=" + value)) == FlagsOf({Setting(option, value)}) <==> Unspaced(value)
  {
    var n := WordLength(value);
    var first, more := value[..n], value[n..];
    assert value == first + more;
    var part := option.Name() + "=" + first;
    assert option.Name() + "=" + value == part + more;
    AttachedIsUnspaced(option, first);
    OneWord(part);
    WordsBefore(part, more);
    NamesAreFlags(option);
    AttachedFlag(option.Name(), first, Words(more));
    NothingFollows(option, value);
    NoWords();
    assert Unspaced(value) <==> more == "";
    hide OptionName.Name, Words, FlagsIn, FlagsOf, FlagText, Unspaced, RENDERING_ONLY;
    if more == "" {
      AttachedBlock(option, value, []);
    } else if FlagsIn(Words(part + more)) == FlagsOf({Setting(option, value)}) {
      OnlyItsOwnText(option, value, first);
    }
  }

  /**
   A command tells which read it records: of one kind and name, and under one
   limit, two reads whose commands compare equal ask the same path with the same query.
   */
  lemma {:induction false} CommandTellsRead(kind: string, name: string,
                                            namespace: string, parameters: Parameters,
                                            identity: Option<Collectors.Impersonation>,
                                            namespace': string, parameters': Parameters,
                                            identity': Option<Collectors.Impersonation>)
    requires Resolved(kind, namespace, name, parameters).Ok? && Resolved(kind, namespace', name, parameters').Ok?
    requires Legible(namespace, name, parameters, identity) && Legible(namespace', name, parameters', identity')
    requires kind != LOGS ==> Param(parameters, "limit") == Param(parameters', "limit")
    requires FlagsOfCommand(Recorded(kind, namespace, name, parameters, identity))
             == FlagsOfCommand(Recorded(kind, namespace', name, parameters', identity'))
    ensures
      var read, read' :=
        Resolved(kind, namespace, name, parameters).value, Resolved(kind, namespace', name, parameters').value;
      read.path == read'.path && read.query == read'.query
  {
    CommandsAgreeIff(kind, namespace, name, parameters, identity, kind, namespace', name, parameters', identity');
    SameOptionsSameRead(kind, name, namespace, parameters, identity, namespace', parameters', identity');
    hide *;
  }

  lemma {:induction false} SameOptionsSameRead(kind: string, name: string,
                                               namespace: string, parameters: Parameters,
                                               identity: Option<Collectors.Impersonation>,
                                               namespace': string, parameters': Parameters,
                                               identity': Option<Collectors.Impersonation>)
    requires Resolved(kind, namespace, name, parameters).Ok? && Resolved(kind, namespace', name, parameters').Ok?
    requires kind != LOGS ==> Param(parameters, "limit") == Param(parameters', "limit")
    requires OptionsOf(kind, namespace, parameters, identity) == OptionsOf(kind, namespace', parameters', identity')
    ensures
      var read, read' :=
        Resolved(kind, namespace, name, parameters).value, Resolved(kind, namespace', name, parameters').value;
      read.path == read'.path && read.query == read'.query
  {
    hide Kinds, Lookup, Join, Slashed, Param, EffectiveNamespace, CommandParts, LogParts, PathSegments, LogSegments;
  }
}
