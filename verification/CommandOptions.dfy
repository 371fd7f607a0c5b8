/** The agent's command text and the comparison that reads it: print, then parse. */
module CommandOptions {
  import opened Prelude
  import opened PolicyKinds
  import opened SemanticFlags
  import Collectors

  datatype OptionName = Namespace | Selector | FieldSelector | Container | Tail | Previous | Everything | As | AsGroup {
    function Name(): string {
      match this
      case Namespace => "-n"
      case Selector => "-l"
      case FieldSelector => "--field-selector"
      case Container => "-c"
      case Tail => "--tail"
      case Previous => "--previous"
      case Everything => "--all-containers"
      case As => "--as"
      case AsGroup => "--as-group"
    }
  }

  datatype Setting = Setting(option: OptionName, value: string)

  /** What a read asks for and as whom; an empty string stands for an option that is absent. */
  datatype Options = Options(
    namespace: string,
    selector: string,
    fieldSelector: string,
    container: string,
    tail: string,
    previous: bool,
    everything: bool,
    user: string,
    groups: set<string>)

  function One(option: OptionName, value: string): set<Setting> {
    if value == "" then {} else {Setting(option, value)}
  }

  function Settings(o: Options): set<Setting> {
    One(Namespace, o.namespace) + One(Selector, o.selector) + One(FieldSelector, o.fieldSelector)
    + One(Container, o.container) + One(Tail, o.tail)
    + (if o.previous then {Setting(Previous, "")} else {})
    + (if o.everything then {Setting(Everything, "true")} else {})
    + One(As, o.user)
    + set g | g in o.groups :: Setting(AsGroup, g)
  }

  function Rendered(s: Setting): string {
    FlagText(s.option.Name(), s.value)
  }

  function FlagsOf(settings: set<Setting>): set<string> {
    set s | s in settings :: Rendered(s)
  }

  /** The options of a read that Resolve produced, sent under an identity. */
  function OptionsOf(kind: string, namespace: string, parameters: Parameters,
                     identity: Option<Collectors.Impersonation>): Options
  {
    var user := if identity.Some? then identity.value.username else "";
    var groups := if identity.Some? then set g | g in identity.value.groups else {};
    if kind == LOGS || Lookup(Kinds(), kind).None? then
      Options(namespace, "", "", Param(parameters, "container"), Param(parameters, "tail"),
              Param(parameters, "previous") == "true", Param(parameters, "all_containers") == "true", user, groups)
    else
      Options(EffectiveNamespace(Lookup(Kinds(), kind).value, namespace, parameters),
              Param(parameters, "label_selector"), Param(parameters, "field_selector"), "", "", false, false,
              user, groups)
  }

  // ------------------------------------------------------- settings and flags

  lemma {:induction false} NamesAreFlags(o: OptionName)
    ensures IsFlag(o.Name()) && '=' !in o.Name() && o.Name() !in RENDERING_ONLY
  {
    assert |"-o"| == 2 && |"-A"| == 2 && |"--context"| == 9 && |"--chunk-size"| == 12 && |"--no-headers"| == 12
           && |"--all-namespaces"| == 16;
  }

  lemma {:induction false} NamesDiffer(a: OptionName, b: OptionName)
    requires a.Name() == b.Name()
    ensures a == b
  {
  }

  /** The text of a flag says which name and which value it was made of. */
  lemma {:induction false} FlagTextIsInjective(a: string, v: string, b: string, w: string)
    requires '=' !in a && '=' !in b && FlagText(a, v) == FlagText(b, w)
    ensures a == b && v == w
  {
    NameLengthOf(a, v);
    NameLengthOf(b, w);
    var s := FlagText(a, v);
    assert NameLength(s) == |a| && NameLength(s) == |b|;
    assert s[..|a|] == a && s[..|b|] == b;
    assert v == if |s| == |a| then "" else s[|a| + 1..];
    assert w == if |s| == |b| then "" else s[|b| + 1..];
  }

  lemma {:induction false} RenderedIsInjective(s: Setting, t: Setting)
    requires Rendered(s) == Rendered(t)
    ensures s == t
  {
    NamesAreFlags(s.option);
    NamesAreFlags(t.option);
    FlagTextIsInjective(s.option.Name(), s.value, t.option.Name(), t.value);
    NamesDiffer(s.option, t.option);
  }

  lemma {:induction false} FlagsSplit(a: set<Setting>, b: set<Setting>)
    ensures FlagsOf(a + b) == FlagsOf(a) + FlagsOf(b)
  {
    hide Rendered;
  }

  /** Flags say exactly which settings they were rendered from. */
  lemma {:induction false} FlagsAreInjective(a: set<Setting>, b: set<Setting>)
    requires FlagsOf(a) == FlagsOf(b)
    ensures a == b
  {
    FlagsWithin(a, b);
    FlagsWithin(b, a);
  }

  lemma {:induction false} FlagsWithin(a: set<Setting>, b: set<Setting>)
    requires FlagsOf(a) <= FlagsOf(b)
    ensures a <= b
  {
    forall s | s in a
      ensures s in b
    {
      assert Rendered(s) in FlagsOf(b);
      var t :| t in b && Rendered(t) == Rendered(s);
      RenderedIsInjective(s, t);
    }
  }

  /** Settings say exactly which options they stand for, the groups as a set. */
  lemma {:induction false} SettingsAreInjective(a: Options, b: Options)
    requires Settings(a) == Settings(b)
    ensures a == b
  {
    forall s
      ensures Has(a, s) <==> Has(b, s)
    {
      SettingIs(a, s);
      SettingIs(b, s);
    }
    assert a.groups == b.groups by {
      forall g
        ensures g in a.groups <==> g in b.groups
      {
        assert Has(a, Setting(AsGroup, g)) <==> Has(b, Setting(AsGroup, g));
      }
    }
    assert Has(a, Setting(Previous, "")) <==> Has(b, Setting(Previous, ""));
    assert Has(a, Setting(Everything, "true")) <==> Has(b, Setting(Everything, "true"));
    SameValue(a, b, Namespace);
    SameValue(a, b, Selector);
    SameValue(a, b, FieldSelector);
    SameValue(a, b, Container);
    SameValue(a, b, Tail);
    SameValue(a, b, As);
  }

  lemma {:induction false} SameValue(a: Options, b: Options, name: OptionName)
    requires forall s :: Has(a, s) <==> Has(b, s)
    requires name !in {AsGroup, Previous, Everything}
    ensures ValueOf(a, name) == ValueOf(b, name)
  {
    assert Has(a, Setting(name, ValueOf(a, name))) <==> Has(b, Setting(name, ValueOf(a, name)));
    assert Has(a, Setting(name, ValueOf(b, name))) <==> Has(b, Setting(name, ValueOf(b, name)));
  }

  /** The value of an option that has at most one. */
  function ValueOf(o: Options, name: OptionName): string {
    match name
    case Namespace => o.namespace
    case Selector => o.selector
    case FieldSelector => o.fieldSelector
    case Container => o.container
    case Tail => o.tail
    case As => o.user
    case _ => ""
  }

  predicate Has(o: Options, s: Setting) {
    match s.option
    case AsGroup => s.value in o.groups
    case Previous => o.previous && s.value == ""
    case Everything => o.everything && s.value == "true"
    case _ => s.value != "" && s.value == ValueOf(o, s.option)
  }

  lemma {:induction false} SettingIs(o: Options, s: Setting)
    ensures s in Settings(o) <==> Has(o, s)
  {
    var groups := set g | g in o.groups :: Setting(AsGroup, g);
    assert s in groups <==> s.option == AsGroup && s.value in o.groups by {
      if s.option == AsGroup && s.value in o.groups {
        assert Setting(AsGroup, s.value) in groups;
      }
    }
    assert s in Settings(o) <==>
      || s in groups
      || s in One(Namespace, o.namespace) || s in One(Selector, o.selector) || s in One(FieldSelector, o.fieldSelector)
      || s in One(Container, o.container) || s in One(Tail, o.tail) || s in One(As, o.user)
      || (o.previous && s == Setting(Previous, "")) || (o.everything && s == Setting(Everything, "true"));
    hide Settings;
  }
}
