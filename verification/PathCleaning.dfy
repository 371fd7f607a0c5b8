/** When the path of a read survives the cleaning every request path goes through: Go's path.Clean, on rooted paths. */
module PathCleaning {
  import opened Prelude
  import opened Escaping
  import opened PolicyKinds
  import opened TableFacts
  import opened PolicyProofs

  /** A segment that cleaning does not keep. */
  predicate Dots(segment: string) {
    segment == "." || segment == ".."
  }

  /** Empty and "." segments are dropped, and ".." takes the one before it away. */
  function CleanSegments(segments: seq<string>): seq<string> {
    if segments == [] then []
    else
      var n := |segments| - 1;
      var before := CleanSegments(segments[..n]);
      if segments[n] == "" || segments[n] == "." then before
      else if segments[n] != ".." then before + [segments[n]]
      else if before == [] then []
      else before[..|before| - 1]
  }

  function Clean(path: string): string {
    var segments := CleanSegments(Segments(path));
    if segments == [] then "/" else Slashed(segments)
  }

  predicate Settled(segments: seq<string>) {
    forall s :: s in segments ==> s != "" && !Dots(s)
  }

  lemma {:induction false} SettledAppend(a: seq<string>, b: seq<string>)
    ensures Settled(a + b) <==> Settled(a) && Settled(b)
  {
    assert forall s :: s in a + b <==> s in a || s in b;
  }

  lemma {:induction false} NoneIsSettled()
    ensures Settled([])
  {
  }

  lemma {:induction false} OneIsSettled(s: string)
    ensures Settled([s]) <==> s != "" && !Dots(s)
  {
    assert s in [s];
    hide Dots;
  }

  lemma {:induction false} CleanSegmentsKeep(segments: seq<string>)
    requires Whole(segments)
    ensures Whole(CleanSegments(segments)) && |CleanSegments(segments)| <= |segments|
    ensures Settled(segments) ==> CleanSegments(segments) == segments
    ensures !Settled(segments) ==> |CleanSegments(segments)| < |segments|
  {
    hide Settled;
    if segments == [] {
      NoneIsSettled();
    } else {
      var n := |segments| - 1;
      CleanSegmentsKeep(segments[..n]);
      SettledAppend(segments[..n], [segments[n]]);
      OneIsSettled(segments[n]);
      assert segments == segments[..n] + [segments[n]];
    }
  }

  /** A path of whole segments is left alone exactly when cleaning keeps each of them. */
  lemma {:induction false} CleanKeepsIff(segments: seq<string>)
    requires Whole(segments) && |segments| >= 2
    ensures Clean(Slashed(segments)) == Slashed(segments) <==> Settled(segments)
  {
    hide Settled, Segments, CleanSegments;
    SegmentsOfSlashed(segments);
    CleanSegmentsKeep(segments);
    SegmentsOfSlashed(CleanSegments(segments));
    assert |Slashed(segments)| > |"/"|;
  }

  // ------------------------------------------------------------ the table's paths

  lemma {:induction false} EscapedDots(s: string)
    ensures Dots(PathEscape(s)) <==> Dots(s)
    ensures PathEscape(s) == "" <==> s == ""
  {
    EscapedIsOneSegment(s);
    SegmentRoundTrip(s);
    OneDot();
    TwoDots();
    hide PathEscape, ReadSegment, IsSegment;
  }

  lemma {:induction false} OneDot()
    ensures PathEscape(".") == "." && ReadSegment(".") == Some(".")
  {
    assert Encode(".") == ['.' as byte] by {
      assert "."[1..] == "" && Encode("") == [];
    }
    assert ['.' as byte][1..] == [] && Escape([]) == "";
    assert EscapeByte('.' as byte) == ".";
    SegmentRoundTrip(".");
  }

  lemma {:induction false} TwoDots()
    ensures PathEscape("..") == ".." && ReadSegment("..") == Some("..")
  {
    OneDot();
    var dot := '.' as byte;
    assert ".."[1..] == "." && EncodeChar('.') == [dot];
    assert Encode("..") == [dot] + Encode(".");
    assert ([dot] + Encode("."))[1..] == Encode(".");
    assert EscapeByte(dot) == ".";
    SegmentRoundTrip("..");
  }

  lemma {:induction false} GroupsAreSettled(group: ApiGroup)
    requires group in {METRICS, STORAGE, DISCOVERY, NETWORKING, BATCH, APPS} + {Core}
    ensures Settled(GroupSegments(group))
  {
    assert "v1"[0] == 'v' && "."[0] == '.' && ".."[0] == '.';
    var segments := GroupSegments(group);
    assert forall i :: 0 <= i < |segments| ==> |segments[i]| >= 2 && segments[i][0] != '.';
  }

  lemma {:induction false} RestIsSettled(plural: string, namespace: string, name: string)
    requires |plural| > 2
    ensures Settled(RestOf(plural, namespace, name)) <==> !Dots(namespace) && !Dots(name)
  {
    hide PathEscape;
    EscapedDots(namespace);
    EscapedDots(name);
    var rest := RestOf(plural, namespace, name);
    assert |"namespaces"| == 10;
    assert rest[|rest| - 1] in rest;
    if namespace != "" {
      assert rest[1] == PathEscape(namespace) && rest[1] in rest;
    }
    if name != "" {
      assert rest[|rest| - 1] == PathEscape(name);
    }
  }

  lemma {:induction false} TablePathIsClean(kind: string, entry: Resource, namespace: string, name: string)
    requires Lookup(Kinds(), kind) == Some(entry)
    ensures
      var path := Slashed(PathSegments(entry, namespace, name));
      Clean(path) == path <==> !Dots(namespace) && !Dots(name)
  {
    TableIsFaithful();
    TableIsPlain();
    TableIsLong();
    LookupFinds(Kinds(), kind);
    hide Kinds, PathEscape, Whole, Slashed, Settled, Clean, Dots;
    GroupsArePlain(entry.group);
    GroupsAreSettled(entry.group);
    var group, rest := GroupSegments(entry.group), RestOf(entry.plural, namespace, name);
    RestIsWhole(entry.plural, namespace, name);
    RestIsSettled(entry.plural, namespace, name);
    WholeAppend(group, rest);
    SettledAppend(group, rest);
    CleanKeepsIff(group + rest);
    assert PathSegments(entry, namespace, name) == group + rest;
  }

  lemma {:induction false} LogPathIsClean(namespace: string, name: string)
    requires namespace != "" && name != ""
    ensures
      var path := Slashed(LogSegments(namespace, name));
      Clean(path) == path <==> !Dots(namespace) && !Dots(name)
  {
    hide PathEscape, Whole, Slashed, Clean, Kinds;
    LogRestIsWhole(namespace, name);
    GroupsArePlain(Core);
    GroupsAreSettled(Core);
    LogRestIsSettled(namespace, name);
    var group, rest := GroupSegments(Core), ["namespaces", PathEscape(namespace), "pods", PathEscape(name), "log"];
    WholeAppend(group, rest);
    SettledAppend(group, rest);
    CleanKeepsIff(group + rest);
    assert LogSegments(namespace, name) == group + rest;
  }

  lemma {:induction false} LogRestIsSettled(namespace: string, name: string)
    requires namespace != "" && name != ""
    ensures Settled(["namespaces", PathEscape(namespace), "pods", PathEscape(name), "log"]) <==>
            !Dots(namespace) && !Dots(name)
  {
    hide PathEscape;
    EscapedDots(namespace);
    EscapedDots(name);
    assert |"namespaces"| == 10 && |"pods"| == 4 && |"log"| == 3;
    var rest := ["namespaces", PathEscape(namespace), "pods", PathEscape(name), "log"];
    assert rest[1] in rest && rest[3] in rest;
  }

  /**
   A resolved path is requested as it stands, and so reads back from the request
   itself, exactly when neither the namespace it is confined to nor the name is
   made of one or two dots alone.
   */
  lemma {:induction false} PathIsCleanIff(kind: string, namespace: string, name: string, parameters: Parameters)
    requires Resolved(kind, namespace, name, parameters).Ok?
    ensures
      var path := Resolved(kind, namespace, name, parameters).value.path;
      Clean(path) == path <==> !Dots(ConfinedTo(kind, namespace, parameters)) && !Dots(name)
  {
    hide Kinds, Lookup, Clean, Slashed, PathSegments, LogSegments, QueryOf, LogQuery, CommandParts, LogParts,
      EffectiveNamespace, Dots;
    if kind == LOGS {
      LogPathIsClean(namespace, name);
    } else {
      var entry := Lookup(Kinds(), kind).value;
      TablePathIsClean(kind, entry, EffectiveNamespace(entry, namespace, parameters), name);
    }
  }
}
