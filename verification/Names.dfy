/**
 Reading ownership off a pod's name. The regular expressions are matched as
 Python matches them: `.` is anything but a newline, and `$` also matches before
 one trailing newline.
 */
module Names {
  import opened Prelude

  predicate LowerAlnum(c: char) {
    'a' <= c <= 'z' || '0' <= c <= '9'
  }

  predicate Digit(c: char) {
    '0' <= c <= '9'
  }

  /** `-[a-z0-9]{1,10}-[a-z0-9]{5}`, and `-\d+`. */
  datatype Pattern = Replica | Ordinal

  predicate Suffix(pattern: Pattern, x: string) {
    match pattern
    case Replica =>
      && 8 <= |x| <= 17
      && x[0] == '-' && x[|x| - 6] == '-'
      && forall i :: 1 <= i < |x| && i != |x| - 6 ==> LowerAlnum(x[i])
    case Ordinal =>
      && 2 <= |x|
      && x[0] == '-'
      && forall i :: 1 <= i < |x| ==> Digit(x[i])
  }

  /** The text a pattern ending in `$` has to account for. */
  function Subject(name: string): string {
    if name != [] && name[|name| - 1] == '\n' then name[..|name| - 1] else name
  }

  /** The greedy `(?P<owner>.+)`: the longest owner first. */
  function LongestOwner(pattern: Pattern, subject: string, k: nat): Option<string>
    requires k <= |subject|
  {
    if k == 0 then None
    else if Suffix(pattern, subject[k..]) && '\n' !in subject[..k] then Some(subject[..k])
    else LongestOwner(pattern, subject, k - 1)
  }

  function OwnerOf(pattern: Pattern, name: string): Option<string> {
    LongestOwner(pattern, Subject(name), |Subject(name)|)
  }

  /** _owned_by: the replica pattern's owner is the deployment. */
  predicate OwnedBy(pod: string, deployment: string) {
    OwnerOf(Replica, pod) == Some(deployment)
  }

  /** The same pattern with the deployment's name escaped into it, as _about and the scope use it. */
  predicate MatchesReplicasOf(deployment: string, pod: string) {
    var subject := Subject(pod);
    |deployment| <= |subject| && subject[..|deployment|] == deployment &&
    Suffix(Replica, subject[|deployment|..])
  }

  // ------------------------------------------------------------------ lemmas

  const LETTERS_AND_DIGITS := "abcdefghijklmnopqrstuvwxyz0123456789"

  predicate Spelled(s: string, alphabet: string) {
    forall i :: 0 <= i < |s| ==> s[i] in alphabet
  }

  predicate IsHash(hash: string, tail: string) {
    && 1 <= |hash| <= 10 && Spelled(hash, LETTERS_AND_DIGITS)
    && |tail| == 5 && Spelled(tail, LETTERS_AND_DIGITS)
  }

  function ReplicaName(deployment: string, hash: string, tail: string): string {
    deployment + ("-" + hash + "-" + tail)
  }

  /** A replica's name: the deployment's, a hash of 1 to 10 characters and a tail of 5; `$` lets one newline follow. */
  ghost predicate NamedAfter(deployment: string, pod: string) {
    exists hash, tail :: IsHash(hash, tail) &&
      (pod == ReplicaName(deployment, hash, tail) || pod == ReplicaName(deployment, hash, tail) + "\n")
  }

  /** An ordinal's name: the owner's and one or more digits. */
  ghost predicate NumberedAfter(owner: string, pod: string) {
    exists digits :: digits != "" && Spelled(digits, "0123456789") &&
      (pod == owner + ("-" + digits) || pod == owner + ("-" + digits) + "\n")
  }

  lemma {:induction false} Alphabet(c: char)
    ensures LowerAlnum(c) <==> c in LETTERS_AND_DIGITS
    ensures Digit(c) <==> c in "0123456789"
    ensures c in LETTERS_AND_DIGITS ==> c != '\n'
  {
  }

  lemma {:induction false} ReplicaSuffix(x: string)
    ensures Suffix(Replica, x) <==> exists hash, tail :: IsHash(hash, tail) && x == "-" + hash + "-" + tail
  {
    forall c: char { Alphabet(c); }
    hide LowerAlnum, LETTERS_AND_DIGITS;
    if Suffix(Replica, x) {
      var hash, tail := x[1..|x| - 6], x[|x| - 5..];
      assert x == "-" + hash + "-" + tail;
      assert IsHash(hash, tail);
    }
    if hash, tail :| IsHash(hash, tail) && x == "-" + hash + "-" + tail {
      assert forall i :: 0 <= i < |hash| ==> x[1 + i] == hash[i];
      assert forall i :: 0 <= i < 5 ==> x[|hash| + 2 + i] == tail[i];
    }
  }

  lemma {:induction false} OrdinalSuffix(x: string)
    ensures Suffix(Ordinal, x) <==> exists digits :: digits != "" && Spelled(digits, "0123456789") && x == "-" + digits
  {
    hide Digit, Suffix, Spelled;
    if Suffix(Ordinal, x) {
      AfterHyphen(x);
    }
    if digits :| digits != "" && Spelled(digits, "0123456789") && x == "-" + digits {
      BehindHyphen(digits);
    }
  }

  lemma {:induction false} AfterHyphen(x: string)
    requires Suffix(Ordinal, x)
    ensures x == "-" + x[1..] && x[1..] != "" && Spelled(x[1..], "0123456789")
  {
    hide Digit;
    forall i | 0 <= i < |x[1..]|
      ensures x[1..][i] in "0123456789"
    {
      Alphabet(x[1 + i]);
    }
  }

  lemma {:induction false} BehindHyphen(digits: string)
    requires digits != "" && Spelled(digits, "0123456789")
    ensures Suffix(Ordinal, "-" + digits)
  {
    hide Digit;
    var x := "-" + digits;
    forall i | 1 <= i < |x|
      ensures Digit(x[i])
    {
      assert x[i] == digits[i - 1];
      Alphabet(x[i]);
    }
  }

  /** No suffix ends in a newline, so the names with a given subject are it, and it with a newline. */
  lemma {:induction false} SubjectOf(pattern: Pattern, owner: string, x: string, pod: string)
    requires Suffix(pattern, x)
    ensures Subject(pod) == owner + x <==> pod == owner + x || pod == owner + x + "\n"
  {
    hide Suffix;
    NoNewlineLast(pattern, x);
    var name := owner + x;
    assert name[|name| - 1] == x[|x| - 1];
    SubjectIs(name, pod);
  }

  lemma {:induction false} NoNewlineLast(pattern: Pattern, x: string)
    requires Suffix(pattern, x)
    ensures x != "" && x[|x| - 1] != '\n'
  {
  }

  lemma {:induction false} SubjectIs(name: string, pod: string)
    requires name != "" && name[|name| - 1] != '\n'
    ensures Subject(pod) == name <==> pod == name || pod == name + "\n"
  {
    assert (name + "\n")[..|name|] == name;
    if pod != [] && pod[|pod| - 1] == '\n' {
      assert pod == pod[..|pod| - 1] + "\n";
    }
  }

  /** The pattern with a deployment's name in it matches exactly its replicas' names. */
  lemma {:induction false} MatchesNamedAfter(deployment: string, pod: string)
    ensures MatchesReplicasOf(deployment, pod) <==> NamedAfter(deployment, pod)
  {
    hide Suffix, Subject, IsHash;
    if MatchesReplicasOf(deployment, pod) {
      var x := Subject(pod)[|deployment|..];
      assert Subject(pod) == deployment + x;
      SubjectOf(Replica, deployment, x, pod);
      ReplicaSuffix(x);
      var hash, tail :| IsHash(hash, tail) && x == "-" + hash + "-" + tail;
      assert ReplicaName(deployment, hash, tail) == deployment + x;
    }
    if NamedAfter(deployment, pod) {
      var hash, tail :|
        IsHash(hash, tail) &&
        (pod == ReplicaName(deployment, hash, tail) || pod == ReplicaName(deployment, hash, tail) + "\n");
      var x := "-" + hash + "-" + tail;
      ReplicaSuffix(x);
      SubjectOf(Replica, deployment, x, pod);
      assert Subject(pod)[..|deployment|] == deployment && Subject(pod)[|deployment|..] == x;
    }
  }

  /** What owner a pattern finds in a name, and that it finds one exactly when there is one. */
  lemma {:induction false} OwnerIs(name: string, owner: string)
    ensures OwnerOf(Replica, name) == Some(owner) <==> owner != "" && '\n' !in owner && NamedAfter(owner, name)
    ensures OwnerOf(Ordinal, name) == Some(owner) <==> owner != "" && '\n' !in owner && NumberedAfter(owner, name)
  {
    hide Suffix, Subject, OwnerOf, IsHash, NamedAfter;
    OwnerCharacterised(Replica, name, owner);
    MatchesNamedAfter(owner, name);
    OwnerCharacterised(Ordinal, name, owner);
    NumberedIff(owner, name);
  }

  lemma {:induction false} NumberedIff(owner: string, pod: string)
    ensures NumberedAfter(owner, pod) <==>
              |owner| <= |Subject(pod)| && Subject(pod)[..|owner|] == owner && Suffix(Ordinal, Subject(pod)[|owner|..])
  {
    hide Suffix, Subject;
    if |owner| <= |Subject(pod)| && Subject(pod)[..|owner|] == owner && Suffix(Ordinal, Subject(pod)[|owner|..]) {
      var x := Subject(pod)[|owner|..];
      assert Subject(pod) == owner + x;
      SubjectOf(Ordinal, owner, x, pod);
      OrdinalSuffix(x);
    }
    if NumberedAfter(owner, pod) {
      var digits :|
        digits != "" && Spelled(digits, "0123456789") &&
        (pod == owner + ("-" + digits) || pod == owner + ("-" + digits) + "\n");
      var x := "-" + digits;
      OrdinalSuffix(x);
      SubjectOf(Ordinal, owner, x, pod);
      assert Subject(pod)[..|owner|] == owner && Subject(pod)[|owner|..] == x;
    }
  }

  /** A name splits into an owner and a suffix in at most one way. */
  lemma {:induction false} SplitIsUnique(pattern: Pattern, subject: string, k: nat, m: nat)
    requires k <= m <= |subject|
    requires Suffix(pattern, subject[k..]) && Suffix(pattern, subject[m..])
    ensures k == m
  {
    assert subject[k..][m - k..] == subject[m..];
  }

  /** The owner found is the one whose suffix fits, wherever the search starts. */
  lemma {:induction false} LongestOwnerFinds(pattern: Pattern, subject: string, k: nat, n: nat)
    requires k <= n <= |subject|
    requires 0 < k && Suffix(pattern, subject[k..]) && '\n' !in subject[..k]
    ensures LongestOwner(pattern, subject, n) == Some(subject[..k])
  {
    if k < n {
      if Suffix(pattern, subject[n..]) {
        SplitIsUnique(pattern, subject, k, n);
      }
      LongestOwnerFinds(pattern, subject, k, n - 1);
    }
  }

  lemma {:induction false} LongestOwnerFits(pattern: Pattern, subject: string, n: nat)
    requires n <= |subject|
    ensures
      var owner := LongestOwner(pattern, subject, n);
      owner.Some? ==>
        0 < |owner.value| <= n && subject[..|owner.value|] == owner.value && '\n' !in owner.value &&
        Suffix(pattern, subject[|owner.value|..])
  {
    if n > 0 {
      LongestOwnerFits(pattern, subject, n - 1);
    }
  }

  /** A name has owner `o` exactly when it is `o` followed by a suffix of the pattern. */
  lemma {:induction false} OwnerCharacterised(pattern: Pattern, name: string, owner: string)
    ensures
      OwnerOf(pattern, name) == Some(owner) <==>
      && owner != "" && '\n' !in owner
      && |owner| <= |Subject(name)| && Subject(name)[..|owner|] == owner
      && Suffix(pattern, Subject(name)[|owner|..])
  {
    var subject := Subject(name);
    LongestOwnerFits(pattern, subject, |subject|);
    if owner != "" && '\n' !in owner && |owner| <= |subject| && subject[..|owner|] == owner &&
       Suffix(pattern, subject[|owner|..])
    {
      LongestOwnerFinds(pattern, subject, |owner|, |subject|);
    }
  }

  /**
   The two ways the code decides that a deployment owns a pod agree on every
   pair of names except an empty deployment name or one with a newline, which
   the first form never accepts.
   */
  lemma {:induction false} OwnershipAgrees(pod: string, deployment: string)
    ensures OwnedBy(pod, deployment) <==>
            MatchesReplicasOf(deployment, pod) && deployment != "" && '\n' !in deployment
  {
    OwnerCharacterised(Replica, pod, deployment);
  }

  /** No pod has two owning deployments. */
  lemma {:induction false} OneOwner(pod: string, a: string, b: string)
    requires MatchesReplicasOf(a, pod) && MatchesReplicasOf(b, pod)
    ensures a == b
  {
    if |a| <= |b| {
      SplitIsUnique(Replica, Subject(pod), |a|, |b|);
    } else {
      SplitIsUnique(Replica, Subject(pod), |b|, |a|);
    }
  }
}
