/** The project-name rule of the init workflow, the regular expression
        ^[a-zA-z]+([-][a-zA-Z][a-zA-Z0-9]*|[_][a-zA-Z][a-zA-Z0-9]*|[a-zA-Z0-9])*$
    Its leading class `[a-zA-z]`, read literally, spans the code points 65 to
    122, so besides letters it admits `[ \ ] ^ _` and the backtick; the rules
    the rule is meant to enforce (a letter first, a letter or digit last, no
    special character but `-` and `_`) call for `[a-zA-Z]`. Both readings
    are modelled, selected by `LeadingClass`.

    The regular expression is first given its meaning as a language
    (`MatchesPattern`, with an existential split and a star over groups),
    then a deterministic recognizer (`IsValidProjectName`) is proved to
    accept exactly that language. */
module ProjectName {

  /** Which leading class: `[a-zA-z]` as written, or the intended `[a-zA-Z]`. */
  datatype LeadingClass = AsWritten | Intended

  /** `[a-zA-z]` (every code point from 'A' (65) to 'z' (122)) or `[a-zA-Z]`. */
  predicate IsLeading(l: LeadingClass, c: char) {
    match l
    case AsWritten => 'A' <= c <= 'z'
    case Intended => IsAlpha(c)
  }

  /** `[a-zA-Z]` */
  predicate IsAlpha(c: char) {
    'a' <= c <= 'z' || 'A' <= c <= 'Z'
  }

  /** `[a-zA-Z0-9]` */
  predicate IsAlnum(c: char) {
    IsAlpha(c) || '0' <= c <= '9'
  }

  /** `[-]` or `[_]` */
  predicate IsSeparator(c: char) {
    c == '-' || c == '_'
  }

  // ---------------------------------------------------------------------
  // The regular expression as a language

  /** One repetition of the group: `[-_][a-zA-Z][a-zA-Z0-9]*` or `[a-zA-Z0-9]`. */
  ghost predicate Group(g: string) {
    || (|g| == 1 && IsAlnum(g[0]))
    || (|g| >= 2 && IsSeparator(g[0]) && IsAlpha(g[1]) && forall i :: 2 <= i < |g| ==> IsAlnum(g[i]))
  }

  /** The starred group: the string splits into a first group and the rest. */
  ghost predicate Groups(t: string)
    decreases |t|
  {
    t == [] || exists j :: 1 <= j <= |t| && Group(t[..j]) && Groups(t[j..])
  }

  /** The whole pattern: a non-empty run of the leading class, then groups. */
  ghost predicate MatchesPattern(l: LeadingClass, s: string) {
    exists k :: 1 <= k <= |s| && (forall i :: 0 <= i < k ==> IsLeading(l, s[i])) && Groups(s[k..])
  }

  // ---------------------------------------------------------------------
  // The recognizer

  /** The length of the longest prefix in the leading class. */
  function LeadingRun(l: LeadingClass, s: string): (n: nat)
    ensures n <= |s|
    ensures forall i :: 0 <= i < n ==> IsLeading(l, s[i])
    ensures n < |s| ==> !IsLeading(l, s[n])
  {
    if s == [] || !IsLeading(l, s[0]) then 0 else 1 + LeadingRun(l, s[1..])
  }

  /** After the leading run: letters and digits, each separator followed by a letter. */
  predicate ValidTail(t: string)
    decreases |t|
  {
    || t == []
    || (IsAlnum(t[0]) && ValidTail(t[1..]))
    || (|t| >= 2 && IsSeparator(t[0]) && IsAlpha(t[1]) && ValidTail(t[2..]))
  }

  /** The validator: the longest leading run is non-empty and the rest is a valid tail. */
  predicate IsValidProjectName(l: LeadingClass, s: string) {
    var n := LeadingRun(l, s);
    n >= 1 && ValidTail(s[n..])
  }

  // ---------------------------------------------------------------------
  // The recognizer accepts exactly the language of the pattern

  /** A run of letters and digits can precede any valid tail. */
  lemma {:induction false} AlnumRunThenTail(t: string, a: nat, b: nat)
    requires a <= b <= |t|
    requires forall i :: a <= i < b ==> IsAlnum(t[i])
    requires ValidTail(t[b..])
    ensures ValidTail(t[a..])
    decreases b - a
  {
    if a < b {
      AlnumRunThenTail(t, a + 1, b);
      assert t[a..][1..] == t[a + 1..];
    }
  }

  /** A valid tail is a sequence of groups. */
  lemma {:induction false} TailIsGroups(t: string)
    requires ValidTail(t)
    ensures Groups(t)
    decreases |t|
  {
    if t != [] {
      if IsAlnum(t[0]) && ValidTail(t[1..]) {
        TailIsGroups(t[1..]);
        assert Group(t[..1]);
      } else {
        TailIsGroups(t[2..]);
        assert Group(t[..2]);
      }
    }
  }

  /** A sequence of groups is a valid tail. */
  lemma {:induction false} GroupsIsTail(t: string)
    requires Groups(t)
    ensures ValidTail(t)
    decreases |t|
  {
    if t != [] {
      var j :| 1 <= j <= |t| && Group(t[..j]) && Groups(t[j..]);
      GroupsIsTail(t[j..]);
      if j == 1 {
        assert t[..1][0] == t[0];
      } else {
        assert t[..j][0] == t[0] && t[..j][1] == t[1];
        forall i | 2 <= i < j ensures IsAlnum(t[i]) {
          assert t[..j][i] == t[i];
        }
        AlnumRunThenTail(t, 2, j);
        assert t[2..] == t[2..];
      }
    }
  }

  /** Whatever leading-class characters a valid tail begins with, the tail is
      still valid from the end of the longest leading run: inside the run a
      separator can only be `_`, and it cannot be the run's last character,
      since the letter after it would extend the run. */
  lemma {:induction false} SkipLeading(l: LeadingClass, s: string, k: nat, n: nat)
    requires k <= n <= |s|
    requires forall i :: k <= i < n ==> IsLeading(l, s[i])
    requires n < |s| ==> !IsLeading(l, s[n])
    requires ValidTail(s[k..])
    ensures ValidTail(s[n..])
    decreases n - k
  {
    if k < n {
      var t := s[k..];
      assert t[0] == s[k];
      if IsAlnum(t[0]) && ValidTail(t[1..]) {
        assert t[1..] == s[k + 1..];
        SkipLeading(l, s, k + 1, n);
      } else {
        assert |t| >= 2 && IsSeparator(t[0]) && IsAlpha(t[1]) && ValidTail(t[2..]);
        assert t[1] == s[k + 1];
        assert k + 1 < n;
        assert t[2..] == s[k + 2..];
        SkipLeading(l, s, k + 2, n);
      }
    }
  }

  /** The recognizer accepts a name if and only if the regular expression matches it. */
  lemma {:induction false} RecognizerMatchesPattern(l: LeadingClass, s: string)
    ensures IsValidProjectName(l, s) <==> MatchesPattern(l, s)
  {
    var n := LeadingRun(l, s);
    if IsValidProjectName(l, s) {
      TailIsGroups(s[n..]);
      assert 1 <= n <= |s| && (forall i :: 0 <= i < n ==> IsLeading(l, s[i])) && Groups(s[n..]);
    }
    if MatchesPattern(l, s) {
      var k :| 1 <= k <= |s| && (forall i :: 0 <= i < k ==> IsLeading(l, s[i])) && Groups(s[k..]);
      GroupsIsTail(s[k..]);
      assert n >= |s| || !IsLeading(l, s[n]);
      assert k <= n;
      SkipLeading(l, s, k, n);
    }
  }

  /** Accepted under either class: a dash group. */
  lemma AcceptedDashExample(l: LeadingClass)
    ensures IsValidProjectName(l, "my-app")
  {
    assert LeadingRun(l, "my-app") == 2;
    assert "my-app"[2..] == "-app";
  }

  /** Accepted with the intended class: an underscore group ending in a digit. */
  lemma AcceptedUnderscoreExample()
    ensures IsValidProjectName(Intended, "my_app2")
  {
    assert LeadingRun(Intended, "my_app2") == 2;
    assert "my_app2"[2..] == "_app2";
  }

  /** Accepted as written too, where the underscore joins the leading run. */
  lemma AcceptedUnderscoreExampleAsWritten()
    ensures IsValidProjectName(AsWritten, "my_app2")
  {
    assert LeadingRun(AsWritten, "my_app2") == 6;
    assert "my_app2"[6..] == "2";
  }

  /** Accepted under either class: a plain word. */
  lemma AcceptedPlainExample(l: LeadingClass)
    ensures IsValidProjectName(l, "app")
  {
    assert LeadingRun(l, "app") == 3;
  }

  /** Rejected under either class: a leading digit or dash. */
  lemma RejectedLeadingExamples(l: LeadingClass)
    ensures !IsValidProjectName(l, "1app")
    ensures !IsValidProjectName(l, "-app")
  {
  }

  /** Rejected under either class: a trailing dash, a character outside every class. */
  lemma RejectedTailExamples(l: LeadingClass)
    ensures !IsValidProjectName(l, "app-")
    ensures !IsValidProjectName(l, "app!x")
  {
    assert LeadingRun(l, "app-") == 3;
    assert "app-"[3..] == "-";
    assert LeadingRun(l, "app!x") == 3;
    assert "app!x"[3..] == "!x";
  }

  /** As written, the rule accepts a name that starts with `_` and one that
      ends with `_`: the leading class takes `_` into the run. */
  lemma AsWrittenAcceptsUnderscoreEnds()
    ensures IsValidProjectName(AsWritten, "_app") && !IsAlpha("_app"[0])
    ensures IsValidProjectName(AsWritten, "app_") && !IsAlnum("app_"[3])
  {
    assert LeadingRun(AsWritten, "_app") == 4;
    assert LeadingRun(AsWritten, "app_") == 4;
  }

  /** The intended rule rejects both. */
  lemma IntendedRejectsUnderscoreEnds()
    ensures !IsValidProjectName(Intended, "_app")
    ensures !IsValidProjectName(Intended, "app_")
  {
    assert LeadingRun(Intended, "app_") == 3;
    assert "app_"[3..] == "_";
  }

  /** Every character of a valid tail is a letter, a digit or a separator,
      and a non-empty valid tail ends in a letter or digit. */
  lemma {:induction false} TailCharacters(t: string)
    requires ValidTail(t)
    ensures forall i :: 0 <= i < |t| ==> IsAlnum(t[i]) || IsSeparator(t[i])
    ensures t != [] ==> IsAlnum(t[|t| - 1])
    decreases |t|
  {
    if t != [] {
      if IsAlnum(t[0]) && ValidTail(t[1..]) {
        TailCharacters(t[1..]);
        assert forall i :: 1 <= i < |t| ==> t[i] == t[1..][i - 1];
      } else {
        TailCharacters(t[2..]);
        assert forall i :: 2 <= i < |t| ==> t[i] == t[2..][i - 2];
      }
    }
  }

  /** The intended rule enforces what the rule is meant to: a letter first,
      a letter or digit last, and no special character but `-` and `_`. */
  lemma {:induction false} IntendedNameRules(s: string)
    requires IsValidProjectName(Intended, s)
    ensures |s| >= 1 && IsAlpha(s[0]) && IsAlnum(s[|s| - 1])
    ensures forall i :: 0 <= i < |s| ==> IsAlnum(s[i]) || IsSeparator(s[i])
  {
    var n := LeadingRun(Intended, s);
    var t := s[n..];
    TailCharacters(t);
    assert forall i :: n <= i < |s| ==> s[i] == t[i - n];
    if t == [] {
      assert IsLeading(Intended, s[|s| - 1]);
    } else {
      assert s[|s| - 1] == t[|t| - 1];
    }
  }

  /** After a `-` the next character must be a letter. */
  lemma {:induction false} DashIsFollowedByLetter(l: LeadingClass, s: string, i: nat)
    requires IsValidProjectName(l, s)
    requires i < |s| && s[i] == '-'
    ensures i + 1 < |s| && IsAlpha(s[i + 1])
  {
    var n := LeadingRun(l, s);
    assert i >= n;
    DashInTail(s[n..], i - n);
    assert s[n..][i - n + 1] == s[i + 1];
  }
  /** In a valid tail every `-` is followed by a letter. */
  lemma {:induction false} DashInTail(t: string, i: nat)
    requires ValidTail(t)
    requires i < |t| && t[i] == '-'
    ensures i + 1 < |t| && IsAlpha(t[i + 1])
    decreases |t|
  {
    if IsAlnum(t[0]) && ValidTail(t[1..]) {
      DashInTail(t[1..], i - 1);
    } else if i >= 2 {
      DashInTail(t[2..], i - 2);
    }
  }
}
