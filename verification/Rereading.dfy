/** The second policy decision: what the policy reads when it is given the normal form of a path it
    has allowed, and so when the fetch disagrees with the grant. runtime/resources.py:44-67 and
    api/routes_runtime.py:263-271. */
module Rereading {
  import opened Wrappers
  import opened Policy
  import opened PolicyDecision
  import opened Resources

  lemma {:induction false} StripRightEnds(s: string)
    ensures StripRight(s) <= s && !EndsInWhitespace(StripRight(s))
  {
    if EndsInWhitespace(s) { StripRightEnds(s[..|s| - 1]); }
  }

  lemma {:induction false} StripLeftStarts(s: string)
    ensures |StripLeft(s)| > 0 ==> !Whitespace(StripLeft(s)[0])
  {
    if |s| > 0 && Whitespace(s[0]) { StripLeftStarts(s[1..]); }
  }

  lemma StripTwice(s: string)
    ensures Strip(Strip(s)) == Strip(s)
  {
    StripLeftStarts(s);
    StripRightEnds(StripLeft(s));
  }

  /** What is left of the last name when whitespace at the end of the path is stripped. */
  function LastName(segments: seq<string>): string
    requires |segments| > 0
  {
    StripRight(segments[|segments| - 1])
  }

  /** How the policy reads a normal form: the last name loses its trailing whitespace, and what
      is left of it may be nothing, "." or "..". */
  function Reread(segments: seq<string>): Option<seq<string>>
    requires |segments| > 0
  {
    NonEmpty(Push(Some(segments[..|segments| - 1]), LastName(segments)))
  }

  lemma NameAlone(stack: Option<seq<string>>, name: string)
    requires Ordinary(name)
    ensures Resolve(stack, Split(Slashes(StripRight(name)))) == Push(stack, StripRight(name))
  {
    var kept := StripRight(name);
    StripRightEnds(name);
    assert NoSeparator(kept) && Slashes(kept) == kept;
    SplitOrdinary(kept);
    ResolveTwo(stack, kept, kept);
  }

  lemma FrontAlone(front: seq<string>)
    requires |front| > 0 && AllOrdinary(front) && |Join(front)| > 0 && !Whitespace(Join(front)[0])
    ensures Resolve(Some([]), Split(Slashes(StripLeft(Join(front))))) == Some(front)
  {
    hide Resolve, Split;
    var clean := (c: char) => c != '\\';
    JoinKeeps(clean, front);
    assert Slashes(Join(front)) == Join(front);
    SplitJoin(front);
    ResolveNormal(front);
  }

  lemma ReadsAgain(segments: seq<string>)
    requires |segments| >= 2 && AllOrdinary(segments) && !Whitespace(segments[0][0])
    ensures Normalize(Strip(Join(segments))) == Reread(segments)
  {
    hide Resolve, Split, Slashes, Push, Strip, StripRight, StripLeft, Ordinary;
    var front, last := segments[..|segments| - 1], segments[|segments| - 1];
    assert Ordinary(segments[0]) && Ordinary(last) && AllOrdinary(front) && front[0] == segments[0];
    NamedStart(front);
    assert Join(segments) == Join(front) + ['/'] + last;
    StripTwice(Join(segments));
    NormalizeAt(Join(front), '/', last);
    FrontAlone(front);
    NameAlone(Some(front), last);
  }

  lemma NamedStart(front: seq<string>)
    requires |front| > 0 && Ordinary(front[0])
    ensures |front[0]| > 0 && |Join(front)| > 0 && Join(front)[0] == front[0][0]
  {
    JoinStart(front);
  }

  /** Whether the policy allows what it reads in the normal form of an allowed path: told from the
      last name alone. */
  predicate AllowedAgain(segments: seq<string>)
    requires |segments| > 0
  {
    var last := LastName(segments);
    if last == "" || last == "." then |segments| >= 3
    else if last == ".." then |segments| >= 4
    else TrimDots(last) == last && (|segments| == 2 ==> Lower(last) !in PROTECTED_SEGMENTS)
  }

  lemma ServablePrefix(segments: seq<string>, n: nat)
    requires Servable(segments) && 2 <= n <= |segments|
    ensures Servable(segments[..n])
  {
    hide TrimDots;
  }

  lemma LastNamePlain(segments: seq<string>)
    requires Servable(segments)
    ensures NoSeparator(LastName(segments)) && ':' !in LastName(segments)
  {
    hide TrimDots, StripRight;
    var last := segments[|segments| - 1];
    StripRightEnds(last);
    assert Ordinary(last);
  }

  lemma ServableAgain(segments: seq<string>)
    requires Servable(segments)
    ensures AllowedAgain(segments) <==> Reread(segments).Some? && Servable(Reread(segments).value)
    ensures AllowedAgain(segments) ==> Reread(segments).value[0] == segments[0]
  {
    hide TrimDots, StripRight, Lower;
    var n, last := |segments|, LastName(segments);
    LastNamePlain(segments);
    if last == "" || last == "." {
      if n >= 3 { ServablePrefix(segments, n - 1); }
    } else if last == ".." {
      assert segments[..n - 1][..n - 2] == segments[..n - 2];
      if n >= 4 { ServablePrefix(segments, n - 2); }
    } else {
      assert Reread(segments) == Some(segments[..n - 1] + [last]);
      ServableReplaced(segments, last);
    }
  }

  lemma ServableReplaced(segments: seq<string>, last: string)
    requires Servable(segments) && Ordinary(last) && ':' !in last
    ensures Servable(segments[..|segments| - 1] + [last]) <==>
      TrimDots(last) == last && (|segments| == 2 ==> Lower(last) !in PROTECTED_SEGMENTS)
  {
    hide TrimDots, Lower, Ordinary;
    var n := |segments|;
    var again := segments[..n - 1] + [last];
    assert again[n - 1] == last && |again| == n;
    if TrimDots(last) == last && (n == 2 ==> Lower(last) !in PROTECTED_SEGMENTS) {
      forall i | 0 <= i < n ensures Ordinary(again[i]) && ':' !in again[i] && TrimDots(again[i]) == again[i] {
        if i < n - 1 { assert again[i] == segments[i]; }
      }
    }
  }

  lemma AcceptableAgain(path: string, segments: seq<string>)
    requires Acceptable(path) && Normalize(Strip(path)) == Some(segments) && Servable(segments)
    ensures Acceptable(Join(segments))
  {
    hide Servable, Strip, Normalize, Contains;
    var n := Join(segments);
    var f := (c: char) => c != '\0';
    StripAll(f, path);
    NormalCharacters(f, Strip(path));
    NormalLength(Strip(path));
    StripLength(path);
    ServableStart(segments);
    ColonFree(segments);
    StripStart(n);
    NoColon(Strip(n));
  }

  /** Two leading letters survive stripping. */
  lemma StripStart(n: string)
    requires |n| >= 2 && !Whitespace(n[0]) && !Whitespace(n[1])
    ensures |Strip(n)| >= 2 && Strip(n) <= n && Strip(n)[0] == n[0] && Strip(n)[1] == n[1]
  {
    assert n == [n[0]] + [n[1]] + n[2..];
    StripRightAt([n[0]], n[1], n[2..]);
    StripRightEnds(n);
  }

  /** The decision on the normal form of an allowed path. */
  lemma DecidesAgain(path: string, segments: seq<string>)
    requires Acceptable(path) && Normalize(Strip(path)) == Some(segments) && Servable(segments)
    ensures var d := Evaluate(Text(Join(segments)));
      && (d.Allowed() <==> AllowedAgain(segments))
      && (d.Allowed() ==> Reread(segments).Some? && Servable(Reread(segments).value) && d.normalized == Some(Join(Reread(segments).value)))
    ensures Acceptable(Join(segments)) && Normalize(Strip(Join(segments))) == Reread(segments)
  {
    hide Evaluate, Servable, Acceptable, Strip, Normalize, Reread, AllowedAgain;
    AcceptableAgain(path, segments);
    ServableNamed(segments);
    ReadsAgain(segments);
    ServableAgain(segments);
    AllowedExactly(Join(segments));
  }

  lemma ServableNamed(segments: seq<string>)
    requires Servable(segments)
    ensures |segments| >= 2 && AllOrdinary(segments) && !Whitespace(segments[0][0])
  {
    ServableStart(segments);
    assert Ordinary(segments[0]);
    NamedStart(segments);
  }

  // --- the guard ------------------------------------------------------------------------------------------

  /** Resolving a path changes nothing: no links. */
  ghost predicate Linkless(d: Disk) { forall p: Parts :: d.resolve(p) == p }

  /** The root is spelled as on disk, and the policy allows the normal form, and the normal form
      of that, again. */
  predicate PassesGuard(segments: seq<string>)
    requires |segments| > 0
  {
    && segments[0] == SANDBOX_ROOT && AllowedAgain(segments)
    && var again := Reread(segments); again.Some? && AllowedAgain(again.value)
  }

  lemma UnderRoot(base: Parts, names: seq<string>)
    requires |names| > 0
    ensures base + [SANDBOX_ROOT] <= base + names <==> names[0] == SANDBOX_ROOT
  {
    var n := |base|;
    assert (base + names)[..n] == base && (base + names)[n] == names[0];
    if names[0] == SANDBOX_ROOT { assert (base + names)[..n + 1] == base + [SANDBOX_ROOT]; }
    if base + [SANDBOX_ROOT] <= base + names { assert (base + [SANDBOX_ROOT])[n] == (base + names)[n]; }
  }

  /** On a disk without links the fetch of a granted path ends in the guard exactly when the path
      does not pass it. */
  lemma GuardExactly(path: string, d: Disk)
    requires Linkless(d) && Evaluate(Text(path)).Allowed()
    ensures Normalize(Strip(path)).Some? && |Normalize(Strip(path)).value| > 0
    ensures var segments := Normalize(Strip(path)).value;
      Fetch(Join(segments), d) == Err(PolicyBypass) <==> !PassesGuard(segments)
  {
    hide Evaluate, Servable, Acceptable, Strip, Normalize, Reread, AllowedAgain;
    AllowedExactly(path);
    var segments := Normalize(Strip(path)).value;
    ServableNamed(segments);
    DecidesAgain(path, segments);
    ServableAgain(segments);
    if AllowedAgain(segments) {
      var again := Reread(segments).value;
      ServableNamed(again);
      DecidesAgain(Join(segments), again);
      PlainTarget(d, again);
    }
  }

  lemma PlainTarget(d: Disk, names: seq<string>)
    requires Linkless(d) && |names| > 0 && AllOrdinary(names)
    ensures var target := Target(d, Join(names));
      && |Base(d)| <= |target| && Relative(d, target) == Join(names)
      && (Confined(d, target) <==> names[0] == SANDBOX_ROOT)
  {
    hide Join, AllOrdinary;
    Separated(names);
    SplitJoin(names);
    UnderRoot(Base(d), names);
    assert (Base(d) + names)[|Base(d)|..] == names;
  }

  lemma StripOne(name: string, c: char)
    requires Ordinary(name) && !EndsInWhitespace(name) && Whitespace(c)
    ensures StripRight(name + [c]) == name
  {
    assert (name + [c])[..|name|] == name;
  }

  /** The guard does trip: a protected name with whitespace other than a space behind it, before a
      trailing "/.", is granted under a normal form the policy then reads as protected. */
  lemma GuardTrips(c: char, d: Disk)
    requires Linkless(d) && Whitespace(c) && c != ' '
    ensures var path := SANDBOX_ROOT + "/" + ("secrets" + [c]) + "/."; var decision := Evaluate(Text(path));
      decision.Allowed() && decision.normalized.Some? && Fetch(decision.normalized.value, d) == Err(PolicyBypass)
  {
    hide Evaluate, Normalize, Strip, Join, Reread, Fetch, Linkless;
    var name := "secrets" + [c];
    var path := SANDBOX_ROOT + "/" + name + "/.";
    TabName(c);
    RootFacts(SANDBOX_ROOT);
    EdgeWhitespaceSurvives(SANDBOX_ROOT, name);
    TrailingDotNormal(SANDBOX_ROOT, name);
    AllowedExactly(path);
    GuardExactly(path, d);
    StripOne("secrets", c);
    assert Lower("secrets") == "secrets";
  }

  lemma TabName(c: char)
    requires Whitespace(c) && c != ' '
    ensures var name := "secrets" + [c];
      && Ordinary(name) && EndsInWhitespace(name) && TrimDots(name) == name && ':' !in name && '\0' !in name
      && |name| == 8 && Lower(name) !in PROTECTED_SEGMENTS && Ordinary("secrets") && !EndsInWhitespace("secrets")
  {
    var name := "secrets" + [c];
    assert |Lower(name)| == 8 && |PROTECTED_SEGMENTS[0]| == 7;
  }

  lemma Separated(segments: seq<string>)
    requires AllOrdinary(segments)
    ensures forall k | 0 <= k < |segments| :: NoSeparator(segments[k])
  {
    forall k | 0 <= k < |segments| ensures NoSeparator(segments[k]) { assert Ordinary(segments[k]); }
  }
}
