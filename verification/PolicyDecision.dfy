/** `evaluate` of runtime/policy.py and the fetch of runtime/resources.py behind it. */
module PolicyDecision {
  import opened Wrappers
  import opened Policy

  const SANDBOX_ROOT: string := "demo_target"
  const PROTECTED_SEGMENTS: seq<string> := ["secrets"]
  const MAX_PATH_LENGTH: nat := 512

  datatype Rule = SandboxAllow | ProtectedPath | OutsideSandbox | UnparseablePath

  datatype Decision = Decision(rule: Rule, normalized: Option<string>) {
    predicate Allowed() { rule.SandboxAllow? }
  }

  /** The request body may hold anything. */
  datatype Request = NotText | Text(path: string)

  /** `lower()` as far as comparing with the ASCII names above can tell: no other character
      lowers to one of their letters. */
  function LowerChar(c: char): char { if 'A' <= c <= 'Z' then (c as int + 32) as char else c }

  function Lower(s: string): string { seq(|s|, i requires 0 <= i < |s| => LowerChar(s[i])) }

  /** `rstrip(" .")`: what Win32 drops from the end of a name. */
  function TrimDots(s: string): (r: string)
    ensures r <= s
  {
    if |s| > 0 && (s[|s| - 1] == ' ' || s[|s| - 1] == '.') then TrimDots(s[..|s| - 1]) else s
  }

  predicate Contains(s: string, t: string) {
    exists i :: 0 <= i <= |s| - |t| && s[i..][..|t|] == t
  }

  predicate StartsAbsolute(s: string) {
    |s| > 0 && (s[0] == '/' || s[0] == '\\' || s[0] == '~')
  }

  function Evaluate(request: Request): Decision {
    match request
    case NotText => Decision(UnparseablePath, None)
    case Text(path) =>
      if |path| > MAX_PATH_LENGTH then Decision(UnparseablePath, None)
      else if '\0' in path then Decision(UnparseablePath, None)
      else
        var stripped := Strip(path);
        if stripped == "" then Decision(UnparseablePath, None)
        else if Contains(stripped, "://") then Decision(OutsideSandbox, None)
        else if StartsAbsolute(stripped) then Decision(OutsideSandbox, None)
        else if |stripped| >= 2 && stripped[1] == ':' then Decision(OutsideSandbox, None)
        else match Normalize(stripped)
          case None => Decision(UnparseablePath, None)
          case Some(segments) => Judge(segments)
  }

  /** The checks on the normal form. */
  function Judge(segments: seq<string>): Decision {
    var normalized := Some(Join(segments));
    if |segments| == 0 || Lower(segments[0]) != SANDBOX_ROOT then Decision(OutsideSandbox, normalized)
    else if exists i :: 0 <= i < |segments| && ':' in segments[i] then Decision(UnparseablePath, normalized)
    else if |segments| == 1 then Decision(OutsideSandbox, normalized)
    else if Lower(TrimDots(segments[1])) in PROTECTED_SEGMENTS then Decision(ProtectedPath, normalized)
    else if exists i :: 0 <= i < |segments| && segments[i] != TrimDots(segments[i]) then Decision(UnparseablePath, normalized)
    else Decision(SandboxAllow, normalized)
  }

  // --- what allowed means --------------------------------------------------------------------------

  /** Strictly below the sandbox root, outside every protected directory, and spelled so that no
      file system reads another name into it. */
  ghost predicate Servable(segments: seq<string>) {
    && |segments| >= 2 && AllOrdinary(segments)
    && Lower(segments[0]) == SANDBOX_ROOT && Lower(segments[1]) !in PROTECTED_SEGMENTS
    && forall i | 0 <= i < |segments| :: ':' !in segments[i] && TrimDots(segments[i]) == segments[i]
  }

  predicate Acceptable(path: string) {
    && |path| <= MAX_PATH_LENGTH && '\0' !in path
    && var s := Strip(path); s != "" && !Contains(s, "://") && !StartsAbsolute(s) && !(|s| >= 2 && s[1] == ':')
  }

  /** An allowed path lies strictly under the sandbox and outside the protected segments; and
      every acceptable spelling of such a path is allowed, under its normal form. */
  lemma AllowedExactly(path: string)
    ensures Evaluate(Text(path)).Allowed() <==>
      Acceptable(path) && Normalize(Strip(path)).Some? && Servable(Normalize(Strip(path)).value)
    ensures Evaluate(Text(path)).Allowed() ==> Evaluate(Text(path)).normalized == Some(Join(Normalize(Strip(path)).value))
  {
    NormalForm(Strip(path));
  }

  // --- evaluating the normal form again ------------------------------------------------------------

  predicate All(f: char -> bool, s: string) { forall i | 0 <= i < |s| :: f(s[i]) }

  lemma {:induction false} StripKeeps(f: char -> bool, s: string)
    requires All(f, s)
    ensures All(f, StripLeft(s)) && All(f, StripRight(s))
    decreases |s|
  {
    if |s| > 0 {
      StripKeeps(f, s[1..]);
      StripKeeps(f, s[..|s| - 1]);
    }
  }

  lemma {:induction false} SplitKeeps(f: char -> bool, s: string)
    requires All(f, s)
    ensures forall k | 0 <= k < |Split(s)| :: All(f, Split(s)[k])
  {
    if |s| > 0 { SplitKeeps(f, s[..|s| - 1]); }
  }

  lemma {:induction false} ResolveKeeps(f: char -> bool, raws: seq<string>)
    requires forall k | 0 <= k < |raws| :: All(f, raws[k])
    ensures var r := Resolve(Some([]), raws); r.Some? ==> forall k | 0 <= k < |r.value| :: All(f, r.value[k])
  {
    if |raws| > 0 { ResolveKeeps(f, raws[..|raws| - 1]); }
  }

  lemma {:induction false} JoinKeeps(f: char -> bool, segments: seq<string>)
    requires f('/') && forall k | 0 <= k < |segments| :: All(f, segments[k])
    ensures All(f, Join(segments))
  {
    if |segments| > 1 { JoinKeeps(f, segments[..|segments| - 1]); }
  }

  /** Normalizing brings in no character but the slash. */
  lemma NormalCharacters(f: char -> bool, path: string)
    requires f('/') && All(f, path)
    ensures var r := Normalize(path); r.Some? ==> All(f, Join(r.value))
  {
    StripKeeps(f, path);
    StripKeeps(f, StripLeft(path));
    var candidate := Slashes(Strip(path));
    assert All(f, candidate);
    SplitKeeps(f, candidate);
    ResolveKeeps(f, Split(candidate));
    var r := Normalize(path);
    if r.Some? { JoinKeeps(f, r.value); }
  }

  /** Characters and separators a list of segments takes. */
  function Size(segments: seq<string>): nat {
    if |segments| == 0 then 0 else Size(segments[..|segments| - 1]) + |segments[|segments| - 1]| + 1
  }

  lemma {:induction false} JoinSize(segments: seq<string>)
    requires |segments| > 0
    ensures |Join(segments)| + 1 == Size(segments)
  {
    if |segments| > 1 { JoinSize(segments[..|segments| - 1]); }
  }

  lemma {:induction false} SplitSize(s: string)
    ensures Size(Split(s)) == |s| + 1
  {
    if |s| > 0 {
      var rest := Split(s[..|s| - 1]);
      SplitSize(s[..|s| - 1]);
      assert Split(s)[..|Split(s)| - 1] == if s[|s| - 1] == '/' then rest else rest[..|rest| - 1];
    } else {
      assert Split(s)[..0] == [];
    }
  }

  lemma {:induction false} ResolveSize(raws: seq<string>)
    ensures var r := Resolve(Some([]), raws); r.Some? ==> Size(r.value) <= Size(raws)
  {
    if |raws| > 0 {
      var earlier := Resolve(Some([]), raws[..|raws| - 1]);
      ResolveSize(raws[..|raws| - 1]);
      if earlier.Some? { assert (earlier.value + [raws[|raws| - 1]])[..|earlier.value|] == earlier.value; }
    }
  }

  lemma {:induction false} StripShorter(s: string)
    ensures |StripLeft(s)| <= |s| && |StripRight(s)| <= |s|
    ensures |s| > 0 && Whitespace(s[|s| - 1]) ==> |StripRight(s)| < |s|
    decreases |s|
  {
    if |s| > 0 {
      StripShorter(s[1..]);
      StripShorter(s[..|s| - 1]);
    }
  }

  /** A normal form is never longer than what it was made from. */
  lemma NormalLength(path: string)
    ensures var r := Normalize(path); r.Some? ==> |Join(r.value)| <= |Strip(path)| <= |path|
  {
    var candidate := Slashes(Strip(path));
    SplitSize(candidate);
    ResolveSize(Split(candidate));
    StripShorter(path);
    StripShorter(StripLeft(path));
    var r := Normalize(path);
    if r.Some? { JoinSize(r.value); }
  }

  lemma {:induction false} SplitJoin(segments: seq<string>)
    requires |segments| > 0 && forall k | 0 <= k < |segments| :: NoSeparator(segments[k])
    ensures Split(Join(segments)) == segments
  {
    var last := segments[|segments| - 1];
    SplitOrdinary(last);
    if |segments| > 1 {
      SplitJoin(segments[..|segments| - 1]);
      SplitAt(Join(segments[..|segments| - 1]), last);
    }
  }

  lemma {:induction false} ResolveNormal(segments: seq<string>)
    requires AllOrdinary(segments)
    ensures Resolve(Some([]), segments) == Some(segments)
  {
    if |segments| > 0 {
      ResolveNormal(segments[..|segments| - 1]);
      assert segments == segments[..|segments| - 1] + [segments[|segments| - 1]];
    }
  }

  predicate EndsInWhitespace(s: string) { |s| > 0 && Whitespace(s[|s| - 1]) }

  lemma StripNothing(s: string)
    requires |s| > 0 && !Whitespace(s[0]) && !EndsInWhitespace(s)
    ensures Strip(s) == s
  {
  }

  /** A normal form without edge whitespace is its own normal form. */
  lemma NormalTwice(segments: seq<string>)
    requires |segments| > 0 && AllOrdinary(segments)
    requires var n := Join(segments); |n| > 0 && !Whitespace(n[0]) && !EndsInWhitespace(n)
    ensures Strip(Join(segments)) == Join(segments) && Normalize(Join(segments)) == Some(segments)
  {
    var n := Join(segments);
    StripNothing(n);
    var clean := (c: char) => c != '\\';
    JoinKeeps(clean, segments);
    assert Slashes(n) == n;
    SplitJoin(segments);
    ResolveNormal(segments);
  }

  lemma {:induction false} JoinStart(segments: seq<string>)
    requires |segments| > 0 && |segments[0]| > 0
    ensures segments[0] <= Join(segments)
  {
    if |segments| > 1 { JoinStart(segments[..|segments| - 1]); }
  }

  /** A servable normal form starts with the root's own letters. */
  lemma ServableStart(segments: seq<string>)
    requires Servable(segments)
    ensures var n := Join(segments);
      |n| >= 2 && (n[0] == 'd' || n[0] == 'D') && (n[1] == 'e' || n[1] == 'E')
  {
    JoinStart(segments);
    var root := segments[0];
    assert |Lower(root)| == |root| == |SANDBOX_ROOT|;
    assert LowerChar(root[0]) == Lower(root)[0] == 'd' && LowerChar(root[1]) == Lower(root)[1] == 'e';
  }

  lemma NoColon(s: string)
    requires ':' !in s
    ensures !Contains(s, "://")
  {
    forall i | 0 <= i <= |s| - |"://"| ensures s[i..][..|"://"|] != "://" {
      assert s[i..][..|"://"|][0] == s[i] && s[i] in s;
    }
  }

  lemma ColonFree(segments: seq<string>)
    requires Servable(segments)
    ensures ':' !in Join(segments)
  {
    var f := (c: char) => c != ':';
    forall k | 0 <= k < |segments| ensures All(f, segments[k]) {
      forall i | 0 <= i < |segments[k]| ensures segments[k][i] != ':' { assert segments[k][i] in segments[k]; }
    }
    JoinKeeps(f, segments);
  }

  lemma NormalAcceptable(path: string, segments: seq<string>)
    requires Acceptable(path) && Normalize(Strip(path)) == Some(segments) && Servable(segments)
    requires Strip(Join(segments)) == Join(segments)
    ensures Acceptable(Join(segments))
  {
    hide Servable, Strip, Normalize;
    var f := (c: char) => c != '\0';
    StripAll(f, path);
    NormalCharacters(f, Strip(path));
    NormalLength(Strip(path));
    NormalLength(path);
    StripLength(path);
    ServableStart(segments);
    ColonFree(segments);
    NoColon(Join(segments));
  }

  lemma StripLength(path: string)
    ensures |Strip(path)| <= |path|
  {
    StripShorter(path);
    StripShorter(StripLeft(path));
  }

  lemma StripAll(f: char -> bool, s: string)
    requires All(f, s)
    ensures All(f, Strip(s))
  {
    StripKeeps(f, s);
    StripKeeps(f, StripLeft(s));
  }

  /** Evaluating an allowed path's normal form again gives the same decision if and only if the
      normal form does not end in whitespace. */
  lemma ReevaluationExact(path: string)
    requires Evaluate(Text(path)).Allowed()
    ensures Evaluate(Text(path)).normalized.Some?
    ensures var n := Evaluate(Text(path)).normalized.value;
      Evaluate(Text(n)) == Evaluate(Text(path)) <==> !EndsInWhitespace(n)
  {
    hide Evaluate, Acceptable, Servable, Normalize;
    AllowedExactly(path);
    var segments := Normalize(Strip(path)).value;
    var n := Join(segments);
    ServableStart(segments);
    ServableOrdinary(segments);
    AllowedExactly(n);
    if EndsInWhitespace(n) {
      StripsShorter(n);
      NormalLength(Strip(n));
    } else {
      NormalTwice(segments);
      NormalAcceptable(path, segments);
    }
  }

  lemma ServableOrdinary(segments: seq<string>)
    requires Servable(segments)
    ensures |segments| > 0 && AllOrdinary(segments)
  {
  }

  lemma StripsShorter(n: string)
    requires EndsInWhitespace(n) && !Whitespace(n[0])
    ensures |Strip(n)| < |n|
  {
    StripShorter(n);
    assert StripLeft(n) == n;
  }

  /** For paths whose only whitespace is the space, an allowed path's normal form is allowed
      again with the same normal form. */
  lemma SpacesReevaluate(path: string)
    requires Evaluate(Text(path)).Allowed() && All((c: char) => Whitespace(c) ==> c == ' ', path)
    ensures Evaluate(Text(path)).normalized.Some?
    ensures Evaluate(Text(Evaluate(Text(path)).normalized.value)) == Evaluate(Text(path))
  {
    hide Evaluate, Acceptable, Normalize;
    AllowedExactly(path);
    var f := (c: char) => Whitespace(c) ==> c == ' ';
    var segments := Normalize(Strip(path)).value;
    StripAll(f, path);
    NormalCharacters(f, Strip(path));
    JoinEnd(segments);
    ReevaluationExact(path);
  }

  lemma JoinEnd(segments: seq<string>)
    requires Servable(segments)
    ensures var n := Join(segments); |n| > 0 && n[|n| - 1] != ' '
  {
    var last := segments[|segments| - 1];
    assert Ordinary(last) && TrimDots(last) == last;
  }

  lemma TwoNames(root: string, name: string)
    requires Ordinary(root) && Ordinary(name)
    ensures var n := root + "/" + name;
      Slashes(n) == n && Join([root, name]) == n && Resolve(Some([]), Split(n)) == Some([root, name])
  {
    hide Resolve, Push;
    var segments := [root, name];
    assert segments[..1] == [root] && AllOrdinary(segments);
    SplitJoin(segments);
    ResolveNormal(segments);
  }

  lemma TrailingDotNormal(root: string, name: string)
    requires Ordinary(root) && Ordinary(name) && !Whitespace(root[0])
    ensures var path := root + "/" + name + "/."; Strip(path) == path && Normalize(path) == Some([root, name])
  {
    hide Resolve, Slashes, Split, Ordinary, Normalize;
    var n := root + "/" + name;
    TwoNames(root, name);
    assert n + "/." == n + ['/'] + ".";
    NormalizeAt(n, '/', ".");
    StripAt(n, '/', ".");
    assert StripLeft(n) == n && StripRight(".") == ".";
    DetourLeadsNowhere(Some([root, name]), ".");
  }

  /** The condition is not idle: whitespace at the end of a name, other than a space, survives
      into the normal form when a "/." follows it. */
  lemma EdgeWhitespaceSurvives(root: string, name: string)
    requires root == SANDBOX_ROOT && Ordinary(name) && EndsInWhitespace(name) && TrimDots(name) == name
    requires ':' !in name && '\0' !in name && |name| < 490 && Lower(name) !in PROTECTED_SEGMENTS
    ensures var d := Evaluate(Text(root + "/" + name + "/."));
      d.Allowed() && d.normalized.Some? && EndsInWhitespace(d.normalized.value)
  {
    hide Evaluate, Normalize, Strip, Lower, TrimDots, Ordinary, Contains;
    var path := root + "/" + name + "/.";
    RootFacts(root);
    TrailingDotNormal(root, name);
    TwoNames(root, name);
    var segments := [root, name];
    assert Servable(segments);
    NoColon(path);
    PathAcceptable(path);
    AllowedExactly(path);
  }

  lemma PathAcceptable(path: string)
    requires 2 <= |path| <= MAX_PATH_LENGTH && '\0' !in path && Strip(path) == path && !Contains(path, "://")
    requires path[0] == 'd' && path[1] == 'e'
    ensures Acceptable(path)
  {
  }

  lemma RootFacts(root: string)
    requires root == SANDBOX_ROOT
    ensures Ordinary(root) && !Whitespace(root[0]) && TrimDots(root) == root && Lower(root) == SANDBOX_ROOT
    ensures ':' !in root && '\0' !in root && |root| == 11 && root[0] == 'd' && root[1] == 'e'
  {
  }
}
