/** The terms of the path policy in characters: what is stripped, split, resolved and compared, and
    which rule a request falls under. runtime/policy.py:57-176. */
module PolicyTerms {
  import opened Wrappers
  import opened Policy
  import opened PolicyDecision
  import Rereading
  import Resources

  // --- whitespace ------------------------------------------------------------------------------------------------

  /** The code points `str.strip` removes. */
  const SPACES: set<int> := {9, 10, 11, 12, 13, 28, 29, 30, 31, 32, 133, 160, 5760, 8192, 8193, 8194, 8195, 8196, 8197, 8198,
                             8199, 8200, 8201, 8202, 8232, 8233, 8239, 8287, 12288}

  predicate IsSpace(c: char) { c as int in SPACES }

  lemma WhitespaceIs(c: char)
    ensures Whitespace(c) <==> IsSpace(c)
  {
  }

  ghost predicate Blank(s: string) { forall i | 0 <= i < |s| :: IsSpace(s[i]) }

  lemma {:induction false} StripLeftIs(s: string) returns (front: string)
    ensures s == front + StripLeft(s) && Blank(front) && (StripLeft(s) != "" ==> !IsSpace(StripLeft(s)[0]))
  {
    hide Whitespace, IsSpace;
    front := "";
    if |s| > 0 {
      WhitespaceIs(s[0]);
      if Whitespace(s[0]) {
        var more := StripLeftIs(s[1..]);
        front := [s[0]] + more;
        assert s == [s[0]] + s[1..];
      }
    }
  }

  lemma {:induction false} StripRightIs(s: string) returns (back: string)
    ensures s == StripRight(s) + back && Blank(back) && (StripRight(s) != "" ==> !IsSpace(StripRight(s)[|StripRight(s)| - 1]))
  {
    hide Whitespace, IsSpace;
    back := "";
    if |s| > 0 {
      WhitespaceIs(s[|s| - 1]);
      if Whitespace(s[|s| - 1]) {
        var more := StripRightIs(s[..|s| - 1]);
        back := more + [s[|s| - 1]];
        assert s == s[..|s| - 1] + [s[|s| - 1]];
      }
    }
  }

  /** Whitespace goes from both ends and nowhere else. */
  lemma StripIs(s: string) returns (front: string, back: string)
    ensures s == front + Strip(s) + back && Blank(front) && Blank(back)
    ensures Strip(s) != "" ==> !IsSpace(Strip(s)[0]) && !IsSpace(Strip(s)[|Strip(s)| - 1])
  {
    front := StripLeftIs(s);
    back := StripRightIs(StripLeft(s));
  }

  // --- pieces ------------------------------------------------------------------------------------------------------

  lemma JoinSlash(rest: seq<string>)
    requires |rest| > 0
    ensures Join(rest + [""]) == Join(rest) + "/"
  {
    assert (rest + [""])[..|rest|] == rest;
  }

  lemma JoinLonger(rest: seq<string>, c: char)
    requires |rest| > 0
    ensures Join(rest[..|rest| - 1] + [rest[|rest| - 1] + [c]]) == Join(rest) + [c]
  {
    var front, last := rest[..|rest| - 1], rest[|rest| - 1];
    assert (front + [last + [c]])[..|front|] == front;
    if |front| > 0 { assert Join(front) + "/" + (last + [c]) == Join(front) + "/" + last + [c]; }
  }

  lemma {:induction false} SplitJoins(s: string)
    ensures Join(Split(s)) == s
  {
    hide Join;
    if |s| > 0 {
      var rest, c := Split(s[..|s| - 1]), s[|s| - 1];
      SplitJoins(s[..|s| - 1]);
      assert s == s[..|s| - 1] + [c];
      if c == '/' { JoinSlash(rest); } else { JoinLonger(rest, c); }
    } else {
      JoinOne("");
    }
  }

  lemma JoinOne(s: string)
    ensures Join([s]) == s
  {
  }

  ghost predicate NoSlash(s: string) { forall i | 0 <= i < |s| :: s[i] != '/' }

  /** The pieces hold no slash, and joined with slashes they are the text again. */
  lemma {:induction false} SplitIs(s: string)
    ensures Join(Split(s)) == s && forall k | 0 <= k < |Split(s)| :: NoSlash(Split(s)[k])
  {
    SplitJoins(s);
    if |s| > 0 { SplitIs(s[..|s| - 1]); }
  }

  // --- resolving ---------------------------------------------------------------------------------------------------

  /** The path read from its end: the names nobody climbs over, and how often it climbs above where
      it starts. */
  datatype Read = Read(names: seq<string>, climbs: nat)

  function Backwards(pieces: seq<string>): Read {
    if |pieces| == 0 then Read([], 0) else
      var r := Backwards(pieces[1..]);
      if pieces[0] == "" || pieces[0] == "." then r
      else if pieces[0] == ".." then Read(r.names, r.climbs + 1)
      else if r.climbs > 0 then Read(r.names, r.climbs - 1)
      else Read([pieces[0]] + r.names, 0)
  }

  lemma ResolveFrom(stack: Option<seq<string>>, pieces: seq<string>)
    requires |pieces| > 0
    ensures Resolve(stack, pieces) == Resolve(Push(stack, pieces[0]), pieces[1..])
  {
    assert pieces == [pieces[0]] + pieces[1..];
    ResolveAppend(stack, [pieces[0]], pieces[1..]);
    ResolveTwo(stack, pieces[0], pieces[0]);
  }

  lemma {:induction false} ResolveNone(pieces: seq<string>)
    ensures Resolve(None, pieces) == None
  {
    if |pieces| > 0 { ResolveNone(pieces[..|pieces| - 1]); }
  }

  lemma {:induction false} ResolveIs(stack: seq<string>, pieces: seq<string>)
    ensures var r := Backwards(pieces);
      Resolve(Some(stack), pieces) == if r.climbs > |stack| then None else Some(stack[..|stack| - r.climbs] + r.names)
    decreases |pieces|
  {
    hide Resolve;
    if |pieces| == 0 {
      ResolveNothing(stack);
      assert pieces == [] && stack[..|stack|] + [] == stack;
    } else {
      var x := pieces[0];
      ResolveFrom(Some(stack), pieces);
      if x == "" || x == "." {
        ResolveIs(stack, pieces[1..]);
      } else if x == ".." {
        if |stack| == 0 {
          ResolveNone(pieces[1..]);
        } else {
          var shorter, climbs := stack[..|stack| - 1], Backwards(pieces[1..]).climbs;
          ResolveIs(shorter, pieces[1..]);
          if climbs <= |shorter| { assert shorter[..|shorter| - climbs] == stack[..|shorter| - climbs]; }
        }
      } else {
        var longer, r := stack + [x], Backwards(pieces[1..]);
        ResolveIs(longer, pieces[1..]);
        if r.climbs == 0 {
          assert longer[..|longer|] == longer && stack[..|stack|] == stack && longer + r.names == stack + ([x] + r.names);
        } else if r.climbs <= |longer| {
          assert longer[..|longer| - r.climbs] == stack[..|longer| - r.climbs];
        }
      }
    }
  }

  lemma ResolveNothing(stack: seq<string>)
    ensures Resolve(Some(stack), []) == Some(stack)
  {
  }

  /** A path read from its end, stripped, with either kind of slash. */
  function Reading(path: string): Read { Backwards(Split(Slashes(Strip(path)))) }

  /** The normal form: none for a path that climbs above where it starts or has no name left,
      otherwise the names nobody climbs over. */
  lemma NormalizeIs(path: string)
    ensures var r := Reading(path); Normalize(path) == if r.climbs > 0 || |r.names| == 0 then None else Some(r.names)
  {
    hide Resolve, Strip;
    var candidate := Slashes(Strip(path));
    ResolveIs([], Split(candidate));
    assert [] + Backwards(Split(candidate)).names == Backwards(Split(candidate)).names;
    if candidate == "" { assert Split(candidate) == [""] && Backwards([""][1..]) == Read([], 0); }
  }

  // --- names --------------------------------------------------------------------------------------------------------

  /** Equal but for the case of ASCII letters; `low` is all in lower case. */
  ghost predicate SameName(s: string, low: string) {
    |s| == |low| && forall i | 0 <= i < |s| :: s[i] == low[i] || ('a' <= low[i] <= 'z' && s[i] as int == low[i] as int - 32)
  }

  lemma LowerIs(s: string, low: string)
    requires forall i | 0 <= i < |low| :: !('A' <= low[i] <= 'Z')
    ensures Lower(s) == low <==> SameName(s, low)
  {
    if Lower(s) == low {
      forall i | 0 <= i < |s| ensures s[i] == low[i] || ('a' <= low[i] <= 'z' && s[i] as int == low[i] as int - 32) {
        assert Lower(s)[i] == LowerChar(s[i]);
      }
    }
  }

  lemma {:induction false} TrimIs(s: string)
    ensures TrimDots(s) <= s && (TrimDots(s) != "" ==> TrimDots(s)[|TrimDots(s)| - 1] !in {' ', '.'})
    ensures forall i | |TrimDots(s)| <= i < |s| :: s[i] in {' ', '.'}
    ensures TrimDots(s) == s <==> s == "" || s[|s| - 1] !in {' ', '.'}
  {
    if |s| > 0 && (s[|s| - 1] == ' ' || s[|s| - 1] == '.') { TrimIs(s[..|s| - 1]); }
  }

  /** A name every file system reads as it stands. */
  ghost predicate PlainName(s: string) {
    && s != "" && s != "." && s != ".." && s[|s| - 1] != ' ' && s[|s| - 1] != '.'
    && forall i | 0 <= i < |s| :: s[i] != '/' && s[i] != '\\' && s[i] != ':'
  }

  /** Under demo_target and not under demo_target/secrets, however the two are capitalised, all names
      plain. */
  ghost predicate InSandbox(names: seq<string>) {
    && |names| >= 2 && (forall i | 0 <= i < |names| :: PlainName(names[i]))
    && SameName(names[0], "demo_target") && !SameName(names[1], "secrets")
  }

  lemma ServableIs(names: seq<string>)
    ensures Servable(names) <==> InSandbox(names)
  {
    hide TrimDots, Lower, SameName;
    forall i | 0 <= i < |names| ensures PlainName(names[i]) <==> Ordinary(names[i]) && ':' !in names[i] && TrimDots(names[i]) == names[i] {
      PlainIs(names[i]);
    }
    if |names| >= 2 {
      LowerIs(names[0], "demo_target");
      LowerIs(names[1], "secrets");
    }
  }

  lemma PlainIs(s: string)
    ensures PlainName(s) <==> Ordinary(s) && ':' !in s && TrimDots(s) == s
  {
    hide TrimDots;
    TrimIs(s);
  }

  /** Text the policy will look at: short enough, no NUL, something left after stripping, and nothing
      that names a URL, an absolute path, a home directory or a drive. */
  ghost predicate Presentable(path: string) {
    && |path| <= 512 && (forall i | 0 <= i < |path| :: path[i] as int != 0)
    && var s := Strip(path);
    && s != "" && (forall i | 0 <= i <= |s| - 3 :: !(s[i] == ':' && s[i + 1] == '/' && s[i + 2] == '/'))
    && s[0] != '/' && s[0] != '\\' && s[0] != '~' && (|s| >= 2 ==> s[1] != ':')
  }

  lemma ContainsIs(s: string)
    ensures Contains(s, "://") <==> exists i :: 0 <= i <= |s| - 3 && s[i] == ':' && s[i + 1] == '/' && s[i + 2] == '/'
  {
    if i :| 0 <= i <= |s| - |"://"| && s[i..][..|"://"|] == "://" {
      assert s[i..][..3][0] == s[i] && s[i..][..3][1] == s[i + 1] && s[i..][..3][2] == s[i + 2];
    }
    if i :| 0 <= i <= |s| - 3 && s[i] == ':' && s[i + 1] == '/' && s[i + 2] == '/' {
      assert s[i..][..3] == "://";
    }
  }

  lemma AcceptableIs(path: string)
    ensures Acceptable(path) <==> Presentable(path)
  {
    hide Strip, Contains;
    ContainsIs(Strip(path));
    NulIs(path);
  }

  // --- the rule ----------------------------------------------------------------------------------------------------

  /** Exactly the text that can be presented and reads as a path in the sandbox is allowed. */
  lemma AllowedIs(path: string)
    ensures Evaluate(Text(path)).Allowed() <==> Presentable(path) && Reading(path).climbs == 0 && InSandbox(Reading(path).names)
  {
    hide Evaluate, Strip, Reading, Servable, InSandbox, Acceptable, Presentable, Normalize;
    AllowedExactly(path);
    AcceptableIs(path);
    ReadingStripped(path);
    var r := Reading(path);
    ServableIs(r.names);
    SandboxNames(r.names);
  }

  lemma ReadingStripped(path: string)
    ensures var r := Reading(path); Normalize(Strip(path)) == if r.climbs > 0 || |r.names| == 0 then None else Some(r.names)
  {
    hide Strip, Backwards, Split, Slashes;
    NormalizeIs(Strip(path));
    Rereading.StripTwice(path);
  }

  lemma SandboxNames(names: seq<string>)
    ensures InSandbox(names) ==> |names| > 0
  {
  }

  ghost predicate HasColon(names: seq<string>) {
    exists i, j :: 0 <= i < |names| && 0 <= j < |names[i]| && names[i][j] == ':'
  }

  /** "secrets", however capitalised and whatever spaces and dots follow. */
  ghost predicate NamesSecrets(name: string) {
    exists kept :: kept <= name && SameName(kept, "secrets") && forall i | |kept| <= i < |name| :: name[i] in {' ', '.'}
  }

  ghost predicate Readable(path: string) {
    |path| <= 512 && (forall i | 0 <= i < |path| :: path[i] as int != 0) && Strip(path) != ""
  }

  /** Text that leads to a place below where it starts. */
  ghost predicate Leads(path: string) { Presentable(path) && Reading(path).climbs == 0 && |Reading(path).names| > 0 }

  /** Which rule answers: text nobody can read is unparseable; what names no sandbox path, or the
      sandbox itself, is outside; what names the protected directory is protected; other names that
      are not plain are unparseable again; the rest is allowed. */
  lemma RuleIs(path: string)
    ensures Evaluate(Text(path)).normalized == if Leads(path) then Some(Join(Reading(path).names)) else None
    ensures var rule, names := Evaluate(Text(path)).rule, Reading(path).names;
      && (rule == OutsideSandbox <==>
            Readable(path) && (!Presentable(path) || (Leads(path) && (!SameName(names[0], "demo_target") || (|names| == 1 && !HasColon(names))))))
      && (rule == ProtectedPath <==> Leads(path) && SameName(names[0], "demo_target") && !HasColon(names) && |names| >= 2 && NamesSecrets(names[1]))
  {
    hide Strip, Contains, Reading, Normalize, TrimDots, Lower, SameName, Join, HasColon, NamesSecrets;
    ContainsIs(Strip(path));
    ReadingStripped(path);
    var names := Reading(path).names;
    if |names| > 0 { LowerIs(names[0], "demo_target"); ColonIs(names); }
    if |names| >= 2 { SecretIs(names[1]); }
    NulIs(path);
  }

  lemma NulIs(path: string)
    ensures '\0' in path <==> exists i :: 0 <= i < |path| && path[i] as int == 0
  {
    if '\0' in path { var i :| 0 <= i < |path| && path[i] == '\0'; assert path[i] as int == 0; }
    if i :| 0 <= i < |path| && path[i] as int == 0 { assert path[i] == '\0'; }
  }

  lemma ColonIs(names: seq<string>)
    ensures (exists i :: 0 <= i < |names| && ':' in names[i]) <==> HasColon(names)
  {
    if i :| 0 <= i < |names| && ':' in names[i] { var j :| 0 <= j < |names[i]| && names[i][j] == ':'; }
  }

  lemma SecretIs(name: string)
    ensures Lower(TrimDots(name)) in PROTECTED_SEGMENTS <==> NamesSecrets(name)
  {
    hide Lower, TrimDots;
    TrimIs(name);
    LowerIs(TrimDots(name), "secrets");
    if kept :| kept <= name && SameName(kept, "secrets") && forall i | |kept| <= i < |name| :: name[i] in {' ', '.'} {
      TrimmedTo(name, TrimDots(name), kept);
    }
  }

  /** The only prefix that ends in neither, before nothing but spaces and dots. */
  lemma TrimmedTo(name: string, t: string, kept: string)
    requires t <= name && kept <= name && SameName(kept, "secrets")
    requires t != "" ==> t[|t| - 1] !in {' ', '.'}
    requires forall i | |t| <= i < |name| :: name[i] in {' ', '.'}
    requires forall i | |kept| <= i < |name| :: name[i] in {' ', '.'}
    ensures t == kept
  {
    assert kept[6] == name[6] && kept[6] !in {' ', '.'};
    if t != "" { assert t[|t| - 1] == name[|t| - 1]; }
    assert |t| == |kept| == 7;
  }

  // --- the fetch -----------------------------------------------------------------------------------------------------

  /** What the policy makes of text, in its own terms. */
  ghost predicate Allows(path: string) {
    Presentable(path) && Reading(path).climbs == 0 && InSandbox(Reading(path).names)
  }

  /** Where a path leads on a disk, links followed. */
  function Place(path: string, d: Resources.Disk): Resources.Parts { d.resolve(d.resolve(d.root) + Reading(path).names) }

  /** Both decisions allow, the one on the request and the one on where it leads; and that is, links
      followed, under demo_target under the root. */
  ghost predicate Passes(path: string, d: Resources.Disk) {
    && Allows(path)
    && var base := d.resolve(d.root); var place := Place(path, d);
    && base <= d.resolve(base + ["demo_target"]) <= place && |place| > |base| && Allows(Join(place[|base|..]))
  }

  lemma RootAlone()
    ensures !Allows(".")
  {
    AllowedIs(".");
    assert Slashes(".") == "." && Strip(".") == ".";
    SplitOrdinary(".");
    assert Backwards(["."][1..]) == Read([], 0);
  }

  lemma TargetIs(path: string, d: Resources.Disk)
    requires Allows(path)
    ensures Evaluate(Text(path)).Allowed() && Evaluate(Text(path)).normalized == Some(Join(Reading(path).names))
    ensures Resources.Target(d, Join(Reading(path).names)) == Place(path, d)
  {
    hide Evaluate, Presentable, Reading, Strip, SameName, Split, Join;
    AllowedIs(path);
    RuleIs(path);
    var names := Reading(path).names;
    SandboxNames(names);
    ServableIs(names);
    Rereading.ServableNamed(names);
    Rereading.Separated(names);
    SplitJoin(names);
  }

  /** What the fetch answers: the two decisions and the places first, then a regular file of at most
      262144 bytes, then a read that succeeds, then text. */
  lemma FetchIs(path: string, d: Resources.Disk)
    ensures var r := Resources.Fetch(path, d); var place := Place(path, d);
      if !Passes(path, d) then r == Err(Resources.PolicyBypass)
      else if place !in d.sizes || d.sizes[place] > 262144 || place !in d.texts then r == Err(Resources.ResourceAccess)
      else if d.texts[place] == None then r == Err(Resources.NotUtf8)
      else r == Ok(d.texts[place].value)
  {
    hide Evaluate, Presentable, Reading, Strip, InSandbox, Join, Allows, Place;
    AllowsIs(path);
    if Allows(path) {
      TargetIs(path, d);
      var base, place := d.resolve(d.root), Place(path, d);
      if Resources.Confined(d, place) {
        AllowsIs(Resources.Relative(d, place));
        if |place| == |base| { RootAlone(); }
      }
    }
  }

  lemma AllowsIs(path: string)
    ensures Evaluate(Text(path)).Allowed() <==> Allows(path)
    ensures Evaluate(Text(path)).Allowed() ==> Evaluate(Text(path)).normalized.Some?
  {
    AllowedIs(path);
    RuleIs(path);
  }

  lemma NormalOfAllowed(path: string)
    requires Allows(path)
    ensures Evaluate(Text(path)).normalized == Some(Join(Reading(path).names))
  {
    hide Evaluate, Presentable, Reading, PlainName, SameName, Join;
    RuleIs(path);
  }
}
