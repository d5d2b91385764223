/** runtime/policy.py: the path policy. */
module Policy {
  import opened Wrappers

  /** What `str.strip()` removes. */
  predicate Whitespace(c: char) {
    || '\U{0009}' <= c <= '\U{000d}' || '\U{001c}' <= c <= '\U{0020}' || c == '\U{0085}' || c == '\U{00a0}'
    || c == '\U{1680}' || '\U{2000}' <= c <= '\U{200a}' || c == '\U{2028}' || c == '\U{2029}'
    || c == '\U{202f}' || c == '\U{205f}' || c == '\U{3000}'
  }

  function StripLeft(s: string): string {
    if |s| > 0 && Whitespace(s[0]) then StripLeft(s[1..]) else s
  }

  function StripRight(s: string): string {
    if |s| > 0 && Whitespace(s[|s| - 1]) then StripRight(s[..|s| - 1]) else s
  }

  function Strip(s: string): string { StripRight(StripLeft(s)) }

  /** `replace("\\", "/")`. */
  function Slashes(s: string): (r: string)
    ensures |r| == |s|
    ensures forall i | 0 <= i < |s| :: r[i] == if s[i] == '\\' then '/' else s[i]
  {
    seq(|s|, i requires 0 <= i < |s| => if s[i] == '\\' then '/' else s[i])
  }

  /** `split("/")`: never empty, the last piece may be. */
  function Split(s: string): (pieces: seq<string>)
    ensures |pieces| > 0
  {
    if |s| == 0 then [""] else
      var rest := Split(s[..|s| - 1]);
      var c := s[|s| - 1];
      if c == '/' then rest + [""] else rest[..|rest| - 1] + [rest[|rest| - 1] + [c]]
  }

  /** `"/".join(segments)`. */
  function Join(segments: seq<string>): string {
    if |segments| == 0 then "" else if |segments| == 1 then segments[0] else
      Join(segments[..|segments| - 1]) + "/" + segments[|segments| - 1]
  }

  /** The loop body of `_normalize`; None once the path has escaped. */
  function Push(stack: Option<seq<string>>, raw: string): Option<seq<string>> {
    if stack.None? then None
    else if raw == "" || raw == "." then stack
    else if raw == ".." then (if |stack.value| == 0 then None else Some(stack.value[..|stack.value| - 1]))
    else Some(stack.value + [raw])
  }

  function Resolve(stack: Option<seq<string>>, raws: seq<string>): Option<seq<string>> {
    if |raws| == 0 then stack else Push(Resolve(stack, raws[..|raws| - 1]), raws[|raws| - 1])
  }

  function NonEmpty(stack: Option<seq<string>>): Option<seq<string>> {
    if stack == Some([]) then None else stack
  }

  function Normalize(path: string): Option<seq<string>> {
    var candidate := Slashes(Strip(path));
    if candidate == "" then None else NonEmpty(Resolve(Some([]), Split(candidate)))
  }

  /** `_normalize` as it runs: a list pushed and popped. */
  method NormalizePath(path: string) returns (r: Option<seq<string>>)
    ensures r == Normalize(path)
  {
    var candidate := Slashes(Strip(path));
    if candidate == "" { return None; }
    var raws := Split(candidate);
    var segments: seq<string> := [];
    for i := 0 to |raws|
      invariant Resolve(Some([]), raws[..i]) == Some(segments)
    {
      var raw := raws[i];
      assert raws[..i + 1][..i] == raws[..i];
      if raw == "" || raw == "." { continue; }
      if raw == ".." {
        if |segments| == 0 {
          Escaped(Some([]), raws, i + 1);
          return None;
        }
        segments := segments[..|segments| - 1];
        continue;
      }
      segments := segments + [raw];
    }
    assert raws[..|raws|] == raws;
    return if |segments| > 0 then Some(segments) else None;
  }

  lemma {:induction false} Escaped(stack: Option<seq<string>>, raws: seq<string>, i: nat)
    requires i <= |raws| && Resolve(stack, raws[..i]) == None
    ensures Resolve(stack, raws) == None
    decreases |raws| - i
  {
    if i == |raws| {
      assert raws[..i] == raws;
    } else {
      assert raws[..i + 1][..i] == raws[..i];
      Escaped(stack, raws, i + 1);
    }
  }

  // --- the shape of a normal form ----------------------------------------------------------------

  predicate Separator(c: char) { c == '/' || c == '\\' }

  /** A segment that names something: no separator, not empty, not a dot segment. */
  predicate Ordinary(s: string) {
    s != "" && s != "." && s != ".." && forall i | 0 <= i < |s| :: !Separator(s[i])
  }

  ghost predicate AllOrdinary(segments: seq<string>) { forall i | 0 <= i < |segments| :: Ordinary(segments[i]) }

  predicate NoSeparator(s: string) { forall i | 0 <= i < |s| :: !Separator(s[i]) }

  lemma {:induction false} PiecesPlain(s: string)
    requires forall i | 0 <= i < |s| :: s[i] != '\\'
    ensures forall k | 0 <= k < |Split(s)| :: NoSeparator(Split(s)[k])
  {
    if |s| > 0 { PiecesPlain(s[..|s| - 1]); }
  }

  lemma {:induction false} ResolvePlain(raws: seq<string>)
    requires forall k | 0 <= k < |raws| :: NoSeparator(raws[k])
    ensures var r := Resolve(Some([]), raws); r.Some? ==> AllOrdinary(r.value)
  {
    if |raws| > 0 { ResolvePlain(raws[..|raws| - 1]); }
  }

  /** A normal form is non-empty and has no empty, "." or ".." segment and no separator. */
  lemma NormalForm(path: string)
    ensures var r := Normalize(path); r.Some? ==> |r.value| > 0 && AllOrdinary(r.value)
  {
    var candidate := Slashes(Strip(path));
    PiecesPlain(candidate);
    ResolvePlain(Split(candidate));
  }

  // --- spellings that do not matter ----------------------------------------------------------------

  function Extend(pieces: seq<string>, c: char): seq<string>
    requires |pieces| > 0
  {
    if c == '/' then pieces + [""] else pieces[..|pieces| - 1] + [pieces[|pieces| - 1] + [c]]
  }

  lemma SplitNext(s: string, c: char)
    ensures Split(s + [c]) == Extend(Split(s), c)
  {
    assert (s + [c])[..|s|] == s;
  }

  lemma ExtendLater(earlier: seq<string>, pieces: seq<string>, c: char)
    requires |pieces| > 0
    ensures Extend(earlier + pieces, c) == earlier + Extend(pieces, c)
  {
  }

  lemma {:induction false} SplitAt(a: string, b: string)
    ensures Split(a + "/" + b) == Split(a) + Split(b)
  {
    hide Split, Extend;
    if |b| == 0 {
      assert a + "/" + b == a + ['/'];
      SplitNext(a, '/');
      ExtendSlash(a);
    } else {
      var b0, c := b[..|b| - 1], b[|b| - 1];
      SplitAt(a, b0);
      assert b == b0 + [c] && a + "/" + b == (a + "/" + b0) + [c];
      SplitNext(a + "/" + b0, c);
      SplitNext(b0, c);
      ExtendLater(Split(a), Split(b0), c);
    }
  }

  lemma ExtendSlash(a: string)
    ensures Extend(Split(a), '/') == Split(a) + Split("")
  {
  }

  lemma {:induction false} ResolveAppend(stack: Option<seq<string>>, a: seq<string>, b: seq<string>)
    ensures Resolve(stack, a + b) == Resolve(Resolve(stack, a), b)
  {
    if |b| == 0 {
      assert a + b == a;
    } else {
      ResolveAppend(stack, a, b[..|b| - 1]);
      assert (a + b)[..|a + b| - 1] == a + b[..|b| - 1];
    }
  }

  lemma {:induction false} StripLeftAt(a: string, c: char, b: string)
    requires !Whitespace(c)
    ensures StripLeft(a + [c] + b) == StripLeft(a) + [c] + b
  {
    if |a| > 0 && Whitespace(a[0]) {
      StripLeftAt(a[1..], c, b);
      assert (a + [c] + b)[1..] == a[1..] + [c] + b;
    }
  }

  lemma {:induction false} StripRightAt(a: string, c: char, b: string)
    requires !Whitespace(c)
    ensures StripRight(a + [c] + b) == a + [c] + StripRight(b)
  {
    var s := a + [c] + b;
    if |b| > 0 {
      assert s[|s| - 1] == b[|b| - 1];
      if Whitespace(b[|b| - 1]) {
        StripRightAt(a, c, b[..|b| - 1]);
        assert s[..|s| - 1] == a + [c] + b[..|b| - 1];
      }
    } else {
      assert s[|s| - 1] == c;
    }
  }

  /** Stripping stops at a character that is not whitespace. */
  lemma StripAt(a: string, c: char, b: string)
    requires !Whitespace(c)
    ensures Strip(a + [c] + b) == StripLeft(a) + [c] + StripRight(b)
  {
    StripLeftAt(a, c, b);
    StripRightAt(StripLeft(a), c, b);
  }

  lemma SlashesAt(a: string, c: char, b: string)
    requires Separator(c)
    ensures Slashes(a + [c] + b) == Slashes(a) + "/" + Slashes(b)
  {
  }

  /** What stands before and after a separator is resolved one after the other. */
  lemma NormalizeAt(a: string, c: char, b: string)
    requires Separator(c)
    ensures Normalize(a + [c] + b) ==
      NonEmpty(Resolve(Resolve(Some([]), Split(Slashes(StripLeft(a)))), Split(Slashes(StripRight(b)))))
  {
    StripAt(a, c, b);
    SlashesAt(StripLeft(a), c, StripRight(b));
    SplitAt(Slashes(StripLeft(a)), Slashes(StripRight(b)));
    ResolveAppend(Some([]), Split(Slashes(StripLeft(a))), Split(Slashes(StripRight(b))));
  }

  /** A piece of path that leads nowhere: nothing, ".", or down and straight up again. */
  predicate Detour(x: string) {
    || x == "" || x == "."
    || (|x| > 3 && x[|x| - 3..] == "/.." && Ordinary(x[..|x| - 3]))
  }

  lemma SplitOrdinary(y: string)
    requires NoSeparator(y)
    ensures Split(y) == [y]
  {
    if |y| > 0 { SplitOrdinary(y[..|y| - 1]); assert y == y[..|y| - 1] + [y[|y| - 1]]; }
  }

  lemma ResolveTwo(stack: Option<seq<string>>, x: string, y: string)
    ensures Resolve(stack, [x]) == Push(stack, x)
    ensures Resolve(stack, [x, y]) == Push(Push(stack, x), y)
  {
    assert [x][..0] == [] && [x, y][..1] == [x];
  }

  lemma DetourLeadsNowhere(stack: Option<seq<string>>, x: string)
    requires Detour(x)
    ensures Resolve(stack, Split(Slashes(x))) == stack
  {
    if x == "" || x == "." {
      assert Slashes(x) == x;
      SplitOrdinary(x);
      ResolveTwo(stack, x, x);
    } else {
      var y := x[..|x| - 3];
      assert x == y + "/" + "..";
      assert Slashes(x) == x;
      SplitAt(y, "..");
      SplitOrdinary(y);
      SplitOrdinary("..");
      ResolveTwo(stack, y, "..");
      if stack.Some? { assert (stack.value + [y])[..|stack.value|] == stack.value; }
    }
  }

  /** Wherever a separator stands, extra separators, "./" and "x/../" change nothing, and a
      backslash is as good as a slash. */
  lemma SpellingsAgree(a: string, c: char, x: string, d: char, b: string)
    requires Separator(c) && Separator(d) && Detour(x)
    ensures Normalize(a + [c] + x + [d] + b) == Normalize(a + "/" + b)
  {
    var s := StripLeft(a);
    NormalizeAt(a, '/', b);
    assert a + "/" + b == a + ['/'] + b;
    var rest := x + [d] + b;
    assert a + [c] + x + [d] + b == a + [c] + rest;
    NormalizeAt(a, c, rest);
    StripRightAt(x, d, b);
    SlashesAt(x, d, StripRight(b));
    SplitAt(Slashes(x), Slashes(StripRight(b)));
    var start := Resolve(Some([]), Split(Slashes(s)));
    ResolveAppend(start, Split(Slashes(x)), Split(Slashes(StripRight(b))));
    DetourLeadsNowhere(start, x);
  }

  lemma SeparatorsAgree(a: string, b: string)
    ensures Normalize(a + "\\" + b) == Normalize(a + "/" + b)
  {
    NormalizeAt(a, '\\', b);
    NormalizeAt(a, '/', b);
    assert a + "\\" + b == a + ['\\'] + b && a + "/" + b == a + ['/'] + b;
  }

  /** A detour in front of a path changes nothing, unless it shields whitespace at the front of the
      path from being stripped. */
  lemma LeadingDetourAgrees(x: string, c: char, b: string)
    requires Detour(x) && Separator(c) && (x == "" || !Whitespace(x[0]))
    requires |b| > 0 && !Whitespace(b[0])
    ensures Normalize(x + [c] + b) == Normalize(b)
  {
    NormalizeAt(x, c, b);
    DetourLeadsNowhere(Some([]), x);
    assert StripLeft(x) == x;
    assert StripLeft(b) == b;
    assert b == [] + [b[0]] + b[1..];
    StripRightAt([], b[0], b[1..]);
    assert |StripRight(b)| > 0;
  }

  /** In particular a leading "./". */
  lemma LeadingDotAgrees(b: string)
    requires |b| > 0 && !Whitespace(b[0])
    ensures Normalize("./" + b) == Normalize(b)
  {
    assert "./" + b == "." + ['/'] + b;
    LeadingDetourAgrees(".", '/', b);
  }

  lemma {:induction false} StripLeftEnd(a: string)
    requires |a| > 0 && !Whitespace(a[|a| - 1])
    ensures |StripLeft(a)| > 0 && StripLeft(a)[|StripLeft(a)| - 1] == a[|a| - 1]
  {
    if Whitespace(a[0]) { StripLeftEnd(a[1..]); }
  }

  lemma DetourEnd(x: string)
    requires Detour(x)
    ensures StripRight(x) == x
  {
    if |x| > 3 { assert x[|x| - 1] == x[|x| - 3..][2] == '.'; }
  }

  /** A detour behind a path changes nothing, unless it shields whitespace at the end of the path
      from being stripped: a trailing separator, "/." or "/x/..". */
  lemma TrailingDetourAgrees(a: string, c: char, x: string)
    requires Detour(x) && Separator(c) && |a| > 0 && !Whitespace(a[|a| - 1])
    ensures Normalize(a + [c] + x) == Normalize(a)
  {
    hide Detour;
    NormalizeAt(a, c, x);
    DetourEnd(x);
    DetourLeadsNowhere(Resolve(Some([]), Split(Slashes(StripLeft(a)))), x);
    StripLeftEnd(a);
    assert StripRight(StripLeft(a)) == StripLeft(a);
  }

  /** In particular a trailing separator. */
  lemma TrailingSlashAgrees(a: string)
    requires |a| > 0 && !Whitespace(a[|a| - 1])
    ensures Normalize(a + "/") == Normalize(a)
  {
    assert a + "/" == a + ['/'] + "";
    TrailingDetourAgrees(a, '/', "");
  }
}
