/** runtime/resources.py: the fetch, over an arbitrary file system whose links may lead anywhere. */
module Resources {
  import opened Wrappers
  import opened Policy
  import opened PolicyDecision

  /** An absolute path as its components. */
  type Parts = seq<string>

  const MAX_RESOURCE_BYTES: nat := 256 * 1024

  /** The two declared errors, and the decoding error that nothing catches. */
  datatype FetchError = PolicyBypass | ResourceAccess | NotUtf8

  /** `resolve` follows symbolic links; `files` are the regular files by resolved path, with
      their sizes and, where a read succeeds, their text, if the bytes are valid UTF-8. */
  datatype Disk = Disk(root: Parts, resolve: Parts -> Parts, sizes: map<Parts, nat>, texts: map<Parts, Option<string>>)

  function Base(d: Disk): Parts { d.resolve(d.root) }

  function Sandbox(d: Disk): Parts { d.resolve(Base(d) + [SANDBOX_ROOT]) }

  function Target(d: Disk, normalized: string): Parts { d.resolve(Base(d) + Split(normalized)) }

  /** `target.relative_to(base).as_posix()`. */
  function Relative(d: Disk, target: Parts): string
    requires |Base(d)| <= |target|
  {
    var rest := target[|Base(d)|..];
    if |rest| == 0 then "." else Join(rest)
  }

  predicate Confined(d: Disk, target: Parts) { Base(d) <= Sandbox(d) && Sandbox(d) <= target }

  function Fetch(path: string, d: Disk): Result<string, FetchError> {
    var decision := Evaluate(Text(path));
    if !decision.Allowed() || decision.normalized.None? then Err(PolicyBypass) else
      var target := Target(d, decision.normalized.value);
      if !Confined(d, target) then Err(PolicyBypass)
      else if !Evaluate(Text(Relative(d, target))).Allowed() then Err(PolicyBypass)
      else if target !in d.sizes || d.sizes[target] > MAX_RESOURCE_BYTES || target !in d.texts then Err(ResourceAccess)
      else if d.texts[target].None? then Err(NotUtf8)
      else Ok(d.texts[target].value)
  }

  /** How the policy reads a resolved target: the normal form of its path relative to the base. */
  function Reading(d: Disk, target: Parts): Option<seq<string>>
    requires |Base(d)| <= |target|
  {
    Normalize(Strip(Relative(d, target)))
  }

  /** The second decision, on the resolved path: it must read as a servable path. */
  ghost predicate ReadsServable(d: Disk, target: Parts)
    requires |Base(d)| <= |target|
  {
    Acceptable(Relative(d, target)) && Reading(d, target).Some? && Servable(Reading(d, target).value)
  }

  /** Exactly when a text is handed out, and which: the request is allowed, its target lies, links
      followed, under the resolved sandbox, the target's own relative path reads as strictly below
      the sandbox root and outside every protected directory, and it is one readable file of
      bounded size. */
  lemma FetchExactly(path: string, d: Disk, text: string)
    ensures Fetch(path, d) == Ok(text) <==>
      && Evaluate(Text(path)).Allowed() && Evaluate(Text(path)).normalized.Some?
      && var target := Target(d, Evaluate(Text(path)).normalized.value);
      && Confined(d, target) && ReadsServable(d, target)
      && target in d.sizes && d.sizes[target] <= MAX_RESOURCE_BYTES && target in d.texts && d.texts[target] == Some(text)
  {
    hide Evaluate, Acceptable, Servable, Strip, Normalize;
    var decision := Evaluate(Text(path));
    if decision.Allowed() && decision.normalized.Some? {
      var target := Target(d, decision.normalized.value);
      if Confined(d, target) { AllowedExactly(Relative(d, target)); }
    }
  }

  /** The resolved component names are plain: no separator inside them, no dot segment, and no
      whitespace at the two ends of the relative path. */
  ghost predicate PlainNames(rest: Parts) {
    |rest| > 0 && AllOrdinary(rest) && var n := Join(rest); |n| > 0 && !Whitespace(n[0]) && !EndsInWhitespace(n)
  }

  /** The policy reads exactly the names on disk if and only if they are plain: a backslash inside
      a name, or whitespace at either end, is what makes it read something else. */
  lemma ReadsNamesExactly(d: Disk, target: Parts)
    requires |Base(d)| < |target|
    ensures Reading(d, target) == Some(target[|Base(d)|..]) <==> PlainNames(target[|Base(d)|..])
  {
    hide Strip, Normalize, Join, AllOrdinary;
    var rest := target[|Base(d)|..];
    if PlainNames(rest) { NormalTwice(rest); }
    if Reading(d, target) == Some(rest) { OwnNormalForm(rest); }
  }

  lemma OwnNormalForm(rest: Parts)
    requires |rest| > 0 && Normalize(Strip(Join(rest))) == Some(rest)
    ensures PlainNames(rest)
  {
    hide Strip, Normalize, AllOrdinary;
    var n := Join(rest);
    NormalForm(Strip(n));
    NormalLength(Strip(n));
    assert |n| > 0 by { FirstNamed(rest); }
    NormalLengthStrict(n);
  }

  lemma FirstNamed(rest: Parts)
    requires |rest| > 0 && AllOrdinary(rest)
    ensures |Join(rest)| > 0
  {
    assert Ordinary(rest[0]);
    JoinStart(rest);
  }

  /** Stripping shortens whatever has whitespace at an end, and stripping again changes no more. */
  lemma NormalLengthStrict(n: string)
    requires |n| > 0 && |Strip(Strip(n))| >= |n|
    ensures !Whitespace(n[0]) && !EndsInWhitespace(n)
  {
    StripShorter(n);
    StripShorter(StripLeft(n));
    StripShorter(Strip(n));
    StripShorter(StripLeft(Strip(n)));
    if Whitespace(n[0]) { StripShorter(n[1..]); }
  }

  /** With plain names on disk the handed-out file is by name strictly below the sandbox root and
      outside every protected directory. */
  lemma FetchConfined(path: string, d: Disk)
    requires Fetch(path, d).Ok?
    ensures Evaluate(Text(path)).Allowed() && Evaluate(Text(path)).normalized.Some?
    ensures var target := Target(d, Evaluate(Text(path)).normalized.value);
      && Confined(d, target) && target in d.texts && d.texts[target] == Some(Fetch(path, d).value)
      && target in d.sizes && d.sizes[target] <= MAX_RESOURCE_BYTES
      && ReadsServable(d, target)
      && (PlainNames(target[|Base(d)|..]) ==> Servable(target[|Base(d)|..]))
  {
    hide Evaluate, Servable, Acceptable, PlainNames, Strip, Normalize;
    FetchExactly(path, d, Fetch(path, d).value);
    var target := Target(d, Evaluate(Text(path)).normalized.value);
    var rest := target[|Base(d)|..];
    if |rest| > 0 { ReadsNamesExactly(d, target); } else { NoPlainNames(); }
  }

  lemma NoPlainNames()
    ensures !PlainNames([])
  {
  }

  /** A target whose own path reads as protected is never handed out, however the request was
      spelled and through whatever links. */
  lemma ProtectedNeverFetched(path: string, d: Disk)
    requires Evaluate(Text(path)).normalized.Some?
    requires var target := Target(d, Evaluate(Text(path)).normalized.value);
      && |Base(d)| <= |target| && Reading(d, target).Some?
      && var names := Reading(d, target).value; |names| >= 2 && Lower(names[1]) in PROTECTED_SEGMENTS
    ensures Fetch(path, d) == Err(PolicyBypass)
  {
    hide Evaluate, Acceptable, Strip, Normalize, Join;
    AllowedExactly(Relative(d, Target(d, Evaluate(Text(path)).normalized.value)));
  }

  /** The function as it runs: two policy decisions before the first touch of the disk. */
  method ReadSandboxResource(path: string, d: Disk) returns (r: Result<string, FetchError>)
    ensures r == Fetch(path, d)
  {
    hide Evaluate;
    var decision := Evaluate(Text(path));
    if !decision.Allowed() || decision.normalized == None { return Err(PolicyBypass); }
    var base := d.resolve(d.root);
    var sandbox := d.resolve(base + [SANDBOX_ROOT]);
    var target := d.resolve(base + Split(decision.normalized.value));
    if !(base <= sandbox) || !(sandbox <= target) { return Err(PolicyBypass); }
    var rest := target[|base|..];
    var resolved := Evaluate(Text(if |rest| == 0 then "." else Join(rest)));
    if !resolved.Allowed() { return Err(PolicyBypass); }
    if target !in d.sizes { return Err(ResourceAccess); }
    if d.sizes[target] > MAX_RESOURCE_BYTES { return Err(ResourceAccess); }
    if target !in d.texts { return Err(ResourceAccess); }
    if d.texts[target] == None { return Err(NotUtf8); }
    return Ok(d.texts[target].value);
  }
}
