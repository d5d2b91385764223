/** scripts/verify_no_secret_leaks.py: a scan in bounded memory that equals a whole-file search. */
module SecretSearch {
  type Bytes = seq<bv8>

  /** `needle in hay` on byte strings. */
  predicate Occurs(needle: Bytes, hay: Bytes) {
    exists i :: 0 <= i <= |hay| - |needle| && OccursAt(needle, hay, i)
  }

  predicate OccursAt(needle: Bytes, hay: Bytes, i: int)
    requires 0 <= i <= |hay| - |needle|
  {
    hay[i..i + |needle|] == needle
  }

  function Concat(chunks: seq<Bytes>): Bytes {
    if |chunks| == 0 then [] else Concat(chunks[..|chunks| - 1]) + chunks[|chunks| - 1]
  }

  /** The last n bytes, or all of them. */
  function Tail(s: Bytes, n: nat): (t: Bytes)
    ensures |t| == if |s| <= n then |s| else n
    ensures |t| <= |s| && t == s[|s| - |t|..]
  {
    if |s| <= n then s else s[|s| - n..]
  }

  /** Keeping the tail of a tail loses nothing. */
  lemma TailOfTail(s: Bytes, chunk: Bytes, n: nat)
    ensures Tail(Tail(s, n) + chunk, n) == Tail(s + chunk, n)
  {
    var t := Tail(s, n);
    var d := |s| - |t|;
    assert s + chunk == s[..d] + (t + chunk);
    if |t + chunk| > n {
      assert (s + chunk)[|s + chunk| - n..] == (t + chunk)[|t + chunk| - n..];
    }
  }

  /** Dropping a prefix shifts the places of what remains. */
  lemma Shifted(prefix: Bytes, rest: Bytes, needle: Bytes, i: int)
    requires 0 <= i <= |rest| - |needle|
    ensures OccursAt(needle, prefix + rest, |prefix| + i) <==> OccursAt(needle, rest, i)
  {
    assert (prefix + rest)[|prefix| + i..|prefix| + i + |needle|] == rest[i..i + |needle|];
  }

  lemma Within(seen: Bytes, chunk: Bytes, needle: Bytes, i: int)
    requires 0 <= i <= |seen| - |needle| && OccursAt(needle, seen + chunk, i)
    ensures OccursAt(needle, seen, i)
  {
    assert (seen + chunk)[i..i + |needle|] == seen[i..i + |needle|];
  }

  /** A new occurrence ends in the new chunk, so it starts within the last |needle| - 1 bytes. */
  lemma WindowSuffices(seen: Bytes, chunk: Bytes, needle: Bytes)
    requires |needle| > 0 && !Occurs(needle, seen)
    ensures Occurs(needle, Tail(seen, |needle| - 1) + chunk) <==> Occurs(needle, seen + chunk)
  {
    hide OccursAt;
    var t := Tail(seen, |needle| - 1);
    var d := |seen| - |t|;
    assert seen == seen[..d] + t;
    assert seen + chunk == seen[..d] + (t + chunk);
    if i :| 0 <= i <= |t + chunk| - |needle| && OccursAt(needle, t + chunk, i) {
      Shifted(seen[..d], t + chunk, needle, i);
    }
    if i :| 0 <= i <= |seen + chunk| - |needle| && OccursAt(needle, seen + chunk, i) {
      if i + |needle| <= |seen| { Within(seen, chunk, needle, i); }
      Shifted(seen[..d], t + chunk, needle, i - d);
    }
  }

  lemma OccursLonger(needle: Bytes, hay: Bytes, more: Bytes)
    requires Occurs(needle, hay)
    ensures Occurs(needle, hay + more)
  {
    var i :| 0 <= i <= |hay| - |needle| && OccursAt(needle, hay, i);
    assert (hay + more)[i..i + |needle|] == hay[i..i + |needle|];
    assert OccursAt(needle, hay + more, i);
  }

  lemma {:induction false} OccursInPrefix(needle: Bytes, chunks: seq<Bytes>, i: nat)
    requires i <= |chunks| && Occurs(needle, Concat(chunks[..i]))
    ensures Occurs(needle, Concat(chunks))
    decreases |chunks| - i
  {
    if i == |chunks| {
      assert chunks[..i] == chunks;
    } else {
      assert chunks[..i + 1][..i] == chunks[..i];
      OccursLonger(needle, Concat(chunks[..i]), chunks[i]);
      OccursInPrefix(needle, chunks, i + 1);
    }
  }

  /** `file_contains` over the chunks `read` returns, none of them empty. The answer is the whole
      file's, however it was split, and never more than |needle| - 1 old bytes are kept. An empty
      needle is found in every file but the empty one. */
  method FileContains(chunks: seq<Bytes>, needle: Bytes) returns (found: bool)
    requires forall i | 0 <= i < |chunks| :: |chunks[i]| > 0
    ensures |needle| > 0 ==> (found <==> Occurs(needle, Concat(chunks)))
    ensures |needle| == 0 ==> (found <==> |chunks| > 0)
  {
    var overlap := if |needle| > 0 then |needle| - 1 else 0;
    var tail: Bytes := [];
    for i := 0 to |chunks|
      invariant |tail| <= overlap && tail == Tail(Concat(chunks[..i]), overlap)
      invariant |needle| > 0 ==> !Occurs(needle, Concat(chunks[..i]))
      invariant |needle| == 0 ==> i == 0
    {
      var combined := tail + chunks[i];
      assert chunks[..i + 1][..i] == chunks[..i];
      ghost var seen := Concat(chunks[..i]);
      if |needle| > 0 { WindowSuffices(seen, chunks[i], needle); }
      if Occurs(needle, combined) {
        if |needle| > 0 { OccursInPrefix(needle, chunks, i + 1); }
        return true;
      }
      if |needle| == 0 { assert OccursAt(needle, combined, 0); }
      TailOfTail(seen, chunks[i], overlap);
      tail := if overlap > 0 then Tail(combined, overlap) else [];
    }
    assert chunks[..|chunks|] == chunks;
    return false;
  }

  /** A file as `find_leaks` sees it: where it resolves to, and what `read` yields. */
  datatype File = File(resolved: nat, chunks: seq<Bytes>)

  predicate Leaks(f: File, fixture: nat, needle: Bytes) {
    f.resolved != fixture && Occurs(needle, Concat(f.chunks))
  }

  /** The indices of the leaking files among the first n. */
  function LeaksAmong(files: seq<File>, fixture: nat, needle: Bytes, n: nat): seq<nat>
    requires n <= |files|
  {
    if n == 0 then [] else
      LeaksAmong(files, fixture, needle, n - 1) + if Leaks(files[n - 1], fixture, needle) then [n - 1] else []
  }

  /** `find_leaks`: exactly the files other than the fixture that contain the needle, in order. */
  method FindLeaks(files: seq<File>, fixture: nat, needle: Bytes) returns (leaks: seq<nat>, scanned: nat)
    requires |needle| > 0
    requires forall f, i | f in files && 0 <= i < |f.chunks| :: |f.chunks[i]| > 0
    ensures leaks == LeaksAmong(files, fixture, needle, |files|)
    ensures scanned == |set i | 0 <= i < |files| && files[i].resolved != fixture|
  {
    leaks, scanned := [], 0;
    for k := 0 to |files|
      invariant leaks == LeaksAmong(files, fixture, needle, k)
      invariant scanned == |set i | 0 <= i < k && files[i].resolved != fixture|
    {
      var f := files[k];
      assert f in files;
      ghost var before := set i | 0 <= i < k && files[i].resolved != fixture;
      ghost var after := set i | 0 <= i < k + 1 && files[i].resolved != fixture;
      assert after == before + if f.resolved != fixture then {k} else {};
      if f.resolved == fixture { continue; }
      scanned := scanned + 1;
      var found := FileContains(f.chunks, needle);
      if found { leaks := leaks + [k]; }
    }
  }

  // --- in plain terms -----------------------------------------------------------------------------------

  /** To occur is to stand somewhere between what comes before and what comes after. */
  lemma OccursIs(needle: Bytes, hay: Bytes)
    ensures Occurs(needle, hay) <==> exists before: Bytes, after: Bytes :: hay == before + needle + after
  {
    if i :| 0 <= i <= |hay| - |needle| && OccursAt(needle, hay, i) {
      assert hay == hay[..i] + needle + hay[i + |needle|..];
    }
    if before: Bytes, after: Bytes :| hay == before + needle + after {
      assert OccursAt(needle, hay, |before|);
    }
  }

  lemma {:induction false} LeaksAre(files: seq<File>, fixture: nat, needle: Bytes, n: nat)
    requires n <= |files|
    ensures var leaks := LeaksAmong(files, fixture, needle, n);
      && (forall k: nat :: k in leaks <==> k < n && files[k].resolved != fixture && Occurs(needle, Concat(files[k].chunks)))
      && (forall i, j | 0 <= i < j < |leaks| :: leaks[i] < leaks[j])
  {
    hide Occurs;
    if n > 0 {
      LeaksAre(files, fixture, needle, n - 1);
      var earlier := LeaksAmong(files, fixture, needle, n - 1);
      forall i | 0 <= i < |earlier| ensures earlier[i] < n - 1 { assert earlier[i] in earlier; }
    }
  }
}
