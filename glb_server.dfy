/** `safe_filename` of `glb_server/server.py`: turn an arbitrary name (a
    mesh's geometry name, an uploaded file's name) into one path component
    by replacing every run of characters other than word characters, `-`
    and `.` with a single `_`, stripping `_` from both ends, and falling back
    to `item` when nothing is left.

    Python's `\w` is Unicode-aware; it is the parameter `word`, of which
    only what every Unicode database agrees on is assumed (`WordClass`). */
module GlbServer {
  import opened Wrappers

  /** What `\w` is known to accept and reject. */
  predicate WordClass(word: char -> bool) {
    && word('_')
    && (forall c: char :: ('a' <= c <= 'z' || 'A' <= c <= 'Z' || '0' <= c <= '9') ==> word(c))
    && !word('/') && !word('\\')
  }

  /** The class `[\w\-.]`. */
  predicate Allowed(word: char -> bool, c: char) { word(c) || c == '-' || c == '.' }

  /** The input after the run of disallowed characters it starts with. */
  function SkipRun(word: char -> bool, s: string): (r: string)
    ensures |r| <= |s| && r == s[|s| - |r|..]
    ensures r == [] || Allowed(word, r[0])
    ensures forall i :: 0 <= i < |s| - |r| ==> !Allowed(word, s[i])
  {
    if s == [] || Allowed(word, s[0]) then s else SkipRun(word, s[1..])
  }

  /** `re.sub(r"[^\w\-.]+", "_", s)`: matches are maximal runs, scanned left
      to right, each replaced by one `_`. */
  function Substitute(word: char -> bool, s: string): (r: string)
    ensures forall i :: 0 <= i < |r| ==> Allowed(word, r[i]) || r[i] == '_'
    ensures |r| <= |s|
    decreases |s|
  {
    if s == [] then []
    else if Allowed(word, s[0]) then [s[0]] + Substitute(word, s[1..])
    else "_" + Substitute(word, SkipRun(word, s[1..]))
  }

  /** `.strip("_")`. */
  function StripLeft(s: string): (r: string)
    ensures |r| <= |s| && r == s[|s| - |r|..]
    ensures r == [] || r[0] != '_'
  {
    if s != [] && s[0] == '_' then StripLeft(s[1..]) else s
  }

  function StripRight(s: string): (r: string)
    ensures |r| <= |s| && r == s[..|r|]
    ensures r == [] || r[|r| - 1] != '_'
  {
    if s != [] && s[|s| - 1] == '_' then StripRight(s[..|s| - 1]) else s
  }

  function Strip(s: string): (r: string)
    ensures |r| <= |s|
    ensures r == [] || (r[0] != '_' && r[|r| - 1] != '_')
  {
    var l := StripLeft(s);
    var r := StripRight(l);
    assert r != [] ==> r[0] == l[0];
    r
  }

  const Fallback := "item"

  /** Never empty and never `_` at either end; it is the fallback only when
      nothing is left, and otherwise no longer than the input. */
  function SafeFilename(word: char -> bool, name: string): (r: string)
    ensures r != "" && r[0] != '_' && r[|r| - 1] != '_'
    ensures r == Fallback || |r| <= |name|
  {
    var t := Strip(Substitute(word, name));
    if t == "" then Fallback else t
  }

  /** The stripped string is a piece of the input with no `_` at either end,
      and it is the input itself when the input has none there. */
  lemma StripSpec(s: string)
    ensures var r := Strip(s);
      && (forall c :: c in r ==> c in s)
      && (r == [] || (r[0] != '_' && r[|r| - 1] != '_'))
      && (s == [] || (s[0] != '_' && s[|s| - 1] != '_') ==> r == s)
  {
    var l := StripLeft(s);
    var r := StripRight(l);
    assert r == Strip(s);
    forall c | c in r ensures c in s {
      var k :| 0 <= k < |r| && r[k] == c;
      assert l[k] == c;
      assert s[|s| - |l| + k] == c;
    }
    if s == [] || (s[0] != '_' && s[|s| - 1] != '_') {
      assert l == s;
      assert r == l;
    }
  }

  /** Every character that survives the substitution and the strip is in
      the class, since `_` is a word character. */
  lemma {:induction false} StrippedAllowed(word: char -> bool, name: string)
    requires word('_')
    ensures forall c :: c in Strip(Substitute(word, name)) ==> Allowed(word, c)
  {
    var sub := Substitute(word, name);
    StripSpec(sub);
    forall c | c in Strip(sub) ensures Allowed(word, c) {
      var j :| 0 <= j < |sub| && sub[j] == c;
    }
  }

  lemma {:induction false} FallbackAllowed(word: char -> bool)
    requires WordClass(word)
    ensures forall c :: c in Fallback ==> Allowed(word, c)
  {
    assert word('i') && word('t') && word('e') && word('m');
  }

  lemma {:induction false} SafeFilenameAllowed(word: char -> bool, name: string)
    requires WordClass(word)
    ensures forall c :: c in SafeFilename(word, name) ==> Allowed(word, c)
  {
    if Strip(Substitute(word, name)) == "" {
      FallbackAllowed(word);
    } else {
      StrippedAllowed(word, name);
    }
  }

  /** The name is a single path component made of `\w`, `-` and `.` only:
      never empty, never `_` at either end, never a `/` or a `\`. */
  lemma {:induction false} SafeFilenameSpec(word: char -> bool, name: string)
    requires WordClass(word)
    ensures var r := SafeFilename(word, name);
      && r != ""
      && r[0] != '_' && r[|r| - 1] != '_'
      && (forall c :: c in r ==> Allowed(word, c))
      && '/' !in r && '\\' !in r
  {
    var t := Strip(Substitute(word, name));
    var r := SafeFilename(word, name);
    SafeFilenameAllowed(word, name);
    assert !Allowed(word, '/') && !Allowed(word, '\\');
    assert '/' !in r && '\\' !in r;
    if t == "" {
      assert r == Fallback;
    } else {
      StripSpec(Substitute(word, name));
      assert r == t;
    }
  }

  /** A name already made of allowed characters goes through the
      substitution unchanged. */
  lemma {:induction false} SubstituteAllowed(word: char -> bool, s: string)
    requires forall i :: 0 <= i < |s| ==> Allowed(word, s[i])
    ensures Substitute(word, s) == s
  {
    if s != [] {
      SubstituteAllowed(word, s[1..]);
    }
  }

  /** A non-empty name of allowed characters with no `_` at either end is
      returned unchanged; in particular `.` and `..` are. */
  lemma FixedPoint(word: char -> bool, name: string)
    requires name != [] && name[0] != '_' && name[|name| - 1] != '_'
    requires forall i :: 0 <= i < |name| ==> Allowed(word, name[i])
    ensures SafeFilename(word, name) == name
  {
    SubstituteAllowed(word, name);
    StripSpec(name);
  }

  lemma DotNamesPassThrough(word: char -> bool)
    ensures SafeFilename(word, ".") == "."
    ensures SafeFilename(word, "..") == ".."
  {
    FixedPoint(word, ".");
    FixedPoint(word, "..");
  }

  /** Sanitising twice is sanitising once. */
  lemma Idempotent(word: char -> bool, name: string)
    requires WordClass(word)
    ensures SafeFilename(word, SafeFilename(word, name)) == SafeFilename(word, name)
  {
    var r := SafeFilename(word, name);
    SafeFilenameSpec(word, name);
    forall i | 0 <= i < |r|
      ensures Allowed(word, r[i])
    {
      assert r[i] in r;
    }
    FixedPoint(word, r);
  }

  /** A non-empty run of disallowed characters followed by the end or by an
      allowed character becomes exactly one `_`, however long it is. */
  lemma {:induction false} RunBecomesOneUnderscore(word: char -> bool, run: string, rest: string)
    requires run != [] && forall i :: 0 <= i < |run| ==> !Allowed(word, run[i])
    requires rest == [] || Allowed(word, rest[0])
    ensures Substitute(word, run + rest) == "_" + Substitute(word, rest)
  {
    var s := run + rest;
    assert s[0] == run[0] && !Allowed(word, s[0]);
    assert s[1..] == run[1..] + rest;
    SkipWholeRun(word, run[1..], rest);
    assert Substitute(word, s) == "_" + Substitute(word, SkipRun(word, s[1..]));
  }

  lemma {:induction false} SkipWholeRun(word: char -> bool, run: string, rest: string)
    requires forall i :: 0 <= i < |run| ==> !Allowed(word, run[i])
    requires rest == [] || Allowed(word, rest[0])
    ensures SkipRun(word, run + rest) == rest
  {
    if run != [] {
      assert (run + rest)[1..] == run[1..] + rest;
      SkipWholeRun(word, run[1..], rest);
    } else {
      assert run + rest == rest;
    }
  }

  // ---------------------------------------------------------------------
  // A second definition of the substitution: mark each character as kept
  // (`Some(c)`) or replaced (`None`), merge adjacent replaced marks, then
  // write `_` for each remaining mark.

  function Marks(word: char -> bool, s: string): (ms: seq<Option<char>>)
    ensures |ms| == |s|
    ensures forall i :: 0 <= i < |s| ==> ms[i] == if Allowed(word, s[i]) then Some(s[i]) else None
  {
    seq(|s|, i requires 0 <= i < |s| => if Allowed(word, s[i]) then Some(s[i]) else None)
  }

  function Merge(ms: seq<Option<char>>): seq<Option<char>> {
    if ms == [] then []
    else if ms[0].None? && |ms| > 1 && ms[1].None? then Merge(ms[1..])
    else [ms[0]] + Merge(ms[1..])
  }

  function Render(ms: seq<Option<char>>): string {
    if ms == [] then [] else [if ms[0].Some? then ms[0].value else '_'] + Render(ms[1..])
  }

  /** No two replaced marks are adjacent after merging. */
  lemma {:induction false} MergeSeparates(ms: seq<Option<char>>)
    ensures var m := Merge(ms); forall i :: 0 <= i < |m| - 1 ==> !(m[i].None? && m[i + 1].None?)
    ensures ms != [] ==> Merge(ms) != [] && Merge(ms)[0] == (if ms[0].None? then None else ms[0])
  {
    if ms != [] {
      MergeSeparates(ms[1..]);
    }
  }

  lemma {:induction false} MergeRun(word: char -> bool, s: string)
    requires s != [] && !Allowed(word, s[0])
    ensures Merge(Marks(word, s)) == [None] + Merge(Marks(word, SkipRun(word, s[1..])))
    decreases |s|
  {
    var ms := Marks(word, s);
    assert ms[0] == None;
    assert ms[1..] == Marks(word, s[1..]);
    if |s| > 1 && !Allowed(word, s[1]) {
      assert ms[1] == None;
      assert Merge(ms) == Merge(Marks(word, s[1..]));
      assert SkipRun(word, s[1..]) == SkipRun(word, s[1..][1..]);
      MergeRun(word, s[1..]);
    } else {
      assert Merge(ms) == [None] + Merge(Marks(word, s[1..]));
      assert SkipRun(word, s[1..]) == s[1..];
    }
  }

  /** The substitution is the merge-and-render definition. */
  lemma {:induction false} SubstituteIsMerge(word: char -> bool, s: string)
    ensures Substitute(word, s) == Render(Merge(Marks(word, s)))
    decreases |s|
  {
    if s != [] {
      assert Marks(word, s)[1..] == Marks(word, s[1..]);
      if Allowed(word, s[0]) {
        SubstituteIsMerge(word, s[1..]);
      } else {
        MergeRun(word, s);
        SubstituteIsMerge(word, SkipRun(word, s[1..]));
      }
    }
  }
}
