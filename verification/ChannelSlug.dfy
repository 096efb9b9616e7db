/**
  channelSlugFromName (packages/contracts/src/channel-slug.ts:36-57), from the normalised and
  lower-cased name on. A character carries the Unicode class that the regular expressions ask for.
 */
module ChannelSlug {

  const CHANNEL_SLUG_MAX_CODE_POINTS: nat := 100

  /** `\p{L}` or `\p{N}`; `\p{M}`; anything else. */
  datatype Character = Word(c: int) | Mark(c: int) | Other(c: int)

  const HYPHEN: Character := Other(0x2D)

  // ---------------------------------------------------------------------------------------------
  // The grammar
  // ---------------------------------------------------------------------------------------------

  /** What may follow inside a segment of CHANNEL_SLUG_PATTERN. */
  predicate InSegment(s: seq<Character>)
  {
    s == [] || (!s[0].Other? && InSegment(s[1..])) || (s[0] == HYPHEN && IsSlug(s[1..]))
  }

  /** CHANNEL_SLUG_PATTERN. */
  predicate IsSlug(s: seq<Character>)
  {
    s != [] && s[0].Word? && InSegment(s[1..])
  }

  lemma {:induction false} SegmentsJoin(a: seq<Character>, b: seq<Character>)
    requires InSegment(b)
    ensures InSegment(a) ==> InSegment(a + b)
    ensures IsSlug(a) ==> IsSlug(a + b)
    decreases |a|
  {
    if a == [] {
      assert a + b == b;
    } else {
      assert (a + b)[1..] == a[1..] + b;
      SegmentsJoin(a[1..], b);
    }
  }

  /** A cut slug is a slug, but for one hyphen that the cut may have left at its end. */
  lemma {:induction false} SegmentsCut(s: seq<Character>, n: nat)
    requires n <= |s|
    ensures InSegment(s) ==> InSegment(s[..n]) || (n > 0 && s[n - 1] == HYPHEN && InSegment(s[..n - 1]))
    ensures IsSlug(s) && n > 0 ==> IsSlug(s[..n]) || (s[n - 1] == HYPHEN && IsSlug(s[..n - 1]))
    decreases |s|
  {
    if n > 0 {
      SegmentsCut(s[1..], n - 1);
      assert s[..n][1..] == s[1..][..n - 1];
      if n > 1 { assert s[..n - 1][1..] == s[1..][..n - 2]; }
    }
  }

  lemma {:induction false} SegmentsEnd(s: seq<Character>)
    requires s != []
    ensures InSegment(s) || IsSlug(s) ==> s[|s| - 1] != HYPHEN
    decreases |s|
  {
    if |s| > 1 { SegmentsEnd(s[1..]); } else { assert !IsSlug(s[1..]); }
  }

  // ---------------------------------------------------------------------------------------------
  // The generator
  // ---------------------------------------------------------------------------------------------

  datatype Progress = Progress(output: seq<Character>, segmentStarted: bool, separatorPending: bool)

  function Step(p: Progress, character: Character): Progress
  {
    if character.Word? then
      Progress(p.output + (if p.separatorPending && p.output != [] then [HYPHEN] else []) + [character], true, false)
    else if p.segmentStarted && character.Mark? then p.(output := p.output + [character])
    else Progress(p.output, false, p.output != [])
  }

  function Scan(p: Progress, name: seq<Character>): Progress
    decreases |name|
  {
    if name == [] then p else Scan(Step(p, name[0]), name[1..])
  }

  function Trimmed(s: seq<Character>): seq<Character>
  {
    if s != [] && s[|s| - 1] == HYPHEN then s[..|s| - 1] else s
  }

  function Capped(s: seq<Character>): seq<Character>
  {
    Trimmed(if |s| <= CHANNEL_SLUG_MAX_CODE_POINTS then s else s[..CHANNEL_SLUG_MAX_CODE_POINTS])
  }

  function ChannelSlugFromName(name: seq<Character>): seq<Character>
  {
    Capped(Scan(Progress([], false, false), name).output)
  }

  method SlugFromName(normalized: seq<Character>) returns (slug: seq<Character>)
    ensures slug == ChannelSlugFromName(normalized)
  {
    var output: seq<Character> := [];
    var segmentStarted, separatorPending := false, false;
    var i := 0;
    assert normalized[0..] == normalized;
    while i < |normalized|
      invariant 0 <= i <= |normalized|
      invariant Scan(Progress(output, segmentStarted, separatorPending), normalized[i..])
                == Scan(Progress([], false, false), normalized)
    {
      var character := normalized[i];
      assert normalized[i..][1..] == normalized[i + 1..];
      if character.Word? {
        assert output + [] == output;
        if separatorPending && output != [] { output := output + [HYPHEN]; }
        output := output + [character];
        segmentStarted := true;
        separatorPending := false;
      } else if segmentStarted && character.Mark? {
        output := output + [character];
      } else {
        separatorPending := output != [];
        segmentStarted := false;
      }
      i := i + 1;
    }
    if |output| > CHANNEL_SLUG_MAX_CODE_POINTS { output := output[..CHANNEL_SLUG_MAX_CODE_POINTS]; }
    slug := if output != [] && output[|output| - 1] == HYPHEN then output[..|output| - 1] else output;
  }

  // ---------------------------------------------------------------------------------------------
  // Every result is a slug or empty
  // ---------------------------------------------------------------------------------------------

  predicate ProgressOk(p: Progress)
  {
    && (p.output == [] || IsSlug(p.output))
    && (p.segmentStarted ==> p.output != [] && !p.separatorPending)
    && (!p.segmentStarted && p.output != [] ==> p.separatorPending)
  }

  lemma StepKeeps(p: Progress, character: Character)
    requires ProgressOk(p)
    ensures ProgressOk(Step(p, character))
  {
    if character.Word? {
      assert InSegment([character]) && IsSlug([character]) && [HYPHEN, character][1..] == [character];
      SegmentsJoin(p.output, [HYPHEN, character]);
      SegmentsJoin(p.output, [character]);
      assert p.output + [HYPHEN] + [character] == p.output + [HYPHEN, character];
      assert p.output + [] + [character] == p.output + [character];
    } else if character.Mark? {
      assert InSegment([character]);
      SegmentsJoin(p.output, [character]);
    }
  }

  lemma {:induction false} ScanKeeps(p: Progress, name: seq<Character>)
    requires ProgressOk(p)
    ensures ProgressOk(Scan(p, name))
    decreases |name|
  {
    if name != [] {
      StepKeeps(p, name[0]);
      ScanKeeps(Step(p, name[0]), name[1..]);
    }
  }

  /** For every name the result is empty or obeys the grammar and the cap, wherever the cut falls. */
  lemma SlugIsWellFormed(name: seq<Character>)
    ensures var s := ChannelSlugFromName(name);
            |s| <= CHANNEL_SLUG_MAX_CODE_POINTS && (s == [] || IsSlug(s))
  {
    ScanKeeps(Progress([], false, false), name);
    var output := Scan(Progress([], false, false), name).output;
    if output != [] {
      var n := if |output| <= CHANNEL_SLUG_MAX_CODE_POINTS then |output| else CHANNEL_SLUG_MAX_CODE_POINTS;
      SegmentsCut(output, n);
      assert output[..|output|] == output;
      if IsSlug(output[..n]) { SegmentsEnd(output[..n]); }
      if n > 0 { assert output[..n][..n - 1] == output[..n - 1]; }
    }
  }

  // ---------------------------------------------------------------------------------------------
  // Slugs are fixed points
  // ---------------------------------------------------------------------------------------------

  lemma {:induction false} ScanCopies(output: seq<Character>, rest: seq<Character>)
    requires output != [] && InSegment(rest)
    ensures Scan(Progress(output, true, false), rest) == Progress(output + rest, true, false)
    decreases |rest|
  {
    if rest == [] {
      assert output + rest == output;
    } else if !rest[0].Other? {
      assert output + [] + [rest[0]] == output + [rest[0]];
      ScanCopies(output + [rest[0]], rest[1..]);
      assert output + [rest[0]] + rest[1..] == output + rest;
    } else {
      var next := output + [HYPHEN] + [rest[1]];
      assert rest[1..][0] == rest[1] && rest[1..][1..] == rest[2..];
      ScanCopies(next, rest[2..]);
      assert next + rest[2..] == output + rest;
    }
  }

  lemma CanonicalSlugIsFixed(s: seq<Character>)
    requires IsSlug(s) && |s| <= CHANNEL_SLUG_MAX_CODE_POINTS
    ensures ChannelSlugFromName(s) == s
  {
    assert [] + [] + [s[0]] == [s[0]];
    ScanCopies([s[0]], s[1..]);
    assert [s[0]] + s[1..] == s;
    SegmentsEnd(s);
  }

  /** So generating twice is generating once. */
  lemma SlugIsIdempotent(name: seq<Character>)
    ensures ChannelSlugFromName(ChannelSlugFromName(name)) == ChannelSlugFromName(name)
  {
    SlugIsWellFormed(name);
    if ChannelSlugFromName(name) != [] { CanonicalSlugIsFixed(ChannelSlugFromName(name)); }
  }

  // ---------------------------------------------------------------------------------------------
  // Letters and numbers
  // ---------------------------------------------------------------------------------------------

  function Words(s: seq<Character>): seq<Character>
    decreases |s|
  {
    if s == [] then [] else WordOf(s[0]) + Words(s[1..])
  }

  function WordOf(c: Character): seq<Character>
  {
    if c.Word? then [c] else []
  }

  lemma {:induction false} WordsJoin(a: seq<Character>, b: seq<Character>)
    ensures Words(a + b) == Words(a) + Words(b)
    decreases |a|
  {
    if a == [] {
      assert a + b == b;
    } else {
      assert (a + b)[1..] == a[1..] + b && (a + b)[0] == a[0];
      WordsJoin(a[1..], b);
      assert WordOf(a[0]) + (Words(a[1..]) + Words(b)) == WordOf(a[0]) + Words(a[1..]) + Words(b);
    }
  }

  lemma WordsOfPrefix(s: seq<Character>, n: nat)
    requires n <= |s|
    ensures Words(s[..n]) <= Words(s)
  {
    assert s == s[..n] + s[n..];
    WordsJoin(s[..n], s[n..]);
  }

  lemma {:induction false} ScanKeepsWords(p: Progress, name: seq<Character>)
    ensures Words(Scan(p, name).output) == Words(p.output) + Words(name)
    decreases |name|
  {
    if name != [] {
      var q := Step(p, name[0]);
      ScanKeepsWords(q, name[1..]);
      if name[0].Word? {
        var mark := if p.separatorPending && p.output != [] then [HYPHEN] else [];
        WordsJoin(p.output + mark, [name[0]]);
        WordsJoin(p.output, mark);
        assert Words([name[0]]) == [name[0]] + Words([]) && Words(mark) == [];
      } else {
        WordsJoin(p.output, [name[0]]);
      }
    }
  }

  lemma NoWords()
    ensures Words([]) == []
  {
  }

  /** No letter or number is dropped, reordered or invented before the cut. */
  lemma SlugKeepsWords(name: seq<Character>)
    ensures Words(ChannelSlugFromName(name)) <= Words(name)
    ensures |Scan(Progress([], false, false), name).output| <= CHANNEL_SLUG_MAX_CODE_POINTS ==>
              Words(ChannelSlugFromName(name)) == Words(name)
  {
    var start := Progress([], false, false);
    ScanKeepsWords(start, name);
    NoWords();
    var output := Scan(start, name).output;
    var cut := if |output| <= CHANNEL_SLUG_MAX_CODE_POINTS then output else output[..CHANNEL_SLUG_MAX_CODE_POINTS];
    hide Words, Scan, IsSlug;
    assert [] + Words(name) == Words(name);
    WordsOfPrefix(output, |cut|);
    WordsOfPrefix(cut, |Trimmed(cut)|);
    ScanKeeps(start, name);
    if output != [] { SegmentsEnd(output); }
  }

  // ---------------------------------------------------------------------------------------------
  // Segments
  // ---------------------------------------------------------------------------------------------

  /** How many characters from the start on belong to a segment that has begun. */
  function RunLength(s: seq<Character>): (n: nat)
    ensures n <= |s|
    ensures n < |s| ==> s[n].Other?
    ensures forall i :: 0 <= i < n ==> !s[i].Other?
  {
    if s == [] || s[0].Other? then 0 else 1 + RunLength(s[1..])
  }

  /** The maximal runs that begin with a letter or number and go on with letters, numbers and marks. */
  function Segments(name: seq<Character>): (segments: seq<seq<Character>>)
    ensures forall i :: 0 <= i < |segments| ==> IsSegment(segments[i])
    decreases |name|
  {
    if name == [] then []
    else if name[0].Word? then
      var n := RunLength(name);
      [name[..n]] + Segments(name[n..])
    else Segments(name[1..])
  }

  predicate IsSegment(s: seq<Character>)
  {
    s != [] && s[0].Word? && forall i :: 0 <= i < |s| ==> !s[i].Other?
  }

  function Joined(segments: seq<seq<Character>>): seq<Character>
  {
    if segments == [] then []
    else if |segments| == 1 then segments[0]
    else segments[0] + [HYPHEN] + Joined(segments[1..])
  }

  /** What a scan that is between two segments still puts out. */
  function Appended(output: seq<Character>, segments: seq<seq<Character>>): seq<Character>
  {
    output + (if output != [] && segments != [] then [HYPHEN] else []) + Joined(segments)
  }

  lemma {:induction false} ScanRun(output: seq<Character>, name: seq<Character>, n: nat)
    requires n <= |name| && forall i :: 0 <= i < n ==> !name[i].Other?
    ensures Scan(Progress(output, true, false), name) == Scan(Progress(output + name[..n], true, false), name[n..])
    decreases n
  {
    if n == 0 {
      assert output + name[..0] == output && name[0..] == name;
    } else {
      assert output + [] + [name[0]] == output + [name[0]];
      ScanRun(output + [name[0]], name[1..], n - 1);
      assert output + [name[0]] + name[1..][..n - 1] == output + name[..n] && name[1..][n - 1..] == name[n..];
    }
  }

  function Behind(output: seq<Character>, segment: seq<Character>): seq<Character>
  {
    output + (if output != [] then [HYPHEN] else []) + segment
  }

  /** A scan that is between two segments takes the next one as a whole. */
  lemma ScanSegment(output: seq<Character>, name: seq<Character>)
    requires name != [] && name[0].Word?
    ensures var n := RunLength(name);
      Scan(Progress(output, false, output != []), name) == Scan(Progress(Behind(output, name[..n]), true, false), name[n..])
  {
    var n := RunLength(name);
    var begun := Behind(output, [name[0]]);
    ScanRun(begun, name[1..], n - 1);
    assert begun + name[1..][..n - 1] == Behind(output, name[..n]) && name[1..][n - 1..] == name[n..];
  }

  /** Between two segments there is nothing to put out. */
  lemma ScanGap(output: seq<Character>, rest: seq<Character>)
    requires output != [] && (rest != [] ==> rest[0].Other?)
    ensures Scan(Progress(output, true, false), rest).output == Scan(Progress(output, false, true), rest).output
  {
  }

  /** A scan that is between two segments puts out the remaining ones, each behind one hyphen. */
  lemma {:induction false} ScanJoins(output: seq<Character>, name: seq<Character>)
    ensures Scan(Progress(output, false, output != []), name).output == Appended(output, Segments(name))
    decreases |name|
  {
    hide IsSegment;
    if name == [] {
      assert Appended(output, []) == output;
    } else if name[0].Word? {
      hide Scan, Appended;
      var n := RunLength(name);
      ScanSegment(output, name);
      ScanGap(Behind(output, name[..n]), name[n..]);
      ScanJoins(Behind(output, name[..n]), name[n..]);
      JoinedHead(output, name[..n], Segments(name[n..]));
    } else {
      ScanJoins(output, name[1..]);
    }
  }

  lemma JoinedHead(output: seq<Character>, head: seq<Character>, rest: seq<seq<Character>>)
    requires head != []
    ensures Appended(output, [head] + rest) == Appended(Behind(output, head), rest)
  {
    assert ([head] + rest)[1..] == rest;
    if rest == [] { assert Joined([head]) == head; }
  }

  lemma ScanIsJoined(name: seq<Character>)
    ensures Scan(Progress([], false, false), name).output == Joined(Segments(name))
  {
    hide Scan, Segments, Joined;
    ScanJoins([], name);
    assert [] + [] + Joined(Segments(name)) == Joined(Segments(name));
  }

  /**
    Before the cut the slug is the segments of the name, in order, joined by single hyphens; the cut leaves the
    first 100 code points of that, but for a hyphen at its end.
   */
  lemma SlugIsSegments(name: seq<Character>)
    ensures
      var full, slug := Joined(Segments(name)), ChannelSlugFromName(name);
      if |full| <= CHANNEL_SLUG_MAX_CODE_POINTS then slug == full
      else slug == full[..CHANNEL_SLUG_MAX_CODE_POINTS - (if full[CHANNEL_SLUG_MAX_CODE_POINTS - 1] == HYPHEN then 1 else 0)]
  {
    hide Scan, Segments, Joined, IsSlug, InSegment;
    ScanIsJoined(name);
    ScanKeeps(Progress([], false, false), name);
    var full := Joined(Segments(name));
    if full != [] { SegmentsEnd(full); }
  }

  lemma {:induction false} SegmentsOfJoined(segments: seq<seq<Character>>)
    requires forall i :: 0 <= i < |segments| ==> IsSegment(segments[i])
    ensures Segments(Joined(segments)) == segments
    decreases |segments|
  {
    if segments != [] {
      var head, rest := segments[0], segments[1..];
      SegmentsOfJoined(rest);
      var s := Joined(segments);
      var n := RunLength(s);
      assert forall i :: 0 <= i < |head| ==> s[i] == head[i];
      if |segments| == 1 {
        assert n == |head| && s[n..] == [] && s[..n] == head;
      } else {
        assert s[|head|] == HYPHEN && n == |head|;
        assert s[..n] == head && s[n..][1..] == Joined(rest);
      }
      assert segments == [head] + rest;
    }
  }

  /** So a name that is not cut keeps exactly its segments. */
  lemma SlugKeepsSegments(name: seq<Character>)
    requires |Joined(Segments(name))| <= CHANNEL_SLUG_MAX_CODE_POINTS
    ensures Segments(ChannelSlugFromName(name)) == Segments(name)
  {
    SlugIsSegments(name);
    SegmentsOfJoined(Segments(name));
  }
}
