/** What the two JDBC listeners (OracleQueryInterceptor and
    OracleQueryDebugInterceptor) share apart from their beans and
    constants: the lazy loading of their beans (initializeDependencies), the
    test that decides which statements are analyzed (isAnalyzableQuery),
    the text of the caller's stack they attach to a report
    (getCurrentStackTrace), and the loop of beforeQuery. The stack itself is
    a parameter. */
module Listeners {
  import opened Wrappers
  import opened JavaText

  // ---------------------------------------------------------------------------
  // initializeDependencies

  /** What the application context hands out, in the order the beans are
      asked for: the properties bean, whether the analyzer bean exists, and
      the formatter bean; None or false where getBean throws. */
  datatype Context<P, F> = Context(properties: Option<P>, analyzer: bool, formatter: Option<F>)

  /** What a listener has loaded so far: the properties, whether the
      analyzer reference is set, and the formatter bean (None while the
      reference is null). */
  datatype Setup<P, F> = Setup(properties: Option<P>, analyzer: bool, formatter: Option<F>)

  /** initializeDependencies: while no properties are loaded and a context
      is set, the three beans are fetched in order; the first getBean that
      throws ends the attempt, keeping what was fetched before it. */
  function Initialized<P, F>(s: Setup<P, F>, context: Option<Context<P, F>>): Setup<P, F> {
    if s.properties.Some? || context.None? then s
    else
      var c := context.value;
      if c.properties.None? then s
      else if !c.analyzer then s.(properties := c.properties)
      else if c.formatter.None? then s.(properties := c.properties, analyzer := true)
      else Setup(c.properties, true, c.formatter)
  }

  /** The attempt is made and one of the getBean calls throws: the
      listener logs that loading failed. */
  predicate InitFails<P, F>(s: Setup<P, F>, context: Option<Context<P, F>>) {
    s.properties.None? && context.Some?
    && (context.value.properties.None? || !context.value.analyzer || context.value.formatter.None?)
  }

  /** Loading is attempted until the properties are in; from then on it
      is never repeated, even when a later bean was missing, and never
      fails again. When it does fail, the beans after the failing one stay
      unset. */
  lemma InitializedSettles<P, F>(s: Setup<P, F>, context: Option<Context<P, F>>)
    requires context.Some? && context.value.properties.Some?
    ensures var s' := Initialized(s, context);
            && s'.properties.Some?
            && Initialized(s', context) == s' && !InitFails(s', context)
            && (s.properties.None? ==> s'.properties == context.value.properties)
            && (s.properties.None? && !context.value.analyzer ==> s' == s.(properties := context.value.properties))
  {
  }

  // ---------------------------------------------------------------------------
  // isAnalyzableQuery

  /** The statement kinds that are analyzed. */
  const Verbs: seq<string> := ["SELECT", "INSERT", "UPDATE", "DELETE"]

  /** `s` starts with one of `prefixes`, tried in order. */
  predicate StartsWithAny(s: string, prefixes: seq<string>) {
    prefixes != [] && (StartsWith(s, prefixes[0]) || StartsWithAny(s, prefixes[1..]))
  }

  /** isAnalyzableQuery: the trimmed, upper-cased text starts with SELECT,
      INSERT, UPDATE or DELETE. A prefix test, not a word test. */
  predicate IsAnalyzableQuery(query: string) {
    StartsWithAny(ToUpper(Trim(query)), Verbs)
  }

  /** Trying the prefixes in order finds one exactly when one of them is a
      prefix. */
  lemma {:induction false} StartsWithAnyMember(s: string, prefixes: seq<string>)
    ensures StartsWithAny(s, prefixes) <==> exists p :: p in prefixes && StartsWith(s, p)
  {
    if prefixes != [] {
      StartsWithAnyMember(s, prefixes[1..]);
      forall p | p in prefixes ensures p == prefixes[0] || p in prefixes[1..] {
        var k :| 0 <= k < |prefixes| && prefixes[k] == p;
        if k > 0 {
          assert prefixes[1..][k - 1] == p;
        }
      }
    }
  }

  lemma ToUpperIdempotent(s: string)
    ensures ToUpper(ToUpper(s)) == ToUpper(s)
  {
  }

  /** The verdict ignores ASCII case. */
  lemma AnalyzableIgnoresCase(query: string)
    ensures IsAnalyzableQuery(ToUpper(query)) == IsAnalyzableQuery(query)
  {
    ToUpperTrimCommute(ToUpper(query));
    ToUpperTrimCommute(query);
    ToUpperIdempotent(query);
  }

  /** The verdict ignores leading blanks and control characters. */
  lemma AnalyzableIgnoresLeadingBlanks(pre: string, query: string)
    requires IsBlank(pre)
    ensures IsAnalyzableQuery(pre + query) == IsAnalyzableQuery(query)
  {
    TrimLeftBlankPrefix(pre, query);
  }

  /** The whole rule: once the leading blanks are skipped, a statement is
      analyzed exactly when its first six characters spell one of the four
      verbs, ignoring case, whatever follows them (so "SELECTED" and
      "deleteAll" qualify as well). */
  lemma {:induction false} AnalyzableByFirstSix(pre: string, w: string, rest: string)
    requires IsBlank(pre) && |w| == 6 && !IsTrimmable(w[0])
    ensures IsAnalyzableQuery(pre + w + rest) <==> ToUpper(w) in Verbs
  {
    var u := TrimRight(w + rest);
    TrimOfLeadingWord(pre, w, rest);
    UpperPrefix(u, w, rest);
    if ToUpper(w) in Verbs {
      VerbHasNoBlank(w);
      assert !IsTrimmable((w + rest)[5]);
    }
    VerbPrefix(ToUpper(u));
  }

  /** As every verb has six letters, the test is one of the text's first
      six characters. */
  lemma VerbPrefix(upper: string)
    ensures StartsWithAny(upper, Verbs) <==> |upper| >= 6 && upper[..6] in Verbs
  {
    StartsWithAnyMember(upper, Verbs);
    forall v | v in Verbs ensures |v| == 6 {
    }
  }

  /** Skipping the blanks before a statement's first character. */
  lemma TrimOfLeadingWord(pre: string, w: string, rest: string)
    requires IsBlank(pre) && w != [] && !IsTrimmable(w[0])
    ensures Trim(pre + w + rest) == TrimRight(w + rest)
  {
    assert pre + w + rest == pre + (w + rest);
    TrimLeftBlankPrefix(pre, w + rest);
    assert (w + rest)[0] == w[0];
    TrimLeftUnchanged(w + rest);
  }

  /** A statement that reads as a verb, ignoring case, ends in a letter. */
  lemma VerbHasNoBlank(w: string)
    requires |w| == 6 && ToUpper(w) in Verbs
    ensures !IsTrimmable(w[5])
  {
    assert ToUpper(w)[5] == 'T' || ToUpper(w)[5] == 'E';
  }

  /** The first six characters of the trimmed, upper-cased text are those
      of the statement's first six, upper-cased. */
  lemma UpperPrefix(u: string, w: string, rest: string)
    requires |w| == 6 && |u| <= |w| + |rest| && u == (w + rest)[..|u|]
    ensures |u| >= 6 ==> ToUpper(u)[..6] == ToUpper(w)
  {
    if |u| >= 6 {
      forall k | 0 <= k < 6 ensures ToUpper(u)[k] == ToUpper(w)[k] {
        assert u[k] == (w + rest)[k] == w[k];
      }
    }
  }

  // ---------------------------------------------------------------------------
  // getCurrentStackTrace

  /** A StackTraceElement: the name of its class and its toString() text. */
  datatype Frame = Frame(className: string, text: string)

  /** The line appended for a frame that is kept. */
  function FrameLine(f: Frame): string {
    "  at " + f.text + "\n"
  }

  /** The frames the loop visits: indices 4 up to (excluding)
      min(length, limit); the first four are the listener's own calls. */
  function Window(frames: seq<Frame>, limit: nat): (w: seq<Frame>)
    ensures |w| <= |frames| && (limit >= 4 ==> |w| <= limit - 4)
    ensures forall k :: 0 <= k < |w| ==> k + 4 < |frames| && w[k] == frames[k + 4]
  {
    var end := if |frames| < limit then |frames| else limit;
    if end <= 4 then [] else frames[4..end]
  }

  /** A frame is kept when its class name contains none of the markers. */
  predicate Kept(f: Frame, markers: seq<string>) {
    forall m | m in markers :: !Contains(f.className, m)
  }

  /** The frames of `fs` that are kept, in their order. */
  function KeptFrames(fs: seq<Frame>, markers: seq<string>): (r: seq<Frame>)
    ensures |r| <= |fs|
  {
    if fs == [] then []
    else KeptFrames(fs[..|fs| - 1], markers)
         + (if Kept(fs[|fs| - 1], markers) then [fs[|fs| - 1]] else [])
  }

  /** What getCurrentStackTrace returns for the stack `frames`. */
  function StackText(frames: seq<Frame>, limit: nat, markers: seq<string>): string {
    Concat(KeptFrames(Window(frames, limit), markers), FrameLine)
  }

  /** getCurrentStackTrace, for a listener that looks at the frames below
      `limit` and drops those whose class name contains one of `markers`. */
  method CurrentStackTrace(frames: seq<Frame>, limit: nat, markers: seq<string>)
    returns (text: string)
    ensures text == StackText(frames, limit, markers)
  {
    var end := if |frames| < limit then |frames| else limit;
    text := "";
    if end <= 4 {
      return;
    }
    var i := 4;
    while i < end
      invariant 4 <= i <= end
      invariant text == Concat(KeptFrames(frames[4..i], markers), FrameLine)
    {
      var element := frames[i];
      KeptFramesSnoc(frames, 4, i, markers);
      if Kept(element, markers) {
        text := Append(text, KeptFrames(frames[4..i], markers), element, FrameLine);
      } else {
        assert KeptFrames(frames[4..i], markers) + [] == KeptFrames(frames[4..i], markers);
      }
      i := i + 1;
    }
  }

  /** One more frame visited. */
  lemma KeptFramesSnoc(frames: seq<Frame>, lo: nat, i: nat, markers: seq<string>)
    requires lo <= i < |frames|
    ensures KeptFrames(frames[lo..i + 1], markers)
            == KeptFrames(frames[lo..i], markers) + (if Kept(frames[i], markers) then [frames[i]] else [])
  {
    var next := frames[lo..i + 1];
    assert next[..|next| - 1] == frames[lo..i];
  }

  /** Filtering distributes over concatenation: the kept frames keep the
      order of the stack. */
  lemma {:induction false} KeptFramesAppend(a: seq<Frame>, b: seq<Frame>, markers: seq<string>)
    ensures KeptFrames(a + b, markers) == KeptFrames(a, markers) + KeptFrames(b, markers)
    decreases |b|
  {
    if b == [] {
      assert a + b == a;
    } else {
      var b' := b[..|b| - 1];
      assert (a + b)[..|a + b| - 1] == a + b';
      KeptFramesAppend(a, b', markers);
    }
  }

  /** A frame is kept exactly when it passes the filter and one of its
      occurrences is visited. */
  lemma {:induction false} KeptFramesMembers(fs: seq<Frame>, markers: seq<string>, f: Frame)
    ensures f in KeptFrames(fs, markers) <==> f in fs && Kept(f, markers)
    decreases |fs|
  {
    if fs != [] {
      var init := fs[..|fs| - 1];
      KeptFramesMembers(init, markers, f);
      assert fs == init + [fs[|fs| - 1]];
    }
  }

  /** The stack text names exactly the frames at positions 4 up to
      min(length, limit) whose class carries no marker, one line each, in
      stack order: a line for each kept frame before the lines of the kept
      frames deeper in the stack. */
  lemma StackTextLines(frames: seq<Frame>, limit: nat, markers: seq<string>, f: Frame)
    ensures f in KeptFrames(Window(frames, limit), markers) <==>
              Kept(f, markers) && exists i :: 4 <= i < |frames| && i < limit && frames[i] == f
    ensures limit >= 4 ==> |KeptFrames(Window(frames, limit), markers)| <= limit - 4
    ensures StackText(frames, limit, markers) == [] <==> KeptFrames(Window(frames, limit), markers) == []
  {
    var w := Window(frames, limit);
    KeptFramesMembers(w, markers, f);
    if f in w {
      var k :| 0 <= k < |w| && w[k] == f;
      assert frames[k + 4] == f;
    }
    if exists i :: 4 <= i < |frames| && i < limit && frames[i] == f {
      var i :| 4 <= i < |frames| && i < limit && frames[i] == f;
      assert w[i - 4] == f;
    }
    var kept := KeptFrames(w, markers);
    if kept != [] {
      assert kept == kept[..|kept| - 1] + [kept[|kept| - 1]];
      ConcatSnoc(kept[..|kept| - 1], kept[|kept| - 1], FrameLine);
    }
  }

  /** A frame deeper in the window than another kept one comes after it in
      the text: splitting the window splits the text. */
  lemma StackTextSplits(frames: seq<Frame>, limit: nat, markers: seq<string>, j: nat)
    requires j <= |Window(frames, limit)|
    ensures var w := Window(frames, limit);
            StackText(frames, limit, markers)
            == Concat(KeptFrames(w[..j], markers), FrameLine) + Concat(KeptFrames(w[j..], markers), FrameLine)
  {
    var w := Window(frames, limit);
    assert w == w[..j] + w[j..];
    KeptFramesAppend(w[..j], w[j..], markers);
    ConcatAppend(KeptFrames(w[..j], markers), KeptFrames(w[j..], markers), FrameLine);
  }

  // ---------------------------------------------------------------------------
  // beforeQuery's loop, the same in both listeners

  /** How many statements of a batch pass the filter. */
  function Selected(queries: seq<string>, select: string -> bool): (n: nat)
    ensures n <= |queries|
  {
    if queries == [] then 0
    else Selected(queries[..|queries| - 1], select) + (if select(queries[|queries| - 1]) then 1 else 0)
  }

  /** beforeQuery's loop over a batch: the statements in order, each one
      the filter `select` lets through (both listeners use
      IsAnalyzableQuery) handed to `handle`, which catches what it throws,
      together with what the listener sees while handling the k-th
      statement, env(k); the others are skipped. */
  function Batch<W, E>(w: W, queries: seq<string>, env: nat -> E, select: string -> bool,
                       handle: (W, string, E) -> W): W
    decreases |queries|
  {
    if queries == [] then w
    else
      var n := |queries| - 1;
      var before := Batch(w, queries[..n], env, select, handle);
      if select(queries[n]) then handle(before, queries[n], env(n)) else before
  }

  /** One more statement. */
  lemma BatchSnoc<W, E>(w: W, queries: seq<string>, env: nat -> E, select: string -> bool,
                        handle: (W, string, E) -> W, i: nat)
    requires i < |queries|
    ensures Batch(w, queries[..i + 1], env, select, handle)
            == if select(queries[i]) then handle(Batch(w, queries[..i], env, select, handle), queries[i], env(i))
               else Batch(w, queries[..i], env, select, handle)
  {
    assert queries[..i + 1][..i] == queries[..i];
  }

  /** A statement that fails does not stop the batch: the statements after
      the first part are handled exactly as a batch of their own would be. */
  lemma {:induction false} BatchAppend<W, E>(w: W, a: seq<string>, b: seq<string>, env: nat -> E,
                                             select: string -> bool, handle: (W, string, E) -> W)
    ensures Batch(w, a + b, env, select, handle)
            == Batch(Batch(w, a, env, select, handle), b, (k: nat) => env(|a| + k), select, handle)
    decreases |b|
  {
    var shifted := (k: nat) => env(|a| + k);
    if b == [] {
      assert a + b == a;
    } else {
      var n := |b| - 1;
      BatchAppend(w, a, b[..n], env, select, handle);
      assert (a + b)[..|a| + n] == a + b[..n];
      assert (a + b)[|a| + n] == b[n];
      assert shifted(n) == env(|a| + n);
    }
  }

  /** Statements the filter rejects are left alone: a batch of them
      changes nothing. */
  lemma {:induction false} BatchSkips<W, E>(w: W, queries: seq<string>, env: nat -> E,
                                            select: string -> bool, handle: (W, string, E) -> W)
    requires forall k :: 0 <= k < |queries| ==> !select(queries[k])
    ensures Batch(w, queries, env, select, handle) == w
    ensures Selected(queries, select) == 0
    decreases |queries|
  {
    if queries != [] {
      BatchSkips(w, queries[..|queries| - 1], env, select, handle);
    }
  }

  /** A property every handled statement keeps holds after the batch. */
  lemma {:induction false} BatchKeeps<W, E>(w: W, queries: seq<string>, env: nat -> E, select: string -> bool,
                                            handle: (W, string, E) -> W, inv: W -> bool)
    requires inv(w)
    requires forall k, v :: 0 <= k < |queries| && inv(v) ==> inv(handle(v, queries[k], env(k)))
    ensures inv(Batch(w, queries, env, select, handle))
    decreases |queries|
  {
    if queries != [] {
      var n := |queries| - 1;
      BatchKeeps(w, queries[..n], env, select, handle, inv);
    }
  }

  /** When every statement is handled by the same step, the batch takes
      that step once per selected statement. */
  lemma {:induction false} BatchRepeats<W, E>(w: W, queries: seq<string>, env: nat -> E, select: string -> bool,
                                              handle: (W, string, E) -> W, step: W -> W)
    requires forall k, v :: 0 <= k < |queries| ==> handle(v, queries[k], env(k)) == step(v)
    ensures Batch(w, queries, env, select, handle) == Steps(w, step, Selected(queries, select))
    decreases |queries|
  {
    if queries != [] {
      var n := |queries| - 1;
      BatchRepeats(w, queries[..n], env, select, handle, step);
    }
  }

  /** `step` taken n times. */
  function Steps<W>(w: W, step: W -> W, n: nat): W {
    if n == 0 then w else step(Steps(w, step, n - 1))
  }
}
