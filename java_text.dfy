/** The java.lang.String operations the analyzer relies on, with Java's
    own semantics: trim() strips code points up to U+0020, the regex class
    \s is [ \t\n\x0B\f\r], and split() keeps a leading empty field but drops
    trailing empty ones. */
module JavaText {
  import opened Wrappers

  // ---------------------------------------------------------------------------
  // Character classes

  /** The characters String.trim() removes: every code point <= U+0020. */
  predicate IsTrimmable(c: char) {
    c <= ' '
  }

  /** The regex class \s (without UNICODE_CHARACTER_CLASS). */
  predicate IsSpace(c: char) {
    c == ' ' || c == '\t' || c == '\n' || c == '\U{B}' || c == '\U{C}' || c == '\r'
  }

  predicate IsAsciiLower(c: char) {
    'a' <= c <= 'z'
  }

  predicate IsAsciiDigit(c: char) {
    '0' <= c <= '9'
  }

  /** A word character for the regex boundary \b: [A-Za-z0-9_]. */
  predicate IsWordChar(c: char) {
    'a' <= c <= 'z' || 'A' <= c <= 'Z' || IsAsciiDigit(c) || c == '_'
  }

  function UpperChar(c: char): (u: char)
    ensures IsAsciiLower(c) ==> u as int == c as int - 32
    ensures !IsAsciiLower(c) ==> u == c
  {
    if IsAsciiLower(c) then (c as int - 32) as char else c
  }

  // ---------------------------------------------------------------------------
  // trim(), isEmpty() after trim

  /** Removes the leading trimmable characters. */
  function TrimLeft(s: string): (r: string)
    ensures |r| <= |s| && r == s[|s| - |r|..]
    ensures r == [] || !IsTrimmable(r[0])
    ensures forall i :: 0 <= i < |s| - |r| ==> IsTrimmable(s[i])
  {
    if s != [] && IsTrimmable(s[0]) then TrimLeft(s[1..]) else s
  }

  /** Removes the trailing trimmable characters. */
  function TrimRight(s: string): (r: string)
    ensures |r| <= |s| && r == s[..|r|]
    ensures r == [] || !IsTrimmable(r[|r| - 1])
    ensures forall i :: |r| <= i < |s| ==> IsTrimmable(s[i])
  {
    if s != [] && IsTrimmable(s[|s| - 1]) then TrimRight(s[..|s| - 1]) else s
  }

  /** A string that trim() leaves unchanged. */
  predicate TrimStable(s: string) {
    s == [] || (!IsTrimmable(s[0]) && !IsTrimmable(s[|s| - 1]))
  }

  /** String.trim(). */
  function Trim(s: string): (r: string)
    ensures TrimStable(r)
    ensures |r| <= |s|
  {
    TrimRight(TrimLeft(s))
  }

  /** `s.trim().isEmpty()`. */
  predicate IsBlank(s: string) {
    forall i :: 0 <= i < |s| ==> IsTrimmable(s[i])
  }

  lemma {:induction false} TrimOfStable(s: string)
    requires TrimStable(s)
    ensures Trim(s) == s
  {
  }

  lemma {:induction false} TrimEmptyIffBlank(s: string)
    ensures Trim(s) == [] <==> IsBlank(s)
  {
    var l := TrimLeft(s);
    if Trim(s) == [] {
      assert TrimRight(l) == [];
      assert l == [];
    }
  }

  /** Trimming a padded trim-stable string gives that string back. */
  lemma {:induction false} TrimPadded(pre: string, x: string, post: string)
    requires IsBlank(pre) && IsBlank(post) && TrimStable(x)
    ensures Trim(pre + x + post) == x
  {
    var s := pre + x + post;
    assert s == pre + (x + post);
    TrimLeftBlankPrefix(pre, x + post);
    if x == [] {
      assert x + post == post;
      TrimLeftBlank(post);
      assert TrimLeft(s) == [];
    } else {
      assert (x + post)[0] == x[0];
      TrimLeftUnchanged(x + post);
      assert TrimLeft(s) == x + post;
      TrimRightBlankSuffix(x, post);
    }
  }

  lemma {:induction false} TrimLeftUnchanged(s: string)
    requires s == [] || !IsTrimmable(s[0])
    ensures TrimLeft(s) == s
  {
  }

  lemma {:induction false} TrimLeftBlankPrefix(pre: string, s: string)
    requires IsBlank(pre)
    ensures TrimLeft(pre + s) == TrimLeft(s)
  {
    if pre != [] {
      assert (pre + s)[0] == pre[0];
      assert (pre + s)[1..] == pre[1..] + s;
      TrimLeftBlankPrefix(pre[1..], s);
    } else {
      assert pre + s == s;
    }
  }

  lemma TrimLeftBlank(s: string)
    requires IsBlank(s)
    ensures TrimLeft(s) == []
  {
  }

  lemma {:induction false} TrimRightBlankSuffix(x: string, post: string)
    requires IsBlank(post) && (x == [] || !IsTrimmable(x[|x| - 1]))
    ensures TrimRight(x + post) == x
  {
    if post == [] {
      assert x + post == x;
    } else {
      assert (x + post)[..|x + post| - 1] == x + post[..|post| - 1];
      TrimRightBlankSuffix(x, post[..|post| - 1]);
    }
  }

  // ---------------------------------------------------------------------------
  // toUpperCase(), startsWith(), endsWith(), contains()

  /** String.toUpperCase() restricted to ASCII letters. */
  function ToUpper(s: string): (r: string)
    ensures |r| == |s|
    ensures forall i :: 0 <= i < |s| ==> r[i] == UpperChar(s[i])
  {
    if s == [] then [] else [UpperChar(s[0])] + ToUpper(s[1..])
  }

  lemma {:induction false} ToUpperNoLower(s: string)
    requires forall i :: 0 <= i < |s| ==> !IsAsciiLower(s[i])
    ensures ToUpper(s) == s
  {
  }

  lemma {:induction false} ToUpperConcat(a: string, b: string)
    ensures ToUpper(a + b) == ToUpper(a) + ToUpper(b)
  {
    if a != [] {
      assert (a + b)[1..] == a[1..] + b;
      ToUpperConcat(a[1..], b);
    }
  }

  lemma {:induction false} ToUpperTrimCommute(s: string)
    ensures ToUpper(Trim(s)) == Trim(ToUpper(s))
  {
    TrimLeftUpper(s);
    TrimRightUpper(TrimLeft(s));
  }

  lemma {:induction false} TrimLeftUpper(s: string)
    ensures ToUpper(TrimLeft(s)) == TrimLeft(ToUpper(s))
  {
    var u := ToUpper(s);
    if s != [] {
      assert IsTrimmable(u[0]) <==> IsTrimmable(s[0]);
      assert u[1..] == ToUpper(s[1..]);
      if IsTrimmable(s[0]) {
        TrimLeftUpper(s[1..]);
      }
    }
  }

  lemma {:induction false} TrimRightUpper(s: string)
    ensures ToUpper(TrimRight(s)) == TrimRight(ToUpper(s))
  {
    var u := ToUpper(s);
    if s != [] {
      assert IsTrimmable(u[|s| - 1]) <==> IsTrimmable(s[|s| - 1]);
      assert u[..|s| - 1] == ToUpper(s[..|s| - 1]);
      if IsTrimmable(s[|s| - 1]) {
        TrimRightUpper(s[..|s| - 1]);
      }
    }
  }

  /** String.valueOf(Object), as string concatenation applies it: a null
      reference reads "null". */
  function ValueOf(o: Option<string>): string {
    match o
    case Some(s) => s
    case None => "null"
  }

  predicate StartsWith(s: string, prefix: string) {
    |prefix| <= |s| && s[..|prefix|] == prefix
  }

  /** String.contains(sub): `sub` occurs somewhere in `s`. */
  predicate Contains(s: string, sub: string)
    decreases |s|
  {
    StartsWith(s, sub) || (s != [] && Contains(s[1..], sub))
  }

  lemma {:induction false} ContainsAt(s: string, sub: string, k: nat)
    requires k + |sub| <= |s| && s[k..k + |sub|] == sub
    ensures Contains(s, sub)
  {
    if k > 0 {
      assert s[1..][k - 1..k - 1 + |sub|] == sub;
      ContainsAt(s[1..], sub, k - 1);
    }
  }

  lemma {:induction false} ContainsWitness(s: string, sub: string) returns (k: nat)
    requires Contains(s, sub)
    ensures k + |sub| <= |s| && s[k..k + |sub|] == sub
  {
    if StartsWith(s, sub) {
      k := 0;
    } else {
      var j := ContainsWitness(s[1..], sub);
      k := j + 1;
      assert s[k..k + |sub|] == s[1..][j..j + |sub|];
    }
  }

  /** `s.replaceAll(quote(c), "")`: every occurrence of `c` removed. */
  function RemoveAll(s: string, c: char): (r: string)
    ensures c !in r
    ensures |r| <= |s|
    ensures c !in s ==> r == s
  {
    if s == [] then []
    else if s[0] == c then RemoveAll(s[1..], c)
    else [s[0]] + RemoveAll(s[1..], c)
  }

  lemma {:induction false} RemoveAllConcat(a: string, b: string, c: char)
    ensures RemoveAll(a + b, c) == RemoveAll(a, c) + RemoveAll(b, c)
  {
    if a != [] {
      assert (a + b)[0] == a[0];
      assert (a + b)[1..] == a[1..] + b;
      RemoveAllConcat(a[1..], b, c);
    } else {
      assert a + b == b;
    }
  }

  /** The lists f(x) for the x of `v`, one after another, in order: for
      texts, what a StringBuilder holds after appending f(x) for each x. */
  function Concat<T, U>(v: seq<T>, f: T -> seq<U>): seq<U> {
    if v == [] then [] else Concat(v[..|v| - 1], f) + f(v[|v| - 1])
  }

  lemma {:induction false} ConcatAppend<T, U>(a: seq<T>, b: seq<T>, f: T -> seq<U>)
    ensures Concat(a + b, f) == Concat(a, f) + Concat(b, f)
    decreases |b|
  {
    if b == [] {
      assert a + b == a;
    } else {
      var b0 := b[..|b| - 1];
      ConcatAppend(a, b0, f);
      assert (a + b)[..|a + b| - 1] == a + b0;
    }
  }

  /** Appending one more text. */
  lemma ConcatSnoc<T, U>(v: seq<T>, x: T, f: T -> seq<U>)
    ensures Concat(v + [x], f) == Concat(v, f) + f(x)
  {
    assert (v + [x])[..|v|] == v;
  }

  /** StringBuilder.append(f(x)) on a builder holding the texts of `v`. */
  method Append<T>(sb: string, ghost v: seq<T>, x: T, f: T -> string) returns (out: string)
    requires sb == Concat(v, f)
    ensures out == Concat(v + [x], f)
  {
    ConcatSnoc(v, x, f);
    out := sb + f(x);
  }

  /** When no element prints as nothing, only the empty list does. */
  lemma {:induction false} ConcatEmpty<T, U>(v: seq<T>, f: T -> seq<U>)
    requires forall x :: f(x) != []
    ensures Concat(v, f) == [] <==> v == []
  {
    if v != [] {
      assert |Concat(v, f)| >= |f(v[|v| - 1])| > 0;
    }
  }

  /** When each element gives at most one item, there are no more items
      than elements. */
  lemma {:induction false} ConcatShort<T, U>(v: seq<T>, f: T -> seq<U>)
    requires forall x :: |f(x)| <= 1
    ensures |Concat(v, f)| <= |v|
    decreases |v|
  {
    if v != [] {
      ConcatShort(v[..|v| - 1], f);
    }
  }

  /** "c".repeat(n). */
  function Repeat(c: char, n: nat): (r: string)
    ensures |r| == n
    ensures forall i :: 0 <= i < n ==> r[i] == c
  {
    seq(n, _ => c)
  }

  // ---------------------------------------------------------------------------
  // split()

  /** Every field of `s` between occurrences of the delimiter `c`,
      including empty ones: one more field than there are delimiters. */
  function Fields(s: string, c: char): (r: seq<string>)
    ensures |r| >= 1
    decreases |s|
  {
    if s == [] then [""]
    else
      var rest := Fields(s[1..], c);
      if s[0] == c then [""] + rest else [[s[0]] + rest[0]] + rest[1..]
  }

  /** The fields joined back with the delimiter between them. */
  function Join(fs: seq<string>, c: char): string
    decreases |fs|
  {
    if fs == [] then ""
    else if |fs| == 1 then fs[0]
    else fs[0] + [c] + Join(fs[1..], c)
  }

  /** Splitting and joining again gives the original string back, and no
      field holds the delimiter. */
  lemma {:induction false} JoinFields(s: string, c: char)
    ensures Join(Fields(s, c), c) == s
    ensures forall k :: 0 <= k < |Fields(s, c)| ==> c !in Fields(s, c)[k]
  {
    JoinOfFields(s, c);
    FieldsOmitDelimiter(s, c);
  }

  lemma {:induction false} JoinOfFields(s: string, c: char)
    ensures Join(Fields(s, c), c) == s
  {
    if s != [] {
      var rest := Fields(s[1..], c);
      JoinOfFields(s[1..], c);
      var fs := Fields(s, c);
      if s[0] == c {
        assert fs == [""] + rest;
        assert fs[1..] == rest;
        assert Join(fs, c) == "" + [c] + Join(rest, c);
      } else {
        assert fs == [[s[0]] + rest[0]] + rest[1..];
        if |rest| == 1 {
          assert Join(fs, c) == [s[0]] + rest[0];
        } else {
          assert fs[1..] == rest[1..];
          assert Join(rest, c) == rest[0] + [c] + Join(rest[1..], c);
          assert Join(fs, c) == ([s[0]] + rest[0]) + [c] + Join(rest[1..], c);
        }
      }
      assert s == [s[0]] + s[1..];
    }
  }

  lemma {:induction false} FieldsOmitDelimiter(s: string, c: char)
    ensures forall k :: 0 <= k < |Fields(s, c)| ==> c !in Fields(s, c)[k]
  {
    if s != [] {
      var rest := Fields(s[1..], c);
      FieldsOmitDelimiter(s[1..], c);
      var fs := Fields(s, c);
      if s[0] == c {
        assert fs == [""] + rest;
      } else {
        assert fs == [[s[0]] + rest[0]] + rest[1..];
        assert c !in [s[0]] + rest[0];
        forall k | 1 <= k < |fs| ensures c !in fs[k] {
          assert fs[k] == rest[k];
        }
      }
    }
  }

  lemma {:induction false} FieldsNoDelimiter(s: string, c: char)
    requires c !in s
    ensures Fields(s, c) == [s]
  {
    if s != [] {
      FieldsNoDelimiter(s[1..], c);
      assert [s[0]] + s[1..] == s;
    }
  }

  lemma {:induction false} FieldsAfterDelimiter(a: string, c: char, b: string)
    requires c !in a
    ensures Fields(a + [c] + b, c) == [a] + Fields(b, c)
  {
    if a == [] {
      assert a + [c] + b == [c] + b;
      assert ([c] + b)[1..] == b;
    } else {
      assert (a + [c] + b)[1..] == a[1..] + [c] + b;
      FieldsAfterDelimiter(a[1..], c, b);
      assert [a[0]] + a[1..] == a;
    }
  }

  /** Joining delimiter-free fields and splitting again gives the fields back. */
  lemma {:induction false} FieldsOfJoin(fs: seq<string>, c: char)
    requires |fs| >= 1
    requires forall k :: 0 <= k < |fs| ==> c !in fs[k]
    ensures Fields(Join(fs, c), c) == fs
  {
    if |fs| == 1 {
      FieldsNoDelimiter(fs[0], c);
    } else {
      FieldsOfJoin(fs[1..], c);
      FieldsAfterDelimiter(fs[0], c, Join(fs[1..], c));
      assert [fs[0]] + fs[1..] == fs;
    }
  }

  /** Drops the trailing empty strings of `fs`. */
  function DropTrailingEmpty(fs: seq<string>): (r: seq<string>)
    ensures |r| <= |fs| && r == fs[..|r|]
    ensures r == [] || r[|r| - 1] != ""
    ensures forall k :: |r| <= k < |fs| ==> fs[k] == ""
  {
    if fs != [] && fs[|fs| - 1] == "" then DropTrailingEmpty(fs[..|fs| - 1]) else fs
  }

  /** `s.split(quote(c))` with Java's limit-0 semantics: with no delimiter
      the result is the string itself; otherwise the fields, a leading empty
      field kept, every trailing empty field dropped. */
  function JavaSplit(s: string, c: char): (r: seq<string>)
    ensures c !in s ==> r == [s]
    ensures c in s ==> r == DropTrailingEmpty(Fields(s, c))
  {
    if c !in s then [s] else DropTrailingEmpty(Fields(s, c))
  }

  /** The fields that split() returns are exactly the leading fields of
      Fields(s, c); the ones it drops are all empty. */
  lemma {:induction false} JavaSplitPrefix(s: string, c: char)
    requires c in s
    ensures |JavaSplit(s, c)| <= |Fields(s, c)|
    ensures JavaSplit(s, c) == Fields(s, c)[..|JavaSplit(s, c)|]
    ensures forall k :: |JavaSplit(s, c)| <= k < |Fields(s, c)| ==> Fields(s, c)[k] == ""
  {
  }

  /** Splitting a line built from delimiter-free fields whose last field is
      non-empty gives exactly those fields. */
  lemma {:induction false} JavaSplitOfJoin(fs: seq<string>, c: char)
    requires |fs| >= 2 && fs[|fs| - 1] != ""
    requires forall k :: 0 <= k < |fs| ==> c !in fs[k]
    ensures JavaSplit(Join(fs, c), c) == fs
  {
    FieldsOfJoin(fs, c);
    assert Join(fs, c) == fs[0] + [c] + Join(fs[1..], c);
    assert c in Join(fs, c) by {
      assert Join(fs, c)[|fs[0]|] == c;
    }
  }

  /** The same for a line that ends with the delimiter: the empty field
      after it is dropped. */
  lemma {:induction false} JavaSplitOfJoinTrailing(fs: seq<string>, c: char)
    requires |fs| >= 2 && fs[|fs| - 1] != ""
    requires forall k :: 0 <= k < |fs| ==> c !in fs[k]
    ensures JavaSplit(Join(fs + [""], c), c) == fs
  {
    var gs := fs + [""];
    FieldsOfJoin(gs, c);
    assert Join(gs, c) == gs[0] + [c] + Join(gs[1..], c);
    assert c in Join(gs, c) by {
      assert Join(gs, c)[|gs[0]|] == c;
    }
    assert gs[..|gs| - 1] == fs;
  }

  // ---------------------------------------------------------------------------
  // split("\\s+")[0] and replaceAll("\\s+", " ")

  /** The longest prefix of `s` holding no \s character: the first element
      of `s.split("\\s+")` when `s` does not start with one. */
  function FirstToken(s: string): (r: string)
    ensures |r| <= |s| && r == s[..|r|]
    ensures forall i :: 0 <= i < |r| ==> !IsSpace(r[i])
    ensures |r| < |s| ==> IsSpace(s[|r|])
  {
    if s == [] || IsSpace(s[0]) then [] else [s[0]] + FirstToken(s[1..])
  }

  /** The first token of a \s-free word followed by a \s character (or by
      nothing) is that word. */
  lemma {:induction false} FirstTokenConcat(a: string, b: string)
    requires forall i :: 0 <= i < |a| ==> !IsSpace(a[i])
    requires b == [] || IsSpace(b[0])
    ensures FirstToken(a + b) == a
  {
    if a == [] {
      assert a + b == b;
    } else {
      assert (a + b)[0] == a[0];
      assert (a + b)[1..] == a[1..] + b;
      FirstTokenConcat(a[1..], b);
      assert [a[0]] + a[1..] == a;
    }
  }

  /** Drops the leading run of \s characters. */
  function SkipSpaces(s: string): (r: string)
    ensures |r| <= |s| && r == s[|s| - |r|..]
    ensures r == [] || !IsSpace(r[0])
    ensures forall i :: 0 <= i < |s| - |r| ==> IsSpace(s[i])
  {
    if s != [] && IsSpace(s[0]) then SkipSpaces(s[1..]) else s
  }

  /** No \s character other than a plain space, and no two \s characters
      next to each other. */
  predicate SingleSpaced(s: string) {
    && (forall i :: 0 <= i < |s| && IsSpace(s[i]) ==> s[i] == ' ')
    && (forall i :: 0 <= i < |s| - 1 ==> !(IsSpace(s[i]) && IsSpace(s[i + 1])))
  }

  /** `s.replaceAll("\\s+", " ")`: each maximal run of \s characters becomes
      one space. */
  function CollapseSpaces(s: string): (r: string)
    ensures SingleSpaced(r)
    ensures r != [] && s != [] ==> (IsSpace(r[0]) <==> IsSpace(s[0]))
    ensures r == [] <==> s == []
    decreases |s|
  {
    if s == [] then []
    else if IsSpace(s[0]) then
      var rest := SkipSpaces(s);
      [' '] + CollapseSpaces(rest)
    else [s[0]] + CollapseSpaces(s[1..])
  }

  lemma {:induction false} SingleSpacedInfix(s: string, i: nat, j: nat)
    requires i <= j <= |s| && SingleSpaced(s)
    ensures SingleSpaced(s[i..j])
  {
    var t := s[i..j];
    forall k | 0 <= k < |t| - 1 ensures !(IsSpace(t[k]) && IsSpace(t[k + 1])) {
      assert t[k] == s[i + k] && t[k + 1] == s[i + k + 1];
    }
  }

  lemma {:induction false} TrimKeepsSingleSpaced(s: string)
    requires SingleSpaced(s)
    ensures SingleSpaced(Trim(s))
  {
    var l := TrimLeft(s);
    SingleSpacedInfix(s, |s| - |l|, |s|);
    SingleSpacedInfix(l, 0, |TrimRight(l)|);
  }

  // ---------------------------------------------------------------------------
  // The visible characters of a string

  /** The characters above U+0020, in order: what neither trimming nor
      whitespace normalisation can change. */
  function Visible(s: string): (r: string)
    ensures |r| <= |s|
  {
    if s == [] then []
    else if IsTrimmable(s[0]) then Visible(s[1..])
    else [s[0]] + Visible(s[1..])
  }

  lemma {:induction false} VisibleConcat(a: string, b: string)
    ensures Visible(a + b) == Visible(a) + Visible(b)
  {
    if a != [] {
      assert (a + b)[0] == a[0];
      assert (a + b)[1..] == a[1..] + b;
      VisibleConcat(a[1..], b);
    } else {
      assert a + b == b;
    }
  }

  lemma {:induction false} VisibleBlank(s: string)
    requires IsBlank(s)
    ensures Visible(s) == []
  {
    if s != [] {
      VisibleBlank(s[1..]);
    }
  }

  lemma {:induction false} VisibleTrimLeft(s: string)
    ensures Visible(TrimLeft(s)) == Visible(s)
  {
    var l := TrimLeft(s);
    var k := |s| - |l|;
    var pre := s[..k];
    assert s == pre + l;
    assert IsBlank(pre);
    VisibleConcat(pre, l);
    VisibleBlank(pre);
  }

  lemma {:induction false} VisibleTrimRight(s: string)
    ensures Visible(TrimRight(s)) == Visible(s)
  {
    var r := TrimRight(s);
    var post := s[|r|..];
    assert s == r + post;
    assert IsBlank(post);
    VisibleConcat(r, post);
    VisibleBlank(post);
  }

  /** trim() removes no visible character. */
  lemma {:induction false} VisibleTrim(s: string)
    ensures Visible(Trim(s)) == Visible(s)
  {
    VisibleTrimLeft(s);
    VisibleTrimRight(TrimLeft(s));
  }

  lemma {:induction false} VisibleSkipSpaces(s: string)
    ensures Visible(SkipSpaces(s)) == Visible(s)
  {
    if s != [] && IsSpace(s[0]) {
      VisibleSkipSpaces(s[1..]);
    }
  }

  /** Whitespace normalisation removes no visible character. */
  lemma {:induction false} VisibleCollapse(s: string)
    ensures Visible(CollapseSpaces(s)) == Visible(s)
    decreases |s|
  {
    if s != [] {
      if IsSpace(s[0]) {
        var rest := SkipSpaces(s);
        VisibleSkipSpaces(s);
        VisibleCollapse(rest);
        assert Visible([' '] + CollapseSpaces(rest)) == Visible(CollapseSpaces(rest));
      } else {
        VisibleCollapse(s[1..]);
        assert ([s[0]] + CollapseSpaces(s[1..]))[1..] == CollapseSpaces(s[1..]);
      }
    }
  }
}
