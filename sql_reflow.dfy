/** formatQuery, shared word for word by QueryFormatter and
    QueryDebugFormatter: trim; put a line break before every SQL keyword of
    the list below that stands as a whole word (ignoring ASCII case); turn
    every run of \s characters into one space; trim again. */
module SqlReflow {
  import opened JavaText

  /** The alternation of the keyword regex, in the order the alternatives
      are tried. */
  const Keywords: seq<string> :=
    ["SELECT", "FROM", "WHERE", "ORDER BY", "GROUP BY", "HAVING",
     "JOIN", "LEFT JOIN", "RIGHT JOIN", "INNER JOIN"]

  /** `kw` (upper case) occurs at position i of s, ignoring ASCII case. */
  predicate MatchesAt(s: string, i: nat, kw: string) {
    i + |kw| <= |s| && forall k :: 0 <= k < |kw| ==> UpperChar(s[i + k]) == kw[k]
  }

  /** \b after a keyword ending at j: the text ends or a non-word character
      follows. */
  predicate BoundaryAfter(s: string, j: nat) {
    j >= |s| || !IsWordChar(s[j])
  }

  /** \b before position i, where a keyword (which starts with a letter)
      would begin: the text starts there or a non-word character precedes. */
  predicate BoundaryBefore(s: string, i: nat) {
    i == 0 || (i <= |s| && !IsWordChar(s[i - 1]))
  }

  /** The length of the first alternative of `kws` that matches at i and is
      followed by \b, or 0 when none does. */
  function FirstMatch(s: string, i: nat, kws: seq<string>): (n: nat)
    ensures n > 0 ==> i + n <= |s|
  {
    if kws == [] then 0
    else if kws[0] != [] && MatchesAt(s, i, kws[0]) && BoundaryAfter(s, i + |kws[0]|) then |kws[0]|
    else FirstMatch(s, i, kws[1..])
  }

  /** The length of the match of the alternation `kws` at position i, or
      0. */
  function KeywordAt(s: string, i: nat, kws: seq<string>): (n: nat)
    ensures n > 0 ==> i + n <= |s|
  {
    if BoundaryBefore(s, i) then FirstMatch(s, i, kws) else 0
  }

  /** Where scanning resumes after position i: past the keyword matched
      there, or at the next character. */
  function Resume(s: string, i: nat, kws: seq<string>): (j: nat)
    requires i < |s|
    ensures i < j <= |s|
  {
    var n := KeywordAt(s, i, kws);
    if n > 0 then i + n else i + 1
  }

  /** What position i contributes to the output: the matched keyword with a
      line break before it, or the character itself. */
  function Piece(s: string, i: nat, kws: seq<string>): (p: string)
    requires i < |s|
    ensures p == s[i..Resume(s, i, kws)] || p == "\n" + s[i..Resume(s, i, kws)]
  {
    var n := KeywordAt(s, i, kws);
    if n > 0 then "\n" + s[i..i + n] else [s[i]]
  }

  /** replaceAll("(?i)\\b(kws)\\b", "\n$1") from position i on: matches are
      found left to right on the original text and do not overlap. */
  function InsertBreaksFrom(s: string, i: nat, kws: seq<string>): string
    requires i <= |s|
    decreases |s| - i
  {
    if i == |s| then [] else Piece(s, i, kws) + InsertBreaksFrom(s, Resume(s, i, kws), kws)
  }

  function InsertBreaks(s: string): string {
    InsertBreaksFrom(s, 0, Keywords)
  }

  /** formatQuery. */
  function FormatQuery(query: string): string {
    Trim(CollapseSpaces(InsertBreaks(Trim(query))))
  }

  /** One step of the replacement: position i gives a piece that is the
      text up to the resume point j, with or without a line break before it,
      and the rest of the output is that of j. */
  lemma InsertBreaksStep(s: string, i: nat, kws: seq<string>) returns (p: string, j: nat)
    requires i < |s|
    ensures i < j <= |s|
    ensures p == s[i..j] || p == "\n" + s[i..j]
    ensures InsertBreaksFrom(s, i, kws) == p + InsertBreaksFrom(s, j, kws)
    ensures s[i..] == s[i..j] + s[j..]
  {
    j := Resume(s, i, kws);
    p := Piece(s, i, kws);
    assert InsertBreaksFrom(s, i, kws) == p + InsertBreaksFrom(s, j, kws);
    assert s[i..] == s[i..j] + s[j..];
  }

  /** The keyword replacement only adds line breaks: removing every '\n'
      from its output gives the input with its own '\n's removed. */
  lemma {:induction false} InsertBreaksOnlyAddsBreaks(s: string, i: nat, kws: seq<string>)
    requires i <= |s|
    ensures RemoveAll(InsertBreaksFrom(s, i, kws), '\n') == RemoveAll(s[i..], '\n')
    decreases |s| - i
  {
    if i < |s| {
      var p, j := InsertBreaksStep(s, i, kws);
      InsertBreaksOnlyAddsBreaks(s, j, kws);
      BreakThenSame(p, s[i..j], InsertBreaksFrom(s, j, kws), s[j..]);
    } else {
      assert s[i..] == [];
    }
  }

  /** One step of the induction above: a piece that is its source text,
      possibly after a '\n', followed by text equal up to '\n's. */
  lemma BreakThenSame(p: string, w: string, t: string, u: string)
    requires p == w || p == "\n" + w
    requires RemoveAll(t, '\n') == RemoveAll(u, '\n')
    ensures RemoveAll(p + t, '\n') == RemoveAll(w + u, '\n')
  {
    RemoveAllConcat(p, t, '\n');
    RemoveAllConcat(w, u, '\n');
    RemoveAllConcat("\n", w, '\n');
  }

  /** The keyword replacement keeps every visible character, in order. */
  lemma {:induction false} VisibleInsertBreaks(s: string, i: nat, kws: seq<string>)
    requires i <= |s|
    ensures Visible(InsertBreaksFrom(s, i, kws)) == Visible(s[i..])
    decreases |s| - i
  {
    if i < |s| {
      var p, j := InsertBreaksStep(s, i, kws);
      VisibleInsertBreaks(s, j, kws);
      BreakThenVisible(p, s[i..j], InsertBreaksFrom(s, j, kws), s[j..]);
    } else {
      assert s[i..] == [];
    }
  }

  /** One step of the induction above. */
  lemma BreakThenVisible(p: string, w: string, t: string, u: string)
    requires p == w || p == "\n" + w
    requires Visible(t) == Visible(u)
    ensures Visible(p + t) == Visible(w + u)
  {
    VisibleConcat(p, t);
    VisibleConcat(w, u);
    VisibleConcat("\n", w);
  }

  /** formatQuery keeps every visible character of the query, in order. */
  lemma FormatQueryVisible(query: string)
    ensures Visible(FormatQuery(query)) == Visible(query)
  {
    var t := Trim(query);
    var b := InsertBreaks(t);
    var c := CollapseSpaces(b);
    calc {
      Visible(Trim(c));
      { VisibleTrim(c); }
      Visible(c);
      { VisibleCollapse(b); }
      Visible(b);
      { VisibleInsertBreaks(t, 0, Keywords); assert t[0..] == t; }
      Visible(t);
      { VisibleTrim(query); }
      Visible(query);
    }
  }

  /** What formatQuery promises: one line (the '\n's it inserts are
      collapsed again), single spaces only, no blank at either end, and
      every visible character of the query, in order. */
  lemma FormatQueryShape(query: string)
    ensures var r := FormatQuery(query);
            && '\n' !in r
            && SingleSpaced(r)
            && TrimStable(r)
            && Visible(r) == Visible(query)
  {
    TrimKeepsSingleSpaced(CollapseSpaces(InsertBreaks(Trim(query))));
    FormatQueryVisible(query);
  }
}
