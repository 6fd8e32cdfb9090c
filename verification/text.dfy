/** The handful of Python string operations the handlers rely on, written out
    so that their behaviour at the edges (empty strings, absent separators,
    trailing line breaks) is explicit: `str.isspace`, `str.strip`,
    `str.split(sep)`, `sep.join`, `str.splitlines`, `startswith`, `endswith`
    and the slice `s[:n]`. */
module Text {
  import opened Seqs

  /** Python's `str.isspace` for one character: the ASCII whitespace and
      separator controls plus the Unicode space separators. */
  predicate IsSpace(c: char) {
    || c == ' ' || '\t' <= c <= '\r' || '\U{1C}' <= c <= '\U{1F}'
    || c == '\U{85}' || c == '\U{A0}' || c == '\U{1680}' || '\U{2000}' <= c <= '\U{200A}'
    || c == '\U{2028}' || c == '\U{2029}' || c == '\U{202F}' || c == '\U{205F}' || c == '\U{3000}'
  }

  /** The characters at which Python's `str.splitlines` breaks a line
      (`\r\n` counts as one break, see SplitLines). */
  predicate IsLineBreak(c: char) {
    '\n' <= c <= '\r' || '\U{1C}' <= c <= '\U{1E}' || c == '\U{85}' || c == '\U{2028}' || c == '\U{2029}'
  }

  /** A string with no surrounding whitespace. */
  predicate Stripped(s: string) {
    |s| == 0 || (!IsSpace(s[0]) && !IsSpace(s[|s| - 1]))
  }

  predicate AllSpace(s: string) {
    forall i :: 0 <= i < |s| ==> IsSpace(s[i])
  }

  /** `s.lstrip()`: the suffix of `s` left after its leading whitespace. */
  function TrimStart(s: string): (r: string)
    ensures |r| <= |s|
    ensures |r| == 0 || !IsSpace(r[0])
  {
    if |s| > 0 && IsSpace(s[0]) then TrimStart(s[1..]) else s
  }

  /** `lstrip` returns a suffix of its argument. */
  lemma {:induction false} TrimStartIsSuffix(s: string)
    ensures TrimStart(s) == s[|s| - |TrimStart(s)|..]
  {
    if |s| > 0 && IsSpace(s[0]) {
      TrimStartIsSuffix(s[1..]);
    }
  }

  /** What `lstrip` drops is whitespace. */
  lemma {:induction false} TrimStartDropsSpace(s: string)
    ensures AllSpace(s[..|s| - |TrimStart(s)|])
  {
    if |s| > 0 && IsSpace(s[0]) {
      TrimStartDropsSpace(s[1..]);
      var n := |s| - |TrimStart(s)|;
      assert forall i :: 1 <= i < n ==> s[i] == s[1..][..n - 1][i - 1];
    }
  }

  /** `s.rstrip()`: the prefix of `s` left before its trailing whitespace. */
  function TrimEnd(s: string): (r: string)
    ensures |r| <= |s|
    ensures |r| == 0 || !IsSpace(r[|r| - 1])
  {
    if |s| > 0 && IsSpace(s[|s| - 1]) then TrimEnd(s[..|s| - 1]) else s
  }

  /** `rstrip` returns a prefix of its argument. */
  lemma {:induction false} TrimEndIsPrefix(s: string)
    ensures TrimEnd(s) == s[..|TrimEnd(s)|]
  {
    if |s| > 0 && IsSpace(s[|s| - 1]) {
      TrimEndIsPrefix(s[..|s| - 1]);
    }
  }

  /** What `rstrip` drops is whitespace. */
  lemma {:induction false} TrimEndDropsSpace(s: string)
    ensures AllSpace(s[|TrimEnd(s)|..])
  {
    if |s| > 0 && IsSpace(s[|s| - 1]) {
      var s' := s[..|s| - 1];
      TrimEndDropsSpace(s');
      var n := |TrimEnd(s)|;
      assert forall i :: n <= i < |s| - 1 ==> s[i] == s'[n..][i - n];
    }
  }

  /** `s.strip()`: the longest infix of `s` that neither starts nor ends with
      whitespace. */
  function Strip(s: string): (r: string)
    ensures Stripped(r)
    ensures |r| <= |s|
  {
    var t := TrimStart(s);
    TrimEndIsPrefix(t);
    TrimEnd(t)
  }

  /** `s.strip()` is empty exactly when `s` is all whitespace. */
  lemma StripEmpty(s: string)
    ensures Strip(s) == "" <==> AllSpace(s)
  {
    var t := TrimStart(s);
    TrimStartIsSuffix(s);
    TrimEndIsPrefix(t);
    TrimStartDropsSpace(s);
    TrimEndDropsSpace(t);
  }

  /** Every character of `s.strip()` occurs in `s`. */
  lemma StripKeeps(s: string, c: char)
    requires c in Strip(s)
    ensures c in s
  {
    var t := TrimStart(s);
    var r := TrimEnd(t);
    TrimStartIsSuffix(s);
    TrimEndIsPrefix(t);
    var i :| 0 <= i < |r| && r[i] == c;
    assert t[i] == c;
    assert s[|s| - |t| + i] == c;
  }

  /** Stripping a string that has no surrounding whitespace leaves it as it is. */
  lemma StripStripped(s: string)
    requires Stripped(s)
    ensures Strip(s) == s
  {
  }

  /** Stripping is idempotent. */
  lemma StripIdempotent(s: string)
    ensures Strip(Strip(s)) == Strip(s)
  {
    StripStripped(Strip(s));
  }

  /** Appending whitespace does not change what `strip` returns. */
  lemma {:induction false} StripTrailingSpace(s: string, w: string)
    requires AllSpace(w)
    ensures Strip(s + w) == Strip(s)
  {
    var t := TrimStart(s);
    if AllSpace(s) {
      assert AllSpace(s + w);
      TrimStartAllSpace(s, []);
      TrimStartAllSpace(s + w, []);
      assert s + [] == s && s + w + [] == s + w;
    } else {
      TrimStartTrailingSpace(s, w);
      assert TrimStart(s + w) == t + w;
      TrimEndTrailingSpace(t, w);
    }
  }

  lemma {:induction false} TrimStartAllSpace(s: string, w: string)
    requires AllSpace(s)
    ensures TrimStart(s + w) == TrimStart(w)
  {
    if |s| > 0 {
      assert (s + w)[1..] == s[1..] + w;
      TrimStartAllSpace(s[1..], w);
    } else {
      assert s + w == w;
    }
  }

  lemma {:induction false} TrimStartTrailingSpace(s: string, w: string)
    requires !AllSpace(s)
    ensures TrimStart(s + w) == TrimStart(s) + w
  {
    if IsSpace(s[0]) {
      assert (s + w)[1..] == s[1..] + w;
      TrimStartTrailingSpace(s[1..], w);
    }
  }

  lemma {:induction false} TrimEndTrailingSpace(t: string, w: string)
    requires AllSpace(w)
    ensures TrimEnd(t + w) == TrimEnd(t)
    decreases |w|
  {
    if |w| == 0 {
      assert t + w == t;
    } else {
      var u := t + w;
      assert IsSpace(u[|u| - 1]);
      assert u[..|u| - 1] == t + w[..|w| - 1];
      TrimEndTrailingSpace(t, w[..|w| - 1]);
    }
  }

  /** Python's `s.startswith(p)`. */
  predicate StartsWith(s: string, p: string) {
    |p| <= |s| && s[..|p|] == p
  }

  /** Python's `s.endswith(p)`. */
  predicate EndsWith(s: string, p: string) {
    |p| <= |s| && s[|s| - |p|..] == p
  }

  /** Python's slice `s[:n]`: the first `n` characters, or all of `s`. */
  function Take<T>(s: seq<T>, n: nat): (r: seq<T>)
    ensures |r| <= n && |r| <= |s|
    ensures r == s[..|r|]
    ensures |s| <= n ==> r == s
    ensures n <= |s| ==> |r| == n
  {
    if |s| <= n then s else s[..n]
  }

  /** The index of the first `c` in `s`, or `|s|` when there is none. */
  function IndexOf(s: string, c: char): (i: nat)
    ensures i <= |s|
    ensures i < |s| ==> s[i] == c
    ensures forall k :: 0 <= k < i ==> s[k] != c
  {
    if |s| == 0 then 0
    else if s[0] == c then 0
    else 1 + IndexOf(s[1..], c)
  }

  /** Python's `s.split(sep)` for a one-character separator: the pieces
      between separators, so `""` gives `[""]` and adjacent separators give
      empty pieces. */
  function Split(s: string, sep: char): (r: seq<string>)
    ensures |r| >= 1
    decreases |s|
  {
    var i := IndexOf(s, sep);
    if i == |s| then [s] else [s[..i]] + Split(s[i + 1..], sep)
  }

  /** No piece of a split holds the separator. */
  lemma {:induction false} SplitPiecesAvoid(s: string, sep: char)
    ensures forall piece :: piece in Split(s, sep) ==> sep !in piece
    decreases |s|
  {
    var i := IndexOf(s, sep);
    if i < |s| {
      SplitPiecesAvoid(s[i + 1..], sep);
    }
  }

  /** A split has more than one piece exactly when the separator occurs. */
  lemma SplitMany(s: string, sep: char)
    ensures |Split(s, sep)| > 1 <==> sep in s
  {
  }

  /** Python's `sep.join(xs)`. */
  function Join(xs: seq<string>, sep: string): string {
    if |xs| == 0 then ""
    else if |xs| == 1 then xs[0]
    else xs[0] + sep + Join(xs[1..], sep)
  }

  /** Joining the pieces of a split with the same separator gives back the
      original string. */
  lemma {:induction false} JoinSplit(s: string, sep: char)
    ensures Join(Split(s, sep), [sep]) == s
    decreases |s|
  {
    var i := IndexOf(s, sep);
    if i < |s| {
      JoinSplit(s[i + 1..], sep);
      JoinSplitStep(s, sep);
    }
  }

  /** The step of JoinSplit: the first piece, the separator, then the join
      of the rest. */
  lemma JoinSplitStep(s: string, sep: char)
    requires IndexOf(s, sep) < |s|
    requires Join(Split(s[IndexOf(s, sep) + 1..], sep), [sep]) == s[IndexOf(s, sep) + 1..]
    ensures Join(Split(s, sep), [sep]) == s
  {
    var i := IndexOf(s, sep);
    var pieces := Split(s[i + 1..], sep);
    JoinCons(s[..i], pieces, [sep]);
    AroundIndex(s, i);
  }

  lemma JoinCons(x: string, xs: seq<string>, sep: string)
    requires |xs| >= 1
    ensures Join([x] + xs, sep) == x + sep + Join(xs, sep)
  {
    assert ([x] + xs)[1..] == xs;
  }

  /** Splitting a join recovers the pieces, provided none of them contains
      the separator. */
  lemma {:induction false} SplitJoin(xs: seq<string>, sep: char)
    requires |xs| >= 1
    requires forall k :: 0 <= k < |xs| ==> sep !in xs[k]
    ensures Split(Join(xs, [sep]), sep) == xs
  {
    if |xs| > 1 {
      var s := Join(xs, [sep]);
      var tail := Join(xs[1..], [sep]);
      assert s == xs[0] + [sep] + tail;
      IndexOfPrefix(xs[0], sep, tail);
      assert s[..|xs[0]|] == xs[0];
      assert s[|xs[0]| + 1..] == tail;
      SplitJoin(xs[1..], sep);
    } else {
      IndexOfAbsent(xs[0], sep);
    }
  }

  lemma IndexOfAbsent(s: string, c: char)
    requires c !in s
    ensures IndexOf(s, c) == |s|
  {
  }

  lemma {:induction false} IndexOfPrefix(a: string, c: char, b: string)
    requires c !in a
    ensures IndexOf(a + [c] + b, c) == |a|
  {
    if |a| > 0 {
      assert (a + [c] + b)[1..] == a[1..] + [c] + b;
      IndexOfPrefix(a[1..], c, b);
    }
  }

  /** Dropping the first piece of a split and joining the rest gives the
      text after the first separator. */
  lemma AfterFirstSeparator(s: string, sep: char)
    ensures sep in s ==> IndexOf(s, sep) < |s| &&
                         Join(Split(s, sep)[1..], [sep]) == s[IndexOf(s, sep) + 1..]
  {
    var i := IndexOf(s, sep);
    if i < |s| {
      assert Split(s, sep)[1..] == Split(s[i + 1..], sep);
      JoinSplit(s[i + 1..], sep);
    }
  }

  /** The index of the first line break in `s`, or `|s|` when there is none. */
  function LineBreakIndex(s: string): (i: nat)
    ensures i <= |s|
    ensures i < |s| ==> IsLineBreak(s[i])
    ensures forall k :: 0 <= k < i ==> !IsLineBreak(s[k])
  {
    if |s| == 0 then 0
    else if IsLineBreak(s[0]) then 0
    else 1 + LineBreakIndex(s[1..])
  }

  /** A string with no line-break character in it. */
  predicate NoLineBreak(s: string) {
    forall j :: 0 <= j < |s| ==> !IsLineBreak(s[j])
  }

  lemma NoLineBreakNoNewline(s: string)
    requires NoLineBreak(s)
    ensures '\n' !in s
  {
  }

  /** Python's `s.splitlines()`: the lines of `s` without their line breaks,
      `\r\n` counting as a single break and a final break not starting a
      further, empty line. */
  function SplitLines(s: string): (r: seq<string>)
    ensures s == "" <==> r == []
    decreases |s|
  {
    if |s| == 0 then []
    else
      var i := LineBreakIndex(s);
      if i == |s| then [s]
      else
        var next := if s[i] == '\r' && i + 1 < |s| && s[i + 1] == '\n' then i + 2 else i + 1;
        [s[..i]] + SplitLines(s[next..])
  }

  /** No line that `splitlines` returns holds a line break. */
  lemma {:induction false} SplitLinesNoBreak(s: string)
    ensures forall line :: line in SplitLines(s) ==> NoLineBreak(line)
    decreases |s|
  {
    if |s| > 0 {
      var i := LineBreakIndex(s);
      if i < |s| {
        var next := if s[i] == '\r' && i + 1 < |s| && s[i + 1] == '\n' then i + 2 else i + 1;
        SplitLinesNoBreak(s[next..]);
      }
    }
  }

  /** A piece that `[p.strip() for p in pieces if p.strip()]` keeps:
      non-empty and without surrounding whitespace. */
  predicate CleanPiece(piece: string) {
    piece != "" && Stripped(piece)
  }

  /** Python's `[p.strip() for p in pieces if p.strip()]`: the pieces
      stripped, the empty ones dropped, the order kept. */
  function CleanPieces(pieces: seq<string>): (r: seq<string>)
    ensures |r| <= |pieces|
  {
    if |pieces| == 0 then []
    else
      var piece := Strip(pieces[0]);
      (if piece != "" then [piece] else []) + CleanPieces(pieces[1..])
  }

  lemma {:induction false} CleanPiecesAppend(a: seq<string>, b: seq<string>)
    ensures CleanPieces(a + b) == CleanPieces(a) + CleanPieces(b)
  {
    if |a| > 0 {
      ConcatTail(a, b);
      CleanPiecesAppend(a[1..], b);
      var head := Strip(a[0]);
      ConcatAssoc(if head != "" then [head] else [], CleanPieces(a[1..]), CleanPieces(b));
    } else {
      assert a + b == b;
    }
  }

  /** Everything CleanPieces keeps is non-empty and has no surrounding
      whitespace. */
  lemma {:induction false} CleanPiecesAreClean(pieces: seq<string>)
    ensures forall piece :: piece in CleanPieces(pieces) ==> CleanPiece(piece)
  {
    if |pieces| > 0 {
      CleanPiecesAreClean(pieces[1..]);
    }
  }

  /** Pieces that are already clean are kept as they are. */
  lemma {:induction false} CleanPiecesOfClean(pieces: seq<string>)
    requires forall piece :: piece in pieces ==> CleanPiece(piece)
    ensures CleanPieces(pieces) == pieces
  {
    if |pieces| > 0 {
      assert pieces[0] in pieces;
      StripStripped(pieces[0]);
      CleanPiecesOfClean(pieces[1..]);
      assert pieces == [pieces[0]] + pieces[1..];
    }
  }

  /** Stripping adds no character, so a character absent from every piece is
      absent from every kept piece. */
  lemma {:induction false} CleanPiecesAvoid(pieces: seq<string>, c: char)
    requires forall piece :: piece in pieces ==> c !in piece
    ensures forall piece :: piece in CleanPieces(pieces) ==> c !in piece
  {
    if |pieces| > 0 {
      CleanPiecesAvoid(pieces[1..], c);
      if c in Strip(pieces[0]) {
        StripKeeps(pieces[0], c);
      }
    }
  }
}
