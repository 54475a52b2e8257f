/**
 * The JavaScript string built-ins the gear lists go through:
 * `split(',')`, `trim()`, `toLowerCase()` and `join(', ')`.
 */
module Strings {

  /** The characters `trim` removes: ECMAScript's WhiteSpace and LineTerminator code points. */
  predicate IsWhitespace(c: char)
  {
    || c == '\t' || c == '\n' || c == '\U{B}' || c == '\U{C}' || c == '\r' || c == ' '
    || c == '\U{A0}' || c == '\U{1680}' || ('\U{2000}' <= c <= '\U{200A}')
    || c == '\U{2028}' || c == '\U{2029}' || c == '\U{202F}' || c == '\U{205F}'
    || c == '\U{3000}' || c == '\U{FEFF}'
  }

  /** `s.split(',')`: the pieces between commas, left to right; there is always at least one. */
  function Split(s: string): (parts: seq<string>)
    ensures |parts| >= 1
    ensures forall i :: 0 <= i < |parts| ==> ',' !in parts[i]
    decreases |s|
  {
    if |s| == 0 then [""]
    else if s[0] == ',' then [""] + Split(s[1..])
    else
      var rest := Split(s[1..]);
      [[s[0]] + rest[0]] + rest[1..]
  }

  function TrimStart(s: string): (r: string)
    ensures |r| <= |s| && r == s[|s| - |r|..]
    ensures |r| > 0 ==> !IsWhitespace(r[0])
    ensures forall k :: 0 <= k < |s| - |r| ==> IsWhitespace(s[k])
    decreases |s|
  {
    if |s| > 0 && IsWhitespace(s[0]) then TrimStart(s[1..]) else s
  }

  function TrimEnd(s: string): (r: string)
    ensures |r| <= |s| && r == s[..|r|]
    ensures |r| > 0 ==> !IsWhitespace(r[|r| - 1])
    ensures forall k :: |r| <= k < |s| ==> IsWhitespace(s[k])
    decreases |s|
  {
    if |s| > 0 && IsWhitespace(s[|s| - 1]) then TrimEnd(s[..|s| - 1]) else s
  }

  /** Neither end of `s` is whitespace. */
  predicate Trimmed(s: string)
  {
    |s| == 0 || (!IsWhitespace(s[0]) && !IsWhitespace(s[|s| - 1]))
  }

  /** Every character of `s` is whitespace. */
  predicate Blank(s: string)
  {
    forall k :: 0 <= k < |s| ==> IsWhitespace(s[k])
  }

  /** `s.trim()`: the result has no whitespace at either end and only characters of `s`. */
  function Trim(s: string): (r: string)
    ensures Trimmed(r)
    ensures forall c :: c in r ==> c in s
  {
    var t := TrimStart(s);
    var r := TrimEnd(t);
    assert forall c :: c in r ==> c in t;
    r
  }

  /** What `trim` removes is whitespace, and only from the two ends: the result is a slice of `s` with blanks around it. */
  lemma TrimDropsBlanks(s: string)
    ensures exists i :: 0 <= i <= |s| - |Trim(s)| && Trim(s) == s[i..i + |Trim(s)|]
              && Blank(s[..i]) && Blank(s[i + |Trim(s)|..])
  {
    var t := TrimStart(s);
    var r := TrimEnd(t);
    var i := |s| - |t|;
    assert Blank(s[..i]) by {
      forall k | 0 <= k < i ensures IsWhitespace(s[..i][k]) {
        assert s[..i][k] == s[k];
      }
    }
    var post := s[i + |r|..];
    assert Blank(post) by {
      forall k | 0 <= k < |post| ensures IsWhitespace(post[k]) {
        assert post[k] == t[|r| + k];
      }
    }
    assert r == s[i..i + |r|];
  }

  /** The ASCII case mapping of `toLowerCase`. */
  function LowerChar(c: char): (d: char)
    ensures IsWhitespace(d) == IsWhitespace(c)
    ensures d == ',' <==> c == ','
  {
    if 'A' <= c <= 'Z' then (c as int + 32) as char else c
  }

  /** `s.toLowerCase()`, character by character. */
  function Lower(s: string): (r: string)
    ensures |r| == |s|
    ensures forall i :: 0 <= i < |s| ==> r[i] == LowerChar(s[i])
  {
    seq(|s|, i requires 0 <= i < |s| => LowerChar(s[i]))
  }

  function LowerAll(xs: seq<string>): (r: seq<string>)
    ensures |r| == |xs|
    ensures forall i :: 0 <= i < |xs| ==> r[i] == Lower(xs[i])
  {
    seq(|xs|, i requires 0 <= i < |xs| => Lower(xs[i]))
  }

  /**
   * `parts.map(p => p.trim())`, followed by `.toLowerCase()` when `lower`,
   * then `.filter(p => p.length > 0)`.
   */
  function Tidy(parts: seq<string>, lower: bool): (r: seq<string>)
    ensures |r| <= |parts|
    decreases |parts|
  {
    if |parts| == 0 then [] else Keep(Clean(parts[0], lower)) + Tidy(parts[1..], lower)
  }

  /** One piece trimmed, and lower-cased when `lower`. */
  function Clean(p: string, lower: bool): string
  {
    if lower then Lower(Trim(p)) else Trim(p)
  }

  /** The filter step: a piece survives when it is not empty. */
  function Keep(p: string): (r: seq<string>)
    ensures |r| <= 1
  {
    if |p| > 0 then [p] else []
  }

  /** `xs.join(', ')` */
  function Join(xs: seq<string>): string
    decreases |xs|
  {
    if |xs| == 0 then "" else if |xs| == 1 then xs[0] else xs[0] + ", " + Join(xs[1..])
  }

  /** A piece the trim-only parse can yield: non-empty, trimmed, free of commas. */
  predicate Piece(x: string)
  {
    |x| > 0 && ',' !in x && Trimmed(x)
  }

  /** Splitting is a homomorphism across a comma. */
  lemma {:induction false} SplitConcat(a: string, b: string)
    ensures Split(a + [','] + b) == Split(a) + Split(b)
    decreases |a|
  {
    var s := a + [','] + b;
    if |a| == 0 {
      assert s == [','] + b && s[1..] == b;
    } else {
      assert s[1..] == a[1..] + [','] + b;
      SplitConcat(a[1..], b);
      if a[0] != ',' {
        var rest := Split(a[1..]);
        assert Split(s[1..]) == rest + Split(b);
      }
    }
  }

  lemma {:induction false} SplitNoComma(x: string)
    requires ',' !in x
    ensures Split(x) == [x]
    decreases |x|
  {
    if |x| > 0 {
      SplitNoComma(x[1..]);
      assert [x[0]] + x[1..] == x;
    }
  }

  lemma TrimmedIsFixed(x: string)
    requires Trimmed(x)
    ensures Trim(x) == x
  {
  }

  lemma TrimLeadingSpace(p: string)
    ensures Trim([' '] + p) == Trim(p)
  {
    assert ([' '] + p)[1..] == p;
  }

  lemma {:induction false} TidyConcat(a: seq<string>, b: seq<string>, lower: bool)
    ensures Tidy(a + b, lower) == Tidy(a, lower) + Tidy(b, lower)
    decreases |a|
  {
    if |a| > 0 {
      var ab := a + b;
      assert ab[0] == a[0];
      assert ab[1..] == a[1..] + b;
      TidyConcat(a[1..], b, lower);
      calc {
        Tidy(ab, lower);
        Keep(Clean(a[0], lower)) + Tidy(a[1..] + b, lower);
        Keep(Clean(a[0], lower)) + (Tidy(a[1..], lower) + Tidy(b, lower));
      }
    } else {
      assert a + b == b;
    }
  }

  /** A leading blank does not change what a piece list tidies to. */
  lemma TidyLeadingSpace(s: string, lower: bool)
    ensures Tidy(Split([' '] + s), lower) == Tidy(Split(s), lower)
  {
    var sj := Split(s);
    var head := [' '] + sj[0];
    assert ([' '] + s)[1..] == s;
    assert Split([' '] + s) == [head] + sj[1..];
    TidyConcat([head], sj[1..], lower);
    TidyConcat([sj[0]], sj[1..], lower);
    TidySingle(head, lower);
    TidySingle(sj[0], lower);
    TrimLeadingSpace(sj[0]);
    assert Clean(head, lower) == Clean(sj[0], lower);
    assert sj == [sj[0]] + sj[1..];
  }

  lemma TidySingle(p: string, lower: bool)
    ensures Tidy([p], lower) == Keep(Clean(p, lower))
  {
    assert [p][1..] == [];
  }

  /** A single piece splits and tidies to itself. */
  lemma PieceTidies(x: string)
    requires Piece(x)
    ensures Split(x) == [x]
    ensures Tidy([x], false) == [x]
  {
    SplitNoComma(x);
    TrimmedIsFixed(x);
    assert Tidy([x], false) == Keep(Clean(x, false)) + Tidy([], false);
  }

  lemma JoinCons(xs: seq<string>)
    requires |xs| >= 2
    ensures Join(xs) == xs[0] + [','] + ([' '] + Join(xs[1..]))
  {
  }

  /** Joining pieces with ", " and parsing them back yields the same pieces, in the same order. */
  lemma {:induction false} JoinRoundTrip(xs: seq<string>)
    requires forall i :: 0 <= i < |xs| ==> Piece(xs[i])
    ensures Tidy(Split(Join(xs)), false) == xs
    decreases |xs|
  {
    if |xs| == 0 {
      assert Split("") == [""];
      assert Tidy([""], false) == Keep(Clean("", false)) + Tidy([], false);
    } else if |xs| == 1 {
      PieceTidies(xs[0]);
    } else {
      JoinRoundTrip(xs[1..]);
      JoinRoundTripStep(xs);
    }
  }

  /** The inductive step of JoinRoundTrip: the first piece, then the rest after ", ". */
  lemma JoinRoundTripStep(xs: seq<string>)
    requires |xs| >= 2 && Piece(xs[0])
    requires Tidy(Split(Join(xs[1..])), false) == xs[1..]
    ensures Tidy(Split(Join(xs)), false) == xs
  {
    var j := Join(xs[1..]);
    JoinCons(xs);
    SplitConcat(xs[0], [' '] + j);
    PieceTidies(xs[0]);
    calc {
      Tidy(Split(Join(xs)), false);
      Tidy([xs[0]] + Split([' '] + j), false);
      { TidyConcat([xs[0]], Split([' '] + j), false); }
      [xs[0]] + Tidy(Split([' '] + j), false);
      { TidyLeadingSpace(j, false); }
      [xs[0]] + xs[1..];
    }
    assert xs == [xs[0]] + xs[1..];
  }

  lemma LowerAllConcat(a: seq<string>, b: seq<string>)
    ensures LowerAll(a + b) == LowerAll(a) + LowerAll(b)
  {
  }

  /** Lower-casing after the trim-only tidy is the same as tidying with lower-casing. */
  lemma {:induction false} TidyLower(parts: seq<string>)
    ensures Tidy(parts, true) == LowerAll(Tidy(parts, false))
    decreases |parts|
  {
    if |parts| > 0 {
      TidyLower(parts[1..]);
      var t := Trim(parts[0]);
      var rest := Tidy(parts[1..], false);
      assert Tidy(parts, false) == Keep(t) + rest;
      assert Tidy(parts, true) == Keep(Lower(t)) + LowerAll(rest);
      assert Keep(Lower(t)) == LowerAll(Keep(t));
      LowerAllConcat(Keep(t), rest);
    }
  }

  /** Lower-casing a piece gives a piece that lower-casing leaves alone. */
  lemma LowerPiece(t: string)
    requires Piece(t)
    ensures Piece(Lower(t))
    ensures Lower(Lower(t)) == Lower(t)
  {
    var l := Lower(t);
    assert forall i :: 0 <= i < |l| ==> LowerChar(l[i]) == l[i];
    assert ',' !in l by {
      forall i | 0 <= i < |l| ensures l[i] != ',' {
        assert t[i] in t;
      }
    }
  }

  /** A cleaned comma-free piece that survives the filter is a piece; lower-cased, it stays lower-case. */
  lemma CleanYieldsPiece(p: string, lower: bool)
    requires ',' !in p && |Clean(p, lower)| > 0
    ensures Piece(Clean(p, lower))
    ensures lower ==> Lower(Clean(p, lower)) == Clean(p, lower)
  {
    var t := Trim(p);
    assert ',' !in t;
    if lower {
      LowerPiece(t);
    }
  }

  /** Every element of a tidied comma-free list is a piece; with lower-casing it is lower-case too. */
  lemma {:induction false} TidyYieldsPieces(parts: seq<string>, lower: bool)
    requires forall i :: 0 <= i < |parts| ==> ',' !in parts[i]
    ensures forall x :: x in Tidy(parts, lower) ==> Piece(x)
    ensures lower ==> forall x :: x in Tidy(parts, lower) ==> Lower(x) == x
    decreases |parts|
  {
    if |parts| > 0 {
      TidyYieldsPieces(parts[1..], lower);
      var c := Clean(parts[0], lower);
      assert Tidy(parts, lower) == Keep(c) + Tidy(parts[1..], lower);
      if |c| > 0 {
        CleanYieldsPiece(parts[0], lower);
      }
    }
  }
}
