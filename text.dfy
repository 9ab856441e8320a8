/** Python string operations the broker parsing relies on: `str.split`
    with a one-character separator, `str.strip()` and its truthiness, and
    JavaScript's `String.prototype.includes`. */
module Text {

  /** Python `s.split(sep)` for a one-character `sep`: always at least one
      piece, and empty pieces are kept (`"".split(";") == [""]`). */
  function Split(s: string, sep: char): (pieces: seq<string>)
    ensures |pieces| >= 1
  {
    if s == [] then [""]
    else
      var rest := Split(s[1..], sep);
      if s[0] == sep then [""] + rest else [[s[0]] + rest[0]] + rest[1..]
  }

  /** Python `sep.join(pieces)`. */
  function Join(pieces: seq<string>, sep: char): string
  {
    if pieces == [] then ""
    else if |pieces| == 1 then pieces[0]
    else pieces[0] + [sep] + Join(pieces[1..], sep)
  }

  lemma {:induction false} SplitPiecesAvoidSeparator(s: string, sep: char)
    ensures forall k :: 0 <= k < |Split(s, sep)| ==> sep !in Split(s, sep)[k]
    decreases |s|
  {
    if s != [] {
      SplitPiecesAvoidSeparator(s[1..], sep);
    }
  }

  /** Joining the pieces back with the separator gives the original text. */
  lemma {:induction false} JoinSplit(s: string, sep: char)
    ensures Join(Split(s, sep), sep) == s
    decreases |s|
  {
    if s != [] {
      var rest := Split(s[1..], sep);
      JoinSplit(s[1..], sep);
      if s[0] == sep {
        assert Split(s, sep)[1..] == rest;
      } else {
        var r := Split(s, sep);
        if |rest| == 1 {
          assert r == [[s[0]] + rest[0]];
        } else {
          assert r[1..] == rest[1..];
          assert Join(rest, sep) == rest[0] + [sep] + Join(rest[1..], sep);
        }
      }
    }
  }

  /** Splitting a separator-joined text recovers the pieces exactly, as
      long as no piece contains the separator. */
  lemma {:induction false} SplitJoin(pieces: seq<string>, sep: char)
    requires |pieces| >= 1
    requires forall k :: 0 <= k < |pieces| ==> sep !in pieces[k]
    ensures Split(Join(pieces, sep), sep) == pieces
    decreases |pieces|
  {
    if |pieces| == 1 {
      SplitNoSeparator(pieces[0], sep);
    } else {
      SplitJoin(pieces[1..], sep);
      SplitConcat(pieces[0], Join(pieces[1..], sep), sep);
      SplitNoSeparator(pieces[0], sep);
      assert [pieces[0]] + pieces[1..] == pieces;
    }
  }

  lemma {:induction false} SplitNoSeparator(s: string, sep: char)
    requires sep !in s
    ensures Split(s, sep) == [s]
    decreases |s|
  {
    if s != [] {
      SplitNoSeparator(s[1..], sep);
      assert [s[0]] + s[1..] == s;
    }
  }

  /** One unfolding of `Split` on a text given as its first character and
      the rest. */
  lemma SplitCons(c: char, t: string, sep: char)
    ensures Split([c] + t, sep) ==
      if c == sep then [""] + Split(t, sep) else [[c] + Split(t, sep)[0]] + Split(t, sep)[1..]
  {
    assert ([c] + t)[0] == c && ([c] + t)[1..] == t;
  }

  /** A separator splits the text into the pieces on either side of it. */
  lemma {:induction false} SplitConcat(a: string, b: string, sep: char)
    ensures Split(a + [sep] + b, sep) == Split(a, sep) + Split(b, sep)
    decreases |a|
  {
    if a == [] {
      assert a + [sep] + b == [sep] + b;
      SplitCons(sep, b, sep);
    } else {
      SplitConcat(a[1..], b, sep);
      SplitConcatStep(a[0], a[1..], b, sep);
      assert [a[0]] + a[1..] == a;
      assert [a[0]] + (a[1..] + [sep] + b) == a + [sep] + b;
    }
  }

  /** The inductive step of `SplitConcat`: a first character other than
      the separator goes in front of the first piece, and the separator
      starts a new empty piece. */
  lemma SplitConcatStep(c: char, a: string, b: string, sep: char)
    requires Split(a + [sep] + b, sep) == Split(a, sep) + Split(b, sep)
    ensures Split([c] + (a + [sep] + b), sep) == Split([c] + a, sep) + Split(b, sep)
  {
    var x, y := Split(a, sep), Split(b, sep);
    SplitCons(c, a + [sep] + b, sep);
    SplitCons(c, a, sep);
    if c == sep {
      PrependEmptyPiece(x, y);
    } else {
      ExtendFirstPiece(c, x, y);
    }
  }

  lemma PrependEmptyPiece(x: seq<string>, y: seq<string>)
    ensures [""] + (x + y) == ([""] + x) + y
  {
  }

  lemma ExtendFirstPiece(c: char, x: seq<string>, y: seq<string>)
    requires |x| >= 1
    ensures [[c] + (x + y)[0]] + (x + y)[1..] == ([[c] + x[0]] + x[1..]) + y
  {
    assert (x + y)[0] == x[0] && (x + y)[1..] == x[1..] + y;
  }

  /** A text framed by two separator-free lines, each line ended by the
      separator: the lines are the two frames around the text's own. */
  lemma SplitFramed(a: string, p: string, b: string, sep: char)
    requires sep !in a && sep !in b
    ensures Split(a + [sep] + p + [sep] + b + [sep], sep) == [a] + Split(p, sep) + [b, ""]
  {
    assert a + [sep] + p + [sep] + b + [sep] == a + [sep] + (p + [sep] + (b + [sep] + []));
    SplitConcat(a, p + [sep] + (b + [sep] + []), sep);
    SplitConcat(p, b + [sep] + [], sep);
    SplitConcat(b, [], sep);
    SplitNoSeparator(a, sep);
    SplitNoSeparator(b, sep);
  }

  // ---------------------------------------------------------------------
  // str.strip()

  /** The characters Python's `str.isspace()` accepts. */
  predicate IsSpace(c: char)
  {
    c == ' ' || ('\t' <= c <= '\r') || ('\U{1c}' <= c <= '\U{1f}') ||
    c == '\U{85}' || c == '\U{a0}' || c == '\U{1680}' ||
    ('\U{2000}' <= c <= '\U{200a}') || c == '\U{2028}' || c == '\U{2029}' ||
    c == '\U{202f}' || c == '\U{205f}' || c == '\U{3000}'
  }

  function StripLeft(s: string): (r: string)
    ensures |r| <= |s| && r == s[|s| - |r|..]
    ensures r == [] || !IsSpace(r[0])
    ensures forall i :: 0 <= i < |s| - |r| ==> IsSpace(s[i])
  {
    if s == [] || !IsSpace(s[0]) then s else StripLeft(s[1..])
  }

  function StripRight(s: string): (r: string)
    ensures |r| <= |s| && r == s[..|r|]
    ensures r == [] || !IsSpace(r[|r| - 1])
    ensures forall i :: |r| <= i < |s| ==> IsSpace(s[i])
  {
    if s == [] || !IsSpace(s[|s| - 1]) then s else StripRight(s[..|s| - 1])
  }

  /** Python `s.strip()`. */
  function Strip(s: string): string
  {
    StripRight(StripLeft(s))
  }

  /** `s.strip()` is truthy exactly when `s` has a non-whitespace
      character; this is the test the code-list loops apply. */
  lemma StripNonEmpty(s: string)
    ensures Strip(s) != [] <==> exists i :: 0 <= i < |s| && !IsSpace(s[i])
  {
    var l := StripLeft(s);
    if Strip(s) == [] {
      assert l == [];
    } else {
      assert l != [];
      assert !IsSpace(s[|s| - |l|]);
    }
  }

  /** Stripping removes whitespace only at the ends: the result is a
      slice of `s` that starts and ends with a non-whitespace character. */
  lemma StripIsTrimmedSlice(s: string)
    ensures var r := Strip(s);
      (exists lo :: OccursAt(s, r, lo)) &&
      (r == [] || (!IsSpace(r[0]) && !IsSpace(r[|r| - 1])))
  {
    var l := StripLeft(s);
    var r := StripRight(l);
    var lo := |s| - |l|;
    assert r == s[lo..lo + |r|];
    assert OccursAt(s, Strip(s), lo);
    if r != [] {
      assert r[0] == l[0];
    }
  }

  // ---------------------------------------------------------------------
  // String.prototype.includes

  /** `part` sits in `text` starting at position `i`. */
  predicate OccursAt(text: string, part: string, i: int)
  {
    0 <= i <= |text| - |part| && text[i..i + |part|] == part
  }

  /** JavaScript `text.includes(part)`. */
  function Contains(text: string, part: string): bool
  {
    if |part| > |text| then false
    else text[..|part|] == part || (text != [] && Contains(text[1..], part))
  }

  lemma {:induction false} ContainsAt(text: string, part: string)
    ensures Contains(text, part) <==> exists i :: OccursAt(text, part, i)
    decreases |text|
  {
    if |part| <= |text| && text != [] {
      ContainsAt(text[1..], part);
      if exists i :: OccursAt(text, part, i) {
        var i :| OccursAt(text, part, i);
        if i > 0 {
          assert text[1..][i - 1..i - 1 + |part|] == part;
          assert OccursAt(text[1..], part, i - 1);
        }
      }
      if text[..|part|] == part {
        assert OccursAt(text, part, 0);
      }
      if Contains(text[1..], part) {
        var i :| OccursAt(text[1..], part, i);
        assert text[1..][i..i + |part|] == text[i + 1..i + 1 + |part|];
        assert OccursAt(text, part, i + 1);
      }
    } else if |part| <= |text| {
      assert OccursAt(text, part, 0);
    }
  }
}
