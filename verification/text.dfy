/** String helpers the checkout code relies on: `Array.prototype.join`,
    its inverse `String.prototype.split` on one character, and
    `String.prototype.trim`. */
module Text {

  /** `lines.join([sep])`: the elements separated by one `sep`; no element gives "". */
  function Join(lines: seq<string>, sep: char): (s: string)
    ensures |lines| == 1 ==> s == lines[0]
    decreases |lines|
  {
    if |lines| == 0 then []
    else if |lines| == 1 then lines[0]
    else lines[0] + [sep] + Join(lines[1..], sep)
  }

  /** `s.split(sep)`: the maximal pieces of `s` between occurrences of `sep`,
      at least one piece (possibly empty). */
  function Split(s: string, sep: char): (pieces: seq<string>)
    ensures 1 <= |pieces|
    ensures forall i | 0 <= i < |pieces| :: sep !in pieces[i]
    decreases |s|
  {
    if s == [] then [[]]
    else
      var rest := Split(s[1..], sep);
      if s[0] == sep then [[]] + rest
      else [[s[0]] + rest[0]] + rest[1..]
  }

  lemma {:induction false} JoinAppend(a: seq<string>, b: seq<string>, sep: char)
    requires |a| > 0 && |b| > 0
    ensures Join(a + b, sep) == Join(a, sep) + [sep] + Join(b, sep)
    decreases |a|
  {
    if |a| == 1 {
      assert (a + b)[1..] == b;
    } else {
      assert (a + b)[1..] == a[1..] + b;
      JoinAppend(a[1..], b, sep);
    }
  }

  lemma JoinNestedFront(inner: seq<string>, b: seq<string>, sep: char)
    requires |inner| > 0
    ensures Join([Join(inner, sep)] + b, sep) == Join(inner + b, sep)
  {
    var x := Join(inner, sep);
    if |b| > 0 {
      JoinAppend([x], b, sep);
      JoinAppend(inner, b, sep);
    } else {
      assert [x] + b == [x] && inner + b == inner;
    }
  }

  /** An element that is itself a join can be spliced into the outer list:
      joining is associative across nesting. */
  lemma JoinNested(a: seq<string>, inner: seq<string>, b: seq<string>, sep: char)
    requires |inner| > 0
    ensures Join(a + [Join(inner, sep)] + b, sep) == Join(a + inner + b, sep)
  {
    var x := Join(inner, sep);
    JoinNestedFront(inner, b, sep);
    if |a| > 0 {
      JoinAppend(a, [x] + b, sep);
      JoinAppend(a, inner + b, sep);
      assert a + [x] + b == a + ([x] + b);
      assert a + inner + b == a + (inner + b);
    } else {
      assert a + [x] + b == [x] + b;
      assert a + inner + b == inner + b;
    }
  }

  lemma JoinPair(x: string, y: string)
    ensures Join([x, y], '\n') == x + "\n" + y
  {
    assert [x, y][1..] == [y];
  }

  lemma SpliceGreeting(g: string, x: string, tail: seq<string>)
    ensures Join([g + "\n", x] + tail, '\n') == Join([g, "", x] + tail, '\n')
  {
    var rest := [x] + tail;
    JoinAppend([g + "\n"], rest, '\n');
    JoinAppend([g, ""], rest, '\n');
    JoinPair(g, "");
    assert [g + "\n"] + rest == [g + "\n", x] + tail;
    assert [g, ""] + rest == [g, "", x] + tail;
  }

  lemma SpliceItems(g: string, items: seq<string>, tail: seq<string>)
    requires |items| > 0
    ensures Join([g, "", Join(items, '\n')] + tail, '\n') == Join([g, ""] + items + tail, '\n')
  {
    JoinNested([g, ""], items, tail, '\n');
    assert [g, ""] + [Join(items, '\n')] + tail == [g, "", Join(items, '\n')] + tail;
  }

  lemma SpliceRules(front: seq<string>, rule: string, mid: seq<string>, back: seq<string>)
    ensures Join(front + ["\n" + rule] + mid + [rule + "\n"] + back, '\n')
         == Join(front + ["", rule] + mid + [rule, ""] + back, '\n')
  {
    JoinPair("", rule);
    JoinPair(rule, "");
    assert "" + "\n" + rule == "\n" + rule;
    assert rule + "\n" + "" == rule + "\n";
    var x1, x2 := Join(["", rule], '\n'), Join([rule, ""], '\n');
    JoinNested(front, ["", rule], mid + [x2] + back, '\n');
    assert front + [x1] + (mid + [x2] + back) == front + ["\n" + rule] + mid + [rule + "\n"] + back;
    assert front + ["", rule] + (mid + [x2] + back) == (front + ["", rule] + mid) + [x2] + back;
    JoinNested(front + ["", rule] + mid, [rule, ""], back, '\n');
    assert (front + ["", rule] + mid) + [rule, ""] + back == front + ["", rule] + mid + [rule, ""] + back;
  }

  /** The order message's line breaks: a greeting ending in a break, a joined
      block, and two rules with a break on their outer side join to the same
      text as the flat list of lines. */
  lemma SpliceAll(g: string, itemsText: string, items: seq<string>, rule: string, summary: seq<string>, close: seq<string>)
    requires |items| > 0 && Join(items, '\n') == itemsText
    ensures Join([g + "\n", itemsText, "\n" + rule] + summary + [rule + "\n"] + close, '\n')
         == Join([g, ""] + items + ["", rule] + summary + [rule, ""] + close, '\n')
  {
    var tail := ["\n" + rule] + summary + [rule + "\n"] + close;
    var front := [g, ""] + items;
    assert [g + "\n", itemsText, "\n" + rule] + summary + [rule + "\n"] + close == [g + "\n", itemsText] + tail;
    SpliceGreeting(g, itemsText, tail);
    SpliceItems(g, items, tail);
    assert front + tail == front + ["\n" + rule] + summary + [rule + "\n"] + close;
    SpliceRules(front, rule, summary, close);
  }

  /** A piece free of `sep` splits to itself, and is cut off at the next `sep`. */
  lemma {:induction false} SplitPiece(a: string, t: string, sep: char)
    requires sep !in a
    ensures Split(a, sep) == [a]
    ensures Split(a + [sep] + t, sep) == [a] + Split(t, sep)
    decreases |a|
  {
    if a != [] {
      SplitPiece(a[1..], t, sep);
      assert (a + [sep] + t)[1..] == a[1..] + [sep] + t;
      assert [a[0]] + a[1..] == a;
    } else {
      assert (a + [sep] + t)[1..] == t;
    }
  }

  /** Splitting a joined list gives the list back, provided no element holds the separator. */
  lemma {:induction false} SplitJoin(lines: seq<string>, sep: char)
    requires |lines| > 0
    requires forall i | 0 <= i < |lines| :: sep !in lines[i]
    ensures Split(Join(lines, sep), sep) == lines
    decreases |lines|
  {
    if |lines| == 1 {
      SplitPiece(lines[0], [], sep);
    } else {
      SplitJoin(lines[1..], sep);
      SplitPiece(lines[0], Join(lines[1..], sep), sep);
      assert [lines[0]] + lines[1..] == lines;
    }
  }

  /** Joining what a split produced rebuilds the string. */
  lemma {:induction false} JoinSplit(s: string, sep: char)
    ensures Join(Split(s, sep), sep) == s
    decreases |s|
  {
    if s != [] {
      var rest := Split(s[1..], sep);
      JoinSplit(s[1..], sep);
      if s[0] != sep {
        if |rest| > 1 {
          assert ([[s[0]] + rest[0]] + rest[1..])[1..] == rest[1..];
        }
      } else {
        assert ([[]] + rest)[1..] == rest;
      }
      assert [s[0]] + s[1..] == s;
    }
  }

  /** The characters `String.prototype.trim` removes: the ECMAScript
      WhiteSpace and LineTerminator code points. */
  predicate IsSpace(c: char) {
    // WhiteSpace: TAB, VT, FF, SPACE, NO-BREAK SPACE, ZERO WIDTH NO-BREAK SPACE
    || c == '\t' || c == '\U{000B}' || c == '\U{000C}' || c == ' ' || c == '\U{00A0}' || c == '\U{FEFF}'
    // the other Unicode "Zs" space separators
    || c == '\U{1680}' || ('\U{2000}' <= c <= '\U{200A}') || c == '\U{202F}' || c == '\U{205F}' || c == '\U{3000}'
    // LineTerminator: LF, CR, LINE SEPARATOR, PARAGRAPH SEPARATOR
    || c == '\n' || c == '\r' || c == '\U{2028}' || c == '\U{2029}'
  }

  predicate AllSpace(s: string) {
    forall i | 0 <= i < |s| :: IsSpace(s[i])
  }

  function TrimStart(s: string): (r: string)
    ensures |r| <= |s| && r == s[|s| - |r|..]
    ensures AllSpace(s[..|s| - |r|])
    ensures r == [] || !IsSpace(r[0])
    decreases |s|
  {
    if s != [] && IsSpace(s[0]) then
      var r := TrimStart(s[1..]);
      assert s[1..][|s| - 1 - |r|..] == s[|s| - |r|..];
      assert s[..|s| - |r|] == [s[0]] + s[1..][..|s| - 1 - |r|];
      r
    else s
  }

  function TrimEnd(s: string): (r: string)
    ensures |r| <= |s| && r == s[..|r|]
    ensures AllSpace(s[|r|..])
    ensures r == [] || !IsSpace(r[|r| - 1])
    decreases |s|
  {
    if s != [] && IsSpace(s[|s| - 1]) then
      var p := s[..|s| - 1];
      var r := TrimEnd(p);
      assert p[..|r|] == s[..|r|];
      assert s[|r|..] == p[|r|..] + [s[|s| - 1]];
      r
    else s
  }

  /** `r` is `s[k..k + |r|]` with nothing but white space around it. */
  predicate Padded(s: string, r: string, k: int) {
    0 <= k <= |s| - |r| && r == s[k..k + |r|] && AllSpace(s[..k]) && AllSpace(s[k + |r|..])
  }

  /** `s.trim()`: `s` without its leading and trailing white space. The result
      is empty exactly when `s` is nothing but white space. */
  function Trim(s: string): (r: string)
    ensures exists k :: Padded(s, r, k)
    ensures r == [] || (!IsSpace(r[0]) && !IsSpace(r[|r| - 1]))
    ensures r == [] <==> AllSpace(s)
  {
    TrimFacts(s, TrimStart(s), TrimEnd(TrimStart(s)));
    TrimEnd(TrimStart(s))
  }

  lemma TrimFacts(s: string, t: string, r: string)
    requires |t| <= |s| && t == s[|s| - |t|..] && AllSpace(s[..|s| - |t|])
    requires t == [] || !IsSpace(t[0])
    requires |r| <= |t| && r == t[..|r|] && AllSpace(t[|r|..])
    requires r == [] || !IsSpace(r[|r| - 1])
    ensures Padded(s, r, |s| - |t|)
    ensures r == [] || (!IsSpace(r[0]) && !IsSpace(r[|r| - 1]))
    ensures r == [] <==> AllSpace(s)
  {
    var k := |s| - |t|;
    assert t == s[k..];
    assert r == t[..|r|];
    assert r == s[k..k + |r|] by {
      forall i | 0 <= i < |r|
        ensures r[i] == s[k + i]
      {
        assert r[i] == t[i] == s[k..][i];
      }
    }
    assert s[k + |r|..] == t[|r|..];
    if r != [] {
      assert r[0] == s[k];
      assert !AllSpace(s) by {
        assert !IsSpace(s[k]);
      }
    } else {
      assert t[|r|..] == t;
      assert s[..k] == s;
    }
  }

  /** Trimming twice is trimming once. */
  lemma TrimIdempotent(s: string)
    ensures Trim(Trim(s)) == Trim(s)
  {
    var r := Trim(s);
    if r != [] {
      assert TrimStart(r) == r;
      assert TrimEnd(r) == r;
    }
  }

  /** Trimming only removes characters: one absent from `s` is absent from its trim. */
  lemma TrimKeepsOut(s: string, c: char)
    requires c !in s
    ensures c !in Trim(s)
  {
    var r := Trim(s);
    var k :| Padded(s, r, k);
    forall i | 0 <= i < |r|
      ensures r[i] != c
    {
      assert r[i] == s[k + i];
    }
  }
}
