/**
 The bracket check: `(` and `{` must each be closed by their own closer, in nested order;
 every other character is ignored.
 */
module Braces {
  import opened Tokens
  import opened AStack

  predicate IsOpener(c: char) { c == '(' || c == '{' }

  predicate IsCloser(c: char) { c == ')' || c == '}' }

  predicate IsBracket(c: char) { IsOpener(c) || IsCloser(c) }

  predicate Pairs(o: char, c: char) { (o == '(' && c == ')') || (o == '{' && c == '}') }

  /**
   The scan the check performs, from a stack of still-open brackets: Some(the openers left)
   when every closer met an open bracket of its own kind, None as soon as one did not.
   */
  function Scan(s: string, open: seq<char>): Option<seq<char>>
    decreases |s|
  {
    if s == [] then Some(open)
    else if IsOpener(s[0]) then Scan(s[1..], open + [s[0]])
    else if IsCloser(s[0]) then
      if open == [] then None
      else if Pairs(open[|open| - 1], s[0]) then Scan(s[1..], open[..|open| - 1])
      else None
    else Scan(s[1..], open)
  }

  /** The verdict of the check: the scan succeeds and leaves nothing open. */
  predicate Balanced(s: string)
  {
    Scan(s, []) == Some([])
  }

  /** One step of the scan, for a non-empty string. */
  lemma ScanStep(s: string, open: seq<char>)
    requires s != []
    ensures IsOpener(s[0]) ==> Scan(s, open) == Scan(s[1..], open + [s[0]])
    ensures IsCloser(s[0]) && open == [] ==> Scan(s, open) == None
    ensures IsCloser(s[0]) && open != [] ==>
      Scan(s, open) == if Pairs(open[|open| - 1], s[0]) then Scan(s[1..], open[..|open| - 1]) else None
    ensures !IsBracket(s[0]) ==> Scan(s, open) == Scan(s[1..], open)
  {
  }

  /** A string without brackets leaves the scan's stack as it found it. */
  lemma {:induction false} NoBracketsScan(t: string, open: seq<char>)
    requires forall k | 0 <= k < |t| :: !IsBracket(t[k])
    ensures Scan(t, open) == Some(open)
    decreases |t|
  {
    if t != [] {
      NoBracketsScan(t[1..], open);
    }
  }

  /** `braces_sequence_is_correct`: the scan over a stack that starts out empty. */
  method BracesSequenceIsCorrect(s: string) returns (ok: bool)
    ensures ok == Balanced(s)
  {
    var st := new Stack<char>();
    var i := 0;
    while i < |s|
      invariant 0 <= i <= |s|
      invariant Scan(s, []) == Scan(s[i..], st.elems)
      invariant forall k | 0 <= k < |st.elems| :: IsOpener(st.elems[k])
    {
      var brace := s[i];
      ghost var open := st.elems;
      ScanStep(s[i..], open);
      assert s[i..][0] == brace && s[i..][1..] == s[i + 1..];
      if IsBracket(brace) {
        if IsOpener(brace) {
          st.Push(brace);
        } else {
          var empty := st.IsEmpty();
          if !empty {
            var tmp := st.Pop();
            assert tmp == open[|open| - 1] && st.elems == open[..|open| - 1];
            if tmp == '(' && brace != ')' {
              assert Scan(s[i..], open) == None;
              return false;
            }
            if tmp == '{' && brace != '}' {
              assert Scan(s[i..], open) == None;
              return false;
            }
            assert Pairs(tmp, brace);
          } else {
            assert Scan(s[i..], open) == None;
            return false;
          }
        }
      }
      i := i + 1;
    }
    ok := st.IsEmpty();
  }

  /** The bracket characters of s, in order. */
  function BracketsOf(s: string): (b: string)
    ensures forall k | 0 <= k < |b| :: IsBracket(b[k])
  {
    if s == [] then []
    else if IsBracket(s[0]) then [s[0]] + BracketsOf(s[1..])
    else BracketsOf(s[1..])
  }

  /**
   The language of correctly nested brackets: empty, or an opener, a nested sequence,
   the opener's own closer, and another nested sequence.
   */
  ghost predicate Nested(t: string)
    decreases |t|
  {
    t == [] || exists i :: SplitsAt(t, i)
  }

  /** t is an opener, a nested part, its closer at position i, and a nested rest. */
  ghost predicate SplitsAt(t: string, i: int)
    decreases |t|, 0
  {
    1 <= i < |t| && Pairs(t[0], t[i]) && Nested(t[1..i]) && Nested(t[i + 1..])
  }

  /** The scan never looks at characters that are not brackets. */
  lemma {:induction false} ScanIgnoresOthers(s: string, open: seq<char>)
    ensures Scan(s, open) == Scan(BracketsOf(s), open)
    decreases |s|
  {
    if s != [] {
      if IsBracket(s[0]) {
        var b := BracketsOf(s);
        assert b[0] == s[0] && b[1..] == BracketsOf(s[1..]);
        if IsOpener(s[0]) {
          ScanIgnoresOthers(s[1..], open + [s[0]]);
        } else if open != [] && Pairs(open[|open| - 1], s[0]) {
          ScanIgnoresOthers(s[1..], open[..|open| - 1]);
        }
      } else {
        ScanIgnoresOthers(s[1..], open);
      }
    }
  }

  /** Scanning a concatenation is scanning its parts one after the other. */
  lemma {:induction false} ScanAppend(a: string, b: string, open: seq<char>)
    ensures Scan(a + b, open) == match Scan(a, open) case None => None case Some(o) => Scan(b, o)
    decreases |a|
  {
    if a == [] {
      assert a + b == b;
    } else {
      assert (a + b)[0] == a[0] && (a + b)[1..] == a[1..] + b;
      if IsOpener(a[0]) {
        ScanAppend(a[1..], b, open + [a[0]]);
      } else if IsCloser(a[0]) {
        if open != [] && Pairs(open[|open| - 1], a[0]) {
          ScanAppend(a[1..], b, open[..|open| - 1]);
        }
      } else {
        ScanAppend(a[1..], b, open);
      }
    }
  }

  /** A successful scan does not depend on brackets opened before it. */
  lemma {:induction false} ScanBelow(a: string, open: seq<char>, left: seq<char>, below: seq<char>)
    requires Scan(a, open) == Some(left)
    ensures Scan(a, below + open) == Some(below + left)
    decreases |a|
  {
    if a != [] {
      if IsOpener(a[0]) {
        assert below + open + [a[0]] == below + (open + [a[0]]);
        ScanBelow(a[1..], open + [a[0]], left, below);
      } else if IsCloser(a[0]) {
        assert (below + open)[..|below + open| - 1] == below + open[..|open| - 1];
        ScanBelow(a[1..], open[..|open| - 1], left, below);
      } else {
        ScanBelow(a[1..], open, left, below);
      }
    }
  }

  /** Two balanced strings one after the other are balanced. */
  lemma BalancedConcat(a: string, b: string)
    requires Balanced(a) && Balanced(b)
    ensures Balanced(a + b)
  {
    ScanAppend(a, b, []);
  }

  /** An opener, a balanced part, the opener's closer and another balanced part are balanced. */
  lemma WrapBalanced(o: char, a: string, c: char, b: string)
    requires Pairs(o, c) && Balanced(a) && Balanced(b)
    ensures Balanced([o] + a + [c] + b)
  {
    var t := [o] + a + [c] + b;
    var open := [o];
    ScanStep(t, []);
    assert t[0] == o && t[1..] == a + ([c] + b);
    assert [] + open == open && open + [] == open && open[..0] == [];
    ScanBelow(a, [], [], open);
    assert Scan(a, open) == Some(open);
    ScanAppend(a, [c] + b, open);
    ScanStep([c] + b, open);
    assert ([c] + b)[0] == c && ([c] + b)[1..] == b;
    assert Scan([c] + b, open) == Scan(b, []);
    assert Scan(t, []) == Scan(a + ([c] + b), open);
  }

  /** Every nested bracket sequence passes the check. */
  lemma {:induction false} NestedIsBalanced(t: string)
    requires Nested(t)
    ensures Balanced(t)
    decreases |t|
  {
    if t != [] {
      var i :| SplitsAt(t, i);
      NestedIsBalanced(t[1..i]);
      NestedIsBalanced(t[i + 1..]);
      WrapBalanced(t[0], t[1..i], t[i], t[i + 1..]);
      assert t == [t[0]] + t[1..i] + [t[i]] + t[i + 1..];
    }
  }

  /** Position j of u holds the closer of o, u[..j] is balanced and the rest closes `below`. */
  ghost predicate ClosesAt(u: string, below: seq<char>, o: char, j: int)
  {
    0 <= j < |u| && Pairs(o, u[j]) && Balanced(u[..j]) && Scan(u[j + 1..], below) == Some([])
  }

  /** An opener o2 closed at j2 + 1, then o closed j3 further on: o is closed at j2 + 2 + j3. */
  lemma CloserAfterGroup(u: string, below: seq<char>, o: char, j2: int, j3: int)
    requires u != [] && IsOpener(u[0])
    requires ClosesAt(u[1..], below + [o], u[0], j2)
    requires ClosesAt(u[j2 + 2..], below, o, j3)
    ensures ClosesAt(u, below, o, j2 + 2 + j3)
  {
    var v := u[j2 + 2..];
    var j := j2 + 2 + j3;
    assert u[j] == v[j3];
    assert u[j + 1..] == v[j3 + 1..];
    var inner := u[1..][..j2];
    WrapBalanced(u[0], inner, u[j2 + 1], v[..j3]);
    assert u[..j] == [u[0]] + inner + [u[j2 + 1]] + v[..j3];
  }

  /** A closer first that the scan accepts is the closer of o. */
  lemma CloserFirst(u: string, below: seq<char>, o: char)
    requires u != [] && IsCloser(u[0])
    requires Scan(u, below + [o]) == Some([])
    ensures ClosesAt(u, below, o, 0)
  {
    ScanStep(u, below + [o]);
    assert (below + [o])[..|below + [o]| - 1] == below;
    assert u[..0] == [] && Balanced(u[..0]);
  }

  /** When a bracket-only sequence closes everything, including an opener o above `below`,
      o is closed at some position. */
  lemma {:induction false} MatchingCloser(u: string, below: seq<char>, o: char)
    requires forall k | 0 <= k < |u| :: IsBracket(u[k])
    requires Scan(u, below + [o]) == Some([])
    ensures exists j :: ClosesAt(u, below, o, j)
    decreases |u|
  {
    if u == [] {
      assert false;
    } else if IsOpener(u[0]) {
      ScanStep(u, below + [o]);
      MatchingCloser(u[1..], below + [o], u[0]);
      var j2 :| ClosesAt(u[1..], below + [o], u[0], j2);
      assert u[1..][j2 + 1..] == u[j2 + 2..];
      MatchingCloser(u[j2 + 2..], below, o);
      var j3 :| ClosesAt(u[j2 + 2..], below, o, j3);
      CloserAfterGroup(u, below, o, j2, j3);
    } else {
      CloserFirst(u, below, o);
    }
  }

  /** Every bracket-only sequence that passes the check is nested. */
  lemma {:induction false} BalancedIsNested(t: string)
    requires forall k | 0 <= k < |t| :: IsBracket(t[k])
    requires Balanced(t)
    ensures Nested(t)
    decreases |t|
  {
    if t != [] {
      assert IsOpener(t[0]);
      assert [] + [t[0]] == [t[0]];
      ScanStep(t, []);
      MatchingCloser(t[1..], [], t[0]);
      var j :| ClosesAt(t[1..], [], t[0], j);
      var i := j + 1;
      assert t[1..][..j] == t[1..i] && t[1..][j + 1..] == t[i + 1..];
      BalancedIsNested(t[1..i]);
      BalancedIsNested(t[i + 1..]);
      assert SplitsAt(t, i);
    }
  }

  /** The check accepts exactly the strings whose brackets are correctly nested. */
  lemma BalancedIffNested(s: string)
    ensures Balanced(s) <==> Nested(BracketsOf(s))
  {
    ScanIgnoresOthers(s, []);
    if Balanced(s) {
      BalancedIsNested(BracketsOf(s));
    }
    if Nested(BracketsOf(s)) {
      NestedIsBalanced(BracketsOf(s));
    }
  }

  /** A closer with nothing open, a closer of the wrong kind and a leftover opener each fail. */
  lemma FailureCases(s: string, c: char, o: char, x: char)
    requires IsCloser(c) && IsOpener(o) && IsCloser(x) && !Pairs(o, x)
    ensures !Balanced([c] + s)
    ensures !Balanced([o, x] + s)
    ensures Balanced(s) ==> !Balanced([o] + s)
  {
    ScanStep([c] + s, []);
    ScanStep([o, x] + s, []);
    assert ([o, x] + s)[1..] == [x] + s;
    ScanStep([x] + s, [o]);
    ScanStep([o] + s, []);
    assert ([o] + s)[1..] == s;
    if Balanced(s) {
      ScanBelow(s, [], [], [o]);
      assert [o] + [] == [o] && [] + [o] == [o];
    }
  }
}
