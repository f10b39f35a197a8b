/** String operations of Python's `str` that the modelled code relies on:
    ordering, `join`, `split` on one character and `replace`. */
module Strings {

  /** Python's `a < b` on `str`: lexicographic order by code point. (Dafny's
      own `<` on sequences means "proper prefix", which is not this.) */
  predicate Less(a: string, b: string)
    decreases |a|
  {
    if a == [] then b != []
    else if b == [] then false
    else if a[0] != b[0] then a[0] < b[0]
    else Less(a[1..], b[1..])
  }

  predicate LessEq(a: string, b: string) {
    a == b || Less(a, b)
  }

  lemma {:induction false} LessIrreflexive(a: string)
    ensures !Less(a, a)
    decreases |a|
  {
    if a != [] {
      LessIrreflexive(a[1..]);
    }
  }

  lemma {:induction false} LessTransitive(a: string, b: string, c: string)
    requires Less(a, b) && Less(b, c)
    ensures Less(a, c)
    decreases |a|
  {
    if a != [] && b != [] && c != [] && a[0] == b[0] && b[0] == c[0] {
      LessTransitive(a[1..], b[1..], c[1..]);
    }
  }

  /** Any two different strings are ordered one way or the other. */
  lemma {:induction false} LessTotal(a: string, b: string)
    requires a != b
    ensures Less(a, b) || Less(b, a)
    decreases |a|
  {
    if a != [] && b != [] && a[0] == b[0] {
      assert a == [a[0]] + a[1..] && b == [b[0]] + b[1..];
      LessTotal(a[1..], b[1..]);
    }
  }

  /** Two strings that agree up to position `i` and differ there are
      ordered by their characters at `i`. */
  lemma {:induction false} LessAtFirstDifference(a: string, b: string, i: nat)
    requires i < |a| && i < |b| && a[..i] == b[..i] && a[i] != b[i]
    ensures Less(a, b) <==> a[i] < b[i]
    decreases i
  {
    if i > 0 {
      assert a[0] == a[..i][0] == b[..i][0] == b[0];
      assert a[1..][..i - 1] == a[..i][1..] == b[..i][1..] == b[1..][..i - 1];
      LessAtFirstDifference(a[1..], b[1..], i - 1);
    }
  }

  lemma {:induction false} LessAsymmetric(a: string, b: string)
    requires Less(a, b)
    ensures !Less(b, a)
    decreases |a|
  {
    if a != [] && b != [] && a[0] == b[0] {
      LessAsymmetric(a[1..], b[1..]);
    }
  }

  lemma LessEqTransitive(a: string, b: string, c: string)
    requires LessEq(a, b) && LessEq(b, c)
    ensures LessEq(a, c)
  {
    if a != b && b != c {
      LessTransitive(a, b, c);
    }
  }

  /** `<=` and `<` chain into `<`. */
  lemma LessEqLess(a: string, b: string, c: string)
    requires LessEq(a, b) && Less(b, c)
    ensures Less(a, c)
  {
    if a != b {
      LessTransitive(a, b, c);
    }
  }

  /** `k` is in `keys` and no key of `keys` is before it. */
  predicate IsLeast(k: string, keys: set<string>) {
    k in keys && forall j :: j in keys ==> LessEq(k, j)
  }

  /** Every non-empty set of strings has a least member. */
  lemma {:induction false} HasLeast(keys: set<string>)
    requires keys != {}
    ensures exists k :: IsLeast(k, keys)
    decreases keys
  {
    var x :| x in keys;
    var rest := keys - {x};
    if rest == {} {
      forall j | j in keys
        ensures LessEq(x, j)
      {
        assert j !in rest;
      }
      assert IsLeast(x, keys);
    } else {
      HasLeast(rest);
      var m :| IsLeast(m, rest);
      if Less(x, m) {
        forall j | j in keys
          ensures LessEq(x, j)
        {
          if j != x {
            LessEqTransitive(x, m, j);
          }
        }
        assert IsLeast(x, keys);
      } else {
        LessTotal(x, m);
        forall j | j in keys
          ensures LessEq(m, j)
        {
        }
        assert IsLeast(m, keys);
      }
    }
  }

  /** The least member is unique. */
  lemma LeastUnique(keys: set<string>)
    ensures forall a, b :: IsLeast(a, keys) && IsLeast(b, keys) ==> a == b
  {
    forall a, b | IsLeast(a, keys) && IsLeast(b, keys)
      ensures a == b
    {
      if a != b {
        LessAsymmetric(a, b);
      }
    }
  }

  /** The members of a set of strings in ascending order. */
  function SortedKeys(keys: set<string>): (sorted: seq<string>)
    ensures |sorted| == |keys|
    ensures forall k :: k in sorted <==> k in keys
    ensures forall i, j :: 0 <= i < j < |sorted| ==> Less(sorted[i], sorted[j])
    decreases keys
  {
    if keys == {} then []
    else
      HasLeast(keys);
      LeastUnique(keys);
      var k :| IsLeast(k, keys);
      var rest := SortedKeys(keys - {k});
      assert forall j :: j in rest ==> Less(k, j);
      [k] + rest
  }

  /** Python's `sep.join(parts)`. */
  function Join(parts: seq<string>, sep: string): string
  {
    if parts == [] then ""
    else if |parts| == 1 then parts[0]
    else parts[0] + sep + Join(parts[1..], sep)
  }

  lemma JoinTwo(a: string, b: string, sep: string)
    ensures Join([a, b], sep) == a + sep + b
  {
    assert [a, b][1..] == [b];
  }

  /** Python's `s.split(c)` for a one-character separator: the pieces between
      the occurrences of `c`; there is always at least one piece. */
  function Split(s: string, c: char): (pieces: seq<string>)
    ensures |pieces| >= 1
    ensures forall k :: 0 <= k < |pieces| ==> c !in pieces[k]
    decreases |s|
  {
    if s == [] then [""]
    else
      var rest := Split(s[1..], c);
      if s[0] == c then [""] + rest
      else [[s[0]] + rest[0]] + rest[1..]
  }

  /** Joining the pieces of a split with the separator gives back the string. */
  lemma {:induction false} JoinSplit(s: string, c: char)
    ensures Join(Split(s, c), [c]) == s
    decreases |s|
  {
    if s != [] {
      var rest := Split(s[1..], c);
      JoinSplit(s[1..], c);
      if s[0] == c {
        assert Split(s, c) == [""] + rest;
        assert s == [c] + s[1..];
      } else {
        var pieces := Split(s, c);
        assert pieces == [[s[0]] + rest[0]] + rest[1..];
        if |rest| == 1 {
          assert s[1..] == rest[0];
        } else {
          assert pieces[1..] == rest[1..];
          assert Join(rest, [c]) == rest[0] + [c] + Join(rest[1..], [c]);
          assert s == [s[0]] + s[1..];
        }
      }
    }
  }

  /** A string holding the separator exactly once splits into the two sides. */
  lemma {:induction false} SplitAtOne(a: string, b: string, c: char)
    requires c !in a && c !in b
    ensures Split(a + [c] + b, c) == [a, b]
    decreases |a|
  {
    if a == [] {
      assert (a + [c] + b)[1..] == b;
      SplitNone(b, c);
    } else {
      assert (a + [c] + b)[1..] == a[1..] + [c] + b;
      SplitAtOne(a[1..], b, c);
      assert [a[0]] + a[1..] == a;
    }
  }

  lemma {:induction false} SplitNone(s: string, c: char)
    requires c !in s
    ensures Split(s, c) == [s]
    decreases |s|
  {
    if s != [] {
      SplitNone(s[1..], c);
      assert [s[0]] + s[1..] == s;
    }
  }

  /** Python's `s.replace(pat, rep)` for a non-empty pattern: every
      occurrence, scanned left to right without overlap, is replaced. */
  function Replace(s: string, pat: string, rep: string): string
    requires pat != []
    decreases |s|
  {
    if |s| < |pat| then s
    else if s[..|pat|] == pat then rep + Replace(s[|pat|..], pat, rep)
    else [s[0]] + Replace(s[1..], pat, rep)
  }

  /** Replacing a character that does not occur changes nothing. */
  lemma {:induction false} ReplaceAbsentChar(s: string, c: char, rep: string)
    requires c !in s
    ensures Replace(s, [c], rep) == s
    decreases |s|
  {
    if s != [] {
      assert s[..1] == [s[0]];
      ReplaceAbsentChar(s[1..], c, rep);
      assert [s[0]] + s[1..] == s;
    }
  }

  /** Replacing a character that occurs once changes that occurrence only. */
  lemma {:induction false} ReplaceOneChar(a: string, b: string, c: char, rep: string)
    requires c !in a && c !in b
    ensures Replace(a + [c] + b, [c], rep) == a + rep + b
    decreases |a|
  {
    var s := a + [c] + b;
    if a == [] {
      assert s[..1] == [c] && s[1..] == b;
      ReplaceAbsentChar(b, c, rep);
    } else {
      assert s[..1] == [a[0]] && s[1..] == a[1..] + [c] + b;
      ReplaceOneChar(a[1..], b, c, rep);
      assert [a[0]] + a[1..] == a;
    }
  }

  /** Replacing a one-character pattern works piece by piece. */
  lemma {:induction false} ReplaceCharConcat(x: string, y: string, c: char, rep: string)
    ensures Replace(x + y, [c], rep) == Replace(x, [c], rep) + Replace(y, [c], rep)
    decreases |x|
  {
    if x == [] {
      assert x + y == y;
    } else {
      var s := x + y;
      assert s[..1] == [x[0]] && x[..1] == [x[0]];
      assert s[1..] == x[1..] + y;
      ReplaceCharConcat(x[1..], y, c, rep);
    }
  }

  /** A character found neither in the string nor in the replacement is not
      in the result. */
  lemma {:induction false} ReplaceCharKeepsOut(s: string, c: char, rep: string, d: char)
    requires d !in s && d !in rep
    ensures d !in Replace(s, [c], rep)
    decreases |s|
  {
    if s != [] {
      ReplaceCharKeepsOut(s[1..], c, rep, d);
    }
  }

  /** Replacing a character by the empty string deletes every occurrence. */
  lemma {:induction false} ReplaceDeletes(s: string, c: char)
    ensures c !in Replace(s, [c], "")
    ensures |Replace(s, [c], "")| <= |s|
    decreases |s|
  {
    if s != [] {
      ReplaceDeletes(s[1..], c);
    }
  }

  /** Replacing skips a prefix that holds no first character of the
      pattern. */
  lemma {:induction false} ReplaceSkips(p: string, rest: string, pat: string, rep: string)
    requires pat != [] && pat[0] !in p
    ensures Replace(p + rest, pat, rep) == p + Replace(rest, pat, rep)
    decreases |p|
  {
    if p != [] {
      var s := p + rest;
      assert s[0] == p[0] && s[1..] == p[1..] + rest;
      if |s| >= |pat| {
        assert s[..|pat|][0] != pat[0];
      }
      ReplaceSkips(p[1..], rest, pat, rep);
      assert [p[0]] + p[1..] == p;
    } else {
      assert p + rest == rest;
    }
  }

  /** An occurrence at the start is replaced. */
  lemma ReplaceHead(pat: string, rest: string, rep: string)
    requires pat != []
    ensures Replace(pat + rest, pat, rep) == rep + Replace(rest, pat, rep)
  {
    var s := pat + rest;
    assert s[..|pat|] == pat && s[|pat|..] == rest;
  }

  /** A string without the pattern's first character is left alone. */
  lemma ReplaceAbsent(s: string, pat: string, rep: string)
    requires pat != [] && pat[0] !in s
    ensures Replace(s, pat, rep) == s
  {
    ReplaceSkips(s, [], pat, rep);
    assert s + [] == s;
  }

  /** Where the pattern does not start, the first character is kept. */
  lemma ReplaceMiss(s: string, pat: string, rep: string)
    requires pat != [] && s != []
    requires |s| < |pat| || s[..|pat|] != pat
    ensures Replace(s, pat, rep) == [s[0]] + Replace(s[1..], pat, rep)
  {
  }
}
