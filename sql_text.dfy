/**
 * Scanning a query text character by character: each `$` directly followed
 * by digits, in order, and how often a word occurs with its letters matched
 * exactly. This is not SQL lexing: comments, quoted text and keyword case
 * are not taken into account. Both are
 * compositional over concatenation when the join point cannot glue two
 * pieces into one token, which is what lets the builder's text be analysed
 * piece by piece.
 */
module SqlText {
  import opened Decimal

  /** Length of the run of digits at the start of `s`. */
  function DigitRun(s: string): (n: nat)
    ensures n <= |s|
    ensures AllDigits(s[..n])
    ensures n < |s| ==> !IsDigit(s[n])
    decreases |s|
  {
    if s != [] && IsDigit(s[0]) then
      var n := 1 + DigitRun(s[1..]);
      assert forall i :: 1 <= i < n ==> s[..n][i] == s[1..][..n - 1][i - 1];
      n
    else 0
  }

  /**
   * The positional parameters of `s` in textual order: each `$` directly
   * followed by digits contributes the number those digits spell.
   */
  function Placeholders(s: string): (ps: seq<nat>)
    decreases |s|
  {
    if s == [] then []
    else if s[0] == '$' && DigitRun(s[1..]) > 0 then
      var n := DigitRun(s[1..]);
      [ParseDigits(s[1..][..n])] + Placeholders(s[1 + n..])
    else Placeholders(s[1..])
  }

  /** The text of the `k`-th positional parameter. */
  function Placeholder(k: nat): string {
    "$" + NatToString(k)
  }

  /** Appending `b` to `a` neither extends nor creates a parameter across the join. */
  predicate Separable(a: string, b: string) {
    a == [] || b == [] || !IsDigit(b[0]) || (a[|a| - 1] != '$' && !IsDigit(a[|a| - 1]))
  }

  lemma {:induction false} DigitRunConcat(x: string, b: string)
    requires b == [] || !IsDigit(b[0]) || (x != [] && !IsDigit(x[|x| - 1]))
    ensures DigitRun(x + b) == DigitRun(x)
    decreases |x|
  {
    if x == [] {
      assert x + b == b;
    } else {
      assert (x + b)[0] == x[0];
      if IsDigit(x[0]) {
        var t := x[1..];
        assert (x + b)[1..] == t + b;
        if t == [] {
          assert b == [] || !IsDigit(b[0]);
        } else {
          assert t[|t| - 1] == x[|x| - 1];
        }
        DigitRunConcat(t, b);
      }
    }
  }

  lemma {:induction false} PlaceholdersConcat(a: string, b: string)
    requires Separable(a, b)
    ensures Placeholders(a + b) == Placeholders(a) + Placeholders(b)
    decreases |a|
  {
    if a == [] {
      assert a + b == b;
    } else if b == [] {
      assert a + b == a;
    } else {
      var t := a[1..];
      assert (a + b)[1..] == t + b;
      if a[0] == '$' && DigitRun(t) > 0 {
        if t == [] {
        } else {
          assert t[|t| - 1] == a[|a| - 1];
          DigitRunConcat(t, b);
          var n := DigitRun(t);
          assert (t + b)[..n] == t[..n];
          assert (a + b)[1 + n..] == a[1 + n..] + b;
          if a[1 + n..] != [] {
            assert a[1 + n..][|a[1 + n..]| - 1] == a[|a| - 1];
          }
          PlaceholdersConcat(a[1 + n..], b);
        }
      } else {
        if a[0] == '$' {
          // `$` followed by no digit in `a`: nothing starts here in `a + b` either.
          if t == [] {
            assert t + b == b;
            assert !IsDigit(b[0]);
          } else {
            assert t[|t| - 1] == a[|a| - 1];
            DigitRunConcat(t, b);
          }
        }
        if t != [] {
          assert t[|t| - 1] == a[|a| - 1];
        }
        PlaceholdersConcat(t, b);
      }
    }
  }

  /** A text without `$` holds no positional parameter. */
  lemma {:induction false} NoDollarNoPlaceholders(s: string)
    requires '$' !in s
    ensures Placeholders(s) == []
    decreases |s|
  {
    if s != [] {
      assert s[0] != '$';
      assert '$' !in s[1..] by {
        forall i | 0 <= i < |s[1..]| ensures s[1..][i] != '$' {
          assert s[1..][i] == s[i + 1];
        }
      }
      NoDollarNoPlaceholders(s[1..]);
    }
  }

  /** The text `$k` holds exactly the parameter `k`. */
  lemma PlaceholderReadsBack(k: nat)
    ensures Placeholders(Placeholder(k)) == [k]
    ensures |Placeholder(k)| > 1 && Placeholder(k)[0] == '$'
    ensures IsDigit(Placeholder(k)[|Placeholder(k)| - 1])
  {
    var d := NatToString(k);
    var s := Placeholder(k);
    NatToStringRoundTrip(k);
    assert s[1..] == d;
    DigitRunConcat(d, []);
    assert d + [] == d;
    assert DigitRun(d) == |d|;
    assert d[..|d|] == d;
    assert s[1 + |d|..] == [];
  }

  /** Number of (possibly overlapping) occurrences of the non-empty word `p` in `s`. */
  function Count(s: string, p: string): (c: nat)
    requires p != []
    decreases |s|
  {
    if |s| < |p| then 0 else (if s[..|p|] == p then 1 else 0) + Count(s[1..], p)
  }

  /** `a + b` has no occurrence straddling the join when a character beside it is foreign to `p`. */
  lemma {:induction false} CountConcat(a: string, b: string, p: string)
    requires p != []
    requires a == [] || b == [] || a[|a| - 1] !in p || b[0] !in p
    ensures Count(a + b, p) == Count(a, p) + Count(b, p)
    decreases |a|
  {
    if a == [] {
      assert a + b == b;
    } else if b == [] {
      assert a + b == a;
    } else {
      var t := a[1..];
      assert (a + b)[1..] == t + b;
      if t != [] {
        assert t[|t| - 1] == a[|a| - 1];
      }
      CountConcat(t, b, p);
      if |a| >= |p| {
        assert (a + b)[..|p|] == a[..|p|];
      } else if |a + b| >= |p| {
        assert Count(t, p) == 0;
        assert (a + b)[..|p|] != p by {
          assert (a + b)[..|p|][|a| - 1] == a[|a| - 1];
          assert (a + b)[..|p|][|a|] == b[0];
        }
      }
    }
  }

  /** A text missing the first letter of `p` holds no occurrence of `p`. */
  lemma {:induction false} CountAbsent(s: string, p: string)
    requires p != [] && p[0] !in s
    ensures Count(s, p) == 0
    decreases |s|
  {
    if |s| >= |p| {
      assert s[..|p|][0] == s[0];
      assert p[0] !in s[1..] by {
        forall i | 0 <= i < |s[1..]| ensures s[1..][i] != p[0] {
          assert s[1..][i] == s[i + 1];
        }
      }
      CountAbsent(s[1..], p);
    }
  }
}
