/** The JavaScript built-ins the routes rely on: possibly-undefined values,
    truthiness, `String.prototype.trim`, `String.prototype.includes` and the
    line structure of template literals. Strings are sequences of code points. */
module Js {

  /** A value that may be missing: a property read with `?.` that may come
      back `undefined`. */
  datatype Option<+T> = None | Some(value: T)

  /** How a number is written into a template literal (`${light}`). */
  type Show = real -> string

  /** `!!v` for a possibly-missing string: `undefined` and "" are falsy. */
  predicate Truthy(v: Option<string>)
  {
    v.Some? && v.value != ""
  }

  /** The code points `trim` removes: ECMAScript's WhiteSpace (TAB, VT, FF,
      SP, NBSP, ZWNBSP and the Zs category) and LineTerminator (LF, CR, LS, PS). */
  predicate IsTrimSpace(c: char)
  {
    c == '\t' || c == '\n' || c == '\U{000B}' || c == '\U{000C}' || c == '\r' ||
    c == ' ' || c == '\U{00A0}' || c == '\U{1680}' || ('\U{2000}' <= c <= '\U{200A}') ||
    c == '\U{2028}' || c == '\U{2029}' || c == '\U{202F}' || c == '\U{205F}' ||
    c == '\U{3000}' || c == '\U{FEFF}'
  }

  /** Every code point of `s` is one `trim` removes. */
  predicate AllTrimSpace(s: string)
  {
    forall i :: 0 <= i < |s| ==> IsTrimSpace(s[i])
  }

  /** The number of white-space code points `s` starts with. */
  function LeadingSpaces(s: string): (n: nat)
    ensures n <= |s|
    ensures n < |s| ==> !IsTrimSpace(s[n])
  {
    if s != [] && IsTrimSpace(s[0]) then 1 + LeadingSpaces(s[1..]) else 0
  }

  /** The number of white-space code points `s` ends with. */
  function TrailingSpaces(s: string): (n: nat)
    ensures n <= |s|
    ensures n < |s| ==> !IsTrimSpace(s[|s| - 1 - n])
  {
    if s != [] && IsTrimSpace(s[|s| - 1]) then 1 + TrailingSpaces(s[..|s| - 1]) else 0
  }

  /** The leading run really is white space. */
  lemma {:induction false} LeadingSpacesAreSpace(s: string)
    ensures AllTrimSpace(s[..LeadingSpaces(s)])
    decreases |s|
  {
    if s != [] && IsTrimSpace(s[0]) {
      var q := s[1..];
      LeadingSpacesAreSpace(q);
      var w := s[..LeadingSpaces(s)];
      forall i | 0 <= i < |w|
        ensures IsTrimSpace(w[i])
      {
        if i > 0 {
          assert w[i] == q[..LeadingSpaces(q)][i - 1];
        }
      }
    }
  }

  /** The trailing run really is white space. */
  lemma {:induction false} TrailingSpacesAreSpace(s: string)
    ensures AllTrimSpace(s[|s| - TrailingSpaces(s)..])
    decreases |s|
  {
    if s != [] && IsTrimSpace(s[|s| - 1]) {
      var p := s[..|s| - 1];
      TrailingSpacesAreSpace(p);
      var w := s[|s| - TrailingSpaces(s)..];
      forall i | 0 <= i < |w|
        ensures IsTrimSpace(w[i])
      {
        if i < |w| - 1 {
          assert w[i] == p[|p| - TrailingSpaces(p)..][i];
        }
      }
    }
  }

  /** `s.trim()`: `s` without its leading and trailing white space; neither end
      of the result is white space. */
  function Trim(s: string): (r: string)
    ensures r != [] ==> !IsTrimSpace(r[0]) && !IsTrimSpace(r[|r| - 1])
  {
    var t := s[LeadingSpaces(s)..];
    t[..|t| - TrailingSpaces(t)]
  }

  /** `trim` keeps a contiguous block of `s`, and what it cuts on either side
      is white space only. */
  lemma TrimKeepsMiddle(s: string)
    ensures var k := LeadingSpaces(s); var r := Trim(s);
      && k + |r| <= |s|
      && s == s[..k] + r + s[k + |r|..]
      && AllTrimSpace(s[..k])
      && AllTrimSpace(s[k + |r|..])
  {
    var k := LeadingSpaces(s);
    var t := s[k..];
    LeadingSpacesAreSpace(s);
    TrailingSpacesAreSpace(t);
    CutMiddle(s, k, |t| - TrailingSpaces(t));
  }

  /** Cutting white space off both ends of `s` leaves the block between the cuts. */
  lemma CutMiddle(s: string, k: nat, n: nat)
    requires k + n <= |s|
    requires AllTrimSpace(s[k..][n..])
    ensures s[k..][..n] == s[k..k + n]
    ensures s == s[..k] + s[k..][..n] + s[k + n..]
    ensures AllTrimSpace(s[k + n..])
  {
    assert s[k..][n..] == s[k + n..];
    assert s[k..][..n] == s[k..k + n];
    assert s == s[..k + n] + s[k + n..];
    assert s[..k + n] == s[..k] + s[k..k + n];
  }

  lemma AppendAssoc<T>(a: seq<T>, b: seq<T>, c: seq<T>)
    ensures a + (b + c) == a + b + c
  {
  }

  /** Trimming twice is trimming once. */
  lemma TrimIdempotent(s: string)
    ensures Trim(Trim(s)) == Trim(s)
  {
  }

  /** `s.includes(sub)`, as a left-to-right scan for a position where `sub` starts. */
  predicate Includes(s: string, sub: string)
    decreases |s|
  {
    sub <= s || (s != [] && Includes(s[1..], sub))
  }

  /** `sub` starts at position `i` of `s`. */
  predicate OccursAt(s: string, sub: string, i: int)
  {
    0 <= i <= |s| - |sub| && s[i..i + |sub|] == sub
  }

  /** The scan agrees with the definition "`sub` occurs at some position of `s`". */
  lemma {:induction false} IncludesIffOccurs(s: string, sub: string)
    ensures Includes(s, sub) <==> exists i :: OccursAt(s, sub, i)
    decreases |s|
  {
    if sub <= s {
      assert OccursAt(s, sub, 0);
    } else if s == [] {
    } else {
      IncludesIffOccurs(s[1..], sub);
      if exists i :: OccursAt(s, sub, i) {
        var i :| OccursAt(s, sub, i);
        assert i != 0;
        assert OccursAt(s[1..], sub, i - 1);
      }
      if Includes(s[1..], sub) {
        var i :| OccursAt(s[1..], sub, i);
        assert OccursAt(s, sub, i + 1);
      }
    }
  }

  /** A string includes every string it was concatenated from. */
  lemma {:induction false} IncludesInfix(a: string, sub: string, b: string)
    ensures Includes(a + sub + b, sub)
    decreases |a|
  {
    if a == [] {
      assert a + sub + b == sub + b;
    } else {
      assert (a + sub + b)[1..] == a[1..] + sub + b;
      IncludesInfix(a[1..], sub, b);
    }
  }

  /** Prepending text keeps an occurrence. */
  lemma {:induction false} IncludesAfter(p: string, t: string, sub: string)
    requires Includes(t, sub)
    ensures Includes(p + t, sub)
    decreases |p|
  {
    if p != [] {
      assert (p + t)[1..] == p[1..] + t;
      IncludesAfter(p[1..], t, sub);
    } else {
      assert p + t == t;
    }
  }

  /** Inclusion is transitive: a part of a part is a part. */
  lemma IncludesTrans(s: string, mid: string, sub: string)
    requires Includes(s, mid) && Includes(mid, sub)
    ensures Includes(s, sub)
  {
    IncludesIffOccurs(s, mid);
    IncludesIffOccurs(mid, sub);
    var i :| OccursAt(s, mid, i);
    var j :| OccursAt(mid, sub, j);
    forall k | 0 <= k < |sub|
      ensures s[i + j..i + j + |sub|][k] == sub[k]
    {
      assert sub[k] == mid[j..j + |sub|][k] == mid[j + k];
      assert mid[j + k] == s[i..i + |mid|][j + k];
    }
    assert s[i + j..i + j + |sub|] == sub;
    IncludesIffOccurs(s, sub);
  }

  /** What `trim` keeps is part of the original text. */
  lemma TrimIncluded(s: string)
    ensures Includes(s, Trim(s))
  {
    TrimKeepsMiddle(s);
    var r := Trim(s);
    var k := LeadingSpaces(s);
    IncludesInfix(s[..k], r, s[k + |r|..]);
  }

  /** A string that lacks one of the code points of `sub` does not include `sub`. */
  lemma {:induction false} NotIncludes(s: string, sub: string, j: nat)
    requires j < |sub| && sub[j] !in s
    ensures !Includes(s, sub)
    decreases |s|
  {
    if s != [] {
      assert forall c :: c in s[1..] ==> c in s;
      NotIncludes(s[1..], sub, j);
    }
  }

  /** The text of a multi-line template literal: its lines joined by line feeds. */
  function JoinLines(lines: seq<string>): string
  {
    if |lines| == 0 then ""
    else if |lines| == 1 then lines[0]
    else lines[0] + "\n" + JoinLines(lines[1..])
  }

  /** A text made of a tag and a part includes the part. */
  lemma LabelledIncludes(tag: string, part: string)
    ensures Includes(tag + part, part)
  {
    IncludesInfix(tag, part, "");
    assert tag + part + "" == tag + part;
  }

  /** Every line of a template appears in its text. */
  lemma {:induction false} JoinLinesIncludes(lines: seq<string>, k: nat)
    requires k < |lines|
    ensures Includes(JoinLines(lines), lines[k])
    decreases |lines|
  {
    if |lines| == 1 {
      IncludesInfix("", lines[0], "");
      assert "" + lines[0] + "" == lines[0];
    } else if k == 0 {
      IncludesInfix("", lines[0], "\n" + JoinLines(lines[1..]));
      assert "" + lines[0] + ("\n" + JoinLines(lines[1..])) == JoinLines(lines);
    } else {
      JoinLinesIncludes(lines[1..], k - 1);
      IncludesAfter(lines[0] + "\n", JoinLines(lines[1..]), lines[k]);
    }
  }

  lemma JoinLinesIncludesAll(lines: seq<string>)
    ensures forall k :: 0 <= k < |lines| ==> Includes(JoinLines(lines), lines[k])
  {
    forall k | 0 <= k < |lines|
      ensures Includes(JoinLines(lines), lines[k])
    {
      JoinLinesIncludes(lines, k);
    }
  }
}
