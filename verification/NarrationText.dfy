/** Template substitution: one pass over the template, and exactly which templates come out free of braces. */
module NarrationText {

  const MAX_NAME := 16

  predicate BraceFree(s: string) {
    '{' !in s && '}' !in s
  }

  // ----- substitution -----

  predicate IsNameChar(c: char) {
    'a' <= c <= 'z' || c == '_'
  }

  function NameLength(s: string): (n: nat)
    ensures n <= |s|
    ensures forall k | 0 <= k < n :: IsNameChar(s[k])
    ensures n < |s| ==> !IsNameChar(s[n])
  {
    if s == [] || !IsNameChar(s[0]) then 0 else 1 + NameLength(s[1..])
  }

  /** The text starts with a placeholder: a brace, 1 to 16 name characters, a closing brace. */
  predicate StartsWithHole(t: string) {
    && t != []
    && t[0] == '{'
    && var n := NameLength(t[1..]); 1 <= n <= MAX_NAME && n + 1 < |t| && t[n + 1] == '}'
  }

  function HoleName(t: string): string
    requires StartsWithHole(t)
  {
    t[1..1 + NameLength(t[1..])]
  }

  function AfterHole(t: string): (rest: string)
    requires StartsWithHole(t)
    ensures |rest| < |t|
  {
    t[NameLength(t[1..]) + 2..]
  }

  function Filled(name: string, values: map<string, string>): string {
    if name in values then values[name] else ""
  }

  /** One left-to-right pass: a placeholder becomes its value, or nothing when the name is unknown. */
  function Substitute(t: string, values: map<string, string>): string
    decreases |t|
  {
    if t == [] then []
    else if StartsWithHole(t) then
      Filled(HoleName(t), values) + Substitute(AfterHole(t), values)
    else [t[0]] + Substitute(t[1..], values)
  }

  /** A placeholder stands at positions i to j of the template. */
  predicate HoleAt(t: string, i: nat, j: nat) {
    && i + 1 < j < |t|
    && j - i - 1 <= MAX_NAME
    && t[i] == '{'
    && t[j] == '}'
    && (forall k | i < k < j :: IsNameChar(t[k]))
  }

  ghost predicate Opens(t: string, i: nat) {
    exists j: nat :: HoleAt(t, i, j)
  }

  ghost predicate Closes(t: string, j: nat) {
    exists i: nat :: HoleAt(t, i, j)
  }

  /** Every brace belongs to a placeholder. */
  ghost predicate WellFormed(t: string) {
    && (forall i: nat | i < |t| && t[i] == '{' :: Opens(t, i))
    && (forall j: nat | j < |t| && t[j] == '}' :: Closes(t, j))
  }

  lemma HoleAtStart(t: string, j: nat)
    requires HoleAt(t, 0, j)
    ensures StartsWithHole(t) && NameLength(t[1..]) == j - 1
  {
    assert t[1..][j - 1] == '}';
  }

  lemma HoleShifts(t: string, d: nat, i: nat, j: nat)
    requires d <= |t|
    ensures HoleAt(t, d + i, d + j) <==> HoleAt(t[d..], i, j)
  {
    if HoleAt(t[d..], i, j) {
      assert forall k | d + i < k < d + j :: t[k] == t[d..][k - d];
    }
  }

  lemma OpensShifts(t: string, d: nat, i: nat)
    requires d <= |t|
    ensures Opens(t, d + i) <==> Opens(t[d..], i)
  {
    var k := d + i;
    if j: nat :| HoleAt(t, k, j) {
      HoleShifts(t, d, i, j - d);
    }
    if j: nat :| HoleAt(t[d..], i, j) {
      HoleShifts(t, d, i, j);
    }
  }

  /** No placeholder reaches across position d. */
  ghost predicate Boundary(t: string, d: nat) {
    forall i: nat, j: nat | HoleAt(t, i, j) && i < d :: j < d
  }

  lemma ClosesShifts(t: string, d: nat, j: nat)
    requires d <= |t| && Boundary(t, d)
    ensures Closes(t, d + j) <==> Closes(t[d..], j)
  {
    var k := d + j;
    if i: nat :| HoleAt(t, i, k) {
      HoleShifts(t, d, i - d, j);
    }
    if i: nat :| HoleAt(t[d..], i, j) {
      HoleShifts(t, d, i, j);
    }
  }

  lemma TailIsWellFormed(t: string, d: nat)
    requires d <= |t| && Boundary(t, d) && WellFormed(t)
    ensures WellFormed(t[d..])
  {
    forall i: nat | i < |t[d..]| && t[d..][i] == '{' ensures Opens(t[d..], i) {
      assert t[d + i] == '{';
      OpensShifts(t, d, i);
    }
    forall j: nat | j < |t[d..]| && t[d..][j] == '}' ensures Closes(t[d..], j) {
      assert t[d + j] == '}';
      ClosesShifts(t, d, j);
    }
  }

  lemma OpensBehind(t: string, d: nat, i: nat)
    requires d <= i < |t| && t[i] == '{' && WellFormed(t[d..])
    ensures Opens(t, i)
  {
    assert t[d..][i - d] == '{';
    OpensShifts(t, d, i - d);
  }

  lemma ClosesBehind(t: string, d: nat, j: nat)
    requires d <= j < |t| && t[j] == '}' && Boundary(t, d) && WellFormed(t[d..])
    ensures Closes(t, j)
  {
    assert t[d..][j - d] == '}';
    ClosesShifts(t, d, j - d);
  }

  lemma WellFormedTail(t: string, d: nat)
    requires d <= |t| && Boundary(t, d)
    requires forall k: nat | k < d && t[k] == '{' :: Opens(t, k)
    requires forall k: nat | k < d && t[k] == '}' :: Closes(t, k)
    ensures WellFormed(t) <==> WellFormed(t[d..])
  {
    if WellFormed(t) {
      TailIsWellFormed(t, d);
    }
    if WellFormed(t[d..]) {
      forall i: nat | d <= i < |t| && t[i] == '{' ensures Opens(t, i) {
        OpensBehind(t, d, i);
      }
      forall j: nat | d <= j < |t| && t[j] == '}' ensures Closes(t, j) {
        ClosesBehind(t, d, j);
      }
    }
  }

  lemma HoleTail(t: string)
    requires StartsWithHole(t)
    ensures WellFormed(t) <==> WellFormed(AfterHole(t))
  {
    var n := NameLength(t[1..]);
    assert forall k | 0 < k < n + 1 :: t[k] == t[1..][k - 1];
    assert HoleAt(t, 0, n + 1);
    WellFormedTail(t, n + 2);
  }

  lemma LetterTail(t: string)
    requires t != [] && !StartsWithHole(t)
    ensures WellFormed(t) <==> BraceFree(t[..1]) && WellFormed(t[1..])
  {
    if j: nat :| HoleAt(t, 0, j) {
      HoleAtStart(t, j);
    }
    if BraceFree(t[..1]) {
      assert t[0] in t[..1];
      WellFormedTail(t, 1);
    } else {
      assert t[0] == '{' || t[0] == '}';
    }
  }

  ghost predicate BraceFreeValues(values: map<string, string>) {
    forall name | name in values :: BraceFree(values[name])
  }

  /** With brace-free values, a filled template is brace-free exactly when its braces all belong to placeholders. */
  lemma {:induction false} BraceFreeIffWellFormed(t: string, values: map<string, string>)
    requires BraceFreeValues(values)
    ensures BraceFree(Substitute(t, values)) <==> WellFormed(t)
    decreases |t|
  {
    if t == [] {
    } else if StartsWithHole(t) {
      BraceFreeIffWellFormed(AfterHole(t), values);
      HoleTail(t);
    } else {
      BraceFreeIffWellFormed(t[1..], values);
      LetterTail(t);
    }
  }

  // ----- one pass -----

  lemma HoleIsAt(t: string)
    requires StartsWithHole(t)
    ensures HoleAt(t, 0, NameLength(t[1..]) + 1)
  {
    var n := NameLength(t[1..]);
    assert forall k | 0 < k < n + 1 :: t[k] == t[1..][k - 1];
  }

  lemma HoleFromPrefix(t: string, d: nat)
    requires d <= |t| && StartsWithHole(t[..d])
    ensures StartsWithHole(t)
  {
    var n := NameLength(t[..d][1..]);
    HoleIsAt(t[..d]);
    assert HoleAt(t, 0, n + 1);
    HoleAtStart(t, n + 1);
  }

  /** A placeholder that starts before an uncut position ends before it. */
  lemma HoleFitsPrefix(t: string, d: nat)
    requires 0 < d <= |t| && Boundary(t, d) && StartsWithHole(t)
    ensures var e := NameLength(t[1..]) + 2;
            && e <= d
            && StartsWithHole(t[..d]) && HoleName(t[..d]) == HoleName(t)
            && AfterHole(t) == t[e..] && AfterHole(t[..d]) == t[..d][e..]
  {
    var n := NameLength(t[1..]);
    HoleIsAt(t);
    assert HoleAt(t[..d], 0, n + 1);
    HoleAtStart(t[..d], n + 1);
  }

  lemma BoundaryShifts(t: string, d: nat, e: nat)
    requires e <= d <= |t| && Boundary(t, d)
    ensures Boundary(t[e..], d - e)
  {
    forall i: nat, j: nat | HoleAt(t[e..], i, j) && i < d - e ensures j < d - e {
      HoleShifts(t, e, i, j);
    }
  }

  lemma HoleStep(t: string, d: nat)
    requires 0 < d <= |t| && Boundary(t, d) && StartsWithHole(t)
    ensures var e := NameLength(t[1..]) + 2;
            && e <= d && Boundary(t[e..], d - e)
            && StartsWithHole(t[..d]) && HoleName(t[..d]) == HoleName(t)
            && AfterHole(t) == t[e..] && AfterHole(t[..d]) == t[..d][e..]
  {
    HoleFitsPrefix(t, d);
    BoundaryShifts(t, d, NameLength(t[1..]) + 2);
  }

  lemma LetterStep(t: string, d: nat)
    requires 0 < d <= |t| && Boundary(t, d) && !StartsWithHole(t)
    ensures Boundary(t[1..], d - 1) && !StartsWithHole(t[..d])
  {
    if StartsWithHole(t[..d]) {
      HoleFromPrefix(t, d);
    }
    BoundaryShifts(t, d, 1);
  }

  /** The equation that says the template is filled in two pieces. */
  predicate SplitsAt(t: string, d: nat, values: map<string, string>)
    requires d <= |t|
  {
    Substitute(t, values) == Substitute(t[..d], values) + Substitute(t[d..], values)
  }

  lemma SplitAtStart(t: string, values: map<string, string>)
    ensures SplitsAt(t, 0, values)
  {
    assert t[..0] == [] && t[0..] == t;
  }

  lemma FillsFirst(t: string, values: map<string, string>)
    requires StartsWithHole(t)
    ensures Substitute(t, values) == Filled(HoleName(t), values) + Substitute(AfterHole(t), values)
  {
  }

  lemma Chain(whole: string, front: string, back: string, v: string, rest: string, frontRest: string)
    requires whole == v + rest && front == v + frontRest && rest == frontRest + back
    ensures whole == front + back
  {
  }

  lemma SplitAfterHole(t: string, d: nat, e: nat, values: map<string, string>)
    requires 0 < d <= |t| && Boundary(t, d) && StartsWithHole(t) && e == NameLength(t[1..]) + 2
    requires e <= d && SplitsAt(t[e..], d - e, values)
    ensures SplitsAt(t, d, values)
  {
    HoleStep(t, d);
    assert t[e..][..d - e] == t[..d][e..] && t[e..][d - e..] == t[d..];
    FillsFirst(t, values);
    FillsFirst(t[..d], values);
    Chain(Substitute(t, values), Substitute(t[..d], values), Substitute(t[d..], values),
          Filled(HoleName(t), values), Substitute(t[e..], values), Substitute(t[..d][e..], values));
  }

  lemma CopiesFirst(t: string, values: map<string, string>)
    requires t != [] && !StartsWithHole(t)
    ensures Substitute(t, values) == [t[0]] + Substitute(t[1..], values)
  {
  }

  lemma SplitAfterLetter(t: string, d: nat, values: map<string, string>)
    requires 0 < d <= |t| && Boundary(t, d) && !StartsWithHole(t)
    requires SplitsAt(t[1..], d - 1, values)
    ensures SplitsAt(t, d, values)
  {
    LetterStep(t, d);
    assert t[1..][..d - 1] == t[..d][1..] && t[1..][d - 1..] == t[d..];
    CopiesFirst(t, values);
    CopiesFirst(t[..d], values);
    Chain(Substitute(t, values), Substitute(t[..d], values), Substitute(t[d..], values),
          [t[0]], Substitute(t[1..], values), Substitute(t[..d][1..], values));
  }

  /** Substitution goes through a template piece by piece, wherever no placeholder is cut. */
  lemma {:induction false} SubstituteSplits(t: string, d: nat, values: map<string, string>)
    requires d <= |t| && Boundary(t, d)
    ensures SplitsAt(t, d, values)
    decreases d
  {
    if d == 0 {
      SplitAtStart(t, values);
    } else if StartsWithHole(t) {
      HoleStep(t, d);
      var e := NameLength(t[1..]) + 2;
      SubstituteSplits(t[e..], d - e, values);
      SplitAfterHole(t, d, e, values);
    } else {
      LetterStep(t, d);
      SubstituteSplits(t[1..], d - 1, values);
      SplitAfterLetter(t, d, values);
    }
  }

  predicate IsName(name: string) {
    1 <= |name| <= MAX_NAME && forall k | 0 <= k < |name| :: IsNameChar(name[k])
  }

  /** Nothing before a placeholder can reach into it. */
  lemma HolesStandAlone(pre: string, name: string, post: string)
    requires IsName(name)
    ensures Boundary(pre + "{" + name + "}" + post, |pre|)
  {
    var t := pre + "{" + name + "}" + post;
    assert t[|pre|] == '{';
  }

  /** A placeholder anywhere in a template becomes its value, copied and never scanned again whatever it contains, or
      vanishes when its name is unknown; the text around it is filled as if it stood alone. */
  lemma SinglePass(pre: string, name: string, post: string, values: map<string, string>)
    requires IsName(name)
    ensures Substitute(pre + "{" + name + "}" + post, values) ==
            Substitute(pre, values) + Filled(name, values) + Substitute(post, values)
  {
    var t, rest := pre + "{" + name + "}" + post, "{" + name + "}" + post;
    assert t[..|pre|] == pre && t[|pre|..] == rest;
    assert SplitsAt(t, |pre|, values) by {
      HolesStandAlone(pre, name, post);
      SubstituteSplits(t, |pre|, values);
    }
    FillsHole(name, post, values);
  }

  lemma FillsHole(name: string, post: string, values: map<string, string>)
    requires IsName(name)
    ensures Substitute("{" + name + "}" + post, values) == Filled(name, values) + Substitute(post, values)
  {
    var rest := "{" + name + "}" + post;
    assert HoleAt(rest, 0, |name| + 1) by {
      assert forall k | 0 < k < |name| + 1 :: rest[k] == name[k - 1];
    }
    HoleAtStart(rest, |name| + 1);
    assert HoleName(rest) == name && AfterHole(rest) == post;
    FillsFirst(rest, values);
  }
}
