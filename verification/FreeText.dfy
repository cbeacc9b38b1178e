/**
 The cleaning of names and labels before they are spoken. Unicode properties of characters are a parameter;
 normalisation is not part of this model.
 */
module FreeText {
  import opened Prelude

  /** `silent`: categories C*, So and Sk; `space`: what `str.split` splits on; `alnum`: `str.isalnum`. */
  datatype Unicode = Unicode(silent: char -> bool, space: char -> bool, alnum: char -> bool)

  const DROP_CHARS := "<>{}[]|\\^~`*_#@$%+=/;\""
  const EDGE_CHARS := " .,:;!?-\U{2013}\U{2014}"

  ghost predicate Sane(u: Unicode) {
    u.space(' ') && !u.silent(' ')
  }

  // ----- the steps -----

  predicate IsKept(u: Unicode, c: char) {
    !u.silent(c) && c !in DROP_CHARS
  }

  function Kept(u: Unicode, s: string): string {
    if s == [] then [] else Kept(u, s[..|s| - 1]) + if IsKept(u, s[|s| - 1]) then [s[|s| - 1]] else []
  }

  function WordLength(u: Unicode, s: string): (n: nat)
    ensures n <= |s|
    ensures forall k | 0 <= k < n :: !u.space(s[k])
    ensures n < |s| ==> u.space(s[n])
  {
    if s == [] || u.space(s[0]) then 0 else 1 + WordLength(u, s[1..])
  }

  /** `str.split()` */
  function Words(u: Unicode, s: string): seq<string>
    decreases |s|
  {
    if s == [] then []
    else if u.space(s[0]) then Words(u, s[1..])
    else [s[..WordLength(u, s)]] + Words(u, s[WordLength(u, s)..])
  }

  /** `separator.join(words)` */
  function Joined(words: seq<string>, separator: string): string {
    if words == [] then ""
    else if |words| == 1 then words[0]
    else words[0] + separator + Joined(words[1..], separator)
  }

  predicate IsEdge(c: char) {
    c in EDGE_CHARS
  }

  function Leading(s: string, drop: char -> bool): (n: nat)
    ensures n <= |s|
    ensures n < |s| ==> !drop(s[n])
  {
    if s == [] || !drop(s[0]) then 0 else 1 + Leading(s[1..], drop)
  }

  function Trailing(s: string, drop: char -> bool): (n: nat)
    ensures n <= |s|
    ensures n < |s| ==> !drop(s[|s| - 1 - n])
  {
    if s == [] || !drop(s[|s| - 1]) then 0 else 1 + Trailing(s[..|s| - 1], drop)
  }

  /** `s.strip(chars)` for the characters that drop accepts. */
  function Strip(s: string, drop: char -> bool): string {
    var rest := s[Leading(s, drop)..];
    rest[..|rest| - Trailing(rest, drop)]
  }

  /** `s.rfind(" ")` */
  function LastSpace(s: string): (i: int)
    ensures -1 <= i < |s|
  {
    if s == [] then -1 else if s[|s| - 1] == ' ' then |s| - 1 else LastSpace(s[..|s| - 1])
  }

  /** At most limit characters, cut at the last space when there is one after the start; 0 means no limit. */
  function Shortened(s: string, limit: nat): string {
    if limit == 0 || |s| <= limit then s
    else
      var head := s[..limit];
      var cut := LastSpace(head);
      Strip(if cut > 0 then head[..cut] else head, IsEdge)
  }

  function Speakable(u: Unicode, value: Json, limit: nat): string {
    if !value.JText? then ""
    else
      var text := Shortened(Strip(Joined(Words(u, Kept(u, value.text)), " "), IsEdge), limit);
      if exists c | c in text :: u.alnum(c) then text else ""
  }

  method Speak(u: Unicode, value: Json, limit: nat) returns (text: string)
    ensures text == Speakable(u, value, limit)
  {
    if !value.JText? {
      return "";
    }
    var kept := KeepSpoken(u, value.text);
    text := Shortened(Strip(Joined(Words(u, kept), " "), IsEdge), limit);
    var alphanumeric := HasAlphanumeric(u, text);
    if !alphanumeric {
      return "";
    }
  }

  method KeepSpoken(u: Unicode, s: string) returns (kept: string)
    ensures kept == Kept(u, s)
  {
    kept := [];
    for i := 0 to |s|
      invariant kept == Kept(u, s[..i])
    {
      assert s[..i + 1][..i] == s[..i];
      if u.silent(s[i]) {
        continue;
      }
      if s[i] in DROP_CHARS {
        continue;
      }
      kept := kept + [s[i]];
    }
    assert s[..|s|] == s;
  }

  method HasAlphanumeric(u: Unicode, text: string) returns (found: bool)
    ensures found <==> exists c | c in text :: u.alnum(c)
  {
    found := false;
    for i := 0 to |text|
      invariant found <==> exists c | c in text[..i] :: u.alnum(c)
    {
      assert text[..i + 1] == text[..i] + [text[i]];
      found := found || u.alnum(text[i]);
    }
    assert text[..|text|] == text;
  }

  // ----- what a spoken text looks like -----

  /** The only whitespace is single spaces. */
  ghost predicate Spaced(u: Unicode, s: string) {
    forall i | 0 <= i < |s| && u.space(s[i]) :: s[i] == ' ' && (i + 1 < |s| ==> !u.space(s[i + 1]))
  }

  ghost predicate AllKept(u: Unicode, s: string) {
    forall c | c in s :: IsKept(u, c)
  }

  ghost predicate Tidy(u: Unicode, s: string) {
    && AllKept(u, s)
    && Spaced(u, s)
    && (s != "" ==> !IsEdge(s[0]) && !IsEdge(s[|s| - 1]))
  }

  ghost predicate Clean(u: Unicode, s: string, limit: nat) {
    && s != ""
    && Tidy(u, s)
    && (limit > 0 ==> |s| <= limit)
    && (exists c | c in s :: u.alnum(c))
  }

  lemma {:induction false} KeptIsKept(u: Unicode, s: string)
    ensures AllKept(u, Kept(u, s))
    ensures AllKept(u, s) ==> Kept(u, s) == s
  {
    if s != [] {
      KeptIsKept(u, s[..|s| - 1]);
      assert s == s[..|s| - 1] + [s[|s| - 1]];
    }
  }

  ghost predicate AreWords(u: Unicode, words: seq<string>) {
    forall w | w in words :: w != "" && AllKept(u, w) && forall c | c in w :: !u.space(c)
  }

  lemma {:induction false} SplitGivesWords(u: Unicode, s: string)
    requires AllKept(u, s)
    ensures AreWords(u, Words(u, s))
    decreases |s|
  {
    if s == [] {
    } else if u.space(s[0]) {
      SplitGivesWords(u, s[1..]);
    } else {
      SplitGivesWords(u, s[WordLength(u, s)..]);
    }
  }

  lemma {:induction false} JoinedIsSpaced(u: Unicode, words: seq<string>)
    requires Sane(u) && AreWords(u, words)
    ensures var s := Joined(words, " ");
            AllKept(u, s) && Spaced(u, s) && (s != "" ==> !u.space(s[0]))
  {
    if |words| > 1 {
      JoinedIsSpaced(u, words[1..]);
      var rest := Joined(words[1..], " ");
      assert words[0] in words;
    } else if |words| == 1 {
      assert words[0] in words;
    }
  }

  /** Splitting and joining again changes nothing in a text that is spaced and has no whitespace at its ends. */
  lemma {:induction false} JoinedWords(u: Unicode, s: string)
    requires Sane(u) && Spaced(u, s) && s != "" && !u.space(s[0]) && !u.space(s[|s| - 1])
    ensures Words(u, s) != [] && Joined(Words(u, s), " ") == s
    decreases |s|
  {
    var n := WordLength(u, s);
    if n < |s| {
      JoinedWords(u, s[n + 1..]);
      assert s[n..][1..] == s[n + 1..];
      assert s == s[..n] + " " + s[n + 1..];
    } else {
      assert s[..n] == s;
    }
  }

  lemma StripIsTidy(u: Unicode, s: string)
    requires AllKept(u, s) && Spaced(u, s)
    ensures Tidy(u, Strip(s, IsEdge)) && |Strip(s, IsEdge)| <= |s|
  {
  }

  lemma ShortenedIsTidy(u: Unicode, s: string, limit: nat)
    requires Tidy(u, s)
    ensures Tidy(u, Shortened(s, limit)) && (limit > 0 ==> |Shortened(s, limit)| <= limit)
  {
    if limit > 0 && |s| > limit {
      var head := s[..limit];
      var cut := LastSpace(head);
      StripIsTidy(u, if cut > 0 then head[..cut] else head);
    }
  }

  /** Every result is empty or clean: nothing silent or dropped, single spaces, no punctuation at the ends, within the
      limit, and with an alphanumeric character in it. */
  lemma SpeakableIsClean(u: Unicode, value: Json, limit: nat)
    requires Sane(u)
    ensures Speakable(u, value, limit) == "" || Clean(u, Speakable(u, value, limit), limit)
  {
    if value.JText? {
      KeptIsKept(u, value.text);
      SplitGivesWords(u, Kept(u, value.text));
      JoinedIsSpaced(u, Words(u, Kept(u, value.text)));
      var joined := Joined(Words(u, Kept(u, value.text)), " ");
      StripIsTidy(u, joined);
      ShortenedIsTidy(u, Strip(joined, IsEdge), limit);
    }
  }

  /** The texts that pass unchanged are exactly the clean ones and the empty one. */
  lemma FixedPointsAreClean(u: Unicode, s: string, limit: nat)
    requires Sane(u)
    ensures Speakable(u, JText(s), limit) == s <==> s == "" || Clean(u, s, limit)
  {
    SpeakableIsClean(u, JText(s), limit);
    if Clean(u, s, limit) {
      KeptIsKept(u, s);
      assert IsEdge(' ');
      JoinedWords(u, s);
      assert Strip(s, IsEdge) == s;
    }
  }

  lemma SpeakableIsIdempotent(u: Unicode, value: Json, limit: nat)
    requires Sane(u)
    ensures Speakable(u, JText(Speakable(u, value, limit)), limit) == Speakable(u, value, limit)
  {
    SpeakableIsClean(u, value, limit);
    FixedPointsAreClean(u, Speakable(u, value, limit), limit);
  }

  // ----- nothing else is lost -----

  lemma {:induction false} LeadingIsDropped(s: string, drop: char -> bool)
    ensures forall k | 0 <= k < Leading(s, drop) :: drop(s[k])
  {
    if s != [] && drop(s[0]) {
      LeadingIsDropped(s[1..], drop);
      assert forall k | 1 <= k < Leading(s, drop) :: s[k] == s[1..][k - 1];
    }
  }

  lemma {:induction false} TrailingIsDropped(s: string, drop: char -> bool)
    ensures forall k | |s| - Trailing(s, drop) <= k < |s| :: drop(s[k])
  {
    if s != [] && drop(s[|s| - 1]) {
      TrailingIsDropped(s[..|s| - 1], drop);
    }
  }

  /** The characters of a text that are spoken, in order, whitespace aside. */
  function Letters(u: Unicode, s: string): string {
    if s == "" then ""
    else
      Letters(u, s[..|s| - 1]) +
      if IsKept(u, s[|s| - 1]) && !u.space(s[|s| - 1]) then [s[|s| - 1]] else []
  }

  lemma {:induction false} LettersJoin(u: Unicode, a: string, b: string)
    ensures Letters(u, a + b) == Letters(u, a) + Letters(u, b)
  {
    if b == "" {
      assert a + b == a;
    } else {
      var most := b[..|b| - 1];
      assert (a + b)[..|a + b| - 1] == a + most;
      LettersJoin(u, a, most);
    }
  }

  lemma {:induction false} KeepingKeepsLetters(u: Unicode, s: string)
    ensures Letters(u, Kept(u, s)) == Letters(u, s)
  {
    if s != "" {
      var most, c := s[..|s| - 1], s[|s| - 1];
      KeepingKeepsLetters(u, most);
      LettersJoin(u, Kept(u, most), [c]);
      LettersOfOne(u, c);
      if !IsKept(u, c) {
        assert Kept(u, s) == Kept(u, most);
      }
    }
  }

  lemma LettersOfOne(u: Unicode, c: char)
    ensures Letters(u, [c]) == if IsKept(u, c) && !u.space(c) then [c] else []
  {
    assert [c][..0] == "";
  }

  lemma {:induction false} SplittingKeepsLetters(u: Unicode, s: string)
    requires u.space(' ')
    ensures Letters(u, Joined(Words(u, s), " ")) == Letters(u, s)
    decreases |s|
  {
    if s == "" {
    } else if u.space(s[0]) {
      SplittingKeepsLetters(u, s[1..]);
      LettersJoin(u, [s[0]], s[1..]);
      LettersOfOne(u, s[0]);
      assert s == [s[0]] + s[1..];
    } else {
      var n := WordLength(u, s);
      var word, rest := s[..n], s[n..];
      SplittingKeepsLetters(u, rest);
      LettersJoin(u, word, rest);
      assert s == word + rest;
      OneMoreWord(u, word, Words(u, rest));
    }
  }

  lemma OneMoreWord(u: Unicode, word: string, words: seq<string>)
    requires u.space(' ')
    ensures Letters(u, Joined([word] + words, " ")) == Letters(u, word) + Letters(u, Joined(words, " "))
  {
    if words == [] {
      assert [word] + words == [word];
    } else {
      assert ([word] + words)[1..] == words;
      LettersJoin(u, word + " ", Joined(words, " "));
      LettersJoin(u, word, " ");
      LettersOfOne(u, ' ');
    }
  }

  ghost predicate AllEdges(s: string) {
    forall c | c in s :: IsEdge(c)
  }

  lemma {:induction false} LettersAreEdges(u: Unicode, s: string)
    requires AllEdges(s)
    ensures AllEdges(Letters(u, s))
  {
    if s != "" {
      assert s[|s| - 1] in s && forall c | c in s[..|s| - 1] :: c in s;
      LettersAreEdges(u, s[..|s| - 1]);
    }
  }

  /** Whole apart from edge punctuation before and after. */
  ghost predicate WholeButEdges(all: string, part: string) {
    exists a, b :: AllEdges(a) && AllEdges(b) && all == a + part + b
  }

  lemma LeadingEdges(s: string)
    ensures AllEdges(s[..Leading(s, IsEdge)])
  {
    LeadingIsDropped(s, IsEdge);
  }

  lemma TrailingEdges(s: string)
    ensures AllEdges(s[|s| - Trailing(s, IsEdge)..])
  {
    TrailingIsDropped(s, IsEdge);
  }

  lemma StripLosesEdges(s: string) returns (a: string, b: string)
    ensures AllEdges(a) && AllEdges(b) && s == a + Strip(s, IsEdge) + b
  {
    var n := Leading(s, IsEdge);
    var rest := s[n..];
    var m := |rest| - Trailing(rest, IsEdge);
    LeadingEdges(s);
    TrailingEdges(rest);
    a, b := s[..n], rest[m..];
    ThreeParts(s, n, m);
  }

  lemma ThreeParts(s: string, n: nat, m: nat)
    requires n + m <= |s|
    ensures s == s[..n] + s[n..][..m] + s[n..][m..]
  {
  }

  lemma StripKeepsLetters(u: Unicode, s: string)
    ensures WholeButEdges(Letters(u, s), Letters(u, Strip(s, IsEdge)))
  {
    var text := Strip(s, IsEdge);
    var a, b := StripLosesEdges(s);
    LettersJoin(u, a + text, b);
    LettersJoin(u, a, text);
    LettersAreEdges(u, a);
    LettersAreEdges(u, b);
    assert Letters(u, s) == Letters(u, a) + Letters(u, text) + Letters(u, b);
  }

  /** The text is whole when it fits, and otherwise cut: at the last space within the limit, or at the limit when there is
      none, less the edge punctuation that then stands at its end. What is left is never empty. */
  ghost predicate CutAt(text: string, limit: nat, n: nat, m: nat) {
    && 0 < n <= m <= limit < |text|
    && !IsEdge(text[n - 1]) && AllEdges(text[n..m])
    && (forall k | m < k < limit :: text[k] != ' ')
    && (m == limit || text[m] == ' ')
    && (m == limit ==> forall k | 0 <= k < limit :: text[k] != ' ')
  }

  ghost predicate Fits(text: string, limit: nat, r: string) {
    if limit == 0 || |text| <= limit then r == text else exists n: nat, m: nat :: CutAt(text, limit, n, m) && r == text[..n]
  }

  lemma {:induction false} LastSpaceIsLast(s: string)
    ensures LastSpace(s) >= 0 ==> s[LastSpace(s)] == ' '
    ensures forall k | LastSpace(s) < k < |s| :: s[k] != ' '
  {
    if s != "" && s[|s| - 1] != ' ' {
      LastSpaceIsLast(s[..|s| - 1]);
    }
  }

  lemma FrontStaysFront(s: string)
    requires s != "" && !IsEdge(s[0])
    ensures var n := |s| - Trailing(s, IsEdge); 0 < n && Strip(s, IsEdge) == s[..n] && !IsEdge(s[n - 1]) && AllEdges(s[n..])
  {
    TrailingIsDropped(s, IsEdge);
    assert s[0..] == s;
  }

  /** A cut at m, with its trailing punctuation dropped. */
  lemma CutFits(text: string, limit: nat, m: nat)
    requires 0 < m <= limit < |text| && !IsEdge(text[0])
    requires (forall k | m < k < limit :: text[k] != ' ') && (m == limit || text[m] == ' ')
    requires m == limit ==> forall k | 0 <= k < limit :: text[k] != ' '
    ensures Fits(text, limit, Strip(text[..m], IsEdge))
  {
    var front := text[..m];
    FrontStaysFront(front);
    var n := m - Trailing(front, IsEdge);
    assert front[..n] == text[..n] && front[n..] == text[n..m];
    assert CutAt(text, limit, n, m);
  }

  lemma ShortenedFits(text: string, limit: nat)
    requires text != "" && !IsEdge(text[0])
    ensures Fits(text, limit, Shortened(text, limit))
  {
    if limit > 0 && |text| > limit {
      var head := text[..limit];
      var cut := LastSpace(head);
      LastSpaceIsLast(head);
      assert IsEdge(' ') && cut != 0;
      assert forall k | cut < k < limit :: text[k] == head[k] && text[k] != ' ';
      if cut > 0 {
        assert text[cut] == head[cut] && head[..cut] == text[..cut];
        CutFits(text, limit, cut);
      } else {
        CutFits(text, limit, limit);
      }
    }
  }

  ghost predicate CleansTo(u: Unicode, s: string, limit: nat, text: string, cut: string) {
    && WholeButEdges(Letters(u, s), Letters(u, text))
    && if text == "" then cut == "" else Fits(text, limit, cut)
  }

  /** What cleaning leaves of a text: all its spoken letters in order but for edge punctuation, whole or cut at the limit;
      and nothing only when what is left has no alphanumeric. */
  lemma SpeakableKeepsLetters(u: Unicode, s: string, limit: nat)
    requires Sane(u)
    ensures exists text, cut ::
              && CleansTo(u, s, limit, text, cut)
              && (Speakable(u, JText(s), limit) == cut || Speakable(u, JText(s), limit) == "")
              && (Speakable(u, JText(s), limit) != "" <==> exists c | c in cut :: u.alnum(c))
  {
    var joined := Joined(Words(u, Kept(u, s)), " ");
    var text := Strip(joined, IsEdge);
    var cut := Shortened(text, limit);
    KeepingKeepsLetters(u, s);
    SplittingKeepsLetters(u, Kept(u, s));
    StripKeepsLetters(u, joined);
    CleanedFits(u, s, limit);
    assert CleansTo(u, s, limit, text, cut);
    assert Speakable(u, JText(s), limit) == if exists c | c in cut :: u.alnum(c) then cut else "";
  }

  lemma CleanedFits(u: Unicode, s: string, limit: nat)
    requires Sane(u)
    ensures var text := Strip(Joined(Words(u, Kept(u, s)), " "), IsEdge);
            if text == "" then Shortened(text, limit) == "" else Fits(text, limit, Shortened(text, limit))
  {
    var joined := Joined(Words(u, Kept(u, s)), " ");
    KeptIsKept(u, s);
    SplitGivesWords(u, Kept(u, s));
    JoinedIsSpaced(u, Words(u, Kept(u, s)));
    StripIsTidy(u, joined);
    if Strip(joined, IsEdge) != "" {
      ShortenedFits(Strip(joined, IsEdge), limit);
    }
  }
}
