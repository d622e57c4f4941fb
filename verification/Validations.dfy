/**
 The recognisers that guard request paths and e-mail addresses, and path normalisation.
 */
module Validations {
  import opened Wrappers
  import opened Characters
  import opened Grammar

  // ---- The grammars, as the source writes them ----

  const LETTERS := Plus(Char(Alpha))
  const DIGITS := Plus(Char(Digit))
  const WORD_CHAR := Alt(Char(Alpha), Char(Digit))
  const NAME_CHAR := Alt(WORD_CHAR, Char(Punct))
  const SLASH := Char(Literal('/'))
  const DOT := Char(Literal('.'))
  const AT_SIGN := Char(Literal('@'))

  const NAME := Seq(LETTERS, Star(NAME_CHAR))
  const SEGMENT := Seq(NAME, Star(SLASH))
  const PATH := Seq(SLASH, Star(SEGMENT))

  const RUN := Alt(LETTERS, DIGITS)
  const WORD := Plus(RUN)
  const LABEL := Seq(WORD, DOT)
  const EMAIL := Seq(Seq(Seq(WORD, AT_SIGN), Plus(LABEL)), WORD)

  /** A full parse: a match that reaches the end of the C string. */
  predicate FullMatch(p: Parser, s: string) {
    Parse(p, CString(s), 0) == Some(|CString(s)|)
  }

  predicate IsValidPath(path: string) {
    FullMatch(PATH, path)
  }

  predicate IsValidEmail(email: string) {
    FullMatch(EMAIL, email)
  }

  lemma GrammarsAreProductive()
    ensures Productive(PATH) && Productive(EMAIL)
  {
  }

  lemma FullMatchIsSound(p: Parser, s: string)
    requires FullMatch(p, s)
    ensures InLanguage(p, CString(s))
  {
    var c := CString(s);
    ParseIsSound(p, c, 0);
    assert c[0..|c|] == c;
  }

  // ---- Paths ----

  /** `/` alone, or `/`, a letter, and then any characters from `!` to `~`. */
  ghost predicate PathShape(w: string) {
    w != [] && w[0] == '/' &&
    (|w| > 1 ==>
       ('A' <= w[1] <= 'Z' || 'a' <= w[1] <= 'z') && forall i :: 1 < i < |w| ==> '!' <= w[i] <= '~')
  }

  /** The same in the grammar's terms. */
  ghost predicate SegmentedShape(w: string) {
    w != [] && w[0] == '/' &&
    (|w| == 1 || (IsAlpha(w[1]) && AllAccepted(NAME_CHAR, w[1..])))
  }

  /** Letters, digits and punctuation are the characters that are seen. */
  lemma NameCharIsVisible(c: char)
    ensures Accepts(NAME_CHAR, c) <==> '!' <= c <= '~'
  {
    assert Accepts(WORD_CHAR, c) <==> IsAlpha(c) || IsDigit(c);
    assert Accepts(Char(Punct), c) <==> IsPunct(c);
  }

  lemma PathShapeIff(w: string)
    ensures PathShape(w) <==> SegmentedShape(w)
  {
    if |w| > 1 {
      forall n | 1 <= n < |w| ensures Accepts(NAME_CHAR, w[1..][n - 1]) <==> '!' <= w[n] <= '~' {
        NameCharIsVisible(w[n]);
      }
      if SegmentedShape(w) {
        forall n | 1 < n < |w| ensures '!' <= w[n] <= '~' {
          assert Accepts(NAME_CHAR, w[1..][n - 1]);
        }
      }
      if PathShape(w) {
        forall n | 0 <= n < |w[1..]| ensures Accepts(NAME_CHAR, w[1..][n]) {
          assert w[1..][n] == w[n + 1];
          NameCharIsVisible(w[n + 1]);
        }
      }
    }
  }

  ghost predicate SegmentsShape(w: string) {
    w == [] || (IsAlpha(w[0]) && AllAccepted(NAME_CHAR, w))
  }

  lemma NameShape(w: string)
    requires InLanguage(NAME, w)
    ensures w != [] && SegmentsShape(w)
  {
    var k :| 0 <= k <= |w| && InLanguage(LETTERS, w[..k]) && InLanguage(Star(NAME_CHAR), w[k..]);
    PlusOfOneChar(Char(Alpha), w[..k]);
    StarOfOneChar(NAME_CHAR, w[k..]);
    forall n | 0 <= n < |w| ensures Accepts(NAME_CHAR, w[n]) {
      if n < k {
        assert w[..k][n] == w[n];
        assert Accepts(Char(Alpha), w[n]);
      } else {
        assert w[k..][n - k] == w[n];
      }
    }
    assert w[..k][0] == w[0];
    assert Accepts(Char(Alpha), w[0]);
  }

  lemma SegmentShape(w: string)
    requires InLanguage(SEGMENT, w)
    ensures w != [] && SegmentsShape(w)
  {
    var k :| 0 <= k <= |w| && InLanguage(NAME, w[..k]) && InLanguage(Star(SLASH), w[k..]);
    NameShape(w[..k]);
    StarOfOneChar(SLASH, w[k..]);
    forall n | 0 <= n < |w| ensures Accepts(NAME_CHAR, w[n]) {
      if n < k {
        assert w[..k][n] == w[n];
      } else {
        assert w[k..][n - k] == w[n];
        assert Accepts(SLASH, w[n]);
      }
    }
    assert w[..k][0] == w[0];
  }

  lemma {:induction false} SegmentsHaveShape(w: string)
    requires InLanguage(Star(SEGMENT), w)
    ensures SegmentsShape(w)
    decreases |w|
  {
    if w != [] {
      var k :| 0 < k <= |w| && InLanguage(SEGMENT, w[..k]) && InLanguage(Star(SEGMENT), w[k..]);
      SegmentShape(w[..k]);
      SegmentsHaveShape(w[k..]);
      forall n | 0 <= n < |w| ensures Accepts(NAME_CHAR, w[n]) {
        if n < k {
          assert w[..k][n] == w[n];
        } else {
          assert w[k..][n - k] == w[n];
        }
      }
      assert w[..k][0] == w[0];
    }
  }

  lemma PathLanguageIsSegmented(w: string)
    requires InLanguage(PATH, w)
    ensures SegmentedShape(w)
  {
    var k :| 0 <= k <= |w| && InLanguage(SLASH, w[..k]) && InLanguage(Star(SEGMENT), w[k..]);
    assert k == 1;
    SegmentsHaveShape(w[1..]);
    if |w| > 1 {
      assert w[1..][0] == w[1];
    }
  }

  /** One turn of the outer repetition takes everything. */
  lemma SegmentTakesAll(w: string)
    requires SegmentedShape(w) && |w| > 1
    ensures Parse(SEGMENT, w, 1) == Some(|w|)
  {
    OneCharParse(Char(Alpha), w, 1);
    RepeatTakesRun(Char(Alpha), w, 2);
    var m := Repeat(Char(Alpha), w, 2);
    assert Parse(LETTERS, w, 1) == Some(m);
    RepeatTakesRun(NAME_CHAR, w, m);
    forall n | m <= n < |w| ensures Accepts(NAME_CHAR, w[n]) {
      assert w[1..][n - 1] == w[n];
    }
    RunEndAt(NAME_CHAR, w, m, |w|);
    assert Parse(NAME, w, 1) == Some(|w|);
    OneCharParse(SLASH, w, |w|);
    assert Repeat(SLASH, w, |w|) == |w|;
  }

  lemma SegmentedShapeParses(w: string)
    requires SegmentedShape(w)
    ensures Parse(PATH, w, 0) == Some(|w|)
  {
    OneCharParse(SLASH, w, 0);
    if |w| > 1 {
      SegmentTakesAll(w);
    }
    assert Parse(SEGMENT, w, |w|).None? by {
      assert Parse(Char(Alpha), w, |w|).None?;
      assert Parse(LETTERS, w, |w|).None?;
      assert Parse(NAME, w, |w|).None?;
    }
    assert Repeat(SEGMENT, w, 1) == |w|;
  }

  /** The nested greedy grammar, its regular language and the flat shape agree on every string. */
  lemma ValidPathMeans(path: string)
    ensures IsValidPath(path) <==> InLanguage(PATH, CString(path))
    ensures IsValidPath(path) <==> PathShape(CString(path))
  {
    if IsValidPath(path) {
      FullMatchIsSound(PATH, path);
    }
    if InLanguage(PATH, CString(path)) {
      PathLanguageIsSegmented(CString(path));
    }
    if SegmentedShape(CString(path)) {
      SegmentedShapeParses(CString(path));
    }
    PathShapeIff(CString(path));
  }

  // ---- E-mail addresses ----

  /** Letters and digits, at least one. */
  ghost predicate IsWord(w: string) {
    w != [] &&
    forall i :: 0 <= i < |w| ==> '0' <= w[i] <= '9' || 'A' <= w[i] <= 'Z' || 'a' <= w[i] <= 'z'
  }

  lemma WordIff(w: string)
    ensures IsWord(w) <==> w != [] && AllAccepted(WORD_CHAR, w)
  {
    forall n | 0 <= n < |w|
      ensures Accepts(WORD_CHAR, w[n]) <==> '0' <= w[n] <= '9' || 'A' <= w[n] <= 'Z' || 'a' <= w[n] <= 'z'
    {
      assert Accepts(WORD_CHAR, w[n]) <==> IsAlpha(w[n]) || IsDigit(w[n]);
    }
  }

  /** The labels, each followed by a dot. */
  function Dotted(labels: seq<string>): string {
    if labels == [] then [] else labels[0] + "." + Dotted(labels[1..])
  }

  ghost predicate AllWords(labels: seq<string>) {
    forall i :: 0 <= i < |labels| ==> IsWord(labels[i])
  }

  ghost predicate EmailParts(w: string, local: string, labels: seq<string>, last: string) {
    IsWord(local) && labels != [] && AllWords(labels) && IsWord(last) &&
    w == local + "@" + Dotted(labels) + last
  }

  /** A word, `@`, one or more words each with a dot, and a last word. */
  ghost predicate EmailShape(w: string) {
    exists local, labels, last :: EmailParts(w, local, labels, last)
  }

  lemma WordsConcat(a: string, b: string)
    requires AllAccepted(WORD_CHAR, a) && AllAccepted(WORD_CHAR, b)
    ensures AllAccepted(WORD_CHAR, a + b)
  {
  }

  lemma RunIsWord(w: string)
    requires InLanguage(RUN, w)
    ensures IsWord(w)
  {
    WordIff(w);
    if InLanguage(LETTERS, w) {
      PlusOfOneChar(Char(Alpha), w);
      forall n | 0 <= n < |w| ensures Accepts(WORD_CHAR, w[n]) {
        assert Accepts(Char(Alpha), w[n]);
      }
    } else {
      PlusOfOneChar(Char(Digit), w);
      forall n | 0 <= n < |w| ensures Accepts(WORD_CHAR, w[n]) {
        assert Accepts(Char(Digit), w[n]);
      }
    }
  }

  lemma {:induction false} RunsAreWordChars(w: string)
    requires InLanguage(Star(RUN), w)
    ensures AllAccepted(WORD_CHAR, w)
    decreases |w|
  {
    if w != [] {
      var k :| 0 < k <= |w| && InLanguage(RUN, w[..k]) && InLanguage(Star(RUN), w[k..]);
      RunIsWord(w[..k]);
      WordIff(w[..k]);
      RunsAreWordChars(w[k..]);
      WordsConcat(w[..k], w[k..]);
      assert w == w[..k] + w[k..];
    }
  }

  lemma WordLanguage(w: string)
    requires InLanguage(WORD, w)
    ensures IsWord(w)
  {
    var k :| 0 <= k <= |w| && InLanguage(RUN, w[..k]) && InLanguage(Star(RUN), w[k..]);
    RunIsWord(w[..k]);
    WordIff(w[..k]);
    RunsAreWordChars(w[k..]);
    WordsConcat(w[..k], w[k..]);
    assert w == w[..k] + w[k..];
    WordIff(w);
  }

  lemma LabelLanguage(w: string) returns (name: string)
    requires InLanguage(LABEL, w)
    ensures IsWord(name) && w == name + "."
  {
    var k :| 0 <= k <= |w| && InLanguage(WORD, w[..k]) && InLanguage(DOT, w[k..]);
    name := w[..k];
    WordLanguage(name);
    assert w == w[..k] + w[k..];
  }

  lemma {:induction false} LabelsLanguage(w: string) returns (labels: seq<string>)
    requires InLanguage(Star(LABEL), w)
    ensures AllWords(labels) && w == Dotted(labels)
    decreases |w|
  {
    if w == [] {
      labels := [];
    } else {
      var k :| 0 < k <= |w| && InLanguage(LABEL, w[..k]) && InLanguage(Star(LABEL), w[k..]);
      var name := LabelLanguage(w[..k]);
      var rest := LabelsLanguage(w[k..]);
      labels := [name] + rest;
      assert labels[1..] == rest;
      assert w == w[..k] + w[k..];
    }
  }

  lemma DomainLanguage(w: string) returns (labels: seq<string>)
    requires InLanguage(Plus(LABEL), w)
    ensures labels != [] && AllWords(labels) && w == Dotted(labels)
  {
    var k :| 0 <= k <= |w| && InLanguage(LABEL, w[..k]) && InLanguage(Star(LABEL), w[k..]);
    var name := LabelLanguage(w[..k]);
    var rest := LabelsLanguage(w[k..]);
    labels := [name] + rest;
    assert labels[1..] == rest;
    assert w == w[..k] + w[k..];
  }

  lemma EmailLanguageHasShape(w: string)
    requires InLanguage(EMAIL, w)
    ensures EmailShape(w)
  {
    var front := Seq(Seq(WORD, AT_SIGN), Plus(LABEL));
    var k :| 0 <= k <= |w| && InLanguage(front, w[..k]) && InLanguage(WORD, w[k..]);
    var u := w[..k];
    var m :| 0 <= m <= |u| && InLanguage(Seq(WORD, AT_SIGN), u[..m]) && InLanguage(Plus(LABEL), u[m..]);
    var v := u[..m];
    var n :| 0 <= n <= |v| && InLanguage(WORD, v[..n]) && InLanguage(AT_SIGN, v[n..]);
    WordLanguage(v[..n]);
    WordLanguage(w[k..]);
    var labels := DomainLanguage(u[m..]);
    assert v[n..] == "@";
    assert v == v[..n] + "@";
    assert u == v + u[m..];
    assert w == u + w[k..];
    assert EmailParts(w, v[..n], labels, w[k..]);
  }

  /** The alternation of letter runs and digit runs takes the whole run of word characters. */
  lemma {:induction false} RunsTakeWord(s: string, i: nat)
    requires i <= |s|
    ensures Repeat(RUN, s, i) == RunEnd(WORD_CHAR, s, i)
    decreases |s| - i
  {
    OneCharParse(Char(Alpha), s, i);
    OneCharParse(Char(Digit), s, i);
    if i < |s| && Accepts(WORD_CHAR, s[i]) {
      RepeatTakesRun(Char(Alpha), s, i + 1);
      RepeatTakesRun(Char(Digit), s, i + 1);
      var kind := if IsAlpha(s[i]) then Char(Alpha) else Char(Digit);
      var j := RunEnd(kind, s, i + 1);
      assert Parse(Plus(kind), s, i) == Some(j);
      assert Parse(RUN, s, i) == Some(j) by {
        assert !IsAlpha(s[i]) ==> Parse(LETTERS, s, i) == None;
      }
      RunsTakeWord(s, j);
      forall n | i <= n < j ensures Accepts(WORD_CHAR, s[n]) {
        assert n == i || Accepts(kind, s[n]);
      }
      RunEndAt(WORD_CHAR, s, i, RunEnd(WORD_CHAR, s, j));
    }
  }

  lemma WordTakesRun(s: string, i: nat)
    requires i <= |s|
    ensures Parse(WORD, s, i) == if RunEnd(WORD_CHAR, s, i) > i then Some(RunEnd(WORD_CHAR, s, i)) else None
  {
    RunsTakeWord(s, i);
    TurnsConsume(RUN, s, i);
    OneCharParse(Char(Alpha), s, i);
    OneCharParse(Char(Digit), s, i);
  }

  /** A word in the text is taken whole when no word character follows it. */
  lemma WordParses(s: string, i: nat, w: string)
    requires i + |w| <= |s| && s[i..i + |w|] == w && IsWord(w)
    requires i + |w| < |s| ==> !Accepts(WORD_CHAR, s[i + |w|])
    ensures Parse(WORD, s, i) == Some(i + |w|)
  {
    WordIff(w);
    forall n | i <= n < i + |w| ensures Accepts(WORD_CHAR, s[n]) {
      assert s[n] == w[n - i];
    }
    RunEndAt(WORD_CHAR, s, i, i + |w|);
    WordTakesRun(s, i);
  }

  lemma LabelParses(s: string, i: nat, name: string)
    requires i + |name| < |s| && s[i..i + |name|] == name && IsWord(name) && s[i + |name|] == '.'
    ensures Parse(LABEL, s, i) == Some(i + |name| + 1)
  {
    WordParses(s, i, name);
  }

  lemma LastWordParses(s: string, i: nat, last: string)
    requires i <= |s| && s[i..] == last && IsWord(last)
    ensures Parse(WORD, s, i) == Some(|s|)
  {
    assert i + |last| == |s|;
    assert s[i..i + |last|] == s[i..];
    WordParses(s, i, last);
  }

  lemma NoLabelAtEnd(s: string, i: nat, last: string)
    requires i <= |s| && s[i..] == last && IsWord(last)
    ensures Repeat(LABEL, s, i) == i
  {
    LastWordParses(s, i, last);
    assert Parse(LABEL, s, i).None?;
  }

  lemma LabelThenRest(s: string, i: nat, name: string, rest: string)
    requires i <= |s| && s[i..] == name + "." + rest && IsWord(name)
    ensures i + |name| + 1 <= |s| && s[i + |name| + 1..] == rest
    ensures Parse(LABEL, s, i) == Some(i + |name| + 1)
  {
    var tail := s[i..];
    assert tail[..|name|] == name && tail[|name|] == '.';
    assert s[i..i + |name|] == tail[..|name|];
    LabelParses(s, i, name);
    assert s[i + |name| + 1..] == tail[|name| + 1..];
  }

  /** The repetition takes every label; its attempt on the last word fails at the missing dot,
      and the iterator goes back to the start of that word. */
  lemma {:induction false} LabelsParse(s: string, i: nat, labels: seq<string>, last: string)
    requires i <= |s| && s[i..] == Dotted(labels) + last && AllWords(labels) && IsWord(last)
    ensures Repeat(LABEL, s, i) == |s| - |last|
    decreases |labels|
  {
    if labels == [] {
      assert Dotted(labels) + last == last;
      NoLabelAtEnd(s, i, last);
    } else {
      var name, rest := labels[0], labels[1..];
      assert Dotted(labels) + last == name + "." + (Dotted(rest) + last);
      LabelThenRest(s, i, name, Dotted(rest) + last);
      LabelsParse(s, i + |name| + 1, rest, last);
    }
  }

  lemma DomainParses(s: string, i: nat, labels: seq<string>, last: string)
    requires i <= |s| && s[i..] == Dotted(labels) + last && labels != [] && AllWords(labels) && IsWord(last)
    ensures Parse(Plus(LABEL), s, i) == Some(|s| - |last|)
  {
    LabelsParse(s, i, labels, last);
    TurnsConsume(LABEL, s, i);
    assert |Dotted(labels)| > 0;
    assert |s[i..]| == |Dotted(labels)| + |last|;
    assert Repeat(LABEL, s, i) > i;
  }

  lemma SeqParses(a: Parser, b: Parser, s: string, i: nat, j: nat, k: nat)
    requires i <= j <= |s| && Parse(a, s, i) == Some(j) && Parse(b, s, j) == Some(k)
    ensures Parse(Seq(a, b), s, i) == Some(k)
  {
  }

  lemma LocalParses(w: string, local: string, domain: string)
    requires IsWord(local) && w == local + "@" + domain
    ensures Parse(Seq(WORD, AT_SIGN), w, 0) == Some(|local| + 1)
  {
    assert w[0..|local|] == local && w[|local|] == '@';
    WordParses(w, 0, local);
    SeqParses(WORD, AT_SIGN, w, 0, |local|, |local| + 1);
  }

  lemma EmailShapeParses(w: string, local: string, labels: seq<string>, last: string)
    requires EmailParts(w, local, labels, last)
    ensures Parse(EMAIL, w, 0) == Some(|w|)
  {
    var n, m := |local| + 1, |w| - |last|;
    var domain := Dotted(labels) + last;
    assert w == local + "@" + domain;
    LocalParses(w, local, domain);
    assert w[n..] == domain;
    DomainParses(w, n, labels, last);
    SeqParses(Seq(WORD, AT_SIGN), Plus(LABEL), w, 0, n, m);
    assert w[m..] == last;
    LastWordParses(w, m, last);
    SeqParses(Seq(Seq(WORD, AT_SIGN), Plus(LABEL)), WORD, w, 0, m, |w|);
  }

  /** The greedy recogniser accepts exactly the addresses of the declared shape, on every string. */
  lemma ValidEmailMeans(email: string)
    ensures IsValidEmail(email) <==> InLanguage(EMAIL, CString(email))
    ensures IsValidEmail(email) <==> EmailShape(CString(email))
  {
    var w := CString(email);
    if IsValidEmail(email) {
      FullMatchIsSound(EMAIL, email);
    }
    if InLanguage(EMAIL, w) {
      EmailLanguageHasShape(w);
    }
    if EmailShape(w) {
      var local, labels, last :| EmailParts(w, local, labels, last);
      EmailShapeParses(w, local, labels, last);
    }
  }

  // ---- Normalisation ----

  predicate EndsWithSlash(path: string) {
    path != [] && path[|path| - 1] == '/'
  }

  /** The path without one trailing slash. */
  function Sanitized(path: string): string {
    if EndsWithSlash(path) then path[..|path| - 1] else path
  }

  /** What is left is the path itself, or the path but for one slash at its end. */
  lemma SanitizedMeans(path: string)
    ensures Sanitized(path) == path || Sanitized(path) + "/" == path
    ensures Sanitized(path) == path <==> path == "" || path[|path| - 1] != '/'
  {
  }

  /** `replace_last(path, "/", "")`: removes the last slash there is. */
  method EraseLastSlash(path: string) returns (result: string)
    ensures '/' !in path ==> result == path
    ensures '/' in path ==>
              exists k :: 0 <= k < |path| && path[k] == '/' && '/' !in path[k + 1..] &&
                          result == path[..k] + path[k + 1..]
    ensures EndsWithSlash(path) ==> result == path[..|path| - 1]
  {
    var k := |path|;
    while k > 0 && path[k - 1] != '/'
      invariant 0 <= k <= |path|
      invariant forall n :: k <= n < |path| ==> path[n] != '/'
    {
      k := k - 1;
    }
    if k == 0 {
      return path;
    }
    assert path[k - 1] == '/' && '/' !in path[k..];
    return path[..k - 1] + path[k..];
  }

  method SanitizePath(path: string) returns (result: string)
    ensures result == Sanitized(path)
  {
    result := path;
    if EndsWithSlash(result) {
      result := EraseLastSlash(path);
    }
  }

  /** Normalising twice changes nothing more exactly when there were not two slashes at the end. */
  lemma SanitizeTwice(path: string)
    ensures Sanitized(Sanitized(path)) == Sanitized(path) <==> !(|path| >= 2 && path[|path| - 2..] == "//")
  {
  }
}
