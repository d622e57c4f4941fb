/**
 Greedy parser combinators with the semantics of Boost Spirit Classic: a repetition takes all
 it can and never gives anything back, an alternative takes its first match, and a repetition
 whose last turn fails puts the iterator back to where that turn began.
 */
module Grammar {
  import opened Wrappers
  import opened Characters

  datatype CharClass = Alpha | Digit | Punct | Literal(c: char)

  datatype Parser =
    | Char(class_: CharClass)
    | Seq(first: Parser, second: Parser)
    | Alt(first: Parser, second: Parser)
    | Star(body: Parser)
    | Plus(body: Parser)

  predicate Matches(k: CharClass, c: char) {
    match k
    case Alpha => IsAlpha(c)
    case Digit => IsDigit(c)
    case Punct => IsPunct(c)
    case Literal(d) => c == d
  }

  // ---- The greedy parser ----

  function Parse(p: Parser, s: string, i: nat): (r: Option<nat>)
    requires i <= |s|
    ensures r.Some? ==> i <= r.value <= |s|
    decreases |s| - i, p, 0
  {
    match p
    case Char(k) => if i < |s| && Matches(k, s[i]) then Some(i + 1) else None
    case Seq(a, b) =>
      var r := Parse(a, s, i);
      if r.None? then None else Parse(b, s, r.value)
    case Alt(a, b) =>
      var r := Parse(a, s, i);
      if r.Some? then r else Parse(b, s, i)
    case Star(a) => Some(Repeat(a, s, i))
    case Plus(a) =>
      var r := Parse(a, s, i);
      if r.None? then None else Some(Repeat(a, s, r.value))
  }

  /** Turns of `a` until one fails.  A turn that consumes nothing would be repeated for ever;
      `TurnsConsume` shows that no grammar used here has one. */
  function Repeat(a: Parser, s: string, i: nat): (j: nat)
    requires i <= |s|
    ensures i <= j <= |s|
    decreases |s| - i, a, 1
  {
    var r := Parse(a, s, i);
    if r.None? || r.value == i then i else Repeat(a, s, r.value)
  }

  /** The parser consumes at least one character when it succeeds. */
  predicate NonEmpty(p: Parser) {
    match p
    case Char(_) => true
    case Seq(a, b) => NonEmpty(a) || NonEmpty(b)
    case Alt(a, b) => NonEmpty(a) && NonEmpty(b)
    case Star(_) => false
    case Plus(a) => NonEmpty(a)
  }

  /** Every repetition has a body that consumes something on each turn. */
  predicate Productive(p: Parser) {
    match p
    case Char(_) => true
    case Seq(a, b) => Productive(a) && Productive(b)
    case Alt(a, b) => Productive(a) && Productive(b)
    case Star(a) => NonEmpty(a) && Productive(a)
    case Plus(a) => NonEmpty(a) && Productive(a)
  }

  lemma {:induction false} TurnsConsume(p: Parser, s: string, i: nat)
    requires i <= |s| && NonEmpty(p)
    ensures Parse(p, s, i).Some? ==> Parse(p, s, i).value > i
    decreases |s| - i, p
  {
    match p {
      case Char(_) =>
      case Seq(a, b) =>
        if NonEmpty(a) {
          TurnsConsume(a, s, i);
        }
        var r := Parse(a, s, i);
        if r.Some? && NonEmpty(b) {
          TurnsConsume(b, s, r.value);
        }
      case Alt(a, b) =>
        TurnsConsume(a, s, i);
        TurnsConsume(b, s, i);
      case Plus(a) =>
        TurnsConsume(a, s, i);
    }
  }

  // ---- The language a grammar denotes ----

  function Height(p: Parser): nat {
    match p
    case Char(_) => 0
    case Seq(a, b) => 1 + Height(a) + Height(b)
    case Alt(a, b) => 1 + Height(a) + Height(b)
    case Star(a) => 1 + Height(a)
    case Plus(a) => 2 + Height(a)
  }

  /** The usual meaning of the grammar as a regular language, with no order or greed in it. */
  ghost predicate InLanguage(p: Parser, w: string)
    decreases |w|, Height(p)
  {
    match p
    case Char(k) => |w| == 1 && Matches(k, w[0])
    case Seq(a, b) => exists k :: 0 <= k <= |w| && InLanguage(a, w[..k]) && InLanguage(b, w[k..])
    case Alt(a, b) => InLanguage(a, w) || InLanguage(b, w)
    case Star(a) => w == [] || exists k :: 0 < k <= |w| && InLanguage(a, w[..k]) && InLanguage(Star(a), w[k..])
    case Plus(a) => exists k :: 0 <= k <= |w| && InLanguage(a, w[..k]) && InLanguage(Star(a), w[k..])
  }

  lemma SplitAt(s: string, i: nat, m: nat, j: nat)
    requires i <= m <= j <= |s|
    ensures s[i..j][..m - i] == s[i..m] && s[i..j][m - i..] == s[m..j]
  {
  }

  /** Greed is sound for every grammar: what the parser consumes is a word of the language. */
  lemma {:induction false} ParseIsSound(p: Parser, s: string, i: nat)
    requires i <= |s|
    ensures Parse(p, s, i).Some? ==> InLanguage(p, s[i..Parse(p, s, i).value])
    decreases |s| - i, p, 0
  {
    var r := Parse(p, s, i);
    match p {
      case Char(_) =>
      case Seq(a, b) =>
        ParseIsSound(a, s, i);
        var m := Parse(a, s, i);
        if m.Some? {
          ParseIsSound(b, s, m.value);
          if r.Some? {
            SplitAt(s, i, m.value, r.value);
          }
        }
      case Alt(a, b) =>
        ParseIsSound(a, s, i);
        ParseIsSound(b, s, i);
      case Star(a) => RepeatIsSound(a, s, i);
      case Plus(a) =>
        ParseIsSound(a, s, i);
        var m := Parse(a, s, i);
        if m.Some? {
          RepeatIsSound(a, s, m.value);
          SplitAt(s, i, m.value, r.value);
        }
    }
  }

  lemma {:induction false} RepeatIsSound(a: Parser, s: string, i: nat)
    requires i <= |s|
    ensures InLanguage(Star(a), s[i..Repeat(a, s, i)])
    decreases |s| - i, a, 1
  {
    ParseIsSound(a, s, i);
    var r := Parse(a, s, i);
    if r.Some? && r.value > i {
      RepeatIsSound(a, s, r.value);
      var j := Repeat(a, s, i);
      SplitAt(s, i, r.value, j);
      var w := s[i..j];
      assert InLanguage(a, w[..r.value - i]) && InLanguage(Star(a), w[r.value - i..]);
    }
  }

  // ---- Repetitions of single characters ----

  /** Parsers for one character. */
  predicate OneChar(p: Parser) {
    match p
    case Char(_) => true
    case Alt(a, b) => OneChar(a) && OneChar(b)
    case _ => false
  }

  predicate Accepts(p: Parser, c: char)
    requires OneChar(p)
  {
    match p
    case Char(k) => Matches(k, c)
    case Alt(a, b) => Accepts(a, c) || Accepts(b, c)
  }

  lemma {:induction false} OneCharParse(p: Parser, s: string, i: nat)
    requires OneChar(p) && i <= |s|
    ensures Parse(p, s, i) == if i < |s| && Accepts(p, s[i]) then Some(i + 1) else None
  {
    if p.Alt? {
      OneCharParse(p.first, s, i);
      OneCharParse(p.second, s, i);
    }
  }

  lemma {:induction false} OneCharLanguage(p: Parser, w: string)
    requires OneChar(p)
    ensures InLanguage(p, w) <==> |w| == 1 && Accepts(p, w[0])
  {
    if p.Alt? {
      OneCharLanguage(p.first, w);
      OneCharLanguage(p.second, w);
    }
  }

  /** The end of the run of accepted characters that starts at `i`. */
  function RunEnd(p: Parser, s: string, i: nat): (j: nat)
    requires OneChar(p) && i <= |s|
    ensures i <= j <= |s|
    ensures forall k :: i <= k < j ==> Accepts(p, s[k])
    ensures j < |s| ==> !Accepts(p, s[j])
    decreases |s| - i
  {
    if i < |s| && Accepts(p, s[i]) then RunEnd(p, s, i + 1) else i
  }

  lemma RunEndAt(p: Parser, s: string, i: nat, j: nat)
    requires OneChar(p) && i <= j <= |s|
    requires forall k :: i <= k < j ==> Accepts(p, s[k])
    requires j < |s| ==> !Accepts(p, s[j])
    ensures RunEnd(p, s, i) == j
  {
  }

  /** A repetition of a one-character parser takes the whole run. */
  lemma {:induction false} RepeatTakesRun(p: Parser, s: string, i: nat)
    requires OneChar(p) && i <= |s|
    ensures Repeat(p, s, i) == RunEnd(p, s, i)
    decreases |s| - i
  {
    OneCharParse(p, s, i);
    if i < |s| && Accepts(p, s[i]) {
      RepeatTakesRun(p, s, i + 1);
    }
  }

  ghost predicate AllAccepted(p: Parser, w: string)
    requires OneChar(p)
  {
    forall k :: 0 <= k < |w| ==> Accepts(p, w[k])
  }

  lemma {:induction false} StarOfOneChar(p: Parser, w: string)
    requires OneChar(p) && InLanguage(Star(p), w)
    ensures AllAccepted(p, w)
    decreases |w|
  {
    if w != [] {
      var k :| 0 < k <= |w| && InLanguage(p, w[..k]) && InLanguage(Star(p), w[k..]);
      OneCharLanguage(p, w[..k]);
      StarOfOneChar(p, w[k..]);
      forall n | 0 <= n < |w| ensures Accepts(p, w[n]) {
        if n >= k {
          assert w[k..][n - k] == w[n];
        }
      }
    }
  }

  lemma PlusOfOneChar(p: Parser, w: string)
    requires OneChar(p) && InLanguage(Plus(p), w)
    ensures w != [] && AllAccepted(p, w)
  {
    var k :| 0 <= k <= |w| && InLanguage(p, w[..k]) && InLanguage(Star(p), w[k..]);
    OneCharLanguage(p, w[..k]);
    StarOfOneChar(p, w[k..]);
    forall n | 0 <= n < |w| ensures Accepts(p, w[n]) {
      if n >= k {
        assert w[k..][n - k] == w[n];
      }
    }
  }
}
