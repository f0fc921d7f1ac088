/** The anchored regular expressions (`/^...$/.test(s)`) the client uses to
    recognise transaction hashes, Solana signatures, EVM addresses and e-mail
    addresses. `Matches` is an executable matcher by Brzozowski derivatives;
    `InLang` is the language a pattern denotes; `MatchesCorrect` ties the two. */
module Regex {

  /** The character classes that occur in the client's patterns. */
  datatype CharClass =
    | Lit(c: char)        // a literal character
    | HexDigit            // [a-fA-F0-9]
    | Base58Char          // [1-9A-HJ-NP-Za-km-z]
    | EmailLocalChar      // [a-zA-Z0-9.!#$%&'*+/=?^_`{|}~-]
    | LabelChar           // [a-zA-Z0-9-]

  predicate IsAsciiAlnum(c: char) {
    'a' <= c <= 'z' || 'A' <= c <= 'Z' || '0' <= c <= '9'
  }

  predicate InClass(k: CharClass, c: char) {
    match k
    case Lit(d) => c == d
    case HexDigit => 'a' <= c <= 'f' || 'A' <= c <= 'F' || '0' <= c <= '9'
    case Base58Char =>
      '1' <= c <= '9' || 'A' <= c <= 'H' || 'J' <= c <= 'N' || 'P' <= c <= 'Z'
      || 'a' <= c <= 'k' || 'm' <= c <= 'z'
    case EmailLocalChar => IsAsciiAlnum(c) || c in ".!#$%&'*+/=?^_`{|}~-"
    case LabelChar => IsAsciiAlnum(c) || c == '-'
  }

  /** Every character of `s` belongs to class `k`. */
  predicate AllIn(k: CharClass, s: string) {
    forall i :: 0 <= i < |s| ==> InClass(k, s[i])
  }

  datatype Re =
    | Nothing
    | Epsilon
    | Class(k: CharClass)
    | Alt(a: Re, b: Re)
    | Cat(a: Re, b: Re)
    | Star(a: Re)

  /** `a?` */
  function Opt(a: Re): Re {
    Alt(Epsilon, a)
  }

  /** `a+` */
  function Plus(a: Re): Re {
    Cat(a, Star(a))
  }

  /** `a{n}` */
  function Repeat(a: Re, n: nat): Re {
    if n == 0 then Epsilon else Cat(a, Repeat(a, n - 1))
  }

  /** A literal string, character by character. */
  function Literal(s: string): Re {
    if s == [] then Epsilon else Cat(Class(Lit(s[0])), Literal(s[1..]))
  }

  function Nullable(r: Re): bool {
    match r
    case Nothing => false
    case Epsilon => true
    case Class(_) => false
    case Alt(a, b) => Nullable(a) || Nullable(b)
    case Cat(a, b) => Nullable(a) && Nullable(b)
    case Star(_) => true
  }

  /** The derivative of `r` by `c`: the pattern for the rest of a word that starts with `c`. */
  function Deriv(r: Re, c: char): Re {
    match r
    case Nothing => Nothing
    case Epsilon => Nothing
    case Class(k) => if InClass(k, c) then Epsilon else Nothing
    case Alt(a, b) => Alt(Deriv(a, c), Deriv(b, c))
    case Cat(a, b) =>
      if Nullable(a) then Alt(Cat(Deriv(a, c), b), Deriv(b, c)) else Cat(Deriv(a, c), b)
    case Star(a) => Cat(Deriv(a, c), Star(a))
  }

  /** `RegExp.prototype.test` for a pattern anchored with `^` and `$`. */
  function Matches(r: Re, s: string): bool
    decreases |s|
  {
    if s == [] then Nullable(r) else Matches(Deriv(r, s[0]), s[1..])
  }

  /** The language of a pattern: the words it denotes. */
  ghost predicate InLang(r: Re, s: string)
    decreases |s|, r
  {
    match r
    case Nothing => false
    case Epsilon => s == []
    case Class(k) => |s| == 1 && InClass(k, s[0])
    case Alt(a, b) => InLang(a, s) || InLang(b, s)
    case Cat(a, b) => exists i :: 0 <= i <= |s| && InLang(a, s[..i]) && InLang(b, s[i..])
    case Star(a) =>
      s == [] || exists i :: 0 < i <= |s| && InLang(a, s[..i]) && InLang(Star(a), s[i..])
  }

  lemma {:induction false} NullableIff(r: Re)
    ensures Nullable(r) <==> InLang(r, [])
  {
    match r
    case Nothing =>
    case Epsilon =>
    case Class(_) =>
    case Alt(a, b) =>
      NullableIff(a);
      NullableIff(b);
    case Cat(a, b) =>
      NullableIff(a);
      NullableIff(b);
      var e: string := [];
      assert e[..0] == e && e[0..] == e;
    case Star(_) =>
  }

  lemma {:induction false} DerivCorrect(r: Re, c: char, s: string)
    ensures InLang(Deriv(r, c), s) <==> InLang(r, [c] + s)
    decreases r, 2
  {
    match r
    case Nothing =>
    case Epsilon =>
    case Class(k) =>
    case Alt(a, b) =>
      DerivCorrect(a, c, s);
      DerivCorrect(b, c, s);
    case Cat(a, b) =>
      DerivCatCorrect(a, b, c, s);
    case Star(a) =>
      DerivStarCorrect(a, c, s);
  }

  /** Two words of `a` and `b` make a word of `Cat(a, b)`. */
  lemma CatIntro(a: Re, b: Re, u: string, v: string)
    requires InLang(a, u) && InLang(b, v)
    ensures InLang(Cat(a, b), u + v)
  {
    assert (u + v)[..|u|] == u && (u + v)[|u|..] == v;
  }

  /** A non-empty word of `a` followed by a word of `Star(a)` is a word of `Star(a)`. */
  lemma StarIntro(a: Re, u: string, v: string)
    requires u != [] && InLang(a, u) && InLang(Star(a), v)
    ensures InLang(Star(a), u + v)
  {
    assert (u + v)[..|u|] == u && (u + v)[|u|..] == v;
  }

  /** A word of `Cat(a, b)` splits into a word of `a` and a word of `b`. */
  lemma CatSplit(a: Re, b: Re, s: string) returns (i: nat)
    requires InLang(Cat(a, b), s)
    ensures i <= |s| && InLang(a, s[..i]) && InLang(b, s[i..])
  {
    var j :| 0 <= j <= |s| && InLang(a, s[..j]) && InLang(b, s[j..]);
    i := j;
  }

  /** A non-empty word of `Star(a)` starts with a non-empty word of `a`. */
  lemma StarSplit(a: Re, s: string) returns (i: nat)
    requires s != [] && InLang(Star(a), s)
    ensures 0 < i <= |s| && InLang(a, s[..i]) && InLang(Star(a), s[i..])
  {
    var j :| 0 < j <= |s| && InLang(a, s[..j]) && InLang(Star(a), s[j..]);
    i := j;
  }

  /** `DerivCorrect` for a concatenation. */
  lemma {:induction false} DerivCatCorrect(a: Re, b: Re, c: char, s: string)
    ensures InLang(Deriv(Cat(a, b), c), s) <==> InLang(Cat(a, b), [c] + s)
    decreases Cat(a, b), 1
  {
    if InLang(Cat(a, b), [c] + s) {
      DerivCatSplit(a, b, c, s);
    }
    if InLang(Cat(Deriv(a, c), b), s) {
      DerivCatJoinLeft(a, b, c, s);
    }
    if Nullable(a) && InLang(Deriv(b, c), s) {
      DerivCatJoinRight(a, b, c, s);
    }
    if Nullable(a) {
      assert Deriv(Cat(a, b), c) == Alt(Cat(Deriv(a, c), b), Deriv(b, c));
    } else {
      assert Deriv(Cat(a, b), c) == Cat(Deriv(a, c), b);
    }
  }

  /** A word of `Cat(a, b)` that starts with `c` loses `c` either in `a` or, when
      `a` is nullable, in `b`. */
  lemma {:induction false} DerivCatSplit(a: Re, b: Re, c: char, s: string)
    requires InLang(Cat(a, b), [c] + s)
    ensures InLang(Cat(Deriv(a, c), b), s) || (Nullable(a) && InLang(Deriv(b, c), s))
    decreases Cat(a, b), 0
  {
    var w := [c] + s;
    var i :| 0 <= i <= |w| && InLang(a, w[..i]) && InLang(b, w[i..]);
    if i == 0 {
      NullableIff(a);
      assert w[i..] == w;
      DerivCorrect(b, c, s);
    } else {
      assert w[..i] == [c] + s[..i - 1];
      assert w[i..] == s[i - 1..];
      DerivCorrect(a, c, s[..i - 1]);
      CatIntro(Deriv(a, c), b, s[..i - 1], s[i - 1..]);
      assert s[..i - 1] + s[i - 1..] == s;
    }
  }

  /** The converse of `DerivCatSplit`, when `c` is lost in `a`. */
  lemma {:induction false} DerivCatJoinLeft(a: Re, b: Re, c: char, s: string)
    requires InLang(Cat(Deriv(a, c), b), s)
    ensures InLang(Cat(a, b), [c] + s)
    decreases Cat(a, b), 0
  {
    var da := Deriv(a, c);
    var j :| 0 <= j <= |s| && InLang(da, s[..j]) && InLang(b, s[j..]);
    var u, v := [c] + s[..j], s[j..];
    DerivCorrect(a, c, s[..j]);
    assert u + v == [c] + s;
    CatIntro(a, b, u, v);
  }

  /** The converse of `DerivCatSplit`, when `a` is nullable and `c` is lost in `b`. */
  lemma {:induction false} DerivCatJoinRight(a: Re, b: Re, c: char, s: string)
    requires Nullable(a) && InLang(Deriv(b, c), s)
    ensures InLang(Cat(a, b), [c] + s)
    decreases Cat(a, b), 0
  {
    DerivCorrect(b, c, s);
    NullableIff(a);
    CatIntro(a, b, [], [c] + s);
    assert [] + ([c] + s) == [c] + s;
  }

  /** `DerivCorrect` for a Kleene star. */
  lemma {:induction false} DerivStarCorrect(a: Re, c: char, s: string)
    ensures InLang(Deriv(Star(a), c), s) <==> InLang(Star(a), [c] + s)
    decreases Star(a), 1
  {
    assert Deriv(Star(a), c) == Cat(Deriv(a, c), Star(a));
    if InLang(Star(a), [c] + s) {
      DerivStarSplit(a, c, s);
    }
    if InLang(Cat(Deriv(a, c), Star(a)), s) {
      DerivStarJoin(a, c, s);
    }
  }

  /** A word of `Star(a)` that starts with `c` loses `c` in its first iteration. */
  lemma {:induction false} DerivStarSplit(a: Re, c: char, s: string)
    requires InLang(Star(a), [c] + s)
    ensures InLang(Cat(Deriv(a, c), Star(a)), s)
    decreases Star(a), 0
  {
    var w := [c] + s;
    var i :| 0 < i <= |w| && InLang(a, w[..i]) && InLang(Star(a), w[i..]);
    assert w[..i] == [c] + s[..i - 1];
    assert w[i..] == s[i - 1..];
    DerivCorrect(a, c, s[..i - 1]);
    CatIntro(Deriv(a, c), Star(a), s[..i - 1], s[i - 1..]);
    assert s[..i - 1] + s[i - 1..] == s;
  }

  /** The converse of `DerivStarSplit`. */
  lemma {:induction false} DerivStarJoin(a: Re, c: char, s: string)
    requires InLang(Cat(Deriv(a, c), Star(a)), s)
    ensures InLang(Star(a), [c] + s)
    decreases Star(a), 0
  {
    var j :| 0 <= j <= |s| && InLang(Deriv(a, c), s[..j]) && InLang(Star(a), s[j..]);
    DerivCorrect(a, c, s[..j]);
    StarIntro(a, [c] + s[..j], s[j..]);
    assert ([c] + s[..j]) + s[j..] == [c] + s;
  }

  /** The matcher accepts exactly the words of the pattern's language. */
  lemma {:induction false} MatchesCorrect(r: Re, s: string)
    ensures Matches(r, s) <==> InLang(r, s)
    decreases |s|
  {
    if s == [] {
      NullableIff(r);
    } else {
      MatchesCorrect(Deriv(r, s[0]), s[1..]);
      DerivCorrect(r, s[0], s[1..]);
      assert [s[0]] + s[1..] == s;
    }
  }

  // ---- Languages of the building blocks ----

  lemma {:induction false} ClassLang(k: CharClass, s: string)
    ensures InLang(Class(k), s) <==> |s| == 1 && AllIn(k, s)
  {
  }

  /** A word is over class `k` when its head is and its tail is. */
  lemma AllInCons(k: CharClass, s: string)
    requires s != []
    ensures AllIn(k, s) <==> InClass(k, s[0]) && AllIn(k, s[1..])
  {
    if InClass(k, s[0]) && AllIn(k, s[1..]) {
      forall j | 0 < j < |s|
        ensures InClass(k, s[j])
      {
        assert s[j] == s[1..][j - 1];
      }
    }
  }

  /** `[k]{n}` denotes the words of length `n` over class `k`. */
  lemma RepeatLang(k: CharClass, n: nat, s: string)
    ensures InLang(Repeat(Class(k), n), s) <==> |s| == n && AllIn(k, s)
  {
    if InLang(Repeat(Class(k), n), s) {
      RepeatLangSound(k, n, s);
    }
    if |s| == n && AllIn(k, s) {
      RepeatLangComplete(k, n, s);
    }
  }

  lemma {:induction false} RepeatLangSound(k: CharClass, n: nat, s: string)
    requires InLang(Repeat(Class(k), n), s)
    ensures |s| == n && AllIn(k, s)
    decreases n
  {
    if n > 0 {
      var rest := Repeat(Class(k), n - 1);
      assert Repeat(Class(k), n) == Cat(Class(k), rest);
      var i :| 0 <= i <= |s| && InLang(Class(k), s[..i]) && InLang(rest, s[i..]);
      assert i == 1;
      RepeatLangSound(k, n - 1, s[1..]);
      AllInCons(k, s);
    }
  }

  lemma {:induction false} RepeatLangComplete(k: CharClass, n: nat, s: string)
    requires |s| == n && AllIn(k, s)
    ensures InLang(Repeat(Class(k), n), s)
    decreases n
  {
    if n > 0 {
      var rest := Repeat(Class(k), n - 1);
      assert Repeat(Class(k), n) == Cat(Class(k), rest);
      AllInCons(k, s);
      RepeatLangComplete(k, n - 1, s[1..]);
      assert InLang(Class(k), s[..1]);
      CatIntro(Class(k), rest, s[..1], s[1..]);
      assert s[..1] + s[1..] == s;
    }
  }

  /** `[k]*` denotes the words over class `k`. */
  lemma {:induction false} StarLang(k: CharClass, s: string)
    ensures InLang(Star(Class(k)), s) <==> AllIn(k, s)
    decreases |s|
  {
    if s != [] {
      if InLang(Star(Class(k)), s) {
        var i :| 0 < i <= |s| && InLang(Class(k), s[..i]) && InLang(Star(Class(k)), s[i..]);
        StarLang(k, s[i..]);
        assert i == 1;
        assert forall j :: 1 <= j < |s| ==> s[j] == s[i..][j - 1];
      }
      if AllIn(k, s) {
        StarLang(k, s[1..]);
        assert s[..1] == [s[0]];
        assert InLang(Class(k), s[..1]);
      }
    }
  }

  /** `[k]+` denotes the non-empty words over class `k`. */
  lemma {:induction false} PlusLang(k: CharClass, s: string)
    ensures InLang(Plus(Class(k)), s) <==> |s| > 0 && AllIn(k, s)
  {
    if InLang(Plus(Class(k)), s) {
      var i :| 0 <= i <= |s| && InLang(Class(k), s[..i]) && InLang(Star(Class(k)), s[i..]);
      StarLang(k, s[i..]);
      assert i == 1;
      assert forall j :: 1 <= j < |s| ==> s[j] == s[i..][j - 1];
    }
    if |s| > 0 && AllIn(k, s) {
      StarLang(k, s[1..]);
      assert s[..1] == [s[0]];
      assert InLang(Class(k), s[..1]);
    }
  }

  /** A literal denotes exactly itself. */
  lemma {:induction false} LiteralLang(p: string, s: string)
    ensures InLang(Literal(p), s) <==> s == p
    decreases |p|
  {
    if p != [] {
      var r := Cat(Class(Lit(p[0])), Literal(p[1..]));
      if InLang(r, s) {
        var i :| 0 <= i <= |s| && InLang(Class(Lit(p[0])), s[..i]) && InLang(Literal(p[1..]), s[i..]);
        LiteralLang(p[1..], s[i..]);
        assert i == 1;
        assert s == s[..1] + s[1..];
      }
      if s == p {
        LiteralLang(p[1..], s[1..]);
        assert s[..1] == [p[0]];
        assert InLang(Class(Lit(p[0])), s[..1]);
      }
    }
  }
}
