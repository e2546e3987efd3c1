/** ${VAR} expansion: leftmost matches of "${word}", replaced in one pass. */
module Placeholders {

  predicate IsWordChar(c: char) {
    '0' <= c <= '9' || 'A' <= c <= 'Z' || 'a' <= c <= 'z' || c == '_'
  }

  predicate IsWord(w: string) {
    w != [] && forall i :: 0 <= i < |w| ==> IsWordChar(w[i])
  }

  function WordPrefix(s: string): (n: nat)
    ensures n <= |s| && forall i :: 0 <= i < n ==> IsWordChar(s[i])
    ensures n < |s| ==> !IsWordChar(s[n])
  {
    if s != [] && IsWordChar(s[0]) then 1 + WordPrefix(s[1..]) else 0
  }

  function Placeholder(w: string): string {
    "${" + w + "}"
  }

  /** Length of the placeholder s begins with, 0 if it begins with none. */
  function MatchLen(s: string): (m: nat)
    ensures m <= |s| && (m > 0 ==> m >= 4)
  {
    if |s| >= 2 && s[0] == '$' && s[1] == '{' then
      var n := WordPrefix(s[2..]);
      if n > 0 && n + 2 < |s| && s[n + 2] == '}' then n + 3 else 0
    else 0
  }

  /** The name inside the placeholder s begins with. */
  function KeyOf(s: string): string
    requires MatchLen(s) > 0
  {
    s[2..MatchLen(s) - 1]
  }

  type Env = map<string, string>

  /** The variable's value, or the placeholder itself when it is not set. */
  function ValueOf(w: string, env: Env): string {
    if w in env then env[w] else Placeholder(w)
  }

  /** expandEnvVars: replace matches from left to right, never looking at what was inserted. */
  function Expand(s: string, env: Env): string {
    if s == [] then []
    else if MatchLen(s) > 0 then ValueOf(KeyOf(s), env) + Expand(s[MatchLen(s)..], env)
    else [s[0]] + Expand(s[1..], env)
  }

  // ----- decomposition into literals and placeholders -----

  datatype Piece = Lit(c: char) | Hole(w: string)

  function PieceText(p: Piece): string {
    match p case Lit(c) => [c] case Hole(w) => Placeholder(w)
  }

  function Flatten(ps: seq<Piece>): string {
    if ps == [] then [] else PieceText(ps[0]) + Flatten(ps[1..])
  }

  function Render(ps: seq<Piece>, env: Env): string {
    if ps == [] then []
    else
      var text :=
        match ps[0]
        case Lit(c) => [c]
        case Hole(w) => if w in env then env[w] else "${" + w + "}";
      text + Render(ps[1..], env)
  }

  /** Every hole is a word and no literal is where a placeholder begins. */
  predicate Canonical(ps: seq<Piece>) {
    ps == [] || (Canonical(ps[1..]) && (if ps[0].Hole? then IsWord(ps[0].w) else MatchLen(Flatten(ps)) == 0))
  }

  function Parse(s: string): seq<Piece> {
    if s == [] then []
    else if MatchLen(s) > 0 then [Hole(KeyOf(s))] + Parse(s[MatchLen(s)..])
    else [Lit(s[0])] + Parse(s[1..])
  }

  lemma {:induction false} WordRun(w: string, rest: string)
    requires forall i :: 0 <= i < |w| ==> IsWordChar(w[i])
    requires rest != [] ==> !IsWordChar(rest[0])
    ensures WordPrefix(w + rest) == |w|
  {
    if w == [] {
      assert w + rest == rest;
    } else {
      assert (w + rest)[1..] == w[1..] + rest;
      WordRun(w[1..], rest);
    }
  }

  /** A text beginning with "${w}" matches exactly that. */
  lemma MatchOfPlaceholder(w: string, rest: string)
    requires IsWord(w)
    ensures MatchLen(Placeholder(w) + rest) == |w| + 3 && KeyOf(Placeholder(w) + rest) == w
  {
    var s := Placeholder(w) + rest;
    assert s[2..] == w + ("}" + rest);
    WordRun(w, "}" + rest);
    assert s[2..|w| + 2] == w;
  }

  /** A match is the placeholder of its key. */
  lemma MatchIsPlaceholder(s: string)
    requires MatchLen(s) > 0
    ensures IsWord(KeyOf(s)) && s == Placeholder(KeyOf(s)) + s[MatchLen(s)..] && |KeyOf(s)| + 3 == MatchLen(s)
  {
    var m := MatchLen(s);
    assert s[2..][..m - 3] == KeyOf(s);
    assert s == s[..2] + KeyOf(s) + [s[m - 1]] + s[m..];
  }

  lemma FlattenCons(p: Piece, ps: seq<Piece>)
    ensures Flatten([p] + ps) == PieceText(p) + Flatten(ps)
    ensures Canonical([p] + ps)
       <==> Canonical(ps) && (if p.Hole? then IsWord(p.w) else MatchLen(PieceText(p) + Flatten(ps)) == 0)
  {
    assert ([p] + ps)[1..] == ps;
  }

  lemma {:induction false} ParseFlattens(s: string)
    ensures Flatten(Parse(s)) == s && Canonical(Parse(s))
  {
    if s != [] {
      if MatchLen(s) > 0 {
        var rest := s[MatchLen(s)..];
        MatchIsPlaceholder(s);
        ParseFlattens(rest);
        FlattenCons(Hole(KeyOf(s)), Parse(rest));
      } else {
        ParseFlattens(s[1..]);
        FlattenCons(Lit(s[0]), Parse(s[1..]));
        assert s == [s[0]] + s[1..];
      }
    }
  }

  lemma {:induction false} CanonicalParses(ps: seq<Piece>)
    requires Canonical(ps)
    ensures Parse(Flatten(ps)) == ps
  {
    if ps != [] {
      CanonicalParses(ps[1..]);
      var rest := Flatten(ps[1..]);
      if ps[0].Hole? {
        MatchOfPlaceholder(ps[0].w, rest);
        assert (Placeholder(ps[0].w) + rest)[|ps[0].w| + 3..] == rest;
      } else {
        assert ([ps[0].c] + rest)[1..] == rest;
      }
      assert ps == [ps[0]] + ps[1..];
    }
  }

  lemma {:induction false} ExpandRenders(s: string, env: Env)
    ensures Expand(s, env) == Render(Parse(s), env)
  {
    if s != [] {
      if MatchLen(s) > 0 {
        ExpandRenders(s[MatchLen(s)..], env);
      } else {
        ExpandRenders(s[1..], env);
      }
    }
  }

  // ----- theorems -----

  /** The characters of a name, by their codes: ten digits, the underscore and the two alphabets of 26 letters. */
  lemma WordCharExactly(c: char)
    ensures var code := c as int;
      IsWordChar(c) <==> 48 <= code < 58 || 65 <= code < 91 || code == 95 || 97 <= code < 123
  {
  }

  /** Two placeholders in a string never overlap. */
  lemma NoOverlap(s: string, i: nat, j: nat)
    requires i < j <= |s| && MatchLen(s[i..]) > 0 && MatchLen(s[j..]) > 0
    ensures i + MatchLen(s[i..]) <= j
  {
    if j < i + MatchLen(s[i..]) {
      MatchIsPlaceholder(s[i..]);
      assert s[i..][j - i] == s[j] == s[j..][0];
      DollarOnlyFirst(KeyOf(s[i..]), j - i);
    }
  }

  lemma DollarOnlyFirst(w: string, k: nat)
    requires IsWord(w) && 0 < k < |w| + 3
    ensures Placeholder(w)[k] != '$'
  {
  }

  /** Every string decomposes into literals and placeholders in exactly one canonical way. */
  lemma UniqueDecomposition(s: string, ps: seq<Piece>)
    ensures Canonical(ps) && Flatten(ps) == s <==> ps == Parse(s)
  {
    ParseFlattens(s);
    if Canonical(ps) && Flatten(ps) == s {
      CanonicalParses(ps);
    }
  }

  /**
   Expansion of a decomposed text: literals and unset placeholders byte for byte, set ones
   replaced by their values verbatim, whatever text the values contain.
   */
  lemma ExpandIsSubstitution(ps: seq<Piece>, env: Env)
    requires Canonical(ps)
    ensures Expand(Flatten(ps), env) == Render(ps, env)
  {
    CanonicalParses(ps);
    ExpandRenders(Flatten(ps), env);
  }

  /** Some placeholder of a + b begins in a and ends in b. */
  ghost predicate StraddlesAt(a: string, b: string, i: nat) {
    i < |a| && MatchLen((a + b)[i..]) > 0 && i + MatchLen((a + b)[i..]) > |a|
  }

  ghost predicate Straddles(a: string, b: string) {
    exists i :: StraddlesAt(a, b, i)
  }

  /** Appending text does not disturb a match, and a match within the front part is its own. */
  lemma MatchOfPrefix(a: string, b: string)
    ensures MatchLen(a) > 0 ==> MatchLen(a + b) == MatchLen(a) && KeyOf(a + b) == KeyOf(a)
    ensures 0 < MatchLen(a + b) <= |a| ==> MatchLen(a) == MatchLen(a + b)
  {
    if MatchLen(a) > 0 {
      MatchIsPlaceholder(a);
      assert a + b == Placeholder(KeyOf(a)) + (a[MatchLen(a)..] + b);
      MatchOfPlaceholder(KeyOf(a), a[MatchLen(a)..] + b);
    }
    if 0 < MatchLen(a + b) <= |a| {
      var m, w := MatchLen(a + b), KeyOf(a + b);
      MatchIsPlaceholder(a + b);
      assert a == Placeholder(w) + a[m..];
      MatchOfPlaceholder(w, a[m..]);
    }
  }

  lemma StraddleTail(a: string, b: string, k: nat)
    requires !Straddles(a, b) && k <= |a|
    ensures !Straddles(a[k..], b)
  {
    forall i: nat | i < |a[k..]|
      ensures !StraddlesAt(a[k..], b, i)
    {
      assert (a + b)[i + k..] == (a[k..] + b)[i..];
      assert !StraddlesAt(a, b, i + k);
    }
  }

  /** How far Parse moves on from the start of a non-empty s. */
  function Step(s: string): (k: nat)
    requires s != []
    ensures 0 < k <= |s|
  {
    if MatchLen(s) > 0 then MatchLen(s) else 1
  }

  lemma StepOfConcat(a: string, b: string)
    requires a != [] && !StraddlesAt(a, b, 0)
    ensures MatchLen(a + b) == MatchLen(a) && (MatchLen(a) > 0 ==> KeyOf(a + b) == KeyOf(a))
    ensures (a + b)[Step(a)..] == a[Step(a)..] + b
  {
    assert (a + b)[0..] == a + b;
    MatchOfPrefix(a, b);
  }

  lemma {:induction false} ParseConcat(a: string, b: string)
    requires !Straddles(a, b)
    ensures Parse(a + b) == Parse(a) + Parse(b)
  {
    if a == [] {
      assert a + b == b;
    } else {
      StepOfConcat(a, b);
      StraddleTail(a, b, Step(a));
      ParseConcat(a[Step(a)..], b);
    }
  }

  lemma {:induction false} RenderConcat(ps: seq<Piece>, qs: seq<Piece>, env: Env)
    ensures Render(ps + qs, env) == Render(ps, env) + Render(qs, env)
  {
    if ps == [] {
      assert ps + qs == qs;
    } else {
      assert (ps + qs)[1..] == ps[1..] + qs;
      RenderConcat(ps[1..], qs, env);
    }
  }

  lemma ExpandConcat(a: string, b: string, env: Env)
    requires !Straddles(a, b)
    ensures Expand(a + b, env) == Expand(a, env) + Expand(b, env)
  {
    ParseConcat(a, b);
    RenderConcat(Parse(a), Parse(b), env);
    ExpandRenders(a + b, env);
    ExpandRenders(a, env);
    ExpandRenders(b, env);
  }

  // ----- a straddling placeholder does break the law -----

  /** How many characters of the text are placeholders for w. */
  function Holes(ps: seq<Piece>, w: string): nat {
    if ps == [] then 0 else (if ps[0] == Hole(w) then |w| + 3 else 0) + Holes(ps[1..], w)
  }

  lemma {:induction false} HolesConcat(ps: seq<Piece>, qs: seq<Piece>, w: string)
    ensures Holes(ps + qs, w) == Holes(ps, w) + Holes(qs, w)
  {
    if ps == [] {
      assert ps + qs == qs;
    } else {
      assert (ps + qs)[1..] == ps[1..] + qs;
      HolesConcat(ps[1..], qs, w);
    }
  }

  /** With w set to the empty string, the rendered text lacks exactly those characters. */
  lemma {:induction false} RenderedLength(ps: seq<Piece>, w: string)
    ensures |Render(ps, map[w := ""])| + Holes(ps, w) == |Flatten(ps)|
  {
    if ps != [] {
      RenderedLength(ps[1..], w);
    }
  }

  lemma ExpandedLength(s: string, w: string)
    ensures |Expand(s, map[w := ""])| + Holes(Parse(s), w) == |s|
  {
    ParseFlattens(s);
    ExpandRenders(s, map[w := ""]);
    RenderedLength(Parse(s), w);
  }

  lemma {:induction false} NoMatchNoHoles(x: string, w: string)
    requires forall k :: 0 <= k < |x| ==> MatchLen(x[k..]) == 0
    ensures Holes(Parse(x), w) == 0
  {
    if x != [] {
      assert x[0..] == x;
      forall k | 0 <= k < |x[1..]|
        ensures MatchLen(x[1..][k..]) == 0
      {
        assert x[1..][k..] == x[k + 1..];
      }
      NoMatchNoHoles(x[1..], w);
    }
  }

  /** A proper front part of a placeholder contains no placeholder. */
  lemma FrontHasNoHoles(w: string, x: string, y: string)
    requires IsWord(w) && x + y == Placeholder(w) && y != []
    ensures Holes(Parse(x), w) == 0
  {
    forall k | 0 <= k < |x|
      ensures MatchLen(x[k..]) == 0
    {
      if k > 0 {
        DollarOnlyFirst(w, k);
        assert x[k..][0] == Placeholder(w)[k];
      } else {
        assert x[0..] == x && Placeholder(w) + [] == Placeholder(w);
        MatchOfPrefix(x, y);
        MatchOfPlaceholder(w, []);
      }
    }
    NoMatchNoHoles(x, w);
  }

  /** A proper back part has none either, and none that reaches into what follows. */
  lemma BackHasNoHoles(w: string, x: string, y: string, rest: string)
    requires IsWord(w) && x + y == Placeholder(w) && x != []
    ensures Holes(Parse(y), w) == 0 && !Straddles(y, rest)
  {
    forall k: nat | k < |y|
      ensures MatchLen(y[k..]) == 0 && !StraddlesAt(y, rest, k)
    {
      DollarOnlyFirst(w, |x| + k);
      assert y[k] == (x + y)[|x| + k];
      assert y[k..][0] == y[k] && (y + rest)[k..][0] == y[k];
    }
    NoMatchNoHoles(y, w);
  }

  /** Nothing straddles the point where a placeholder begins. */
  lemma NothingStraddlesStart(a: string, w: string, rest: string)
    requires IsWord(w)
    ensures !Straddles(a, Placeholder(w) + rest)
  {
    var s := a + (Placeholder(w) + rest);
    MatchOfPlaceholder(w, rest);
    assert s[|a|..] == Placeholder(w) + rest;
    forall i: nat | i < |a| && MatchLen(s[i..]) > 0
      ensures !StraddlesAt(a, Placeholder(w) + rest, i)
    {
      NoOverlap(s, i, |a|);
    }
  }

  lemma StraddlePrefix(a: string, x: string, y: string)
    requires !Straddles(a, x + y)
    ensures !Straddles(a, x)
  {
    forall i: nat
      ensures !StraddlesAt(a, x, i)
    {
      if StraddlesAt(a, x, i) {
        assert (a + (x + y))[i..] == (a + x)[i..] + y;
        MatchOfPrefix((a + x)[i..], y);
        assert StraddlesAt(a, x + y, i);
      }
    }
  }

  lemma HolesAround(a1: string, w: string, b1: string)
    requires IsWord(w)
    ensures Holes(Parse(a1 + (Placeholder(w) + b1)), w) == Holes(Parse(a1), w) + |w| + 3 + Holes(Parse(b1), w)
  {
    var p := Placeholder(w);
    NothingStraddlesStart(a1, w, b1);
    ParseConcat(a1, p + b1);
    MatchOfPlaceholder(w, b1);
    assert (p + b1)[|p|..] == b1;
    HolesConcat(Parse(a1), Parse(p + b1), w);
  }

  lemma HolesLeft(a1: string, w: string, x: string, y: string)
    requires IsWord(w) && x + y == Placeholder(w) && y != []
    ensures Holes(Parse(a1 + x), w) == Holes(Parse(a1), w)
  {
    NothingStraddlesStart(a1, w, []);
    assert Placeholder(w) + [] == x + y;
    StraddlePrefix(a1, x, y);
    ParseConcat(a1, x);
    HolesConcat(Parse(a1), Parse(x), w);
    FrontHasNoHoles(w, x, y);
  }

  lemma HolesRight(w: string, x: string, y: string, b1: string)
    requires IsWord(w) && x + y == Placeholder(w) && x != []
    ensures Holes(Parse(y + b1), w) == Holes(Parse(b1), w)
  {
    BackHasNoHoles(w, x, y, b1);
    ParseConcat(y, b1);
    HolesConcat(Parse(y), Parse(b1), w);
  }

  /** Cutting a placeholder in two makes its replacement impossible. */
  lemma CutLosesOneHole(a1: string, w: string, x: string, y: string, b1: string)
    requires IsWord(w) && x + y == Placeholder(w) && x != [] && y != []
    ensures Holes(Parse(a1 + (x + y + b1)), w) == Holes(Parse(a1 + x), w) + Holes(Parse(y + b1), w) + |w| + 3
  {
    HolesAround(a1, w, b1);
    HolesLeft(a1, w, x, y);
    HolesRight(w, x, y, b1);
  }

  /** The two parts of a straddling placeholder and what is around it. */
  lemma CutPoint(a: string, b: string, i: nat) returns (a1: string, w: string, x: string, y: string, b1: string)
    requires StraddlesAt(a, b, i)
    ensures IsWord(w) && x + y == Placeholder(w) && x != [] && y != []
    ensures a == a1 + x && b == y + b1 && a + b == a1 + (x + y + b1)
  {
    var s := (a + b)[i..];
    MatchIsPlaceholder(s);
    var m := MatchLen(s);
    w := KeyOf(s);
    a1, x, y, b1 := a[..i], a[i..], b[..i + m - |a|], b[i + m - |a|..];
    assert x + y == s[..m];
    assert s[..m] == Placeholder(w);
  }

  /** In an environment that erases the cut placeholder, the two sides differ in length. */
  lemma LengthsDiffer(a: string, b: string, w: string)
    requires Holes(Parse(a + b), w) == Holes(Parse(a), w) + Holes(Parse(b), w) + |w| + 3
    ensures exists env: Env :: Expand(a + b, env) != Expand(a, env) + Expand(b, env)
  {
    ExpandedLength(a + b, w);
    ExpandedLength(a, w);
    ExpandedLength(b, w);
    var env := map[w := ""];
    assert |Expand(a + b, env)| != |Expand(a, env) + Expand(b, env)|;
  }

  /** Expansion distributes over a join in every environment exactly when no placeholder straddles it. */
  lemma DistributesExactly(a: string, b: string)
    ensures (forall env: Env :: Expand(a + b, env) == Expand(a, env) + Expand(b, env)) <==> !Straddles(a, b)
  {
    if Straddles(a, b) {
      var i: nat :| StraddlesAt(a, b, i);
      var a1, w, x, y, b1 := CutPoint(a, b, i);
      CutLosesOneHole(a1, w, x, y, b1);
      LengthsDiffer(a, b, w);
    } else {
      forall env: Env
        ensures Expand(a + b, env) == Expand(a, env) + Expand(b, env)
      {
        ExpandConcat(a, b, env);
      }
    }
  }
}
