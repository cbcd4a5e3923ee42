/** Statement text: blanking string literals, and why spliced values cannot change the guard. */
module CqlText {
  import opened Common

  const QUOTE := '\''

  function EscapedChar(c: char): string { if c == QUOTE then [QUOTE, QUOTE] else [c] }

  function Escape(value: string): string {
    if value == [] then [] else EscapedChar(value[0]) + Escape(value[1..])
  }

  /** A spliced value, as the callers write it. A missing value escapes to the empty text, as "" does. */
  function Literal(value: string): string { [QUOTE] + Escape(value) + [QUOTE] }

  // ---- the scanner ----------------------------------------------------------------------

  /** Where a scan of the text stands. `Closing`: just past a quote inside a literal, which ends
      the literal unless another quote follows. */
  datatype Mode = Outside | Inside | Closing

  function NextMode(m: Mode, c: char): Mode {
    match m
    case Outside => if c == QUOTE then Inside else Outside
    case Inside => if c == QUOTE then Closing else Inside
    case Closing => if c == QUOTE then Inside else Outside
  }

  /** What reading `c` puts out: a literal is put out, blanked, once it is known to have ended. */
  function Puts(m: Mode, c: char): string {
    match m
    case Outside => if c == QUOTE then [] else [c]
    case Inside => []
    case Closing => if c == QUOTE then [] else [QUOTE, QUOTE, c]
  }

  function After(m: Mode, s: string): Mode
    decreases |s|
  {
    if s == [] then m else After(NextMode(m, s[0]), s[1..])
  }

  /** What the scan has put out by the end of `s`, not counting a literal still open there. */
  function Emitted(m: Mode, s: string): string
    decreases |s|
  {
    if s == [] then [] else Puts(m, s[0]) + Emitted(NextMode(m, s[0]), s[1..])
  }

  /** A literal still open at the end of the text, terminated or not. */
  function Tail(m: Mode): string { if m == Outside then [] else [QUOTE, QUOTE] }

  /** The text with every literal, terminated or not, blanked to an empty one. */
  function Blanked(m: Mode, s: string): string { Emitted(m, s) + Tail(After(m, s)) }

  lemma BlankedStep(m: Mode, s: string)
    requires s != []
    ensures Blanked(m, s) == Puts(m, s[0]) + Blanked(NextMode(m, s[0]), s[1..])
  {
  }

  lemma BlankedStepAt(m: Mode, s: string, i: nat)
    requires i < |s|
    ensures Blanked(m, s[i..]) == Puts(m, s[i]) + Blanked(NextMode(m, s[i]), s[i + 1..])
  {
    BlankedStep(m, s[i..]);
    assert s[i..][1..] == s[i + 1..];
  }

  /** A quote inside a literal that no second quote follows ends it. */
  lemma LiteralEnds(s: string, i: nat)
    requires i < |s| && s[i] == QUOTE && (i + 1 == |s| || s[i + 1] != QUOTE)
    ensures Blanked(Inside, s[i..]) == [QUOTE, QUOTE] + Blanked(Outside, s[i + 1..])
  {
    BlankedStepAt(Inside, s, i);
    if i + 1 < |s| {
      BlankedStepAt(Closing, s, i + 1);
      BlankedStepAt(Outside, s, i + 1);
    }
  }

  /** A doubled quote inside a literal stays inside it. */
  lemma EscapedPairStays(s: string, i: nat)
    requires i + 1 < |s| && s[i] == QUOTE && s[i + 1] == QUOTE
    ensures Blanked(Inside, s[i..]) == Blanked(Inside, s[i + 2..])
  {
    BlankedStepAt(Inside, s, i);
    BlankedStepAt(Closing, s, i + 1);
  }

  lemma {:induction false} ScanSplits(m: Mode, s: string, t: string)
    ensures After(m, s + t) == After(After(m, s), t)
    ensures Emitted(m, s + t) == Emitted(m, s) + Emitted(After(m, s), t)
    decreases |s|
  {
    if s == [] {
      assert s + t == t;
    } else {
      assert (s + t)[1..] == s[1..] + t;
      ScanSplits(NextMode(m, s[0]), s[1..], t);
    }
  }

  lemma Regroup(a: string, b: string, c: string)
    ensures a + (b + c) == (a + b) + c
  {
  }

  lemma NothingFirst(a: string)
    ensures [] + a == a && a + [] == a
  {
  }

  /** The guard's scanner: nested loops over an index, appending to the output. */
  method OutsideStringLiterals(cql: string) returns (out: string)
    ensures out == Blanked(Outside, cql)
  {
    out := [];
    var index := 0;
    assert cql[0..] == cql;
    NothingFirst(Blanked(Outside, cql));
    while index < |cql|
      invariant 0 <= index <= |cql|
      invariant out + Blanked(Outside, cql[index..]) == Blanked(Outside, cql)
    {
      BlankedStepAt(Outside, cql, index);
      if cql[index] != QUOTE {
        Regroup(out, [cql[index]], Blanked(Outside, cql[index + 1..]));
        out := out + [cql[index]];
        index := index + 1;
      } else {
        NothingFirst(Blanked(Inside, cql[index + 1..]));
        index := SkipLiteral(cql, index + 1);
        Regroup(out, [QUOTE, QUOTE], Blanked(Outside, cql[index..]));
        out := out + [QUOTE, QUOTE];
      }
    }
  }

  /** The scanner's inner loop: past the end of the literal whose content begins at `start`. */
  method SkipLiteral(cql: string, start: nat) returns (index: nat)
    requires start <= |cql|
    ensures start <= index <= |cql|
    ensures Blanked(Inside, cql[start..]) == [QUOTE, QUOTE] + Blanked(Outside, cql[index..])
  {
    index := start;
    while index < |cql|
      invariant start <= index <= |cql|
      invariant Blanked(Inside, cql[start..]) == Blanked(Inside, cql[index..])
    {
      if cql[index] == QUOTE {
        if index + 1 < |cql| && cql[index + 1] == QUOTE {
          EscapedPairStays(cql, index);
          index := index + 2;
          continue;
        }
        LiteralEnds(cql, index);
        index := index + 1;
        return;
      }
      BlankedStepAt(Inside, cql, index);
      index := index + 1;
    }
  }

  // ---- spliced values -------------------------------------------------------------------

  /** `fragments[0] + 'values[0]' + fragments[1] + ... + fragments[n]`. */
  function Splice(fragments: seq<string>, values: seq<string>): string
    requires |fragments| == |values| + 1
  {
    if values == [] then fragments[0]
    else fragments[0] + Literal(values[0]) + Splice(fragments[1..], values[1..])
  }

  function Quotes(s: string): nat {
    if s == [] then 0 else (if s[0] == QUOTE then 1 else 0) + Quotes(s[1..])
  }

  /** Every fragment a value follows has balanced quotes. */
  predicate Balanced(fragments: seq<string>) {
    forall i :: 0 <= i < |fragments| - 1 ==> Quotes(fragments[i]) % 2 == 0
  }

  lemma {:induction false} ParityIsMode(m: Mode, s: string)
    ensures (After(m, s) == Inside) == ((m == Inside) == (Quotes(s) % 2 == 0))
    decreases |s|
  {
    if s != [] { ParityIsMode(NextMode(m, s[0]), s[1..]); }
  }

  /** Reading an escaped value from inside a literal ends inside the literal, and puts out nothing. */
  lemma {:induction false} EscapedStaysInside(v: string)
    ensures After(Inside, Escape(v)) == Inside && Emitted(Inside, Escape(v)) == []
  {
    if v != [] {
      EscapedStaysInside(v[1..]);
      EscapedCharStaysInside(v[0]);
      ScanSplits(Inside, EscapedChar(v[0]), Escape(v[1..]));
    }
  }

  lemma EscapedCharStaysInside(c: char)
    ensures After(Inside, EscapedChar(c)) == Inside && Emitted(Inside, EscapedChar(c)) == []
  {
    assert [QUOTE, QUOTE][1..] == [QUOTE];
    OneChar(Inside, c);
    if c == QUOTE {
      OneChar(Closing, QUOTE);
    }
  }

  lemma OneChar(m: Mode, c: char)
    ensures After(m, [c]) == NextMode(m, c) && Emitted(m, [c]) == Puts(m, c)
  {
  }

  /** Wherever no literal is open, a spliced value is scanned as one literal and puts out nothing. */
  lemma LiteralIsSwallowed(m: Mode, v: string)
    requires m != Inside
    ensures After(m, Literal(v)) == Closing && Emitted(m, Literal(v)) == []
  {
    ScanSplits(m, [QUOTE] + Escape(v), [QUOTE]);
    ScanSplits(m, [QUOTE], Escape(v));
    EscapedStaysInside(v);
    OneChar(m, QUOTE);
    OneChar(Inside, QUOTE);
  }

  /** A value spliced between `s` and `u`, where `s` leaves no literal open. */
  lemma ValueIsSkipped(m: Mode, s: string, v: string, u: string)
    requires After(m, s) != Inside
    ensures After(m, s + Literal(v) + u) == After(Closing, u)
    ensures Emitted(m, s + Literal(v) + u) == Emitted(m, s) + Emitted(Closing, u)
  {
    ScanSplits(m, s + Literal(v), u);
    ScanSplits(m, s, Literal(v));
    LiteralIsSwallowed(After(m, s), v);
    NothingFirst(Emitted(m, s));
  }

  lemma {:induction false} ScanIgnoresValues(m: Mode, fragments: seq<string>, vs: seq<string>, ws: seq<string>)
    requires |fragments| == |vs| + 1 == |ws| + 1 && Balanced(fragments) && m != Inside
    ensures After(m, Splice(fragments, vs)) == After(m, Splice(fragments, ws))
    ensures Emitted(m, Splice(fragments, vs)) == Emitted(m, Splice(fragments, ws))
    decreases |vs|
  {
    if vs != [] {
      assert Quotes(fragments[0]) % 2 == 0;
      assert After(m, fragments[0]) != Inside by { ParityIsMode(m, fragments[0]); }
      ScanIgnoresValues(Closing, fragments[1..], vs[1..], ws[1..]);
      ValueIsSkipped(m, fragments[0], vs[0], Splice(fragments[1..], vs[1..]));
      ValueIsSkipped(m, fragments[0], ws[0], Splice(fragments[1..], ws[1..]));
    }
  }

  // ---- when the template leaves a literal open ------------------------------------------

  /** Where a literal is open, an empty value is a doubled quote and puts out nothing. */
  lemma EmptyValueInside()
    ensures After(Inside, Literal("")) == Inside && Emitted(Inside, Literal("")) == []
  {
    assert Literal("") == [QUOTE] + [QUOTE];
    ScanSplits(Inside, [QUOTE], [QUOTE]);
    OneChar(Inside, QUOTE);
    OneChar(Closing, QUOTE);
  }

  /** Where a literal is open, a value's own text is put out: the literal closes before it. */
  lemma VisibleValueInside()
    ensures After(Inside, Literal("x")) == Inside && |Emitted(Inside, Literal("x"))| == 3
  {
    assert Escape("x") == ['x'] by { assert "x"[1..] == []; }
    assert Literal("x") == ([QUOTE] + ['x']) + [QUOTE];
    ScanSplits(Inside, [QUOTE] + ['x'], [QUOTE]);
    ScanSplits(Inside, [QUOTE], ['x']);
    OneChar(Inside, QUOTE);
    OneChar(Closing, 'x');
    OneChar(Outside, QUOTE);
  }

  /** `n` values that are all empty, but for an `x` at `at` (nowhere, if `at` is `n`). */
  function Probe(n: nat, at: nat): (vs: seq<string>)
    ensures |vs| == n
  {
    if n == 0 then [] else [if at == 0 then "x" else ""] + Probe(n - 1, if at == 0 then n - 1 else at - 1)
  }

  /** One value, in the place the first unbalanced fragment leaves inside a literal, shows through. */
  lemma {:induction false} ValueShowsThrough(m: Mode, fragments: seq<string>, i: nat)
    requires m != Inside && i < |fragments| - 1 && Quotes(fragments[i]) % 2 == 1
    requires forall k :: 0 <= k < i ==> Quotes(fragments[k]) % 2 == 0
    ensures Shows(m, fragments, i)
    decreases i
  {
    ParityIsMode(m, fragments[0]);
    if i == 0 {
      ShowsHere(m, fragments);
    } else {
      assert Quotes(fragments[0]) % 2 == 0;
      forall k | 0 <= k < i - 1 ensures Quotes(fragments[1..][k]) % 2 == 0 {
        assert fragments[1..][k] == fragments[k + 1];
      }
      ValueShowsThrough(Closing, fragments[1..], i - 1);
      ShowsLater(m, fragments, i);
    }
  }

  lemma ShowsHere(m: Mode, fragments: seq<string>)
    requires |fragments| > 1 && After(m, fragments[0]) == Inside
    ensures Shows(m, fragments, 0)
  {
    var n := |fragments| - 1;
    InsideDiffers(m, fragments[0], Splice(fragments[1..], Probe(n - 1, n - 1)));
    assert Probe(n, 0)[1..] == Probe(n, n)[1..] == Probe(n - 1, n - 1);
  }

  lemma ShowsLater(m: Mode, fragments: seq<string>, i: nat)
    requires 0 < i < |fragments| - 1 && After(m, fragments[0]) != Inside && Shows(Closing, fragments[1..], i - 1)
    ensures Shows(m, fragments, i)
  {
    var n := |fragments| - 1;
    assert Probe(n, i)[1..] == Probe(n - 1, i - 1) && Probe(n, n)[1..] == Probe(n - 1, n - 1);
    ValueIsSkipped(m, fragments[0], "", Splice(fragments[1..], Probe(n - 1, n - 1)));
    ValueIsSkipped(m, fragments[0], "", Splice(fragments[1..], Probe(n - 1, i - 1)));
  }

  predicate Shows(m: Mode, fragments: seq<string>, i: nat)
    requires i < |fragments| - 1
  {
    var n := |fragments| - 1;
    && After(m, Splice(fragments, Probe(n, i))) == After(m, Splice(fragments, Probe(n, n)))
    && |Emitted(m, Splice(fragments, Probe(n, i)))| == |Emitted(m, Splice(fragments, Probe(n, n)))| + 3
  }

  lemma InsideDiffers(m: Mode, s: string, u: string)
    requires After(m, s) == Inside
    ensures After(m, s + Literal("x") + u) == After(m, s + Literal("") + u)
    ensures |Emitted(m, s + Literal("x") + u)| == |Emitted(m, s + Literal("") + u)| + 3
  {
    EmptyValueInside();
    VisibleValueInside();
    ScanSplits(m, s + Literal("x"), u);
    ScanSplits(m, s, Literal("x"));
    ScanSplits(m, s + Literal(""), u);
    ScanSplits(m, s, Literal(""));
  }

  /** The blanked statement is the same for these two choices of values. */
  predicate SameBlanked(fragments: seq<string>, vs: seq<string>, ws: seq<string>)
    requires |fragments| == |vs| + 1 == |ws| + 1
  {
    Blanked(Outside, Splice(fragments, vs)) == Blanked(Outside, Splice(fragments, ws))
  }

  lemma FirstOdd(fragments: seq<string>, n: nat) returns (i: nat)
    requires n < |fragments| && Quotes(fragments[n]) % 2 == 1
    ensures i <= n && Quotes(fragments[i]) % 2 == 1
    ensures forall k :: 0 <= k < i ==> Quotes(fragments[k]) % 2 == 0
  {
    i := 0;
    while Quotes(fragments[i]) % 2 == 0
      invariant i <= n
      invariant forall k :: 0 <= k < i ==> Quotes(fragments[k]) % 2 == 0
      decreases n - i
    {
      i := i + 1;
    }
  }

  /** Exactly when blanking hides every spliced value: each fragment a value follows has an even
      number of quotes. Nothing is asked of the last one, nor of how a fragment begins or ends. */
  lemma BlankingHidesValues(fragments: seq<string>)
    requires fragments != []
    ensures Balanced(fragments) <==>
      forall vs, ws | |vs| == |ws| == |fragments| - 1 :: SameBlanked(fragments, vs, ws)
  {
    if Balanced(fragments) {
      forall vs: seq<string>, ws: seq<string> | |vs| == |ws| == |fragments| - 1
        ensures SameBlanked(fragments, vs, ws)
      {
        ScanIgnoresValues(Outside, fragments, vs, ws);
      }
    } else {
      var n := |fragments| - 1;
      var odd :| 0 <= odd < n && Quotes(fragments[odd]) % 2 != 0;
      var i := FirstOdd(fragments, odd);
      ValueShowsThrough(Outside, fragments, i);
      assert !SameBlanked(fragments, Probe(n, i), Probe(n, n));
    }
  }

  // ---- the guard ------------------------------------------------------------------------

  predicate IsSpace(c: char) { c in " \t\n\r" || c == '\U{000B}' || c == '\U{000C}' }

  predicate IsWord(c: char) { 'a' <= c <= 'z' || 'A' <= c <= 'Z' || '0' <= c <= '9' || c == '_' }

  /** A character of the text against a lower-case letter of the pattern, case ignored. */
  predicate SameLetter(c: char, letter: char) {
    || c == letter
    || ('a' <= letter <= 'z' && c as int == letter as int - 32)
  }

  predicate HasWordAt(s: string, i: nat, word: string) {
    && i + |word| <= |s|
    && forall k :: 0 <= k < |word| ==> SameLetter(s[i + k], word[k])
  }

  /** A word boundary: exactly one of the two neighbours of this position is a word character. */
  predicate Boundary(s: string, i: nat)
    requires i <= |s|
  {
    (i > 0 && IsWord(s[i - 1])) != (i < |s| && IsWord(s[i]))
  }

  const Mutating := ["insert", "update", "delete", "begin"]

  predicate OpensWith(s: string, i: nat, verb: string) {
    && HasWordAt(s, i, verb)
    && Boundary(s, i + |verb|)
    && forall k :: 0 <= k < i ==> IsSpace(s[k])
  }

  predicate HasIfFrom(s: string, from: nat) {
    exists j :: from <= j < |s| && HasWordAt(s, j, "if") && Boundary(s, j) && Boundary(s, j + 2)
  }

  /** A mutating verb after nothing but white space, and later the word IF. */
  predicate LooksConditional(s: string) {
    exists i, v :: 0 <= i < |s| && 0 <= v < |Mutating| && OpensWith(s, i, Mutating[v])
                   && HasIfFrom(s, i + |Mutating[v]|)
  }

  predicate IsConditional(cql: string) { LooksConditional(Blanked(Outside, cql)) }

  /** The guard's verdict on a statement is its verdict on the template with empty values. */
  lemma GuardIgnoresValues(fragments: seq<string>, values: seq<string>)
    requires |fragments| == |values| + 1 && Balanced(fragments)
    ensures IsConditional(Splice(fragments, values)) == IsConditional(Splice(fragments, seq(|values|, _ => "")))
  {
    BlankingHidesValues(fragments);
    assert SameBlanked(fragments, values, seq(|values|, _ => ""));
  }

  /** A mutating template that leaves a literal open hands the verdict to the value: whatever else
      it says, this value makes the guard call it conditional. */
  lemma OpenLiteralHandsOverVerdict(s: string, u: string, i: nat, v: nat)
    requires Quotes(s) % 2 == 1
    requires v < |Mutating| && OpensWith(Emitted(Outside, s), i, Mutating[v])
    ensures IsConditional(Splice([s, u], [" if "]))
  {
    assert Splice([s, u], [" if "]) == s + Literal(" if ") + u by { assert [s, u][1..] == [u]; }
    ParityIsMode(Outside, s);
    IfShowsThrough();
    OpenValue(s, " if ", u, "'' if ");
    IfIsFound(Emitted(Outside, s), Blanked(Inside, u), i, v);
  }

  /** A value spliced where `s` leaves a literal open, and what of it shows. */
  lemma OpenValue(s: string, value: string, u: string, shown: string)
    requires After(Outside, s) == Inside && After(Inside, Literal(value)) == Inside && Emitted(Inside, Literal(value)) == shown
    ensures Blanked(Outside, s + Literal(value) + u) == Emitted(Outside, s) + shown + Blanked(Inside, u)
  {
    ScanSplits(Outside, s + Literal(value), u);
    ScanSplits(Outside, s, Literal(value));
    Regroup(Emitted(Outside, s) + shown, Emitted(Inside, u), Tail(After(Inside, u)));
  }

  lemma IfShowsThrough()
    ensures After(Inside, Literal(" if ")) == Inside && Emitted(Inside, Literal(" if ")) == "'' if "
  {
    assert Escape(" if ") == " if " by {
      assert " if "[1..] == "if " && "if "[1..] == "f " && "f "[1..] == " " && " "[1..] == "";
    }
    assert Literal(" if ") == "' if '";
    assert "' if '"[1..] == " if '" && " if '"[1..] == "if '" && "if '"[1..] == "f '" && "f '"[1..] == " '" && " '"[1..] == "'" && "'"[1..] == "";
  }

  lemma IfIsFound(e: string, more: string, i: nat, v: nat)
    requires v < |Mutating| && OpensWith(e, i, Mutating[v])
    ensures LooksConditional(e + "'' if " + more)
  {
    var text := e + "'' if " + more;
    var j := |e| + 3;
    assert text[j - 1] == ' ' && text[j] == 'i' && text[j + 1] == 'f' && text[j + 2] == ' ';
    assert HasWordAt(text, j, "if") && Boundary(text, j) && Boundary(text, j + 2);
    assert |Mutating[v]| > 0;
    StillOpens(e, "'' if " + more, i, Mutating[v]);
    assert e + ("'' if " + more) == text;
    assert HasIfFrom(text, i + |Mutating[v]|);
  }

  lemma StillOpens(e: string, t: string, i: nat, verb: string)
    requires OpensWith(e, i, verb) && t != [] && !IsWord(t[0])
    ensures OpensWith(e + t, i, verb)
  {
  }

  // ---- upper and lower case ---------------------------------------------------------------

  function Lower(c: char): char { if 'A' <= c <= 'Z' then (c as int + 32) as char else c }

  /** The two texts differ in the case of letters at most. */
  predicate SameButCase(a: string, b: string) { |a| == |b| && forall i :: 0 <= i < |a| ==> Lower(a[i]) == Lower(b[i]) }

  lemma {:induction false} BlankingKeepsCase(m: Mode, a: string, b: string)
    requires SameButCase(a, b)
    ensures SameButCase(Emitted(m, a), Emitted(m, b)) && After(m, a) == After(m, b)
    decreases |a|
  {
    if a != [] {
      assert Lower(a[0]) == Lower(b[0]);
      assert a[0] == QUOTE <==> b[0] == QUOTE;
      BlankingKeepsCase(NextMode(m, a[0]), a[1..], b[1..]);
      CaseJoins(Puts(m, a[0]), Puts(m, b[0]), Emitted(NextMode(m, a[0]), a[1..]), Emitted(NextMode(m, a[0]), b[1..]));
    }
  }

  lemma CaseJoins(a: string, b: string, c: string, d: string)
    requires SameButCase(a, b) && SameButCase(c, d)
    ensures SameButCase(a + c, b + d)
  {
  }

  predicate LowerCase(word: string) { forall k :: 0 <= k < |word| ==> 'a' <= word[k] <= 'z' }

  lemma WordInAnyCase(a: string, b: string, i: nat, word: string)
    requires SameButCase(a, b) && LowerCase(word)
    ensures HasWordAt(a, i, word) <==> HasWordAt(b, i, word)
  {
    if i + |word| <= |a| {
      forall k | 0 <= k < |word| ensures SameLetter(a[i + k], word[k]) <==> SameLetter(b[i + k], word[k]) {
        assert Lower(a[i + k]) == Lower(b[i + k]);
      }
    }
  }

  lemma BoundaryInAnyCase(a: string, b: string, i: nat)
    requires SameButCase(a, b) && i <= |a|
    ensures Boundary(a, i) <==> Boundary(b, i)
  {
    assert i > 0 ==> Lower(a[i - 1]) == Lower(b[i - 1]);
    assert i < |a| ==> Lower(a[i]) == Lower(b[i]);
  }

  lemma OpensInAnyCase(a: string, b: string, i: nat, verb: string)
    requires SameButCase(a, b) && LowerCase(verb) && OpensWith(a, i, verb)
    ensures OpensWith(b, i, verb)
  {
    WordInAnyCase(a, b, i, verb);
    BoundaryInAnyCase(a, b, i + |verb|);
    forall k | 0 <= k < i ensures IsSpace(b[k]) { assert Lower(a[k]) == Lower(b[k]) && IsSpace(a[k]); }
  }

  lemma IfInAnyCase(a: string, b: string, from: nat)
    requires SameButCase(a, b) && HasIfFrom(a, from)
    ensures HasIfFrom(b, from)
  {
    var j :| from <= j < |a| && HasWordAt(a, j, "if") && Boundary(a, j) && Boundary(a, j + 2);
    WordInAnyCase(a, b, j, "if");
    BoundaryInAnyCase(a, b, j);
    BoundaryInAnyCase(a, b, j + 2);
  }

  lemma VerbsAreLower(v: nat)
    requires v < |Mutating|
    ensures LowerCase(Mutating[v])
  {
  }

  lemma LooksInAnyCase(a: string, b: string)
    requires SameButCase(a, b) && LooksConditional(a)
    ensures LooksConditional(b)
  {
    var i, v :| 0 <= i < |a| && 0 <= v < |Mutating| && OpensWith(a, i, Mutating[v]) && HasIfFrom(a, i + |Mutating[v]|);
    VerbsAreLower(v);
    OpensInAnyCase(a, b, i, Mutating[v]);
    IfInAnyCase(a, b, i + |Mutating[v]|);
  }

  /** The guard's verdict does not depend on the case of any letter. */
  lemma GuardIgnoresCase(a: string, b: string)
    requires SameButCase(a, b)
    ensures IsConditional(a) <==> IsConditional(b)
  {
    BlankingKeepsCase(Outside, a, b);
    CaseJoins(Emitted(Outside, a), Emitted(Outside, b), Tail(After(Outside, a)), Tail(After(Outside, b)));
    if IsConditional(a) { LooksInAnyCase(Blanked(Outside, a), Blanked(Outside, b)); }
    if IsConditional(b) { LooksInAnyCase(Blanked(Outside, b), Blanked(Outside, a)); }
  }

  /** As the repository writes them, in capitals: a mutating verb, anything without a quote, and IF. */
  lemma UpperCaseIsSeen(middle: string, rest: string)
    requires forall c <- middle + rest :: c != QUOTE
    ensures IsConditional("UPDATE " + middle + " IF " + rest)
  {
    var upper, lower := "UPDATE " + middle + " IF " + rest, "update " + middle + " if " + rest;
    assert SameButCase(lower, upper) by {
      CaseJoins("update ", "UPDATE ", middle, middle);
      CaseJoins("update " + middle, "UPDATE " + middle, " if ", " IF ");
      CaseJoins("update " + middle + " if ", "UPDATE " + middle + " IF ", rest, rest);
    }
    LowerCaseIsSeen(middle, rest);
    GuardIgnoresCase(lower, upper);
  }

  lemma LowerCaseIsSeen(middle: string, rest: string)
    requires forall c <- middle + rest :: c != QUOTE
    ensures IsConditional("update " + middle + " if " + rest)
  {
    var text := "update " + middle + " if " + rest;
    assert forall i :: 0 <= i < |text| ==> text[i] != QUOTE by { QuoteFree("update " + middle, " if ", rest, middle); }
    NothingToBlank(text);
    assert Mutating[1] == "update" && |"update"| == 6;
    assert text[0] == 'u' && text[1] == 'p' && text[2] == 'd' && text[3] == 'a' && text[4] == 't' && text[5] == 'e' && text[6] == ' ';
    assert OpensWith(text, 0, "update");
    var j := 7 + |middle| + 1;
    assert text[j - 1] == ' ' && text[j] == 'i' && text[j + 1] == 'f' && text[j + 2] == ' ';
    assert HasWordAt(text, j, "if") && Boundary(text, j) && Boundary(text, j + 2);
    assert HasIfFrom(text, 0 + |"update"|);
  }

  lemma QuoteFree(head: string, word: string, rest: string, middle: string)
    requires head == "update " + middle && word == " if " && forall c <- middle + rest :: c != QUOTE
    ensures forall i :: 0 <= i < |head + word + rest| ==> (head + word + rest)[i] != QUOTE
  {
    forall i | 0 <= i < |head + word + rest| ensures (head + word + rest)[i] != QUOTE {
      if 7 <= i < |head| { assert (middle + rest)[i - 7] in middle + rest; }
      if |head| + 4 <= i { assert (middle + rest)[i - 11] in middle + rest; }
    }
  }

  lemma {:induction false} NothingToBlank(s: string)
    requires forall i :: 0 <= i < |s| ==> s[i] != QUOTE
    ensures Blanked(Outside, s) == s
  {
    if s != [] {
      NothingToBlank(s[1..]);
      BlankedStep(Outside, s);
      assert s == [s[0]] + s[1..];
    }
  }

  // ---- reading a literal back -----------------------------------------------------------

  /** The content of the literal `s` is inside of, and the text after its closing quote; nothing if
      it never closes. */
  function ReadContent(s: string): (r: Option<(string, string)>)
    ensures r.Some? ==> |r.value.1| < |s|
  {
    if s == [] then None
    else if s[0] != QUOTE then Prepend(s[0], ReadContent(s[1..]))
    else if |s| > 1 && s[1] == QUOTE then Prepend(QUOTE, ReadContent(s[2..]))
    else Some(("", s[1..]))
  }

  function Prepend(c: char, r: Option<(string, string)>): Option<(string, string)> {
    if r.None? then None else Some(([c] + r.value.0, r.value.1))
  }

  function ReadLiteral(s: string): Option<(string, string)> {
    if s != [] && s[0] == QUOTE then ReadContent(s[1..]) else None
  }

  lemma {:induction false} ContentReadsBack(v: string, rest: string)
    requires rest == [] || rest[0] != QUOTE
    ensures ReadContent(Escape(v) + [QUOTE] + rest) == Some((v, rest))
  {
    if v == [] {
      assert Escape(v) + [QUOTE] + rest == [QUOTE] + rest;
    } else {
      ContentReadsBack(v[1..], rest);
      ContentStep(v, rest);
      assert [v[0]] + v[1..] == v;
    }
  }

  lemma ContentStep(v: string, rest: string)
    requires v != []
    ensures ReadContent(Escape(v) + [QUOTE] + rest) == Prepend(v[0], ReadContent(Escape(v[1..]) + [QUOTE] + rest))
  {
    var tail := Escape(v[1..]) + [QUOTE] + rest;
    assert Escape(v) + [QUOTE] + rest == EscapedChar(v[0]) + tail;
    assert (EscapedChar(v[0]) + tail)[|EscapedChar(v[0])|..] == tail;
  }

  lemma {:induction false} ContentRunsOn(v: string, rest: string)
    requires rest != [] && rest[0] == QUOTE
    ensures var r := ReadContent(Escape(v) + [QUOTE] + rest); r.None? || |r.value.0| > |v|
  {
    if v == [] {
      assert Escape(v) + [QUOTE] + rest == [QUOTE] + rest;
    } else {
      ContentRunsOn(v[1..], rest);
      ContentStep(v, rest);
    }
  }

  /** A literal reads back as the value it was made from, exactly when no quote follows it. */
  lemma LiteralReadsBack(v: string, rest: string)
    ensures ReadLiteral(Literal(v) + rest) == Some((v, rest)) <==> (rest == [] || rest[0] != QUOTE)
  {
    assert (Literal(v) + rest)[1..] == Escape(v) + [QUOTE] + rest;
    if rest == [] || rest[0] != QUOTE {
      ContentReadsBack(v, rest);
    } else {
      ContentRunsOn(v, rest);
    }
  }

  /** Different values make different literals. */
  lemma LiteralsAreDistinct(v: string, w: string)
    requires Literal(v) == Literal(w)
    ensures v == w
  {
    LiteralReadsBack(v, "");
    LiteralReadsBack(w, "");
    assert Literal(v) + "" == Literal(v) && Literal(w) + "" == Literal(w);
  }
}
