/** Ballot names, and which of them wins. */
module Ballots {
  import opened Common
  import Ordering

  predicate IsDigit(c: char) { '0' <= c <= '9' }

  predicate AllDigits(s: string) { forall c <- s :: IsDigit(c) }

  function Value(s: string): int
    requires AllDigits(s)
  {
    if s == [] then 0 else Value(s[..|s| - 1]) * 10 + (s[|s| - 1] as int - '0' as int)
  }

  function Digits(k: nat): (s: string)
    ensures AllDigits(s) && s != []
  {
    if k < 10 then [(k + '0' as int) as char] else Digits(k / 10) + [(k % 10 + '0' as int) as char]
  }

  /** Zeros in front, to ten digits; a longer number is left as it is. */
  function Padded(s: string): string
    decreases 10 - |s|
  {
    if |s| < 10 then Padded("0" + s) else s
  }

  /** The name the ensemble gives the ballot with this counter. */
  function BallotName(k: nat): string { "n_" + Padded(Digits(k)) }

  predicate HasPrefixMark(s: string) { |s| >= 2 && s[0] == 'n' && s[1] == '_' }

  predicate HasMark(s: string) { s != [] && (HasPrefixMark(s) || HasMark(s[1..])) }

  /** What follows the last ballot prefix in the name; the whole name when there is none. */
  function Tail(s: string): string {
    if !HasMark(s) then s else if HasMark(s[1..]) then Tail(s[1..]) else s[2..]
  }

  function ParseInt(s: string): Option<int> {
    if s != [] && AllDigits(s) then Some(Value(s))
    else if |s| > 1 && (s[0] == '-' || s[0] == '+') && AllDigits(s[1..]) then
      Some(if s[0] == '-' then -Value(s[1..]) else Value(s[1..]))
    else None
  }

  function Sequence(name: string): Option<int> { ParseInt(Tail(name)) }

  lemma {:induction false} DigitsRead(k: nat)
    ensures Value(Digits(k)) == k
  {
    if k >= 10 {
      DigitsRead(k / 10);
      assert Digits(k)[..|Digits(k)| - 1] == Digits(k / 10);
    }
  }

  lemma {:induction false} LeadingZero(s: string)
    requires AllDigits(s)
    ensures AllDigits("0" + s) && Value("0" + s) == Value(s)
  {
    if s != [] {
      var t := s[..|s| - 1];
      LeadingZero(t);
      assert ("0" + s)[..|"0" + s| - 1] == "0" + t;
    } else {
      assert "0" + s == "0";
      assert "0"[..0] == [];
    }
  }

  lemma {:induction false} PaddedReads(s: string)
    requires AllDigits(s)
    ensures AllDigits(Padded(s)) && Value(Padded(s)) == Value(s) && |Padded(s)| >= |s|
    decreases 10 - |s|
  {
    if |s| < 10 {
      LeadingZero(s);
      PaddedReads("0" + s);
    }
  }

  lemma {:induction false} DigitsHaveNoMark(s: string)
    requires AllDigits(s)
    ensures !HasMark(s)
  {
    if s != [] {
      assert IsDigit(s[0]);
      DigitsHaveNoMark(s[1..]);
    }
  }

  /** The counter reads back out of the name the ensemble gave, however many digits it has. */
  lemma NameReadsBack(k: nat)
    ensures Sequence(BallotName(k)) == Some(k)
  {
    var digits := Padded(Digits(k));
    PaddedReads(Digits(k));
    DigitsRead(k);
    var name := BallotName(k);
    assert name[1..] == "_" + digits && name[2..] == digits;
    assert ("_" + digits)[1..] == digits;
    DigitsHaveNoMark(digits);
    assert !HasMark(name[1..]);
    assert HasPrefixMark(name);
  }

  // ---- the winner -------------------------------------------------------------------------

  /** Tuples compare by counter first, then by name. */
  predicate Beats(a: string, b: string)
    requires Sequence(a).Some? && Sequence(b).Some?
  {
    var x, y := Sequence(a).value, Sequence(b).value;
    x < y || (x == y && Ordering.AtMost(a, b))
  }

  function LowestBallot(children: seq<string>): Option<string> {
    if children == [] then None
    else
      var rest := LowestBallot(children[1..]);
      if Sequence(children[0]).None? then rest
      else if rest.Some? && Sequence(rest.value).Some? && !Beats(children[0], rest.value) then rest
      else Some(children[0])
  }

  predicate IsLowest(children: seq<string>, b: string) {
    && b in children && Sequence(b).Some?
    && forall c <- children :: Sequence(c).Some? ==> Beats(b, c)
  }

  lemma BeatsChains(a: string, b: string, c: string)
    requires Sequence(a).Some? && Sequence(b).Some? && Sequence(c).Some?
    ensures Beats(a, b) && Beats(b, c) ==> Beats(a, c)
    ensures Beats(a, b) || Beats(b, a)
    ensures Beats(a, a)
  {
    if Beats(a, b) && Beats(b, c) && Sequence(a) == Sequence(c) { Ordering.Transitive(a, b, c); }
    Ordering.Total(a, b);
    Ordering.Total(a, a);
  }

  /** The winner is the lowest ballot standing, and there is none only when no child is a ballot. */
  lemma {:induction false} LowestBallotWins(children: seq<string>)
    ensures LowestBallot(children).Some? ==> IsLowest(children, LowestBallot(children).value)
    ensures LowestBallot(children).None? ==> forall c <- children :: Sequence(c).None?
  {
    if children != [] {
      LowestBallotWins(children[1..]);
      LowestStep(children);
    }
  }

  lemma LowestStep(children: seq<string>)
    requires children != []
    requires LowestBallot(children[1..]).Some? ==> IsLowest(children[1..], LowestBallot(children[1..]).value)
    requires LowestBallot(children[1..]).None? ==> forall c <- children[1..] :: Sequence(c).None?
    ensures LowestBallot(children).Some? ==> IsLowest(children, LowestBallot(children).value)
    ensures LowestBallot(children).None? ==> forall c <- children :: Sequence(c).None?
  {
    var head, rest, won := children[0], LowestBallot(children[1..]), LowestBallot(children);
    assert forall c <- children :: c == head || c in children[1..];
    if won.Some? {
      forall c | c in children && Sequence(c).Some? ensures Sequence(won.value).Some? && Beats(won.value, c) {
        if rest.Some? {
          if Sequence(head).Some? { BeatsChains(rest.value, head, c); BeatsChains(head, rest.value, c); }
        } else {
          BeatsChains(head, head, head);
        }
      }
    }
  }

  lemma LowestIsUnique(children: seq<string>, a: string, b: string)
    requires IsLowest(children, a) && IsLowest(children, b)
    ensures a == b
  {
    Ordering.Antisymmetric(a, b);
  }

  /** In whatever order the ensemble lists the children: the winner among ballots it named itself is
      the one with the smallest counter. */
  lemma SmallestCounterWins(children: seq<string>, counters: set<nat>, k: nat)
    requires forall c :: c in children <==> exists j :: j in counters && c == BallotName(j)
    requires k in counters
    ensures LowestBallot(children) == Some(BallotName(k)) <==> forall j :: j in counters ==> k <= j
  {
    LowestBallotWins(children);
    NameReadsBack(k);
    assert BallotName(k) in children;
    var won := LowestBallot(children).value;
    var m :| m in counters && won == BallotName(m);
    NameReadsBack(m);
    forall j | j in counters ensures m <= j {
      NameReadsBack(j);
      assert BallotName(j) in children;
    }
  }
}
