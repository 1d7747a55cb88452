/** The archive module's natural ordering of entry names: digit runs compare by the
    number they write, everything else byte by byte. */
module NaturalOrder {

  type byte = b: nat | b < 256

  const ZERO: byte := 48
  const NINE: byte := 57

  predicate IsDigit(b: byte) {
    ZERO <= b <= NINE
  }

  predicate Digits(s: seq<byte>) {
    forall i :: 0 <= i < |s| ==> IsDigit(s[i])
  }

  // ---------------------------------------------------------------- the order that is meant

  /** A name is a sequence of numbers and single other bytes. */
  datatype Token = Number(value: nat) | Other(b: byte)

  function RunOf(s: seq<byte>): (n: nat)
    ensures n <= |s| && Digits(s[..n])
    ensures n < |s| ==> !IsDigit(s[n])
  {
    if s == [] || !IsDigit(s[0]) then 0 else 1 + RunOf(s[1..])
  }

  function Pow10(n: nat): (p: nat)
    ensures p > 0
  {
    if n == 0 then 1 else 10 * Pow10(n - 1)
  }

  /** The number a digit run writes. */
  function Value(digits: seq<byte>): nat
    requires Digits(digits)
  {
    if digits == [] then 0 else (digits[0] - ZERO) * Pow10(|digits| - 1) + Value(digits[1..])
  }

  function Tokens(s: seq<byte>): seq<Token>
    decreases |s|
  {
    if s == [] then []
    else if IsDigit(s[0]) then
      var n := RunOf(s);
      [Number(Value(s[..n]))] + Tokens(s[n..])
    else [Other(s[0])] + Tokens(s[1..])
  }

  /** Numbers stand together where the digits stand among the bytes. */
  function Lead(t: Token): byte {
    if t.Number? then ZERO else t.b
  }

  predicate Before(a: Token, b: Token) {
    Lead(a) < Lead(b) || (a.Number? && b.Number? && a.value < b.value)
  }

  predicate LexBefore(s: seq<Token>, t: seq<Token>) {
    if t == [] then false
    else if s == [] then true
    else if s[0] == t[0] then LexBefore(s[1..], t[1..])
    else Before(s[0], t[0])
  }

  lemma LexCons(a: Token, s: seq<Token>, b: Token, t: seq<Token>)
    ensures LexBefore([a] + s, [b] + t) == if a == b then LexBefore(s, t) else Before(a, b)
  {
    assert ([a] + s)[1..] == s && ([b] + t)[1..] == t;
  }

  /** The specification of naturalLess. */
  predicate Precedes(s: seq<byte>, t: seq<byte>) {
    LexBefore(Tokens(s), Tokens(t))
  }

  // ---------------------------------------------------------------- it is a strict weak order

  /** Tokens as Tokens makes them: no digit stands alone. */
  predicate Proper(s: seq<Token>) {
    forall i :: 0 <= i < |s| && s[i].Other? ==> !IsDigit(s[i].b)
  }

  lemma {:induction false} TokensProper(s: seq<byte>)
    ensures Proper(Tokens(s))
    decreases |s|
  {
    if s != [] {
      TokensProper(if IsDigit(s[0]) then s[RunOf(s)..] else s[1..]);
    }
  }

  lemma {:induction false} LexIrreflexive(s: seq<Token>)
    ensures !LexBefore(s, s)
  {
    if s != [] {
      LexIrreflexive(s[1..]);
    }
  }

  lemma {:induction false} LexTransitive(s: seq<Token>, t: seq<Token>, u: seq<Token>)
    requires LexBefore(s, t) && LexBefore(t, u)
    requires Proper(s) && Proper(t) && Proper(u)
    ensures LexBefore(s, u)
  {
    if s != [] && s[0] == t[0] == u[0] {
      LexTransitive(s[1..], t[1..], u[1..]);
    }
  }

  /** Unequal token sequences are always ordered one way or the other. */
  lemma {:induction false} LexTotal(s: seq<Token>, t: seq<Token>)
    requires Proper(s) && Proper(t)
    ensures s == t || LexBefore(s, t) || LexBefore(t, s)
  {
    if s != [] && t != [] && s[0] == t[0] {
      LexTotal(s[1..], t[1..]);
      assert s == [s[0]] + s[1..] && t == [t[0]] + t[1..];
    }
  }

  /** Two names are incomparable exactly when they read as the same tokens. */
  lemma {:induction false} IncomparableMeansSameTokens(s: seq<byte>, t: seq<byte>)
    ensures !Precedes(s, t) && !Precedes(t, s) <==> Tokens(s) == Tokens(t)
  {
    TokensProper(s);
    TokensProper(t);
    LexIrreflexive(Tokens(s));
    LexTotal(Tokens(s), Tokens(t));
  }

  /** naturalLess is usable as a sorting comparator: irreflexive, transitive, and with
      transitive incomparability. */
  lemma StrictWeakOrder(s: seq<byte>, t: seq<byte>, u: seq<byte>)
    ensures !Precedes(s, s)
    ensures Precedes(s, t) && Precedes(t, u) ==> Precedes(s, u)
    ensures !Precedes(s, t) && !Precedes(t, s) && !Precedes(t, u) && !Precedes(u, t) ==>
      !Precedes(s, u) && !Precedes(u, s)
  {
    TokensProper(s);
    TokensProper(t);
    TokensProper(u);
    LexIrreflexive(Tokens(s));
    if Precedes(s, t) && Precedes(t, u) {
      LexTransitive(Tokens(s), Tokens(t), Tokens(u));
    }
    IncomparableMeansSameTokens(s, t);
    IncomparableMeansSameTokens(t, u);
    IncomparableMeansSameTokens(s, u);
  }

  // ---------------------------------------------------------------- numbers as text

  /** Byte-wise comparison of two texts, as std::string_view orders them. */
  predicate TextBefore(s: seq<byte>, t: seq<byte>) {
    if t == [] then false
    else if s == [] then true
    else if s[0] == t[0] then TextBefore(s[1..], t[1..])
    else s[0] < t[0]
  }

  predicate Significant(s: seq<byte>) {
    Digits(s) && s != [] && (s[0] == ZERO ==> |s| == 1)
  }

  lemma Carry(low: nat, high: nat, rest: nat, p: nat)
    requires low < high && rest < p
    ensures low * p + rest < high * p
  {
    assert low * p + p == (low + 1) * p;
    assert (low + 1) * p <= high * p;
  }

  lemma AtLeastOnce(n: nat, p: nat)
    requires n >= 1
    ensures n * p >= p
  {
    assert n * p == p + (n - 1) * p;
  }

  lemma {:induction false} ValueBelow(s: seq<byte>)
    requires Digits(s)
    ensures Value(s) < Pow10(|s|)
  {
    if s != [] {
      ValueBelow(s[1..]);
      Carry(s[0] - ZERO, 10, Value(s[1..]), Pow10(|s| - 1));
    }
  }

  lemma {:induction false} Pow10Grows(m: nat, n: nat)
    requires m <= n
    ensures Pow10(m) <= Pow10(n)
  {
    if m < n {
      Pow10Grows(m, n - 1);
    }
  }

  lemma LongerIsGreater(s: seq<byte>, t: seq<byte>)
    requires Digits(s) && Significant(t) && |s| < |t|
    requires s != []
    ensures Value(s) < Value(t)
  {
    ValueBelow(s);
    Pow10Grows(|s|, |t| - 1);
    AtLeastOnce(t[0] - ZERO, Pow10(|t| - 1));
  }

  lemma {:induction false} EqualLengthByText(s: seq<byte>, t: seq<byte>)
    requires Digits(s) && Digits(t) && |s| == |t|
    ensures TextBefore(s, t) <==> Value(s) < Value(t)
    ensures s == t <==> Value(s) == Value(t)
  {
    if s != [] {
      EqualLengthByText(s[1..], t[1..]);
      var p := Pow10(|s| - 1);
      ValueBelow(s[1..]);
      ValueBelow(t[1..]);
      if s[0] < t[0] {
        Carry(s[0] - ZERO, t[0] - ZERO, Value(s[1..]), p);
      } else if t[0] < s[0] {
        Carry(t[0] - ZERO, s[0] - ZERO, Value(t[1..]), p);
      } else {
        assert s == [s[0]] + s[1..] && t == [t[0]] + t[1..];
      }
    }
  }

  /** Length first, then text: on digits without leading zeros that is the numeric order. */
  lemma ValueOrder(s: seq<byte>, t: seq<byte>)
    requires Significant(s) && Significant(t)
    ensures |s| < |t| || (|s| == |t| && TextBefore(s, t)) <==> Value(s) < Value(t)
    ensures s == t <==> Value(s) == Value(t)
  {
    if |s| < |t| {
      LongerIsGreater(s, t);
    } else if |t| < |s| {
      LongerIsGreater(t, s);
    } else {
      EqualLengthByText(s, t);
    }
  }

  lemma LeadingZero(s: seq<byte>)
    requires Digits(s) && |s| > 1 && s[0] == ZERO
    ensures Value(s) == Value(s[1..])
  {
  }

  // ---------------------------------------------------------------- the comparator

  method DigitRunLength(text: seq<byte>, start: nat) returns (length: nat)
    requires start <= |text|
    ensures length == RunOf(text[start..])
  {
    var end := start;
    while end < |text| && ZERO <= text[end] && text[end] <= NINE
      invariant start <= end <= |text|
      invariant RunOf(text[start..]) == end - start + RunOf(text[end..])
    {
      assert text[end..][1..] == text[end + 1..];
      end := end + 1;
    }
    length := end - start;
  }

  method SignificantDigits(text: seq<byte>, start: nat, length: nat) returns (digits: seq<byte>)
    requires start + length <= |text| && length > 0
    requires Digits(text[start..start + length])
    ensures Significant(digits)
    ensures Value(digits) == Value(text[start..start + length])
  {
    var first, end := start, start + length;
    while first + 1 < end && text[first] == ZERO
      invariant start <= first < end
      invariant Digits(text[first..end])
      invariant Value(text[first..end]) == Value(text[start..end])
    {
      LeadingZero(text[first..end]);
      assert text[first..end][1..] == text[first + 1..end];
      first := first + 1;
    }
    digits := text[first..end];
  }

  method CompareText(s: seq<byte>, t: seq<byte>) returns (less: bool)
    ensures less == TextBefore(s, t)
  {
    var i := 0;
    while i < |s| && i < |t| && s[i] == t[i]
      invariant i <= |s| && i <= |t|
      invariant TextBefore(s, t) == TextBefore(s[i..], t[i..])
    {
      assert s[i..][1..] == s[i + 1..] && t[i..][1..] == t[i + 1..];
      i := i + 1;
    }
    less := i < |t| && (i == |s| || s[i] < t[i]);
  }

  /** The token a name goes on with at position i, where a run of n digits starts. */
  lemma FirstToken(s: seq<byte>, i: nat, n: nat)
    requires i < |s| && n == RunOf(s[i..])
    ensures i + n <= |s| && Digits(s[i..i + n])
    ensures n == 0 ==> !IsDigit(s[i]) && Tokens(s[i..]) == [Other(s[i])] + Tokens(s[i + 1..])
    ensures n > 0 ==> IsDigit(s[i]) && Tokens(s[i..]) == [Number(Value(s[i..i + n]))] + Tokens(s[i + n..])
  {
    assert s[i..][..n] == s[i..i + n];
    assert s[i..][n..] == s[i + n..];
    assert s[i..][1..] == s[i + 1..];
  }

  /** What the first tokens say about the order of the rests of two names. */
  lemma FirstTokensDecide(s: seq<byte>, i: nat, m: nat, t: seq<byte>, j: nat, n: nat)
    requires i < |s| && m == RunOf(s[i..]) && j < |t| && n == RunOf(t[j..])
    ensures i + m <= |s| && Digits(s[i..i + m]) && j + n <= |t| && Digits(t[j..j + n])
    ensures Precedes(s[i..], t[j..]) ==
      if m == 0 || n == 0 then
        if s[i] == t[j] then Precedes(s[i + 1..], t[j + 1..]) else s[i] < t[j]
      else
        if Value(s[i..i + m]) == Value(t[j..j + n]) then Precedes(s[i + m..], t[j + n..])
        else Value(s[i..i + m]) < Value(t[j..j + n])
  {
    FirstToken(s, i, m);
    FirstToken(t, j, n);
    var left := if m == 0 then Other(s[i]) else Number(Value(s[i..i + m]));
    var right := if n == 0 then Other(t[j]) else Number(Value(t[j..j + n]));
    LexCons(left, Tokens(if m == 0 then s[i + 1..] else s[i + m..]),
            right, Tokens(if n == 0 then t[j + 1..] else t[j + n..]));
  }

  /** The comparator decides the token order on every pair of names. */
  method NaturalLess(lhs: seq<byte>, rhs: seq<byte>) returns (less: bool)
    ensures less == Precedes(lhs, rhs)
  {
    var i: nat, j: nat := 0, 0;
    assert lhs[0..] == lhs && rhs[0..] == rhs;
    while i < |lhs| && j < |rhs|
      invariant i <= |lhs| && j <= |rhs|
      invariant Precedes(lhs, rhs) == Precedes(lhs[i..], rhs[j..])
      decreases |lhs| - i
    {
      var leftDigits := DigitRunLength(lhs, i);
      var rightDigits := DigitRunLength(rhs, j);
      FirstTokensDecide(lhs, i, leftDigits, rhs, j, rightDigits);
      if leftDigits == 0 || rightDigits == 0 {
        if lhs[i] != rhs[j] {
          return lhs[i] < rhs[j];
        }
        i, j := i + 1, j + 1;
        continue;
      }
      var leftValue := SignificantDigits(lhs, i, leftDigits);
      var rightValue := SignificantDigits(rhs, j, rightDigits);
      ValueOrder(leftValue, rightValue);
      if |leftValue| != |rightValue| {
        return |leftValue| < |rightValue|;
      }
      if leftValue != rightValue {
        less := CompareText(leftValue, rightValue);
        return;
      }
      i, j := i + leftDigits, j + rightDigits;
    }
    less := |lhs| - i < |rhs| - j;
    assert i < |lhs| ==> Tokens(lhs[i..]) != [];
    assert j < |rhs| ==> Tokens(rhs[j..]) != [];
  }
}
