/** Card numbers and their Luhn check digit (card-number.ts, ISO/IEC 7812-1). */
module CardNumber {

  predicate IsDigit(c: char) {
    '0' <= c <= '9'
  }

  type Digits = s: string | forall i :: 0 <= i < |s| ==> IsDigit(s[i]) witness ""

  function Value(c: char): nat
    requires IsDigit(c)
  {
    c as int - '0' as int
  }

  /** Contribution of a digit at distance i from the right end of the body. */
  function Weighted(n: nat, i: nat): nat {
    if i % 2 == 0 then (if 2 * n > 9 then 2 * n - 9 else 2 * n) else n
  }

  function At(body: Digits, k: nat): nat
    requires k < |body|
  {
    Weighted(Value(body[k]), |body| - 1 - k)
  }

  /** Sum of the contributions of the last n digits. */
  function LuhnSum(body: Digits, n: nat): nat
    requires n <= |body|
  {
    if n == 0 then 0 else LuhnSum(body, n - 1) + At(body, |body| - n)
  }

  function CheckDigit(body: Digits): (d: nat)
    ensures d < 10 && (LuhnSum(body, |body|) + d) % 10 == 0
  {
    Check(LuhnSum(body, |body|))
  }

  /** luhnCheckDigit: digits are read from the right, every other one doubled. */
  method LuhnCheckDigit(body: Digits) returns (d: nat)
    ensures d == CheckDigit(body)
  {
    var sum := 0;
    for i := 0 to |body|
      invariant sum == LuhnSum(body, i)
    {
      var n := Value(body[|body| - 1 - i]);
      if i % 2 == 0 {
        n := n * 2;
        if n > 9 {
          n := n - 9;
        }
      }
      sum := sum + n;
    }
    d := (10 - sum % 10) % 10;
  }

  predicate IsValidCardNumber(value: string) {
    |value| == 16 && (forall i :: 0 <= i < 16 ==> IsDigit(value[i])) && CheckDigit(value[..15]) == Value(value[15])
  }

  const CARD_IIN: Digits := "924300"

  function Digit(n: nat): (c: char)
    requires n < 10
    ensures IsDigit(c) && Value(c) == n
  {
    (n + '0' as int) as char
  }

  /** generateCardNumber: nine random digits between the issuer prefix and the check digit. */
  method GenerateCardNumber(random: seq<nat>) returns (number: string)
    requires |random| == 9 && forall i :: 0 <= i < 9 ==> random[i] < 10
    ensures IsValidCardNumber(number)
    ensures number[..6] == CARD_IIN && forall i :: 0 <= i < 9 ==> Value(number[6 + i]) == random[i]
  {
    var account: Digits := "";
    for i := 0 to 9
      invariant |account| == i && forall k :: 0 <= k < i ==> Value(account[k]) == random[k]
    {
      account := account + [Digit(random[i])];
    }
    var body: Digits := CARD_IIN + account;
    var d := LuhnCheckDigit(body);
    number := body + [Digit(d)];
    assert number[..15] == body;
  }

  // ------------------------------------------------------------------ detection

  /** The change in the sum caused by the digits from the k-th on. */
  lemma {:induction false} LuhnSumLocal(a: Digits, b: Digits, n: nat)
    requires |a| == |b| && n <= |a|
    requires forall k :: |a| - n <= k < |a| ==> a[k] == b[k]
    ensures LuhnSum(a, n) == LuhnSum(b, n)
  {
    if n > 0 {
      LuhnSumLocal(a, b, n - 1);
    }
  }

  lemma {:induction false} LuhnSumAbove(a: Digits, b: Digits, m: nat, n: nat)
    requires |a| == |b| && m <= n <= |a|
    requires forall k :: |a| - n <= k < |a| - m ==> a[k] == b[k]
    ensures LuhnSum(a, n) - LuhnSum(a, m) == LuhnSum(b, n) - LuhnSum(b, m)
    decreases n
  {
    if m < n {
      LuhnSumAbove(a, b, m, n - 1);
    }
  }

  /** Changing one digit at position k moves the sum by the difference of the two contributions. */
  lemma OneDigitMoves(a: Digits, b: Digits, k: nat)
    requires |a| == |b| && k < |a| && forall i :: 0 <= i < |a| && i != k ==> a[i] == b[i]
    ensures LuhnSum(b, |b|) - LuhnSum(a, |a|) == At(b, k) - At(a, k)
  {
    var n := |a| - 1 - k;
    LuhnSumLocal(a, b, n);
    LuhnSumAbove(a, b, n + 1, |a|);
    assert |a| - (n + 1) == k;
  }

  function Check(sum: nat): nat {
    (10 - sum % 10) % 10
  }

  /** Sums less than ten apart have the same check digit only when they are equal. */
  lemma CheckSeparates(x: nat, y: nat)
    requires -10 < x - y < 10
    ensures Check(x) == Check(y) <==> x == y
  {
    var a, r, b, s := x / 10, x % 10, y / 10, y % 10;
    assert x == 10 * a + r && y == 10 * b + s;
    assert Check(x) == if r == 0 then 0 else 10 - r;
    assert Check(y) == if s == 0 then 0 else 10 - s;
  }

  /** Changing a single digit of the body always changes the check digit, whatever the length. */
  lemma SingleErrorDetected(a: Digits, b: Digits, k: nat)
    requires |a| == |b| && k < |a| && a[k] != b[k] && forall i :: 0 <= i < |a| && i != k ==> a[i] == b[i]
    ensures CheckDigit(a) != CheckDigit(b)
  {
    OneDigitMoves(a, b, k);
    CheckSeparates(LuhnSum(a, |a|), LuhnSum(b, |b|));
  }

  /** Swapping two adjacent different digits keeps the check digit exactly when they are a 0 and a 9. */
  lemma TranspositionDetected(a: Digits, b: Digits, k: nat)
    requires |a| == |b| && k + 1 < |a| && b[k] == a[k + 1] && b[k + 1] == a[k]
    requires forall i :: 0 <= i < |a| && i != k && i != k + 1 ==> a[i] == b[i]
    requires a[k] != a[k + 1]
    ensures CheckDigit(a) == CheckDigit(b) <==> {a[k], a[k + 1]} == {'0', '9'}
  {
    var x, y, i := Value(a[k]), Value(a[k + 1]), |a| - 2 - k;
    SwapMovesSum(a, b, k);
    CheckSeparates(LuhnSum(a, |a|), LuhnSum(b, |b|));
    ZeroNine(a[k], a[k + 1]);
  }

  lemma ZeroNine(c: char, d: char)
    requires IsDigit(c) && IsDigit(d) && c != d
    ensures {c, d} == {'0', '9'} <==> (Value(c) == 0 && Value(d) == 9) || (Value(c) == 9 && Value(d) == 0)
  {
    if {c, d} == {'0', '9'} {
      assert '0' in {c, d} && '9' in {c, d} && c in {'0', '9'} && d in {'0', '9'};
    }
  }

  lemma SwapMovesSum(a: Digits, b: Digits, k: nat)
    requires |a| == |b| && k + 1 < |a| && b[k] == a[k + 1] && b[k + 1] == a[k]
    requires forall i :: 0 <= i < |a| && i != k && i != k + 1 ==> a[i] == b[i]
    ensures var x, y, i := Value(a[k]), Value(a[k + 1]), |a| - 2 - k;
            LuhnSum(b, |b|) - LuhnSum(a, |a|) == Weighted(y, i + 1) - Weighted(x, i + 1) + Weighted(x, i) - Weighted(y, i)
  {
    var c: Digits := a[k := b[k]];
    OneDigitMoves(a, c, k);
    OneDigitMoves(c, b, k + 1);
  }

  /** A card number with one digit mistyped, check digit included, is refused. */
  lemma MistypedNumberRefused(value: string, typed: string, k: nat)
    requires IsValidCardNumber(value) && |typed| == 16 && k < 16 && typed[k] != value[k]
    requires forall i :: 0 <= i < 16 && i != k ==> typed[i] == value[i]
    ensures !IsValidCardNumber(typed)
  {
    if k == 15 {
      assert typed[..15] == value[..15];
    } else if IsValidCardNumber(typed) {
      SingleErrorDetected(value[..15], typed[..15], k);
    }
  }

  // ------------------------------------------------------------------ the standard sum

  /** The sum of the digits of twice a digit. */
  function DoubledDigits(n: nat): nat {
    2 * n / 10 + 2 * n % 10
  }

  /** Over the last n digits of a whole number, check digit included: every second digit from the right is doubled. */
  function StandardSum(number: Digits, n: nat): nat
    requires n <= |number|
  {
    if n == 0 then 0 else
      var v := Value(number[|number| - n]);
      StandardSum(number, n - 1) + if n % 2 == 0 then DoubledDigits(v) else v
  }

  lemma {:induction false} BodyThenCheck(body: Digits, d: nat, n: nat)
    requires d < 10 && n <= |body|
    ensures StandardSum(body + [Digit(d)], n + 1) == LuhnSum(body, n) + d
  {
    hide Weighted, DoubledDigits;
    var number: Digits := body + [Digit(d)];
    if n == 0 {
      assert StandardSum(number, 0) == 0 && number[|number| - 1] == Digit(d);
    } else {
      BodyThenCheck(body, d, n - 1);
      assert number[|number| - (n + 1)] == body[|body| - n];
      DoublingIsWeighted(Value(body[|body| - n]), n - 1);
    }
  }

  lemma DoublingIsWeighted(v: nat, i: nat)
    requires v < 10
    ensures Weighted(v, i) == if (i + 2) % 2 == 0 then DoubledDigits(v) else v
  {
  }

  /** A number is valid exactly when its sixteen digits, every second one doubled from the right, sum to a multiple of ten. */
  lemma ValidIffStandardSum(value: string)
    ensures IsValidCardNumber(value) <==>
              |value| == 16 && (forall i :: 0 <= i < 16 ==> IsDigit(value[i])) && (var number: Digits := value; StandardSum(number, 16) % 10 == 0)
  {
    hide LuhnSum, StandardSum;
    if |value| == 16 && forall i :: 0 <= i < 16 ==> IsDigit(value[i]) {
      var body: Digits := value[..15];
      var d := Value(value[15]);
      assert value == body + [Digit(d)];
      BodyThenCheck(body, d, 15);
    }
  }
}
