/** The text that is hashed into the idempotency key: session id, car id, amount and currency with nothing between them. */
module IdempotencyKey {

  datatype Command = Command(sessionId: string, carId: string, amount: int, currency: string)

  // ----- str() of an integer

  function Digit(d: nat): (c: char)
    requires d < 10
    ensures IsDigit(c) && c as int - '0' as int == d
  {
    "0123456789"[d]
  }

  predicate IsDigit(c: char) {
    '0' <= c <= '9'
  }

  function Digits(n: nat): (s: string)
    ensures |s| > 0 && forall c | c in s :: IsDigit(c)
  {
    if n < 10 then [Digit(n)] else Digits(n / 10) + [Digit(n % 10)]
  }

  function Decimal(n: int): string {
    if n < 0 then "-" + Digits(-n) else Digits(n)
  }

  /** int() of a digit string. */
  function Value(s: string): nat
    requires forall k | 0 <= k < |s| :: IsDigit(s[k])
  {
    if s == [] then 0
    else
      assert IsDigit(s[|s| - 1]);
      Value(s[..|s| - 1]) * 10 + (s[|s| - 1] as int - '0' as int)
  }

  lemma {:induction false} ValueOfDigits(n: nat)
    ensures Value(Digits(n)) == n
  {
    if n >= 10 {
      ValueOfDigits(n / 10);
      assert Digits(n)[..|Digits(n)| - 1] == Digits(n / 10);
    }
  }

  // ----- reading the text back

  function Text(c: Command): string {
    c.sessionId + c.carId + Decimal(c.amount) + c.currency
  }

  lemma SplitSame(a: string, b: string, c: string, d: string)
    requires a + b == c + d && |a| == |c|
    ensures a == c && b == d
  {
    assert a == (a + b)[..|a|] && c == (c + d)[..|c|];
    assert b == (a + b)[|a|..] && d == (c + d)[|c|..];
  }

  predicate StartsWithLetter(s: string) {
    |s| > 0 && ('A' <= s[0] <= 'Z' || 'a' <= s[0] <= 'z')
  }

  lemma DigitAt(a: string, b: string, k: nat)
    requires k < |a| && forall x | x in a :: IsDigit(x)
    ensures IsDigit((a + b)[k])
  {
    assert a[k] in a;
  }

  /** A run of digits ends where the letter begins. */
  lemma DigitsEnd(a: string, b: string, c: string, d: string)
    requires a + b == c + d && StartsWithLetter(b) && StartsWithLetter(d)
    requires (forall x | x in a :: IsDigit(x)) && (forall x | x in c :: IsDigit(x))
    ensures a == c && b == d
  {
    assert (a + b)[|a|] == b[0] && (c + d)[|c|] == d[0];
    if |a| < |c| {
      DigitAt(c, d, |a|);
    } else if |c| < |a| {
      DigitAt(a, b, |c|);
    } else {
      SplitSame(a, b, c, d);
    }
  }

  lemma DigitsOnly(m: nat, b: string, n: nat, d: string)
    requires Digits(m) + b == Digits(n) + d && StartsWithLetter(b) && StartsWithLetter(d)
    ensures m == n && b == d
  {
    DigitsEnd(Digits(m), b, Digits(n), d);
    ValueOfDigits(m);
    ValueOfDigits(n);
  }

  lemma Sign(n: int)
    ensures |Decimal(n)| > 0 && (Decimal(n)[0] == '-' <==> n < 0)
    ensures n < 0 ==> Decimal(n)[1..] == Digits(-n)
  {
    if n >= 0 {
      assert Digits(n)[0] in Digits(n);
    }
  }

  lemma SameStart(a: string, b: string, c: string, d: string)
    requires a + b == c + d && |a| > 0 && |c| > 0
    ensures a[0] == c[0] && a[1..] + b == c[1..] + d
  {
    assert a[0] == (a + b)[0] == (c + d)[0];
    assert a[1..] + b == (a + b)[1..] && c[1..] + d == (c + d)[1..];
  }

  lemma AmountEnds(m: int, b: string, n: int, d: string)
    requires Decimal(m) + b == Decimal(n) + d && StartsWithLetter(b) && StartsWithLetter(d)
    ensures m == n && b == d
  {
    Sign(m);
    Sign(n);
    SameStart(Decimal(m), b, Decimal(n), d);
    if m < 0 {
      DigitsOnly(-m, b, -n, d);
    } else {
      DigitsOnly(m, b, n, d);
    }
  }

  /** Two accepted commands hash the same text only if they are the same payment: session ids have one length, the session
      fixes the car, and the currency starts with a letter. */
  lemma TextInjective(a: Command, b: Command, carOf: map<string, string>)
    requires |a.sessionId| == |b.sessionId|
    requires a.sessionId in carOf && carOf[a.sessionId] == a.carId
    requires b.sessionId in carOf && carOf[b.sessionId] == b.carId
    requires StartsWithLetter(a.currency) && StartsWithLetter(b.currency)
    ensures Text(a) == Text(b) <==> a == b
  {
    if Text(a) == Text(b) {
      var u, v := Decimal(a.amount) + a.currency, Decimal(b.amount) + b.currency;
      assert Text(a) == a.sessionId + (a.carId + u) && Text(b) == b.sessionId + (b.carId + v);
      SplitSame(a.sessionId, a.carId + u, b.sessionId, b.carId + v);
      SplitSame(a.carId, u, b.carId, v);
      AmountEnds(a.amount, a.currency, b.amount, b.currency);
    }
  }

  // ----- other spellings of a session id

  predicate Junk(c: char) {
    c == '-' || c == '{' || c == '}'
  }

  /** What UUID() reads of a spelling: it takes off braces and hyphens and wants 32 digits to remain. */
  function Cleaned(s: string): string {
    if s == "" then "" else (if Junk(s[0]) then "" else [s[0]]) + Cleaned(s[1..])
  }

  predicate IsId(s: string) {
    |Cleaned(s)| == 32
  }

  lemma {:induction false} CleanedAppend(s: string, t: string)
    ensures Cleaned(s + t) == Cleaned(s) + Cleaned(t)
  {
    if s == "" {
      assert s + t == t;
    } else {
      assert (s + t)[0] == s[0] && (s + t)[1..] == s[1..] + t;
      CleanedAppend(s[1..], t);
    }
  }

  lemma {:induction false} OnlyJunk(s: string)
    requires Cleaned(s) == ""
    ensures forall c | c in s :: Junk(c)
  {
    if s != "" {
      OnlyJunk(s[1..]);
      assert s == [s[0]] + s[1..];
    }
  }

  lemma SameCounts(car: string, d: string, junk: string)
    requires car + d == junk + car
    ensures multiset(d) == multiset(junk)
  {
    assert multiset(car + d) == multiset(car) + multiset(d) && multiset(junk + car) == multiset(junk) + multiset(car);
    forall c ensures multiset(d)[c] == multiset(junk)[c] {
      assert multiset(car + d)[c] == multiset(junk + car)[c];
    }
  }

  lemma ShiftedChars(car: string, digits: string, junk: string, rest: string)
    requires car + digits == junk + car + rest
    ensures forall c | c in junk :: c in digits
  {
    var d := digits[..|junk|];
    assert car + digits == (car + d) + digits[|junk|..];
    SplitSame(car + d, digits[|junk|..], junk + car, rest);
    SameCounts(car, d, junk);
    forall c | c in junk ensures c in digits {
      assert c in multiset(junk);
      assert c in d;
    }
  }

  /** Text cannot be shifted past itself by hyphens and braces and gain only digits at its end. */
  lemma NoShift(car: string, digits: string, junk: string, rest: string)
    requires car + digits == junk + car + rest
    requires (forall c | c in digits :: IsDigit(c)) && (forall c | c in junk :: Junk(c))
    ensures junk == ""
  {
    if junk != "" {
      assert junk[0] in junk;
      ShiftedChars(car, digits, junk, rest);
    }
  }

  /** The text of a longer spelling of the same session cannot be that of a shorter one. */
  lemma ShorterSpelling(a: Command, b: Command)
    requires IsId(a.sessionId) && IsId(b.sessionId) && |a.sessionId| <= |b.sessionId| && Text(a) == Text(b)
    requires Cleaned(a.sessionId) == Cleaned(b.sessionId) ==> a.carId == b.carId
    requires a.amount >= 0 && b.amount >= 0 && a.currency == b.currency
    ensures a.sessionId == b.sessionId
  {
    var n := |a.sessionId|;
    var junk := b.sessionId[n..];
    var x, y := a.carId + Decimal(a.amount), b.carId + Decimal(b.amount);
    assert Text(a) == a.sessionId + (x + a.currency);
    assert b.sessionId == b.sessionId[..n] + junk;
    assert Text(b) == b.sessionId[..n] + (junk + y + b.currency);
    SplitSame(a.sessionId, x + a.currency, b.sessionId[..n], junk + y + b.currency);
    SplitSame(x, a.currency, junk + y, b.currency);
    CleanedAppend(a.sessionId, junk);
    OnlyJunk(junk);
    assert junk + y == junk + a.carId + Decimal(b.amount);
    NoShift(a.carId, Decimal(a.amount), junk, Decimal(b.amount));
  }

  /** Over all spellings of session ids with hyphens and braces: two accepted commands hash the same text if and only if they are
      equal, the spelling included. Accepted amounts are those of quotes, so not negative, and all quotes have one currency. */
  lemma TextInjectiveOverSpellings(a: Command, b: Command, carOf: map<string, string>)
    requires IsId(a.sessionId) && Cleaned(a.sessionId) in carOf && carOf[Cleaned(a.sessionId)] == a.carId
    requires IsId(b.sessionId) && Cleaned(b.sessionId) in carOf && carOf[Cleaned(b.sessionId)] == b.carId
    requires a.amount >= 0 && b.amount >= 0 && a.currency == b.currency && StartsWithLetter(a.currency)
    ensures Text(a) == Text(b) <==> a == b
  {
    if Text(a) == Text(b) {
      if |a.sessionId| <= |b.sessionId| {
        ShorterSpelling(a, b);
      } else {
        ShorterSpelling(b, a);
      }
      var u, v := Decimal(a.amount) + a.currency, Decimal(b.amount) + b.currency;
      assert Text(a) == a.sessionId + (a.carId + u) && Text(b) == b.sessionId + (b.carId + v);
      SplitSame(a.sessionId, a.carId + u, b.sessionId, b.carId + v);
      TextInjective(a, b, map[a.sessionId := a.carId]);
    }
  }

  /** With a negative amount two spellings of one session could share a text. */
  lemma NegativeAmountSameText(id: string)
    ensures var a, b := Command(id, "--", -5, "KRW"), Command(id + "-", "--", 5, "KRW");
            a != b && Cleaned(a.sessionId) == Cleaned(b.sessionId) && Text(a) == Text(b)
  {
    CleanedAppend(id, "-");
    assert Digits(5) == "5" && Decimal(-5) == "-5" && Decimal(5) == "5";
    Joined(id, "--", "-5", "KRW");
    Joined(id + "-", "--", "5", "KRW");
    assert "--" + "-5" + "KRW" == "---5KRW" == "-" + ("--" + "5" + "KRW");
    assert (id + "-") + ("--" + "5" + "KRW") == id + ("-" + ("--" + "5" + "KRW"));
  }

  lemma Joined(a: string, b: string, c: string, d: string)
    ensures a + b + c + d == a + (b + c + d)
  {
  }

  /** The car must be fixed by the session: with another car the same text can mean another payment. */
  lemma AnotherCarSameText()
    ensures var a, b := Command("s", "car1", 23, "KRW"), Command("s", "car12", 3, "KRW"); a != b && Text(a) == Text(b)
  {
    assert Digits(23) == Digits(2) + [Digit(3)] == "23" && Digits(3) == "3";
    assert Text(Command("s", "car1", 23, "KRW")) == "scar123KRW";
  }

  /** The currency must not start with a digit. */
  lemma DigitCurrencySameText()
    ensures var a, b := Command("s", "car", 12, "3KRW"), Command("s", "car", 1, "23KRW"); a != b && Text(a) == Text(b)
  {
    assert Digits(12) == Digits(1) + [Digit(2)] == "12" && Digits(1) == "1";
    assert Text(Command("s", "car", 12, "3KRW")) == "scar123KRW";
  }
}
