// The fencing token of a run, `current_workflow_id`: attempt 1 runs under the run's own id and
// attempt n under "<run>:<n>" (packages/db/src/control-plane.ts).
module Tokens {

  function Digits(n: nat): (s: string)
    ensures s != []
    ensures forall i | 0 <= i < |s| :: '0' <= s[i] <= '9'
    ensures |s| == 1 <==> n < 10
  {
    var digit := [(n % 10) as char + '0'];
    if n < 10 then digit else Digits(n / 10) + digit
  }

  function AttemptToken(run: string, attempt: nat): string {
    if attempt == 1 then run else run + ":" + Digits(attempt)
  }

  lemma {:induction false} DigitsInjective(m: nat, n: nat)
    requires Digits(m) == Digits(n)
    ensures m == n
  {
    var a, b := Digits(m), Digits(n);
    assert a[|a| - 1] == (m % 10) as char + '0' && b[|b| - 1] == (n % 10) as char + '0';
    assert m % 10 == n % 10;
    if m >= 10 {
      assert Digits(m / 10) == a[..|a| - 1] && Digits(n / 10) == b[..|b| - 1];
      DigitsInjective(m / 10, n / 10);
    }
  }

  /** A decimal numeral, read from the left as a reader of ids does. */
  function Numeral(s: string, value: nat): nat
    requires forall i | 0 <= i < |s| :: '0' <= s[i] <= '9'
    decreases |s|
  {
    if s == [] then value else Numeral(s[1..], 10 * value + (s[0] - '0') as nat)
  }

  lemma {:induction false} NumeralGoesOn(s: string, d: char, value: nat)
    requires (forall i | 0 <= i < |s| :: '0' <= s[i] <= '9') && '0' <= d <= '9'
    ensures Numeral(s + [d], value) == 10 * Numeral(s, value) + (d - '0') as nat
    decreases |s|
  {
    if s == [] {
      assert [d][1..] == [];
    } else {
      assert (s + [d])[1..] == s[1..] + [d];
      NumeralGoesOn(s[1..], d, 10 * value + (s[0] - '0') as nat);
    }
  }

  lemma {:induction false} DigitsReadBack(n: nat)
    ensures Numeral(Digits(n), 0) == n && (n > 0 ==> Digits(n)[0] != '0')
    decreases n
  {
    var digit := (n % 10) as char + '0';
    if n < 10 {
      NumeralGoesOn([], digit, 0);
      assert [] + [digit] == Digits(n);
    } else {
      DigitsReadBack(n / 10);
      NumeralGoesOn(Digits(n / 10), digit, 0);
    }
  }

  /** Attempt 1 runs under the run's own id; a later one under it, a colon, and the attempt's numeral. */
  lemma TokenReadsBack(run: string, n: nat)
    ensures n == 1 ==> AttemptToken(run, n) == run
    ensures n != 1 ==>
              var token := AttemptToken(run, n);
              |token| > |run| + 1 && token[..|run|] == run && token[|run|] == ':' &&
              var numeral := token[|run| + 1..];
              (forall i | 0 <= i < |numeral| :: '0' <= numeral[i] <= '9') && Numeral(numeral, 0) == n && (n > 0 ==> numeral[0] != '0')
  {
    if n != 1 {
      DigitsReadBack(n);
      assert AttemptToken(run, n)[|run| + 1..] == Digits(n);
    }
  }

  /** The last colon of a token of a later attempt splits it: what follows it holds no colon. */
  lemma SuffixUnique(r: string, a: string, s: string, b: string)
    requires ':' !in a && ':' !in b
    requires r + ":" + a == s + ":" + b
    ensures r == s && a == b
  {
    var t := r + ":" + a;
    assert t[|r|] == ':' && t[|s|] == ':';
    assert forall i | |r| < i < |t| :: t[i] == a[i - |r| - 1];
    assert forall i | |s| < i < |t| :: t[i] == b[i - |s| - 1];
    assert r == t[..|r|] && s == t[..|s|] && a == t[|r| + 1..] && b == t[|s| + 1..];
  }

  /** Within one run the token names the attempt, whatever the run's id looks like. */
  lemma TokenNamesAttempt(run: string, m: nat, n: nat)
    ensures AttemptToken(run, m) == AttemptToken(run, n) <==> m == n
  {
    assert m == 1 || |AttemptToken(run, m)| > |run|;
    assert n == 1 || |AttemptToken(run, n)| > |run|;
    if AttemptToken(run, m) == AttemptToken(run, n) && m != 1 {
      SuffixUnique(run, Digits(m), run, Digits(n));
      DigitsInjective(m, n);
    }
  }

  /**
   * Across runs two attempts share a token exactly when one run was started under an id that is
   * the other's later token: run "a:2" at attempt 1 against run "a" at attempt 2. Bumping can
   * never make two later attempts meet.
   */
  lemma TokensMeet(r: string, m: nat, s: string, n: nat)
    requires r != s
    ensures AttemptToken(r, m) == AttemptToken(s, n) <==>
            (m == 1 && n != 1 && r == AttemptToken(s, n)) || (n == 1 && m != 1 && s == AttemptToken(r, m))
  {
    if AttemptToken(r, m) == AttemptToken(s, n) && m != 1 && n != 1 {
      SuffixUnique(r, Digits(m), s, Digits(n));
    }
  }

  /** Run ids without a colon, as the generated UUIDs are, never meet another run's token. */
  lemma ColonFreeTokensDiffer(r: string, m: nat, s: string, n: nat)
    requires ':' !in r && ':' !in s
    ensures AttemptToken(r, m) == AttemptToken(s, n) <==> r == s && m == n
  {
    if r == s {
      TokenNamesAttempt(r, m, n);
    } else {
      TokensMeet(r, m, s, n);
      assert m != 1 ==> AttemptToken(r, m)[|r|] == ':';
      assert n != 1 ==> AttemptToken(s, n)[|s|] == ':';
    }
  }
}
