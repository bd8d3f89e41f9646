/**
 * CNPJ check-digit validation and the validate-then-look-up step of a
 * consultation (consultar_cnpj.py).
 */
module Cnpj {
  import opened Wrappers
  import opened Registro

  /** Weights of the first check digit, applied to positions 0..11. */
  const Peso1: seq<int> := [5, 4, 3, 2, 9, 8, 7, 6, 5, 4, 3, 2]
  /** Weights of the second check digit, applied to positions 0..12. */
  const Peso2: seq<int> := [6, 5, 4, 3, 2, 9, 8, 7, 6, 5, 4, 3, 2]

  predicate IsDigit(c: char) {
    '0' <= c <= '9'
  }

  function DigitValue(c: char): (v: nat)
    requires IsDigit(c)
    ensures v < 10
  {
    c as int - '0' as int
  }

  /** The first `n` characters of `s` exist and are digits. */
  predicate DigitsUpTo(s: string, n: nat) {
    n <= |s| && forall i | 0 <= i < n :: IsDigit(s[i])
  }

  /** `sum(int(s[j]) * w[j] for j in range(k))`. */
  function WeightedSum(s: string, w: seq<int>, k: nat): int
    requires k <= |w| && DigitsUpTo(s, k)
  {
    if k == 0 then 0 else WeightedSum(s, w, k - 1) + DigitValue(s[k - 1]) * w[k - 1]
  }

  /** The check digit that weights `w` give for the leading digits of `s`. */
  function CheckDigit(s: string, w: seq<int>): (d: char)
    requires DigitsUpTo(s, |w|)
    ensures IsDigit(d)
  {
    var resto := WeightedSum(s, w, |w|) % 11;
    if resto < 2 then '0' else DigitChar(11 - resto)
  }

  /**
   * The check digit is the digit that brings the weighted sum to a multiple
   * of 11, except that remainder 1 (which would need 10) gives '0'.
   */
  lemma CheckDigitCompletesModulus(s: string, w: seq<int>, v: nat)
    requires DigitsUpTo(s, |w|) && v < 10
    ensures var t := WeightedSum(s, w, |w|);
      v == DigitValue(CheckDigit(s, w)) <==> (t + v) % 11 == 0 || (t % 11 == 1 && v == 0)
  {
    var t := WeightedSum(s, w, |w|);
    var q, r := t / 11, t % 11;
    assert t == 11 * q + r;
    assert (t + v) % 11 == (r + v) % 11 by { ModOfShift(q, r + v); }
  }

  lemma ModOfShift(q: int, x: int)
    ensures (11 * q + x) % 11 == x % 11
  {
  }

  /**
   * What `validar_cnpj` demands beyond its length test: positions 0..11 of a
   * 14-character string must be digits, or `int()` raises.
   */
  predicate Checkable(s: string) {
    |s| == 14 ==> DigitsUpTo(s, 12)
  }

  /** A 14-character string whose positions 12 and 13 hold its two check digits. */
  predicate IsValidCnpj(s: string)
    requires Checkable(s)
  {
    && |s| == 14
    && s[12] == CheckDigit(s, Peso1)
    && s[13] == CheckDigit(s, Peso2)
  }

  /** `calcular_digito`: the loop that accumulates `soma`. */
  method CalcularDigito(cnpj: string, peso: seq<int>) returns (d: char)
    requires DigitsUpTo(cnpj, |peso|)
    ensures IsDigit(d)
    ensures d == CheckDigit(cnpj, peso)
  {
    var soma := 0;
    for i := 0 to |peso|
      invariant soma == WeightedSum(cnpj, peso, i)
    {
      soma := soma + DigitValue(cnpj[i]) * peso[i];
    }
    var resto := soma % 11;
    d := if resto < 2 then '0' else DigitChar(11 - resto);
  }

  /** `validar_cnpj`: length test, then each check digit with an early return. */
  method ValidarCnpj(cnpj: string) returns (valid: bool)
    requires Checkable(cnpj)
    ensures |cnpj| != 14 ==> !valid
    ensures valid <==> |cnpj| == 14 && cnpj[12] == CheckDigit(cnpj, Peso1) && cnpj[13] == CheckDigit(cnpj, Peso2)
    ensures valid == IsValidCnpj(cnpj)
  {
    if |cnpj| != 14 {
      return false;
    }
    var digito1 := CalcularDigito(cnpj, Peso1);
    if cnpj[12] != digito1 {
      return false;
    }
    var digito2 := CalcularDigito(cnpj, Peso2);
    if cnpj[13] != digito2 {
      return false;
    }
    return true;
  }

  lemma {:induction false} WeightedSumOfPrefix(s: string, t: string, w: seq<int>, k: nat)
    requires k <= |w| && DigitsUpTo(s, k) && DigitsUpTo(t, k)
    requires s[..k] == t[..k]
    ensures WeightedSum(s, w, k) == WeightedSum(t, w, k)
  {
    if k > 0 {
      assert s[k - 1] == s[..k][k - 1] == t[..k][k - 1] == t[k - 1];
      assert s[..k - 1] == s[..k][..k - 1] == t[..k][..k - 1] == t[..k - 1];
      WeightedSumOfPrefix(s, t, w, k - 1);
    }
  }

  /** The 14-digit CNPJ obtained by appending both check digits to a 12-digit base. */
  function Complete(base: string): (s: string)
    requires |base| == 12 && DigitsUpTo(base, 12)
    ensures |s| == 14 && DigitsUpTo(s, 14) && s[..12] == base
  {
    var d1 := CheckDigit(base, Peso1);
    var d2 := CheckDigit(base + [d1], Peso2);
    base + [d1, d2]
  }

  /** Completing any 12-digit base gives a CNPJ that validates. */
  lemma CompleteIsValid(base: string)
    requires |base| == 12 && DigitsUpTo(base, 12)
    ensures IsValidCnpj(Complete(base))
  {
    var s := Complete(base);
    var d1 := CheckDigit(base, Peso1);
    WeightedSumOfPrefix(s, base, Peso1, 12);
    assert s[..13] == (base + [d1])[..13];
    WeightedSumOfPrefix(s, base + [d1], Peso2, 13);
  }

  /** Every valid CNPJ is the completion of its first twelve digits. */
  lemma ValidIsComplete(s: string)
    requires Checkable(s) && IsValidCnpj(s)
    ensures DigitsUpTo(s, 14) && s == Complete(s[..12])
  {
    var base := s[..12];
    var d1 := CheckDigit(base, Peso1);
    WeightedSumOfPrefix(s, base, Peso1, 12);
    assert s[..13] == (base + [d1])[..13];
    WeightedSumOfPrefix(s, base + [d1], Peso2, 13);
    assert s == base + [s[12], s[13]];
  }

  /** Replacing the first check digit of a valid CNPJ by another digit invalidates it. */
  lemma WrongFirstDigitInvalid(s: string, c: char)
    requires Checkable(s) && IsValidCnpj(s)
    requires IsDigit(c) && c != s[12]
    ensures Checkable(s[12 := c]) && !IsValidCnpj(s[12 := c])
  {
    var t := s[12 := c];
    assert t[..12] == s[..12];
    WeightedSumOfPrefix(t, s, Peso1, 12);
  }

  /** Replacing the second check digit of a valid CNPJ by another digit invalidates it. */
  lemma WrongSecondDigitInvalid(s: string, c: char)
    requires Checkable(s) && IsValidCnpj(s)
    requires IsDigit(c) && c != s[13]
    ensures Checkable(s[13 := c]) && !IsValidCnpj(s[13 := c])
  {
    var t := s[13 := c];
    assert t[..13] == s[..13];
    WeightedSumOfPrefix(t, s, Peso1, 12);
    WeightedSumOfPrefix(t, s, Peso2, 13);
  }

  /** As written, fourteen zeros validate: both sums are 0, so both digits are '0'. */
  lemma AllZerosValidate()
    ensures Checkable("00000000000000") && IsValidCnpj("00000000000000")
  {
    var s := "00000000000000";
    assert DigitsUpTo(s, 14);
    ZeroSum(s, Peso1, 12);
    ZeroSum(s, Peso2, 13);
  }

  lemma {:induction false} ZeroSum(s: string, w: seq<int>, k: nat)
    requires k <= |w| && k <= |s| && forall i | 0 <= i < k :: s[i] == '0'
    ensures DigitsUpTo(s, k) && WeightedSum(s, w, k) == 0
  {
    if k > 0 {
      ZeroSum(s, w, k - 1);
    }
  }

  /** The first weighted sum of 11222333000181 over its first six digits. */
  lemma ExampleFirstSumHead()
    ensures WeightedSum("11222333000181", Peso1, 6) == 61
  {
    var s := "11222333000181";
    assert WeightedSum(s, Peso1, 1) == 5;
    assert WeightedSum(s, Peso1, 2) == 9;
    assert WeightedSum(s, Peso1, 3) == 15;
    assert WeightedSum(s, Peso1, 4) == 19;
    assert WeightedSum(s, Peso1, 5) == 37;
  }

  /** The first weighted sum of 11222333000181, step by step from the sixth digit. */
  lemma ExampleFirstSum()
    ensures DigitsUpTo("11222333000181", 14)
    ensures WeightedSum("11222333000181", Peso1, 12) == 102
  {
    var s := "11222333000181";
    assert DigitsUpTo(s, 14);
    ExampleFirstSumHead();
    assert WeightedSum(s, Peso1, 7) == 82;
    assert WeightedSum(s, Peso1, 8) == 100;
    assert WeightedSum(s, Peso1, 9) == 100;
    assert WeightedSum(s, Peso1, 10) == 100;
    assert WeightedSum(s, Peso1, 11) == 100;
    assert WeightedSum(s, Peso1, 12) == 102;
  }

  /** The second weighted sum of 11222333000181 over its first six digits. */
  lemma ExampleSecondSumHead()
    ensures WeightedSum("11222333000181", Peso2, 6) == 56
  {
    var s := "11222333000181";
    assert WeightedSum(s, Peso2, 1) == 6;
    assert WeightedSum(s, Peso2, 2) == 11;
    assert WeightedSum(s, Peso2, 3) == 19;
    assert WeightedSum(s, Peso2, 4) == 25;
    assert WeightedSum(s, Peso2, 5) == 29;
  }

  /** The second weighted sum of 11222333000181, step by step from the sixth digit. */
  lemma ExampleSecondSum()
    ensures DigitsUpTo("11222333000181", 14)
    ensures WeightedSum("11222333000181", Peso2, 13) == 120
  {
    var s := "11222333000181";
    assert DigitsUpTo(s, 14);
    ExampleSecondSumHead();
    assert WeightedSum(s, Peso2, 7) == 80;
    assert WeightedSum(s, Peso2, 8) == 101;
    assert WeightedSum(s, Peso2, 9) == 101;
    assert WeightedSum(s, Peso2, 10) == 101;
    assert WeightedSum(s, Peso2, 11) == 101;
    assert WeightedSum(s, Peso2, 12) == 104;
    assert WeightedSum(s, Peso2, 13) == 120;
  }

  /** 11222333000181: first sum 102 gives '8', second sum 120 gives '1'. */
  lemma WorkedExample()
    ensures Checkable("11222333000181") && IsValidCnpj("11222333000181")
    ensures WeightedSum("11222333000181", Peso1, 12) == 102
    ensures WeightedSum("11222333000181", Peso2, 13) == 120
  {
    ExampleFirstSum();
    ExampleSecondSum();
  }

  /** Changing the last digit of 11222333000181 to '0' or '2' makes it invalid. */
  lemma WorkedExampleWrongDigit()
    ensures Checkable("11222333000180") && !IsValidCnpj("11222333000180")
    ensures Checkable("11222333000182") && !IsValidCnpj("11222333000182")
  {
    var s := "11222333000181";
    WorkedExample();
    WrongSecondDigitInvalid(s, '0');
    WrongSecondDigitInvalid(s, '2');
    assert s[13 := '0'] == "11222333000180";
    assert s[13 := '2'] == "11222333000182";
  }

  predicate IsSeparator(c: char) {
    c == '.' || c == '-' || c == '/'
  }

  /** `re.sub(r'[\.\-\/]', '', s)`: drops every '.', '-' and '/'. */
  function Strip(s: string): (r: string)
    ensures |r| <= |s|
    ensures forall i | 0 <= i < |r| :: !IsSeparator(r[i])
  {
    if s == [] then [] else (if IsSeparator(s[0]) then [] else [s[0]]) + Strip(s[1..])
  }

  /** Stripping works character by character, so it keeps the others in order. */
  lemma {:induction false} StripAppend(a: string, b: string)
    ensures Strip(a + b) == Strip(a) + Strip(b)
  {
    if a != [] {
      assert (a + b)[1..] == a[1..] + b;
      StripAppend(a[1..], b);
    } else {
      assert a + b == b;
    }
  }

  /** A string is unchanged by stripping exactly when it holds no separator. */
  lemma {:induction false} StripFixesClean(s: string)
    ensures Strip(s) == s <==> forall i | 0 <= i < |s| :: !IsSeparator(s[i])
  {
    if s != [] {
      StripFixesClean(s[1..]);
      if IsSeparator(s[0]) {
        assert |Strip(s)| <= |s[1..]| < |s|;
      } else {
        assert forall i | 1 <= i < |s| :: s[i] == s[1..][i - 1];
      }
    }
  }

  lemma StripIdempotent(s: string)
    ensures Strip(Strip(s)) == Strip(s)
  {
    StripFixesClean(Strip(s));
  }

  /** A character other than a separator occurs as often after stripping as before. */
  lemma {:induction false} StripKeepsOthers(s: string, c: char)
    requires !IsSeparator(c)
    ensures multiset(Strip(s))[c] == multiset(s)[c]
  {
    if s != [] {
      StripKeepsOthers(s[1..], c);
      assert s == [s[0]] + s[1..];
    }
  }

  /** What the registry client does with a CNPJ: return a dict, or raise `CNPJError`. */
  datatype Reply = Returned(record: map<string, Json>) | Raised(message: string)

  /**
   * The three outcomes of a consultation: rejected before any lookup, the
   * client raised `CNPJError`, or the client returned a record.
   */
  datatype Outcome = Invalid | Failed(message: string) | Success(record: map<string, Json>)

  /** The outcome `consultar_cnpj` produces for a raw identifier. */
  function Consult(raw: string, client: string -> Reply): (o: Outcome)
    requires Checkable(Strip(raw))
    ensures o.Invalid? <==> !IsValidCnpj(Strip(raw))
    ensures o.Success? ==> client(Strip(raw)) == Returned(o.record)
    ensures o.Failed? ==> client(Strip(raw)) == Raised(o.message)
  {
    var cnpj := Strip(raw);
    if !IsValidCnpj(cnpj) then Invalid
    else match client(cnpj)
      case Returned(rec) => Success(rec)
      case Raised(message) => Failed(message)
  }

  /** An identifier that fails validation is Invalid whatever the client would say. */
  lemma InvalidIgnoresClient(raw: string, c1: string -> Reply, c2: string -> Reply)
    requires Checkable(Strip(raw)) && !IsValidCnpj(Strip(raw))
    ensures Consult(raw, c1) == Consult(raw, c2) == Invalid
  {
  }


  /**
   * Any input that strips to 11222333000181 passes validation, so the
   * client's reply decides the outcome.
   */
  lemma PunctuatedExample(raw: string, client: string -> Reply)
    requires Strip(raw) == "11222333000181"
    ensures Checkable(Strip(raw))
    ensures client("11222333000181").Returned? ==> Consult(raw, client).Success?
    ensures client("11222333000181").Raised? ==> Consult(raw, client).Failed?
  {
    WorkedExample();
  }

  /**
   * `consultar_cnpj`: strip, validate, and only for a valid CNPJ ask the
   * client. `queried` lists the identifiers handed to the client.
   */
  method ConsultarCnpj(raw: string, client: string -> Reply) returns (o: Outcome, queried: seq<string>)
    requires Checkable(Strip(raw))
    ensures o == Consult(raw, client)
    ensures o.Invalid? <==> !IsValidCnpj(Strip(raw))
    ensures queried == if IsValidCnpj(Strip(raw)) then [Strip(raw)] else []
    ensures o.Invalid? <==> queried == []
  {
    var cnpj := Strip(raw);
    var valid := ValidarCnpj(cnpj);
    if !valid {
      return Invalid, [];
    }
    queried := [cnpj];
    match client(cnpj)
    case Returned(rec) => o := Success(rec);
    case Raised(message) => o := Failed(message);
  }
}
