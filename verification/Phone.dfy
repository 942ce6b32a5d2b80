/** Telephone numbers as the dialler stores and compares them (apps/api/parlio_api/outbound.py). */
module Phone {
  import opened Wrappers

  const DEFAULT_CC := "+44"

  predicate Kept(c: char) {
    '0' <= c <= '9' || c == '+'
  }

  /** Everything that is neither a digit nor a plus sign is dropped. */
  function Digits(raw: string): (r: string)
    ensures forall c | c in r :: Kept(c)
    ensures (forall c | c in raw :: Kept(c)) ==> r == raw
  {
    if raw == "" then "" else (if Kept(raw[0]) then [raw[0]] else []) + Digits(raw[1..])
  }

  function Normalise(raw: string): string {
    var d0 := Digits(raw);
    var d1 := if "00" <= d0 then "+" + d0[2..] else d0;
    var d2 := if "0" <= d1 && !("+" <= d1) then DEFAULT_CC + d1[1..] else d1;
    if "+" <= d2 then d2 else "+" + d2
  }

  /** A normalised number is a plus sign followed by digits or plus signs. */
  lemma NormaliseShape(raw: string)
    ensures "+" <= Normalise(raw) && forall c | c in Normalise(raw) :: Kept(c)
  {
  }

  /** Numbers are normalised when stored and again when looked up; the second time changes nothing. */
  lemma NormaliseIdempotent(raw: string)
    ensures Normalise(Normalise(raw)) == Normalise(raw)
  {
    NormaliseShape(raw);
    assert Digits(Normalise(raw)) == Normalise(raw);
    assert Normalise(raw)[0] == '+';
  }

  lemma {:induction false} DigitsSkip(a: string, c: char, b: string)
    requires !Kept(c)
    ensures Digits(a + [c] + b) == Digits(a + b)
  {
    if a == "" {
      assert a + [c] + b == [c] + b && a + b == b;
    } else {
      assert (a + [c] + b)[1..] == a[1..] + [c] + b && (a + b)[1..] == a[1..] + b;
      DigitsSkip(a[1..], c, b);
    }
  }

  /** Spaces, dashes and brackets make no difference. */
  lemma PunctuationIgnored(a: string, c: char, b: string)
    requires !Kept(c)
    ensures Normalise(a + [c] + b) == Normalise(a + b)
  {
    DigitsSkip(a, c, b);
  }

  predicate Number(d: string) {
    d != "" && d[0] != '0' && forall c | c in d :: '0' <= c <= '9'
  }

  lemma National(d: string, raw: string)
    requires Number(d) && |raw| == |d| + 1 && raw[0] == '0' && raw[1..] == d
    ensures Normalise(raw) == "+44" + d
  {
    assert raw[1] == d[0] && forall c | c in raw :: c == raw[0] || c in raw[1..];
    assert Digits(raw) == raw;
  }

  lemma WithExitCode(d: string, raw: string)
    requires Number(d) && |raw| == |d| + 2 && raw[0] == raw[1] == '0' && raw[2..] == d
    ensures Normalise(raw) == "+" + d
  {
    assert forall c | c in raw :: c == '0' || c in raw[2..];
    assert Digits(raw) == raw;
  }

  lemma Bare(d: string)
    requires Number(d)
    ensures Normalise(d) == "+" + d
  {
    assert Digits(d) == d && d[0] in d;
  }

  lemma International(raw: string)
    requires raw != "" && raw[0] == '+' && forall c | c in raw :: Kept(c)
    ensures Normalise(raw) == raw
  {
    assert Digits(raw) == raw;
  }

  /** The national form, the international one and the one with an exit code are the same British number. */
  lemma FormsAgree(d: string, national: string, exit: string)
    requires Number(d) && |national| == |d| + 1 && national[0] == '0' && national[1..] == d
    requires |exit| == |d| + 4 && exit[0] == exit[1] == '0' && exit[2..] == "44" + d
    ensures Normalise(national) == Normalise(exit) == Normalise("44" + d) == Normalise("+44" + d) == "+44" + d
  {
    var cc := "44" + d;
    assert Number(cc) && "+" + cc == "+44" + d;
    National(d, national);
    Bare(cc);
    WithExitCode(cc, exit);
    International("+44" + d);
  }

  datatype Jurisdiction = GB | IE | US

  function JurisdictionFor(number: string): Option<Jurisdiction> {
    if "+44" <= number then Some(GB)
    else if "+353" <= number then Some(IE)
    else if "+1" <= number then Some(US)
    else None
  }

  /** Calls may go to Great Britain, Ireland and North America, told by the country code. */
  lemma CountriesByCode(number: string)
    ensures JurisdictionFor(number) == Some(GB) <==> 3 <= |number| && number[..3] == "+44"
    ensures JurisdictionFor(number) == Some(IE) <==> 4 <= |number| && number[..4] == "+353"
    ensures JurisdictionFor(number) == Some(US) <==> 2 <= |number| && number[..2] == "+1"
  {
    if 4 <= |number| && number[..4] == "+353" {
      assert number[1] == number[..4][1] == '3';
    }
    if 3 <= |number| && number[..3] == "+44" {
      assert number[1] == number[..3][1] == '4';
    }
    if 2 <= |number| && number[..2] == "+1" {
      assert number[1] == number[..2][1] == '1';
    }
  }
}
