/** `acpToolCallId`: the wire id of a tool call, `${turnId}:${toolCallId}`. */
module WireIds {
  function Digit(d: int): char
    requires 0 <= d < 10
  {
    ['0', '1', '2', '3', '4', '5', '6', '7', '8', '9'][d]
  }

  function Digits(n: nat): string {
    if n < 10 then [Digit(n)] else Digits(n / 10) + [Digit(n % 10)]
  }

  /** An integer as a template string prints it. */
  function Decimal(n: int): string {
    if n < 0 then "-" + Digits(-n) else Digits(n)
  }

  function AcpToolCallId(turnId: int, toolCallId: string): string {
    Decimal(turnId) + ":" + toolCallId
  }

  function DigitValue(c: char): int {
    if '0' <= c <= '9' then c as int - '0' as int else 0
  }

  function Value(s: string): int {
    if s == [] then 0 else Value(s[..|s| - 1]) * 10 + DigitValue(s[|s| - 1])
  }

  lemma {:induction false} DigitsRoundTrip(n: nat)
    ensures Value(Digits(n)) == n && Digits(n) != []
    ensures forall k | 0 <= k < |Digits(n)| :: '0' <= Digits(n)[k] <= '9'
  {
    if n >= 10 {
      DigitsRoundTrip(n / 10);
      assert Digits(n)[..|Digits(n)| - 1] == Digits(n / 10);
    } else {
      assert Digits(n)[..0] == [];
    }
  }

  lemma DecimalShape(n: int)
    ensures Decimal(n) != [] && (Decimal(n)[0] == '-' <==> n < 0)
    ensures forall k | 0 <= k < |Decimal(n)| :: Decimal(n)[k] != ':'
  {
    hide Digits, Value;
    DigitsRoundTrip(if n < 0 then -n else n);
  }

  lemma DecimalInjective(m: int, n: int)
    requires Decimal(m) == Decimal(n)
    ensures m == n
  {
    hide Digits, Value;
    DecimalShape(m);
    DecimalShape(n);
    DigitsRoundTrip(if m < 0 then -m else m);
    DigitsRoundTrip(if n < 0 then -n else n);
    if m < 0 {
      assert Decimal(m)[1..] == Digits(-m) && Decimal(n)[1..] == Digits(-n);
    }
  }

  /** The first colon of a wire id ends the turn id. */
  lemma FirstColon(t: int, x: string)
    ensures var id, n := AcpToolCallId(t, x), |Decimal(t)|;
            && n < |id| && id[n] == ':' && (forall k | 0 <= k < n :: id[k] != ':')
            && id[..n] == Decimal(t) && id[n + 1..] == x
  {
    hide Decimal;
    DecimalShape(t);
  }

  /** Different tool calls have different wire ids. */
  lemma WireIdInjective(t: int, x: string, u: int, y: string)
    ensures AcpToolCallId(t, x) == AcpToolCallId(u, y) <==> t == u && x == y
  {
    hide Decimal, AcpToolCallId;
    FirstColon(t, x);
    FirstColon(u, y);
    if AcpToolCallId(t, x) == AcpToolCallId(u, y) {
      DecimalInjective(t, u);
    }
  }
}
