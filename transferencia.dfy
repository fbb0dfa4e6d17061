/** The `Transferencia` entity of the Portuguese saga: built once and never
    changed. Its `DataMovimento` is the local date printed "dd/MM/yyyy"; the
    date is an input. */
module TransferenciaEntity {

  import opened Primitives
  import opened Text
  import opened Guids

  predicate IsLeapYear(y: int) {
    (y % 4 == 0 && y % 100 != 0) || y % 400 == 0
  }

  function DaysInMonth(y: int, m: int): int
    requires 1 <= m <= 12
  {
    if m == 2 then (if IsLeapYear(y) then 29 else 28)
    else if m == 4 || m == 6 || m == 9 || m == 11 then 30
    else 31
  }

  datatype DateRecord = Date(year: int, month: int, day: int)

  /** A date `DateTime` can hold. */
  type CalendarDate = d: DateRecord | 1 <= d.year <= 9999 && 1 <= d.month <= 12 && 1 <= d.day <= DaysInMonth(d.year, d.month)
    witness Date(1, 1, 1)

  /** Two digits, with a leading zero when needed: the "dd" and "MM" fields. */
  function TwoDigits(n: nat): (s: string)
    requires n < 100
    ensures |s| == 2 && forall i :: 0 <= i < 2 ==> '0' <= s[i] <= '9'
  {
    [DigitChar(n / 10), DigitChar(n % 10)]
  }

  /** Four digits, with leading zeros when needed: the "yyyy" field. */
  function FourDigits(n: nat): (s: string)
    requires n < 10000
    ensures |s| == 4 && forall i :: 0 <= i < 4 ==> '0' <= s[i] <= '9'
  {
    TwoDigits(n / 100) + TwoDigits(n % 100)
  }

  /** `date.ToString("dd/MM/yyyy")`. The invariant and pt-BR cultures both
      print "/" as the separator. */
  function FormatDate(d: CalendarDate): (s: string)
    ensures |s| == 10 && s[2] == '/' && s[5] == '/'
  {
    TwoDigits(d.day) + "/" + TwoDigits(d.month) + "/" + FourDigits(d.year)
  }

  predicate AllDigits(s: string) {
    forall i :: 0 <= i < |s| ==> '0' <= s[i] <= '9'
  }

  /** Reads a "dd/MM/yyyy" text back into a date, refusing anything else. */
  function ParseDate(s: string): Option<CalendarDate> {
    if |s| != 10 || s[2] != '/' || s[5] != '/' || !AllDigits(s[..2]) || !AllDigits(s[3..5]) || !AllDigits(s[6..]) then None
    else
      var d := Date(DigitsValue(s[6..]), DigitsValue(s[3..5]), DigitsValue(s[..2]));
      if 1 <= d.year <= 9999 && 1 <= d.month <= 12 && 1 <= d.day <= DaysInMonth(d.year, d.month) then Some(d) else None
  }

  lemma TwoDigitsValue(n: nat)
    requires n < 100
    ensures DigitsValue(TwoDigits(n)) == n
  {
    var s := TwoDigits(n);
    assert s[..1] == [DigitChar(n / 10)];
    assert DigitsValue(s[..1]) == DigitsValue([]) * 10 + n / 10;
  }

  /** Appending a digit shifts the value one decimal place. */
  lemma DigitsValueSnoc(s: string, c: char)
    requires AllDigits(s) && '0' <= c <= '9'
    ensures DigitsValue(s + [c]) == DigitsValue(s) * 10 + DigitValue(c)
  {
    assert (s + [c])[..|s|] == s;
  }

  /** Appending two digits shifts the value two decimal places. */
  lemma DigitsValueAppendTwo(a: string, b: string)
    requires AllDigits(a) && AllDigits(b) && |b| == 2
    ensures DigitsValue(a + b) == DigitsValue(a) * 100 + DigitsValue(b)
  {
    var a1 := a + [b[0]];
    assert AllDigits(a1) by {
      forall i | 0 <= i < |a1| ensures '0' <= a1[i] <= '9' {
        if i < |a| { assert a1[i] == a[i]; }
      }
    }
    var v, d0, d1 := DigitsValue(a), DigitValue(b[0]), DigitValue(b[1]);
    DigitsValueSnoc(a, b[0]);
    assert a + b == a1 + [b[1]];
    DigitsValueSnoc(a1, b[1]);
    assert (v * 10 + d0) * 10 + d1 == v * 100 + (d0 * 10 + d1);
    assert b == [b[0]] + [b[1]];
    DigitsValueSnoc([b[0]], b[1]);
    assert [b[0]] == [] + [b[0]];
    DigitsValueSnoc([], b[0]);
  }

  lemma FourDigitsValue(n: nat)
    requires n < 10000
    ensures DigitsValue(FourDigits(n)) == n
  {
    var q, r := n / 100, n % 100;
    TwoDigitsValue(q);
    TwoDigitsValue(r);
    DigitsValueAppendTwo(TwoDigits(q), TwoDigits(r));
    assert q * 100 + r == n;
  }

  /** The printed date reads back as the same date. */
  lemma ParseFormatDate(d: CalendarDate)
    ensures ParseDate(FormatDate(d)) == Some(d)
  {
    var s := FormatDate(d);
    assert s[..2] == TwoDigits(d.day);
    assert s[3..5] == TwoDigits(d.month);
    assert s[6..] == FourDigits(d.year);
    TwoDigitsValue(d.day);
    TwoDigitsValue(d.month);
    FourDigitsValue(d.year);
  }

  /** The fields of a `Transferencia`. The placeholder the repository builds
      with the private constructor leaves `dataMovimento` null. */
  datatype Transferencia = Transferencia(
    idTransferencia: Guid,
    idContaCorrenteOrigem: Guid,
    idContaCorrenteDestino: Guid,
    dataMovimento: NullableString,
    valor: Decimal)

  /** The public constructor: `id` is the fresh `Guid.NewGuid()` and
      `today` the local date. */
  function NewTransferencia(id: Guid, origem: Guid, destino: Guid, valor: Decimal, today: CalendarDate): (t: Transferencia)
    ensures t.idTransferencia == id && t.idContaCorrenteOrigem == origem && t.idContaCorrenteDestino == destino && t.valor == valor
    ensures t.dataMovimento.Some? && ParseDate(t.dataMovimento.value) == Some(today)
  {
    ParseFormatDate(today);
    Transferencia(id, origem, destino, Some(FormatDate(today)), valor)
  }

  /** What the private constructor leaves: every field at its default. */
  const Blank := Transferencia(Empty, Empty, Empty, None, 0.0)
}
