/** The two positive-amount records, `Money` and `ValorMonetario`. Each
    guarded constructor throws `ArgumentException` for a non-positive
    amount, so every instance that exists holds an amount above zero; the
    implicit conversions go to and from `decimal`. */
module ValueObjects {

  import opened Primitives
  import opened Exceptions

  const NonPositiveMessage := "O valor deve ser maior que zero"

  datatype MoneyRecord = Money(value: Decimal)

  /** Only positive amounts can be constructed. */
  type Money = m: MoneyRecord | m.value > 0.0 witness Money(1.0)

  /** `new Money(value)`, also reached through the implicit conversion from
      `decimal`. */
  function NewMoney(value: Decimal): (r: Outcome<Money>)
    ensures r.Returns? <==> value > 0.0
    ensures r.Returns? ==> r.value.value == value
    ensures r.Throws? ==> r.exception == ArgumentException(NonPositiveMessage, "value")
  {
    if value <= 0.0 then Throws(ArgumentException(NonPositiveMessage, "value")) else Returns(Money(value))
  }

  /** The implicit conversion to `decimal`. */
  function MoneyToDecimal(m: Money): (d: Decimal)
    ensures d > 0.0
  {
    m.value
  }

  /** decimal to Money to decimal gives the amount back when it is positive. */
  lemma MoneyRoundTrip(d: Decimal)
    requires d > 0.0
    ensures NewMoney(d).Returns? && MoneyToDecimal(NewMoney(d).value) == d
  {
  }

  /** Money to decimal to Money gives the same record back. */
  lemma MoneyFromDecimalRoundTrip(m: Money)
    ensures NewMoney(MoneyToDecimal(m)) == Returns(m)
  {
  }

  datatype ValorRecord = ValorMonetario(valor: Decimal)

  type ValorMonetario = v: ValorRecord | v.valor > 0.0 witness ValorMonetario(1.0)

  /** `new ValorMonetario(valor)`; the parameter is named `valor`. */
  function NewValorMonetario(valor: Decimal): (r: Outcome<ValorMonetario>)
    ensures r.Returns? <==> valor > 0.0
    ensures r.Returns? ==> r.value.valor == valor
    ensures r.Throws? ==> r.exception == ArgumentException(NonPositiveMessage, "valor")
  {
    if valor <= 0.0 then Throws(ArgumentException(NonPositiveMessage, "valor")) else Returns(ValorMonetario(valor))
  }

  function ValorToDecimal(v: ValorMonetario): (d: Decimal)
    ensures d > 0.0
  {
    v.valor
  }

  lemma ValorRoundTrip(d: Decimal)
    requires d > 0.0
    ensures NewValorMonetario(d).Returns? && ValorToDecimal(NewValorMonetario(d).value) == d
  {
  }

  lemma ValorFromDecimalRoundTrip(v: ValorMonetario)
    ensures NewValorMonetario(ValorToDecimal(v)) == Returns(v)
  {
  }
}
