/** The body of a create-transaction request and the class-validator
    decorators that check it, one predicate per decorator, combined per
    property and over the whole body. */
module TransactionDto {
  import opened JsValues

  /** The five properties of CreateTransactionDto, as parsed from JSON. */
  datatype CreateTransactionBody = CreateTransactionBody(title: Json, txType: Json, amount: Json, category: Json, desc: Json)

  datatype Field = Title | Type | Amount | Category | Desc

  // ---------------------------------------------------------------------
  // The decorators

  /** @IsNotEmpty: not '', not null, not undefined. */
  predicate IsNotEmpty(v: Json) {
    v != Str("") && v != Null && v != Undefined
  }

  /** @IsString */
  predicate IsString(v: Json) {
    v.Str?
  }

  /** The length validator.js measures: code points, not counting the
      variation selectors U+FE0E and U+FE0F. */
  function Length(s: string): (n: nat)
    ensures n <= |s|
  {
    if s == "" then 0
    else (if s[0] == '\U{FE0E}' || s[0] == '\U{FE0F}' then 0 else 1) + Length(s[1..])
  }

  /** @MaxLength(max) */
  predicate MaxLength(v: Json, max: nat) {
    v.Str? && Length(v.s) <= max
  }

  /** @IsEnum(TransactionType): one of the enum's values. */
  predicate IsEnumTransactionType(v: Json) {
    v == Str("expense") || v == Str("income")
  }

  function Pow10(k: nat): nat {
    if k == 0 then 1 else 10 * Pow10(k - 1)
  }

  /** No more than `k` digits after the decimal point. */
  predicate HasAtMostDecimals(x: real, k: nat) {
    var scaled := x * Pow10(k) as real;
    scaled.Floor as real == scaled
  }

  /** @IsNumber({ maxDecimalPlaces }) */
  predicate IsNumber(v: Json, maxDecimalPlaces: nat) {
    v.Num? && HasAtMostDecimals(v.n, maxDecimalPlaces)
  }

  /** @IsPositive */
  predicate IsPositiveNumber(v: Json) {
    v.Num? && v.n > 0.0
  }

  /** @IsOptional skips the property's other decorators when it is null or
      absent. */
  predicate IsOptionalSkips(v: Json) {
    v == Null || v == Undefined
  }

  /** A whole number of cents, as a decimal value. */
  function Cents(c: int): real {
    c as real / 100.0
  }

  // ---------------------------------------------------------------------
  // The properties

  function TitleValid(v: Json): (ok: bool)
    ensures ok <==> v.Str? && v.s != "" && Length(v.s) <= 255
  {
    IsNotEmpty(v) && IsString(v) && MaxLength(v, 255)
  }

  function TypeValid(v: Json): (ok: bool)
    ensures ok <==> v == Str("expense") || v == Str("income")
  {
    IsNotEmpty(v) && IsEnumTransactionType(v)
  }

  /** A valid amount is a positive whole number of cents. */
  function AmountValid(v: Json): (ok: bool)
    ensures ok <==> v.Num? && exists c :: c >= 1 && Cents(c) == v.n
  {
    var ok := IsNotEmpty(v) && IsNumber(v, 2) && IsPositiveNumber(v);
    if v.Num? then
      if ok then
        WholeCents(v.n);
        ok
      else
        assert !exists c :: c >= 1 && Cents(c) == v.n by {
          if exists c :: c >= 1 && Cents(c) == v.n {
            var c :| c >= 1 && Cents(c) == v.n;
            CentsHaveTwoDecimals(c);
          }
        }
        ok
    else
      ok
  }

  /** A positive number with at most two decimals counts whole cents. */
  lemma WholeCents(x: real)
    requires x > 0.0 && HasAtMostDecimals(x, 2)
    ensures Cents((x * 100.0).Floor) == x && (x * 100.0).Floor >= 1
  {
    assert Pow10(2) == 100;
    assert x * Pow10(2) as real == x * 100.0;
  }

  /** A positive number of cents is positive and has at most two decimals. */
  lemma CentsHaveTwoDecimals(c: int)
    requires c >= 1
    ensures Cents(c) > 0.0 && HasAtMostDecimals(Cents(c), 2)
  {
    assert Pow10(2) == 100;
    assert Cents(c) * 100.0 == c as real;
  }

  function CategoryValid(v: Json): (ok: bool)
    ensures ok <==> v.Str? && v.s != "" && Length(v.s) <= 100
  {
    IsNotEmpty(v) && IsString(v) && MaxLength(v, 100)
  }

  function DescValid(v: Json): (ok: bool)
    ensures ok <==> v == Null || v == Undefined || (v.Str? && Length(v.s) <= 1000)
  {
    IsOptionalSkips(v) || (IsString(v) && MaxLength(v, 1000))
  }

  /** The properties that fail validation, in declaration order; the request
      is rejected with 400 exactly when this is not empty. */
  function Validate(b: CreateTransactionBody): (errors: seq<Field>)
    ensures errors == [] <==>
      TitleValid(b.title) && TypeValid(b.txType) && AmountValid(b.amount)
      && CategoryValid(b.category) && DescValid(b.desc)
    ensures Title in errors <==> !TitleValid(b.title)
    ensures Type in errors <==> !TypeValid(b.txType)
    ensures Amount in errors <==> !AmountValid(b.amount)
    ensures Category in errors <==> !CategoryValid(b.category)
    ensures Desc in errors <==> !DescValid(b.desc)
  {
    (if TitleValid(b.title) then [] else [Title])
    + (if TypeValid(b.txType) then [] else [Type])
    + (if AmountValid(b.amount) then [] else [Amount])
    + (if CategoryValid(b.category) then [] else [Category])
    + (if DescValid(b.desc) then [] else [Desc])
  }

  /** Text without variation selectors measures its plain length. */
  lemma {:induction false} LengthOfPlainText(s: string)
    requires forall i :: 0 <= i < |s| ==> s[i] != '\U{FE0E}' && s[i] != '\U{FE0F}'
    ensures Length(s) == |s|
  {
    if s != "" {
      LengthOfPlainText(s[1..]);
    }
  }

  /** A lunch expense of 12.50 in "food" passes. */
  lemma LunchIsValid()
    ensures Validate(CreateTransactionBody(Str("lunch"), Str("expense"), Num(12.5), Str("food"), Undefined)) == []
  {
    assert Length("lunch") == 5 && Length("food") == 4;
    assert Cents(1250) == 12.5;
  }

  /** An empty title, a capitalised type, a tenth of a cent and a numeric
      description each fail, and are reported in declaration order. */
  lemma EveryFieldCanFail()
    ensures Validate(CreateTransactionBody(Str(""), Str("Expense"), Num(0.001), Str("food"), Num(1.0)))
      == [Title, Type, Amount, Desc]
  {
    assert Length("food") == 4;
    assert !AmountValid(Num(0.001)) by {
      assert Pow10(2) == 100;
      assert !HasAtMostDecimals(0.001, 2);
    }
  }
}
