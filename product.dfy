/** The store product of Product.cs: five validated fields, an edit counter and two behaviour methods. */
module Products {
  import opened Results
  import opened Text
  import opened Decimals
  import opened Checks

  const MaxQuantity := 100000
  const MaxMinAge := 21
  /** The largest price, 1000000, in hundredths. */
  const MaxPriceCents := 100000000

  /** The product-side `RequireString`: `null` is refused outright, otherwise the trimmed value must have an allowed length. */
  function RequireString(value: Option<string>, min: nat, max: nat, prop: Param): (r: Result<string>)
    ensures value.None? ==> r == Err(ArgumentNull(prop))
    ensures value.Some? ==> (r.Ok? <==> min <= Utf16Length(Trim(value.value)) <= max)
    ensures value.Some? && r.Err? ==> r.error == ArgumentOutOfRange(prop)
    ensures value.Some? && AllWhiteSpace(value.value) && min > 0 ==> r.Err?
    ensures r.Ok? ==> r.value == Trim(value.value) && IsTrimmed(r.value)
  {
    match value
    case None => Err(ArgumentNull(prop))
    case Some(s) =>
      AllWhiteSpaceIffTrimEmpty(s);
      var v := Trim(s);
      if Utf16Length(v) < min || Utf16Length(v) > max then Err(ArgumentOutOfRange(prop)) else Ok(v)
  }

  /** Surrounding white space is cut off: a padded value of allowed length comes back as its trimmed core. */
  lemma RequireStringOfPadded(a: string, m: string, b: string, min: nat, max: nat, prop: Param)
    requires AllWhiteSpace(a) && AllWhiteSpace(b) && IsTrimmed(m) && min <= Utf16Length(m) <= max
    ensures RequireString(Some(a + m + b), min, max, prop) == Ok(m)
  {
    TrimOfPadded(a, m, b);
  }

  /** A single character above U+FFFF is two code units long, so it passes a minimum length of 2. */
  lemma AstralCharCountsTwice()
    ensures RequireString(Some("\U{1F600}"), 2, 60, Param.Name) == Ok("\U{1F600}")
  {
    var s := "\U{1F600}";
    assert IsTrimmed(s);
    TrimOfTrimmed(s);
  }

  /** `NormalizeName`: the first character upper-cased, the rest kept as it is. */
  function NormalizeName(v: string): (r: string)
    ensures |r| == |v|
    ensures v != [] ==> r[0] == UpperChar(v[0]) && r[1..] == v[1..]
  {
    if |v| == 0 then v else [UpperChar(v[0])] + v[1..]
  }

  /** Upper-casing the first character keeps `string.Length`. */
  lemma NormalizeKeepsUtf16Length(v: string)
    ensures Utf16Length(NormalizeName(v)) == Utf16Length(v)
  {
    var r := NormalizeName(v);
    forall i | 0 <= i < |r| ensures CodeUnits(r[i]) == CodeUnits(v[i]) {
      if i > 0 {
        assert r[i] == r[1..][i - 1];
      }
    }
    Utf16LengthPointwise(r, v);
  }

  /** A stored product name: trimmed, 2..60 UTF-16 code units, not starting with a lower-case letter. */
  predicate NameOk(n: string) {
    2 <= Utf16Length(n) <= 60 && IsTrimmed(n) && !IsLower(n[0])
  }

  /** Normalising a trimmed name of allowed length gives a name that is stored as is. */
  lemma NormalizedNameOk(v: string)
    requires 2 <= Utf16Length(v) <= 60 && IsTrimmed(v)
    ensures NameOk(NormalizeName(v))
  {
    var r := NormalizeName(v);
    assert r[|r| - 1] == v[|v| - 1];
    NormalizeKeepsUtf16Length(v);
  }

  /** A stored name is in normal form: normalising it again changes nothing. */
  lemma NameOkIsNormal(n: string)
    requires NameOk(n)
    ensures NormalizeName(n) == n
  {
    assert [UpperChar(n[0])] + n[1..] == n;
  }

  /**
   * The SKU pattern `IsSku` accepts: after trimming, at least five characters,
   * a first dash at neither end, only letters before it and only digits after it.
   */
  predicate MatchesSkuPattern(s: string) {
    SkuShape(Trim(s))
  }

  /** The pattern on a string that is already trimmed. */
  predicate SkuShape(t: string) {
    var dash := IndexOf(t, '-');
    |t| >= 5 && 0 < dash < |t| - 1
    && (forall i :: 0 <= i < dash ==> LetterAt(t, i))
    && (forall i :: dash < i < |t| ==> DigitAt(t, i))
  }

  /** Position `i` of `t` holds a letter. */
  predicate LetterAt(t: string, i: int) {
    0 <= i < |t| && IsLetter(t[i])
  }

  /** Position `i` of `t` holds a digit. */
  predicate DigitAt(t: string, i: int) {
    0 <= i < |t| && IsDigit(t[i])
  }

  /** `IsSku`: scans the letters left of the first dash, then the digits right of it. */
  method IsSku(s: string) returns (ok: bool)
    ensures ok == MatchesSkuPattern(s)
  {
    var t := Trim(s);
    if |t| < 5 {
      return false;
    }
    var dash := IndexOf(t, '-');
    if dash <= 0 || dash >= |t| - 1 {
      return false;
    }
    var left := t[..dash];
    var right := t[dash + 1..];
    var i := 0;
    while i < |left|
      invariant 0 <= i <= |left|
      invariant forall k :: 0 <= k < i ==> LetterAt(t, k)
    {
      if !IsLetter(left[i]) {
        assert !LetterAt(t, i);
        return false;
      }
      i := i + 1;
    }
    i := 0;
    while i < |right|
      invariant 0 <= i <= |right|
      invariant forall k :: dash < k < dash + 1 + i ==> DigitAt(t, k)
    {
      if !IsDigit(right[i]) {
        assert !DigitAt(t, dash + 1 + i);
        return false;
      }
      i := i + 1;
    }
    return true;
  }

  /** A run of letters, a dash and a run of digits, at least five long, has the SKU shape. */
  lemma JoinedSkuShape(letters: string, digits: string)
    requires letters != [] && digits != [] && |letters| + 1 + |digits| >= 5
    requires forall i :: 0 <= i < |letters| ==> IsLetter(letters[i])
    requires forall i :: 0 <= i < |digits| ==> IsDigit(digits[i])
    ensures SkuShape(letters + "-" + digits)
  {
    var t := letters + "-" + digits;
    forall j | 0 <= j < |letters| ensures t[j] != '-' && LetterAt(t, j) {
      assert t[j] == letters[j];
    }
    IndexOfAt(t, '-', |letters|);
    forall i | |letters| < i < |t| ensures DigitAt(t, i) {
      assert t[i] == digits[i - |letters| - 1];
    }
  }

  /** Every string of letters, a dash and digits, at least five long, is a SKU (with any surrounding white space). */
  lemma SkuFromParts(a: string, letters: string, digits: string, b: string)
    requires AllWhiteSpace(a) && AllWhiteSpace(b)
    requires letters != [] && digits != [] && |letters| + 1 + |digits| >= 5
    requires forall i :: 0 <= i < |letters| ==> IsLetter(letters[i])
    requires forall i :: 0 <= i < |digits| ==> IsDigit(digits[i])
    ensures MatchesSkuPattern(a + (letters + "-" + digits) + b)
  {
    var t := letters + "-" + digits;
    JoinedSkuShape(letters, digits);
    assert t[0] == letters[0] && t[|t| - 1] == digits[|digits| - 1];
    TrimOfPadded(a, t, b);
  }

  /**
   * A value holding a character above U+FFFF never passes `IsSku`: in .NET it
   * is a surrogate pair, neither a letter, a digit nor the dash.
   */
  lemma AstralNeverSku(s: string, k: int)
    requires 0 <= k < |Trim(s)| && Trim(s)[k] as int >= 0x1_0000
    ensures !MatchesSkuPattern(s)
  {
    var t := Trim(s);
    var dash := IndexOf(t, '-');
    if k < dash {
      assert !LetterAt(t, k);
    } else if k > dash {
      assert !DigitAt(t, k);
    }
  }

  /** Upper-casing a trimmed SKU keeps it a SKU: it still has the same dash, letters and digits. */
  lemma UpperKeepsSku(t: string)
    requires SkuShape(t)
    ensures SkuShape(Upper(t))
  {
    var u := Upper(t);
    var dash := IndexOf(t, '-');
    IndexOfIsFirst(t, '-');
    IndexOfAt(u, '-', dash);
    forall i | 0 <= i < dash ensures LetterAt(u, i) {
      assert LetterAt(t, i);
    }
    forall i | dash < i < |u| ensures DigitAt(u, i) {
      assert DigitAt(t, i);
    }
  }

  /** A stored SKU: trimmed, 3..20 UTF-16 code units, matching the pattern, and upper case. */
  predicate SkuOk(s: string) {
    3 <= Utf16Length(s) <= 20 && IsTrimmed(s) && SkuShape(s) && NoLower(s)
  }

  /** A trimmed value of allowed length that passes `IsSku` is stored, upper-cased, as a valid SKU. */
  lemma StoredSkuOk(v: string)
    requires IsTrimmed(v) && 3 <= Utf16Length(v) <= 20 && MatchesSkuPattern(v)
    ensures SkuOk(Upper(v))
  {
    TrimOfTrimmed(v);
    UpperKeepsSku(v);
    UpperKeepsTrimmed(v);
    UpperHasNoLower(v);
    UpperKeepsUtf16Length(v);
  }

  /** The price after a discount of `percent` percent, in hundredths, rounded half away from zero. */
  function Discounted(cents: int, percent: int): (r: int)
    ensures 0 <= cents && 0 <= percent <= 100 ==> 0 <= r <= cents
    ensures percent == 0 ==> r == cents
  {
    DiscountBounds(cents, percent);
    ToCents(Decimal(cents * (100 - percent), 4))
  }

  lemma DiscountBounds(cents: int, percent: int)
    ensures var r := ToCents(Decimal(cents * (100 - percent), 4));
            (0 <= cents && 0 <= percent <= 100 ==> 0 <= r <= cents)
            && (percent == 0 ==> r == cents)
  {
    var k := 100 - percent;
    var m := cents * k;
    var r := ToCents(Decimal(m, 4));
    assert Pow10(4) == 10000;
    assert RoundsHalfAway(100 * m, 10000, r);
    if 0 <= cents && 0 <= percent <= 100 {
      MulMonotone(cents, 0, k);
      MulMonotone(cents, k, 100);
      assert 0 <= 100 * m <= cents * 10000;
      RoundingWithin(100 * m, 10000, r, 0, cents);
    }
    if percent == 0 {
      assert m == cents * 100;
      RoundingWithin(100 * m, 10000, r, cents, cents);
    }
  }

  /**
   * The discounted price is `cents * (100 - percent) / 100` rounded half away
   * from zero, and no other whole number of hundredths is.
   */
  lemma DiscountedRounds(cents: int, percent: int, z: int)
    ensures RoundsHalfAway(cents * (100 - percent), 100, Discounted(cents, percent))
    ensures RoundsHalfAway(cents * (100 - percent), 100, z) ==> z == Discounted(cents, percent)
  {
    var m := cents * (100 - percent);
    assert Pow10(4) == 10000;
    RoundsUnscaled(m, 100, Discounted(cents, percent));
    if RoundsHalfAway(m, 100, z) {
      RoundingIsUnique(m, 100, z);
      RoundingIsUnique(m, 100, Discounted(cents, percent));
    }
  }

  lemma TotalBound(price: int, quantity: int)
    ensures 0 <= price <= MaxPriceCents && 0 <= quantity <= MaxQuantity ==>
              0 <= price * quantity <= MaxPriceCents * MaxQuantity
  {
    if 0 <= price <= MaxPriceCents && 0 <= quantity <= MaxQuantity {
      MulMonotone(price, quantity, MaxQuantity);
      MulMonotone(MaxQuantity, price, MaxPriceCents);
    }
  }

  class Product {
    /** `Id`: fixed at construction. */
    const id: nat
    var name: string
    var sku: string
    var quantity: int
    /** The price in hundredths; the setter always stores a value rounded to two places. */
    var price: int
    var minAge: int
    /** `Category`: an unvalidated auto-property. */
    var category: string
    var timesEdited: Int32

    ghost predicate Valid()
      reads this
    {
      && NameOk(name)
      && SkuOk(sku)
      && 0 <= quantity <= MaxQuantity
      && 0 <= price <= MaxPriceCents
      && 0 <= minAge <= MaxMinAge
    }

    constructor (id: nat)
      ensures this.id == id
      ensures name == "Без назви" && sku == "SKU-0000"
      ensures quantity == 1 && price == 0 && minAge == 0
      ensures category == "Загальна" && timesEdited == 0
      ensures Valid()
    {
      this.id := id;
      name := "Без назви";
      sku := "SKU-0000";
      quantity := 1;
      price := 0;
      minAge := 0;
      category := "Загальна";
      timesEdited := 0;
      new;
      DefaultNameOk();
      DefaultSkuOk();
    }

    /** `Total`: price times quantity in hundredths, computed from the current fields. */
    function Total(): (r: int)
      reads this
      ensures Valid() ==> 0 <= r <= MaxPriceCents * MaxQuantity
    {
      TotalBound(price, quantity);
      price * quantity
    }

    /** `TouchEdited`: one more edit. */
    method TouchEdited()
      modifies this`timesEdited
      ensures timesEdited == Increment(old(timesEdited))
    {
      timesEdited := Increment(timesEdited);
    }

    /** The `Name` setter. */
    method SetName(value: Option<string>) returns (r: Outcome)
      requires Valid()
      modifies this`name, this`timesEdited
      ensures Valid()
      ensures r.Committed? <==> value.Some? && 2 <= Utf16Length(Trim(value.value)) <= 60
      ensures r.Committed? ==>
                && name == NormalizeName(Trim(value.value))
                && timesEdited == Increment(old(timesEdited))
                && r.changed == (old(name) != name)
      ensures r.Rejected? ==>
                && name == old(name) && timesEdited == old(timesEdited)
                && r.error == if value.None? then ArgumentNull(Param.Name) else ArgumentOutOfRange(Param.Name)
    {
      var checked := RequireString(value, 2, 60, Param.Name);
      if checked.Err? {
        return Rejected(checked.error);
      }
      var v := NormalizeName(checked.value);
      var changed := name != v;
      StoreName(checked.value);
      r := Committed(changed);
    }

    /** The committing half of the `Name` setter: store the normalised value and count the edit. */
    method StoreName(v: string)
      requires Valid() && IsTrimmed(v) && 2 <= Utf16Length(v) <= 60
      modifies this`name, this`timesEdited
      ensures Valid()
      ensures name == NormalizeName(v) && timesEdited == Increment(old(timesEdited))
    {
      NormalizedNameOk(v);
      name := NormalizeName(v);
      TouchEdited();
    }

    /** The `Sku` setter. The notification compares the stored SKU with the trimmed value before it is upper-cased. */
    method SetSku(value: Option<string>) returns (r: Outcome)
      requires Valid()
      modifies this`sku, this`timesEdited
      ensures Valid()
      ensures r.Committed? <==>
                value.Some? && 3 <= Utf16Length(Trim(value.value)) <= 20 && MatchesSkuPattern(Trim(value.value))
      ensures r.Committed? ==>
                && sku == Upper(Trim(value.value))
                && timesEdited == Increment(old(timesEdited))
                && r.changed == (old(sku) != Trim(value.value))
      ensures r.Rejected? ==>
                && sku == old(sku) && timesEdited == old(timesEdited)
                && r.error == if value.None? then ArgumentNull(Param.Sku)
                              else if !(3 <= Utf16Length(Trim(value.value)) <= 20) then ArgumentOutOfRange(Param.Sku)
                              else Argument(Param.Sku)
    {
      var checked := RequireString(value, 3, 20, Param.Sku);
      if checked.Err? {
        return Rejected(checked.error);
      }
      var v := checked.value;
      var ok := IsSku(v);
      if !ok {
        return Rejected(Argument(Param.Sku));
      }
      var changed := sku != v;
      StoreSku(v);
      r := Committed(changed);
    }

    /** The committing half of the `Sku` setter: store the value upper-cased and count the edit. */
    method StoreSku(v: string)
      requires Valid() && IsTrimmed(v) && 3 <= Utf16Length(v) <= 20 && MatchesSkuPattern(v)
      modifies this`sku, this`timesEdited
      ensures Valid()
      ensures sku == Upper(v) && timesEdited == Increment(old(timesEdited))
    {
      StoredSkuOk(v);
      sku := Upper(v);
      TouchEdited();
    }

    /** The `Quantity` setter. */
    method SetQuantity(value: Int32) returns (r: Outcome)
      requires Valid()
      modifies this`quantity, this`timesEdited
      ensures Valid()
      ensures r.Committed? <==> 0 <= value <= MaxQuantity
      ensures r.Committed? ==>
                && quantity == value
                && timesEdited == Increment(old(timesEdited))
                && r.changed == (old(quantity) != value)
      ensures r.Rejected? ==>
                && quantity == old(quantity) && timesEdited == old(timesEdited)
                && r.error == ArgumentOutOfRange(Param.Quantity)
    {
      var checked := RequireRange(value, 0, MaxQuantity, Param.Quantity);
      if checked.Err? {
        return Rejected(checked.error);
      }
      var v := checked.value;
      var changed := quantity != v;
      quantity := v;
      TouchEdited();
      r := Committed(changed);
    }

    /**
     * The `Price` setter: the exact value is range-checked first and then rounded
     * to hundredths. The notification compares the two values formatted with two
     * decimals, which rounds the same way.
     */
    method SetPrice(value: Decimal) returns (r: Outcome)
      requires Valid()
      modifies this`price, this`timesEdited
      ensures Valid()
      ensures r.Committed? <==> InRange(value, 0, 1000000)
      ensures r.Committed? ==>
                && price == ToCents(value)
                && timesEdited == Increment(old(timesEdited))
                && r.changed == (old(price) != price)
      ensures r.Rejected? ==>
                && price == old(price) && timesEdited == old(timesEdited)
                && r.error == ArgumentOutOfRange(Param.Price)
    {
      var checked := RequireDecimalRange(value, 0, 1000000, Param.Price);
      if checked.Err? {
        return Rejected(checked.error);
      }
      var v := checked.value;
      CentsWithin(v, 0, 1000000);
      var changed := price != ToCents(v);
      price := ToCents(v);
      TouchEdited();
      r := Committed(changed);
    }

    /** The `MinAge` setter. */
    method SetMinAge(value: Int32) returns (r: Outcome)
      requires Valid()
      modifies this`minAge, this`timesEdited
      ensures Valid()
      ensures r.Committed? <==> 0 <= value <= MaxMinAge
      ensures r.Committed? ==>
                && minAge == value
                && timesEdited == Increment(old(timesEdited))
                && r.changed == (old(minAge) != value)
      ensures r.Rejected? ==>
                && minAge == old(minAge) && timesEdited == old(timesEdited)
                && r.error == ArgumentOutOfRange(Param.MinAge)
    {
      var checked := RequireRange(value, 0, MaxMinAge, Param.MinAge);
      if checked.Err? {
        return Rejected(checked.error);
      }
      var v := checked.value;
      var changed := minAge != v;
      minAge := v;
      TouchEdited();
      r := Committed(changed);
    }

    /** The `Category` auto-property: stored unvalidated, not counted as an edit. */
    method SetCategory(value: string)
      requires Valid()
      modifies this`category
      ensures Valid()
      ensures category == value
    {
      category := value;
    }

    /**
     * `ApplyDiscountPercent`: a percent in 0..90 lowers the price, rounded to
     * hundredths, through the `Price` setter, which therefore always commits.
     */
    method ApplyDiscountPercent(percent: Int32) returns (r: Outcome)
      requires Valid()
      modifies this`price, this`timesEdited
      ensures Valid()
      ensures r.Committed? <==> 0 <= percent <= 90
      ensures r.Committed? ==>
                && price == Discounted(old(price), percent)
                && price <= old(price)
                && (percent == 0 ==> price == old(price))
                && timesEdited == Increment(old(timesEdited))
                && r.changed == (old(price) != price)
      ensures r.Rejected? ==>
                && price == old(price) && timesEdited == old(timesEdited)
                && r.error == ArgumentOutOfRange(Percent)
    {
      if percent < 0 || percent > 90 {
        return Rejected(ArgumentOutOfRange(Percent));
      }
      var rounded := Decimal(ToCents(Decimal(price * (100 - percent), 4)), 2);
      var d := Discounted(price, percent);
      assert Pow10(2) == 100;
      CentsOfCents(d);
      r := SetPrice(rounded);
    }

    /**
     * `Restock`: a positive amount is added through the `Quantity` setter; the
     * `checked` sum throws on 32-bit overflow first.
     */
    method Restock(add: Int32) returns (r: Outcome)
      requires Valid()
      modifies this`quantity, this`timesEdited
      ensures Valid()
      ensures r.Committed? <==> 0 < add && old(quantity) + add <= MaxQuantity
      ensures r.Committed? ==>
                && quantity == old(quantity) + add
                && Total() == old(Total()) + price * add
                && timesEdited == Increment(old(timesEdited))
                && r.changed
      ensures r.Rejected? ==>
                && quantity == old(quantity) && timesEdited == old(timesEdited)
                && r.error == if add <= 0 then ArgumentOutOfRange(Add)
                              else if old(quantity) + add > Int32Max then Overflow
                              else ArgumentOutOfRange(Param.Quantity)
    {
      if add <= 0 {
        return Rejected(ArgumentOutOfRange(Add));
      }
      var sum := quantity + add;
      if sum > Int32Max {
        return Rejected(Overflow);
      }
      ghost var oldQuantity := quantity;
      r := SetQuantity(sum);
      assert price * (oldQuantity + add) == price * oldQuantity + price * add;
    }
  }

  /** The initial name satisfies the name constraint. */
  lemma DefaultNameOk()
    ensures NameOk("Без назви")
  {
    var name := "Без назви";
    assert !IsWhiteSpace(name[0]) && !IsWhiteSpace(name[|name| - 1]) && !IsLower(name[0]);
    Utf16LengthOfBmp(name);
  }

  /** The initial SKU has the SKU shape: three letters, the dash at index 3, four digits. */
  lemma DefaultSkuShape()
    ensures SkuShape("SKU-0000")
  {
    var sku := "SKU-0000";
    IndexOfAt(sku, '-', 3);
    forall i | 0 <= i < 3 ensures LetterAt(sku, i) { }
    forall i | 3 < i < 8 ensures DigitAt(sku, i) { }
  }

  /** The initial SKU satisfies the SKU constraint. */
  lemma DefaultSkuOk()
    ensures SkuOk("SKU-0000")
  {
    DefaultSkuShape();
  }
}
