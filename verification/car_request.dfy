/** The input of car creation and update, and the bean-validation rules the
    web layer applies to it before either service operation runs.
 */
module CarRequest {
  import opened Wrappers
  import opened Cars

  datatype CreateCarRequest = CreateCarRequest(
    model: string,
    brand: string,
    carFrame: CarFrame,
    inventory: JavaInt,
    /** Absent when the client sends no fee: nothing requires one. */
    dailyFee: Option<real>)

  /** A character `String.trim` removes: a control character or a space. */
  predicate Trimmable(c: char) {
    c <= ' '
  }

  /** `s` with its leading trimmable characters removed. */
  function TrimStart(s: string): (r: string)
    ensures |r| <= |s| && r == s[|s| - |r|..]
    ensures forall i :: 0 <= i < |s| - |r| ==> Trimmable(s[i])
    ensures |r| > 0 ==> !Trimmable(r[0])
  {
    if |s| > 0 && Trimmable(s[0]) then TrimStart(s[1..]) else s
  }

  /** `s` with its trailing trimmable characters removed. */
  function TrimEnd(s: string): (r: string)
    ensures |r| <= |s| && r == s[..|r|]
    ensures forall i :: |r| <= i < |s| ==> Trimmable(s[i])
    ensures |r| > 0 ==> !Trimmable(r[|r| - 1])
  {
    if |s| > 0 && Trimmable(s[|s| - 1]) then TrimEnd(s[..|s| - 1]) else s
  }

  /** `String.trim`: the longest slice of `s` that neither starts nor ends
      with a trimmable character. */
  function Trim(s: string): (r: string)
    ensures |r| <= |s|
    ensures |r| > 0 ==> !Trimmable(r[0]) && !Trimmable(r[|r| - 1])
    ensures exists i, j ::
              && 0 <= i <= j <= |s| && r == s[i..j]
              && (forall k :: 0 <= k < i ==> Trimmable(s[k]))
              && (forall k :: j <= k < |s| ==> Trimmable(s[k]))
  {
    TrimIsSlice(s);
    TrimStart(TrimEnd(s))
  }

  /** Trimming the end and then the start cuts a slice out of `s`, and
      only trimmable characters lie outside it. */
  lemma TrimIsSlice(s: string)
    ensures exists i, j ::
              && 0 <= i <= j <= |s| && TrimStart(TrimEnd(s)) == s[i..j]
              && (forall k :: 0 <= k < i ==> Trimmable(s[k]))
              && (forall k :: j <= k < |s| ==> Trimmable(s[k]))
  {
    var e := TrimEnd(s);
    var r := TrimStart(e);
    var i, j := |e| - |r|, |e|;
    assert e == s[..j];
    assert r == s[i..j];
    forall k | 0 <= k < i
      ensures Trimmable(s[k])
    {
      assert s[k] == e[k];
    }
  }

  /** `@NotBlank` on a string: something is left after trimming. */
  predicate NotBlank(s: string) {
    |Trim(s)| > 0
  }

  /** A string is blank exactly when every character of it is trimmable. */
  lemma {:induction false} NotBlankIffVisibleChar(s: string)
    ensures NotBlank(s) <==> exists i :: 0 <= i < |s| && !Trimmable(s[i])
  {
    var e := TrimEnd(s);
    var r := TrimStart(e);
    if |r| > 0 {
      assert !Trimmable(s[|e| - |r|]);
    } else if |e| > 0 {
      assert false;
    }
  }

  /** `@DecimalMin("0")` on the fee: an absent fee passes. */
  predicate FeeAtLeastZero(fee: Option<real>) {
    fee.Some? ==> fee.value >= 0.0
  }

  /** The validation constraints of the request: a non-blank model of 5 to
      30 characters, a non-blank brand, a positive inventory and a daily
      fee of at least zero when one is given: `@DecimalMin` accepts an
      absent value, and nothing else requires the fee. The car frame is
      never null here. */
  predicate Valid(req: CreateCarRequest) {
    && NotBlank(req.model)
    && 5 <= |req.model| <= 30
    && NotBlank(req.brand)
    && req.inventory > 0
    && FeeAtLeastZero(req.dailyFee)
  }

  /** The request the car controller test sends, a Toyota Corolla sedan
      with fifty units at 30 a day, passes validation. */
  lemma ValidExample()
    ensures Valid(CreateCarRequest("Corolla", "Toyota", SEDAN, 50, Some(30.0)))
  {
    NotBlankIffVisibleChar("Corolla");
    assert !Trimmable("Corolla"[0]);
    NotBlankIffVisibleChar("Toyota");
    assert !Trimmable("Toyota"[0]);
  }

  /** A four-letter model is too short. */
  lemma ShortModelInvalid()
    ensures !Valid(CreateCarRequest("Polo", "Toyota", SEDAN, 50, Some(30.0)))
  {
  }

  /** The same request without a fee passes validation as well. */
  lemma MissingFeeIsValid()
    ensures Valid(CreateCarRequest("Corolla", "Toyota", SEDAN, 50, None))
  {
    ValidExample();
  }

  /** A brand of spaces only is blank. */
  lemma BlankBrandInvalid()
    ensures !Valid(CreateCarRequest("Corolla", "  ", SEDAN, 50, Some(30.0)))
  {
    NotBlankIffVisibleChar("  ");
    assert forall i :: 0 <= i < 2 ==> Trimmable("  "[i]);
  }
}
